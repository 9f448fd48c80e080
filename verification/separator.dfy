/**
  The statement separator: one left-to-right pass over the input that cuts it
  into statements at the built-in terminator `;` and at caller-supplied
  custom terminators, while skipping comments and keeping string literals and
  quoted identifiers whole. No SQL is parsed.
 */
module Separator {
  import opened Text
  import opened Comments
  import opened Literals

  /** One statement: its text with surrounding white space trimmed, and the terminator that ended it ("" for a trailing one). */
  datatype InputStatement = InputStatement(statement: seq<char>, terminator: seq<char>)

  /** The scanner state: the remaining input, the buffer of the statement being built, and the custom terminators. */
  datatype Separator = Separator(str: seq<char>, sb: seq<char>, terms: seq<seq<char>>)

  /** The scanner at the start: the whole input still to read, an empty buffer, and the terminators in configuration order. */
  function NewSeparator(s: seq<char>, terms: seq<seq<char>>): (r: Separator)
    ensures r.str == s && r.sb == [] && r.terms == terms
  {
    Separator(s, [], terms)
  }

  /** An empty custom terminator matches everywhere without consuming input, so the scan would never end. */
  predicate NonEmptyTerms(terms: seq<seq<char>>) {
    forall k :: 0 <= k < |terms| ==> |terms[k]| > 0
  }

  /** The first custom terminator, at index `k` or later, that `s` begins with. */
  function MatchFrom(s: seq<char>, terms: seq<seq<char>>, k: nat): (r: Option<nat>)
    requires k <= |terms|
    ensures r.Some? ==> k <= r.value < |terms| && HasPrefix(s, terms[r.value])
    ensures r.Some? ==> forall j :: k <= j < r.value ==> !HasPrefix(s, terms[j])
    ensures r.None? ==> forall j :: k <= j < |terms| ==> !HasPrefix(s, terms[j])
    decreases |terms| - k
  {
    if k == |terms| then None
    else if HasPrefix(s, terms[k]) then Some(k)
    else MatchFrom(s, terms, k + 1)
  }

  /** The custom terminators are tried in configuration order; the first one `s` begins with wins. */
  function FirstMatch(s: seq<char>, terms: seq<seq<char>>): (r: Option<nat>)
    ensures r.Some? ==> r.value < |terms| && HasPrefix(s, terms[r.value])
    ensures r.Some? ==> forall j :: 0 <= j < r.value ==> !HasPrefix(s, terms[j])
    ensures r.None? ==> forall j :: 0 <= j < |terms| ==> !HasPrefix(s, terms[j])
  {
    MatchFrom(s, terms, 0)
  }

  /** Runes the main loop routes to literal, identifier or `;` handling before custom terminators are tried. */
  predicate RoutedElsewhere(c: char) {
    IsQuote(c) || IsPrefixLetter(c) || c == '`' || c == ';'
  }

  /** What one iteration of the main loop does with the input left after comments. */
  datatype Action =
    | Append(text: seq<char>, rest: seq<char>)      // `text` is added to the buffer
    | Emit(terminator: seq<char>, rest: seq<char>)  // the buffer becomes a statement ended by `terminator`

  /**
    One iteration of the main loop, on input `u` that does not start with a
    comment: a literal or quoted identifier is copied whole, `;` and the first
    matching custom terminator end the statement, and any other rune is copied.
   */
  function Step(u: seq<char>, terms: seq<seq<char>>): (r: Action)
    requires |u| > 0
    ensures IsSuffix(r.rest, u)
    ensures |r.rest| < |u| || (r.Emit? && r.terminator == [])
    ensures r.Emit? <==> u[0] == ';' || (!RoutedElsewhere(u[0]) && FirstMatch(u, terms).Some?)
    ensures r.Emit? && u[0] == ';' ==> r.terminator == ";" && r.rest == u[1..]
    ensures r.Emit? && u[0] != ';' ==>
              var k := FirstMatch(u, terms).value;
              r.terminator == terms[k] && r.rest == u[|terms[k]|..]
    ensures r.Append? ==> r.text + r.rest == u || r.text == u
    ensures r.Append? && !LiteralStart(u) && u[0] != '`' ==> r.text == [u[0]] && r.rest == u[1..]
  {
    if IsQuote(u[0]) || IsPrefixLetter(u[0]) then
      var c := ConsumeQuoteStart(u);
      Append(c.written, c.rest)
    else if u[0] == '`' then
      var c := ConsumeQuotedIdentifier(u);
      Append(c.written, c.rest)
    else if u[0] == ';' then
      Emit(";", u[1..])
    else
      match FirstMatch(u, terms)
      case Some(k) =>
        assert u == terms[k] + u[|terms[k]|..] by { HasPrefixSplits(u, terms[k]); }
        Emit(terms[k], u[|terms[k]|..])
      case None => Append([u[0]], u[1..])
  }

  /** A custom terminator the main loop can ever match: it is not routed elsewhere and does not open a comment. */
  predicate Reachable(term: seq<char>) {
    |term| > 0 && !RoutedElsewhere(term[0]) && !OpensComment(term)
  }

  /** A terminator the separator can report: `;` or a reachable custom terminator. */
  predicate ReportedTerminator(term: seq<char>, terms: seq<seq<char>>) {
    term == ";" || (term in terms && Reachable(term))
  }

  /** After the loop, the buffer becomes a final statement with an empty terminator when it holds anything but white space. */
  function Flush(sb: seq<char>, acc: seq<InputStatement>): (r: seq<InputStatement>)
    ensures |r| == |acc| + 1 <==> !AllSpace(sb)
    ensures r == acc || r == acc + [InputStatement(TrimSpace(sb), [])]
  {
    if |sb| > 0 && |TrimSpace(sb)| > 0 then acc + [InputStatement(TrimSpace(sb), [])] else acc
  }

  /** Every statement after index `from` is trimmed and ended by a reportable terminator, except a non-empty trailing one. */
  predicate WellFormedFrom(r: seq<InputStatement>, from: nat, terms: seq<seq<char>>) {
    forall i :: from <= i < |r| ==>
      && IsTrimmed(r[i].statement)
      && (ReportedTerminator(r[i].terminator, terms)
          || (i == |r| - 1 && r[i].terminator == [] && r[i].statement != []))
  }

  lemma OpensCommentPrefix(term: seq<char>, u: seq<char>)
    requires HasPrefix(u, term) && OpensComment(term)
    ensures OpensComment(u)
  {
    assert u[0] == term[0];
    if |term| >= 2 {
      assert u[1] == term[1];
    }
  }

  /** Inside the loop every iteration consumes input, and every terminator it reports is reportable. */
  lemma StepInLoop(u: seq<char>, terms: seq<seq<char>>)
    requires |u| > 0 && !OpensComment(u) && NonEmptyTerms(terms)
    ensures |Step(u, terms).rest| < |u|
    ensures Step(u, terms).Emit? ==> ReportedTerminator(Step(u, terms).terminator, terms)
  {
    var r := Step(u, terms);
    if r.Emit? && u[0] != ';' {
      var k := FirstMatch(u, terms).value;
      assert r.terminator == terms[k];
      assert terms[k][0] == u[0];
      if OpensComment(terms[k]) {
        OpensCommentPrefix(terms[k], u);
      }
    }
  }

  /** What one pass of the main loop leaves behind: nothing more to do, or a new state and the statements it emitted. */
  datatype Next = Done | Go(state: Separator, emitted: seq<InputStatement>)

  /**
    One pass of the main loop: skip comments; stop when nothing is left;
    otherwise take one step, which either grows the buffer or emits the
    trimmed buffer as a statement and empties it.
   */
  function Iterate(st: Separator): (r: Next)
    requires NonEmptyTerms(st.terms)
    ensures r.Go? ==> |r.state.str| < |st.str| && r.state.terms == st.terms
    ensures r.Go? ==> IsSuffix(r.state.str, SkipComments(st.str))
  {
    if |st.str| == 0 then Done
    else
      var u := SkipComments(st.str);
      if |u| == 0 then Done
      else
        StepInLoop(u, st.terms);
        match Step(u, st.terms)
        case Append(text, rest) =>
          Go(Separator(rest, st.sb + text, st.terms), [])
        case Emit(term, rest) =>
          Go(Separator(rest, [], st.terms), [InputStatement(TrimSpace(st.sb), term)])
  }

  /** The loop stops exactly when nothing but comments is left. */
  lemma IterateDone(st: Separator)
    requires NonEmptyTerms(st.terms)
    ensures Iterate(st).Done? <==> SkipComments(st.str) == []
  {
  }

  /**
    A pass either only grows the buffer, or emits exactly one statement (the
    trimmed buffer, with a reportable terminator) and empties the buffer.
   */
  lemma IterateEmits(st: Separator)
    requires NonEmptyTerms(st.terms)
    ensures var r := Iterate(st);
            r.Go? ==>
              || (r.emitted == [] && HasPrefix(r.state.sb, st.sb))
              || (&& r.emitted == [InputStatement(TrimSpace(st.sb), r.emitted[0].terminator)]
                  && ReportedTerminator(r.emitted[0].terminator, st.terms)
                  && r.state.sb == [])
  {
    if |st.str| > 0 && |SkipComments(st.str)| > 0 {
      var u := SkipComments(st.str);
      StepInLoop(u, st.terms);
      if Step(u, st.terms).Append? {
        assert (st.sb + Step(u, st.terms).text)[..|st.sb|] == st.sb;
      }
    }
  }

  lemma FlushWellFormed(sb: seq<char>, acc: seq<InputStatement>, terms: seq<seq<char>>)
    ensures var r := Flush(sb, acc); |acc| <= |r| && r[..|acc|] == acc && WellFormedFrom(r, |acc|, terms)
  {
  }

  lemma EmittedWellFormed(r: seq<InputStatement>, acc: seq<InputStatement>, e: seq<InputStatement>, terms: seq<seq<char>>)
    requires |acc + e| <= |r| && r[..|acc + e|] == acc + e && WellFormedFrom(r, |acc + e|, terms)
    requires forall i :: 0 <= i < |e| ==> IsTrimmed(e[i].statement) && ReportedTerminator(e[i].terminator, terms)
    ensures |acc| <= |r| && r[..|acc|] == acc && WellFormedFrom(r, |acc|, terms)
  {
    assert r[..|acc|] == (acc + e)[..|acc|];
    forall i | |acc| <= i < |acc + e|
      ensures r[i] == e[i - |acc|]
    {
      assert r[i] == (acc + e)[i];
    }
  }

  /**
    The main loop: drains the remaining input, appending the statements it
    ends to `acc`. The statements already in `acc` are kept as they are, and
    every statement added after them is trimmed and ended by a reportable
    terminator, except a non-empty trailing one.
   */
  function Separate(st: Separator, acc: seq<InputStatement>): (r: seq<InputStatement>)
    requires NonEmptyTerms(st.terms)
    ensures |acc| <= |r| && r[..|acc|] == acc
    ensures WellFormedFrom(r, |acc|, st.terms)
    decreases |st.str|
  {
    match Iterate(st)
    case Done =>
      FlushWellFormed(st.sb, acc, st.terms);
      Flush(st.sb, acc)
    case Go(next, e) =>
      IterateEmits(st);
      var r := Separate(next, acc + e);
      EmittedWellFormed(r, acc, e, st.terms);
      r
  }

  lemma SeparateDone(st: Separator, acc: seq<InputStatement>)
    requires NonEmptyTerms(st.terms) && Iterate(st).Done?
    ensures Separate(st, acc) == Flush(st.sb, acc)
  {
  }

  lemma SeparateGo(st: Separator, acc: seq<InputStatement>)
    requires NonEmptyTerms(st.terms) && Iterate(st).Go?
    ensures Separate(st, acc) == Separate(Iterate(st).state, acc + Iterate(st).emitted)
  {
  }

  /** A pass that only grows the buffer leaves the statements emitted so far alone. */
  lemma SeparateCopies(st: Separator, next: Separator, acc: seq<InputStatement>)
    requires NonEmptyTerms(st.terms) && Iterate(st) == Go(next, [])
    ensures Separate(st, acc) == Separate(next, acc)
  {
    assert acc + [] == acc;
  }

  /** A pass that emits a statement appends it to the statements emitted so far. */
  lemma SeparateEmits(st: Separator, next: Separator, x: InputStatement, acc: seq<InputStatement>)
    requires NonEmptyTerms(st.terms) && Iterate(st) == Go(next, [x])
    ensures Separate(st, acc) == Separate(next, acc + [x])
  {
  }

  /** The statements emitted so far only ever get more statements appended after them. */
  lemma {:induction false} SeparateAccumulator(st: Separator, acc: seq<InputStatement>)
    requires NonEmptyTerms(st.terms)
    ensures Separate(st, acc) == acc + Separate(st, [])
    decreases |st.str|
  {
    if Iterate(st).Done? {
      SeparateDone(st, acc);
      SeparateDone(st, []);
    } else {
      var next := Iterate(st).state;
      var e := Iterate(st).emitted;
      SeparateAccumulator(next, acc + e);
      SeparateAccumulator(next, e);
      AccumulatorGo(st, acc);
    }
  }

  lemma AccumulatorGo(st: Separator, acc: seq<InputStatement>)
    requires NonEmptyTerms(st.terms) && Iterate(st).Go?
    requires var n := Iterate(st).state; var e := Iterate(st).emitted;
             && Separate(n, acc + e) == acc + e + Separate(n, [])
             && Separate(n, e) == e + Separate(n, [])
    ensures Separate(st, acc) == acc + Separate(st, [])
  {
    var e := Iterate(st).emitted;
    assert [] + e == e;
    SeparateGo(st, acc);
    SeparateGo(st, []);
    ConcatAssoc(acc, e, Separate(Iterate(st).state, []));
  }

  /**
    Cuts `input` into statements. Statements come in input order, each trimmed
    and ended by `;` or a custom terminator; only the last may have an empty
    terminator, and then its text is not empty.
   */
  function SeparateInput(input: seq<char>, terms: seq<seq<char>>): (r: seq<InputStatement>)
    requires NonEmptyTerms(terms)
    ensures WellFormedFrom(r, 0, terms)
    ensures SkipComments(input) == [] ==> r == []
  {
    IterateDone(NewSeparator(input, terms));
    Separate(NewSeparator(input, terms), [])
  }

  function Statements(xs: seq<InputStatement>): (r: seq<seq<char>>)
    ensures |r| == |xs|
    ensures forall i :: 0 <= i < |xs| ==> r[i] == xs[i].statement
  {
    if |xs| == 0 then [] else [xs[0].statement] + Statements(xs[1..])
  }

  /** The statement texts of `SeparateInput`, in order. */
  function SeparateInputString(input: seq<char>, terms: seq<seq<char>>): (r: seq<seq<char>>)
    requires NonEmptyTerms(terms)
    ensures |r| == |SeparateInput(input, terms)|
    ensures forall i :: 0 <= i < |r| ==> r[i] == SeparateInput(input, terms)[i].statement
  {
    Statements(SeparateInput(input, terms))
  }
}
