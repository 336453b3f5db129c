/**
 The streaming marker parser of `agent/citation_stream.py`.

 A model writes `[[cite:ref]]` into its text.  The parser is fed the text one
 delta at a time and splits it into visible text and grounded references,
 holding back a suffix that may still grow into a marker.
 */
module CitationParser {
  import opened Prelude

  const CITATION_PREFIX := "[[cite:"
  const MAX_MARKER_LENGTH: nat := 256

  /** What a marker is checked against: the issued references, and the
      characters for which `str.isalnum` holds. */
  datatype Evidence = Evidence(ids: set<string>, alnum: set<char>)

  /** One emitted pair `(visible text, reference or None)`. */
  datatype Fragment = Fragment(text: string, reference: Option<string>)

  /** What a reader receives: one visible character, or one citation. */
  datatype Symbol = Visible(c: char) | Cited(reference: string)

  predicate DoubleAt(s: string, i: int, c: char) {
    0 <= i < |s| - 1 && s[i] == c && s[i + 1] == c
  }

  /** `s.find(cc, from)` for the two-character needle `cc`. */
  function FindDouble(s: string, c: char, from: nat): (r: Option<nat>)
    ensures r.Some? ==> from <= r.value && DoubleAt(s, r.value, c)
    ensures r.Some? ==> forall i {:trigger DoubleAt(s, i, c)} :: from <= i < r.value ==> !DoubleAt(s, i, c)
    ensures r.None? ==> forall i {:trigger DoubleAt(s, i, c)} :: from <= i ==> !DoubleAt(s, i, c)
    decreases |s| - from
  {
    if from + 1 >= |s| then None
    else if DoubleAt(s, from, c) then Some(from)
    else FindDouble(s, c, from + 1)
  }

  predicate StartsWith(s: string, p: string) {
    |p| <= |s| && s[..|p|] == p
  }

  /** An unclosed candidate may still become a citation marker. */
  predicate Holdable(candidate: string) {
    (StartsWith(CITATION_PREFIX, candidate) || StartsWith(candidate, CITATION_PREFIX))
    && |candidate| <= MAX_MARKER_LENGTH
  }

  /** Retrieval issued the reference and its spelling is safe. */
  predicate Grounded(id: string, ev: Evidence) {
    id in ev.ids && forall c <- id :: c in ev.alnum || c in "_.:-"
  }

  function TextFragments(s: string): seq<Fragment> {
    if s == "" then [] else [Fragment(s, None)]
  }

  /** What one closed `[[...]]` contributes. */
  function MarkerFragments(marker: string, ev: Evidence): seq<Fragment> {
    if !StartsWith(marker, CITATION_PREFIX) then [Fragment(marker, None)]
    else
      var last := if |marker| < |CITATION_PREFIX| + 2 then |CITATION_PREFIX| else |marker| - 2;
      var id := marker[|CITATION_PREFIX|..last];
      if Grounded(id, ev) then [Fragment("", Some(id))] else []
  }

  /** The fragments and the held suffix of one buffer. */
  function Parse(s: string, ev: Evidence): (seq<Fragment>, string)
    decreases |s|
  {
    if s == "" then ([], "")
    else match FindDouble(s, '[', 0)
      case None =>
        if s[|s| - 1] == '[' then ([Fragment(s[..|s| - 1], None)], "[") else ([Fragment(s, None)], "")
      case Some(start) =>
        var before, candidate := s[..start], s[start..];
        match FindDouble(candidate, ']', 2)
        case None =>
          if Holdable(candidate) then (TextFragments(before), candidate) else ([Fragment(s, None)], "")
        case Some(end) =>
          var rest := Parse(candidate[end + 2..], ev);
          (TextFragments(before) + MarkerFragments(candidate[..end + 2], ev) + rest.0, rest.1)
  }

  /** What the loop has emitted, followed by the parse of what remains, is the parse of the buffer. */
  ghost predicate Continues(buffer: string, emitted: seq<Fragment>, remaining: string, ev: Evidence) {
    && Parse(buffer, ev).0 == emitted + Parse(remaining, ev).0
    && Parse(buffer, ev).1 == Parse(remaining, ev).1
  }

  lemma ContinuesClosed(buffer: string, emitted: seq<Fragment>, s: string, start: nat, end: nat, ev: Evidence)
    requires Continues(buffer, emitted, s, ev)
    requires FindDouble(s, '[', 0) == Some(start)
    requires FindDouble(s[start..], ']', 2) == Some(end)
    ensures var consumed := TextFragments(s[..start]) + MarkerFragments(s[start..][..end + 2], ev);
            Continues(buffer, emitted + consumed, s[start..][end + 2..], ev)
  {
    var consumed := TextFragments(s[..start]) + MarkerFragments(s[start..][..end + 2], ev);
    var rest := s[start..][end + 2..];
    assert Parse(s, ev).0 == consumed + Parse(rest, ev).0;
    assert emitted + (consumed + Parse(rest, ev).0) == emitted + consumed + Parse(rest, ev).0;
  }

  /** `_process_citation_buffer`: a loop consuming `remaining`. */
  method ProcessCitationBuffer(buffer: string, ev: Evidence) returns (emitted: seq<Fragment>, held: string)
    ensures emitted == Parse(buffer, ev).0 && held == Parse(buffer, ev).1
  {
    var remaining := buffer;
    emitted, held := [], "";
    while remaining != ""
      invariant Continues(buffer, emitted, remaining, ev)
      invariant held == ""
      decreases |remaining|
    {
      var start := FindDouble(remaining, '[', 0);
      if start.None? {
        var last := |remaining| - 1;
        if remaining[last] == '[' {
          return emitted + [Fragment(remaining[..last], None)], "[";
        }
        return emitted + [Fragment(remaining, None)], "";
      }
      var before, candidate := remaining[..start.value], remaining[start.value..];
      var end := FindDouble(candidate, ']', 2);
      if end.None? {
        if Holdable(candidate) {
          return emitted + TextFragments(before), candidate;
        }
        return emitted + [Fragment(remaining, None)], "";
      }
      ContinuesClosed(buffer, emitted, remaining, start.value, end.value, ev);
      emitted := emitted + (TextFragments(before) + MarkerFragments(candidate[..end.value + 2], ev));
      remaining := candidate[end.value + 2..];
    }
  }

  /** Text as the reader sees it. */
  function Text(s: string): seq<Symbol> {
    seq(|s|, i requires 0 <= i < |s| => Visible(s[i]))
  }

  /** An empty reference is falsy and produces no citation. */
  function FragmentSymbols(f: Fragment): seq<Symbol> {
    Text(f.text) + if f.reference.Some? && f.reference.value != "" then [Cited(f.reference.value)] else []
  }

  function Symbols(fs: seq<Fragment>): seq<Symbol> {
    if fs == [] then [] else FragmentSymbols(fs[0]) + Symbols(fs[1..])
  }

  /** The visible result of one buffer, without its held suffix. */
  function Shown(s: string, ev: Evidence): seq<Symbol> { Symbols(Parse(s, ev).0) }

  function Held(s: string, ev: Evidence): string { Parse(s, ev).1 }

  /** The visible result of a whole text arriving as one delta and a flush. */
  function OneShot(s: string, ev: Evidence): seq<Symbol> { Shown(s, ev) + Text(Held(s, ev)) }

  /** The visible result of a text arriving in pieces, after the final flush. */
  function Stream(held: string, pieces: seq<string>, ev: Evidence): seq<Symbol>
    decreases pieces
  {
    if pieces == [] then Text(held)
    else Shown(held + pieces[0], ev) + Stream(Held(held + pieces[0], ev), pieces[1..], ev)
  }

  // ----- equations of the parser, on visible symbols

  lemma TextAppend(a: string, b: string)
    ensures Text(a + b) == Text(a) + Text(b)
  {
  }

  lemma {:induction false} SymbolsAppend(a: seq<Fragment>, b: seq<Fragment>)
    ensures Symbols(a + b) == Symbols(a) + Symbols(b)
  {
    if a == [] {
      assert a + b == b;
    } else {
      assert (a + b)[1..] == a[1..] + b;
      SymbolsAppend(a[1..], b);
    }
  }

  lemma SymbolsOfText(s: string)
    ensures Symbols(TextFragments(s)) == Text(s)
    ensures Symbols([Fragment(s, None)]) == Text(s)
  {
  }

  function MarkerSymbols(marker: string, ev: Evidence): seq<Symbol> { Symbols(MarkerFragments(marker, ev)) }

  /** A text without `[[` is shown as it is; a trailing `[` waits. */
  lemma ShownPlain(s: string, ev: Evidence)
    requires FindDouble(s, '[', 0).None?
    ensures var h := if s != "" && s[|s| - 1] == '[' then "[" else "";
            Held(s, ev) == h && Shown(s, ev) == Text(s[..|s| - |h|])
  {
    if s != "" {
      SymbolsOfText(s);
      SymbolsOfText(s[..|s| - 1]);
      assert s[..|s|] == s;
    }
  }

  /** A candidate that never closes is shown or held, as a whole: held while it is a prefix of `[[cite:`,
      or continues it, within 256 characters. */
  lemma ShownOpen(s: string, start: nat, ev: Evidence)
    requires FindDouble(s, '[', 0) == Some(start)
    requires FindDouble(s[start..], ']', 2).None?
    ensures var candidate := s[start..];
            var holds := |candidate| <= 256 && (candidate <= "[[cite:" || "[[cite:" <= candidate);
            && Shown(s, ev) == (if holds then Text(s[..start]) else Text(s))
            && Held(s, ev) == (if holds then candidate else "")
  {
    SymbolsOfText(s);
    SymbolsOfText(s[..start]);
  }

  /** A closed `[[...]]` is one unit, whatever follows it. */
  lemma ShownClosed(s: string, start: nat, end: nat, ev: Evidence)
    requires FindDouble(s, '[', 0) == Some(start)
    requires FindDouble(s[start..], ']', 2) == Some(end)
    ensures Shown(s, ev) == Text(s[..start]) + MarkerSymbols(s[start..][..end + 2], ev)
            + Shown(s[start..][end + 2..], ev)
    ensures Held(s, ev) == Held(s[start..][end + 2..], ev)
  {
    var before, marker, rest := s[..start], s[start..][..end + 2], s[start..][end + 2..];
    SymbolsOfText(before);
    SymbolsAppend(TextFragments(before) + MarkerFragments(marker, ev), Parse(rest, ev).0);
    SymbolsAppend(TextFragments(before), MarkerFragments(marker, ev));
  }
}
