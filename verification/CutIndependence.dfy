/**
 When does the way a model's text is cut into deltas not matter?

 The parser shows the same text and citations for every cut of a text exactly
 when the text is `CutSafe`, a condition read off the text alone.  Text made of
 plain segments and well-formed citation markers is cut-safe.
 */
module CutIndependence {
  import opened Prelude
  import opened CitationParser

  /** How many characters of `candidate` agree with the citation prefix. */
  function Agreement(candidate: string): (n: nat)
    ensures n <= |candidate| && n <= |CITATION_PREFIX|
    ensures candidate[..n] == CITATION_PREFIX[..n]
    ensures n < |candidate| && n < |CITATION_PREFIX| ==> candidate[n] != CITATION_PREFIX[n]
  {
    AgreementUpTo(candidate, 0)
  }

  function AgreementUpTo(candidate: string, k: nat): (n: nat)
    requires k <= |candidate| && k <= |CITATION_PREFIX| && candidate[..k] == CITATION_PREFIX[..k]
    ensures k <= n <= |candidate| && n <= |CITATION_PREFIX|
    ensures candidate[..n] == CITATION_PREFIX[..n]
    ensures n < |candidate| && n < |CITATION_PREFIX| ==> candidate[n] != CITATION_PREFIX[n]
    decreases |CITATION_PREFIX| - k
  {
    if k < |candidate| && k < |CITATION_PREFIX| && candidate[k] == CITATION_PREFIX[k]
    then AgreementUpTo(candidate, k + 1)
    else k
  }

  predicate PrefixAt(s: string, j: int) {
    0 <= j <= |s| - |CITATION_PREFIX| && s[j..j + |CITATION_PREFIX|] == CITATION_PREFIX
  }

  /** A citation prefix occurs in `s` at or after `from`. */
  predicate PrefixInside(s: string, from: nat) {
    exists j :: from <= j < |s| && PrefixAt(s, j)
  }

  /** The verdict on one closed `[[...]]`. */
  predicate UnitSafe(candidate: string, end: nat)
    requires end + 2 <= |candidate|
  {
    if StartsWith(candidate, CITATION_PREFIX)
    then end + 1 <= MAX_MARKER_LENGTH
    else !PrefixInside(candidate[..end + 2], Agreement(candidate) + 1)
  }

  /**
   Every closed `[[...]]` is either a citation marker short enough to be held
   until it closes, or contains no citation prefix past the point where the
   parser gives it up as prose.
   */
  predicate CutSafe(text: string)
    decreases |text|
  {
    match FindDouble(text, '[', 0)
    case None => true
    case Some(start) =>
      var candidate := text[start..];
      match FindDouble(candidate, ']', 2)
      case None => true
      case Some(end) =>
        UnitSafe(candidate, end) && CutSafe(candidate[end + 2..])
  }

  /** Every cut of the text, flushed, shows what the text shows as one delta. */
  ghost predicate CutIndependent(text: string, ev: Evidence) {
    forall pieces :: Join(pieces) == text ==> Stream("", pieces, ev) == OneShot(text, ev)
  }

  // ----- how the parser reads a text with a given head

  lemma FirstDouble(s: string, c: char, from: nat, i: nat)
    requires from <= i && DoubleAt(s, i, c)
    requires forall k {:trigger DoubleAt(s, k, c)} :: from <= k < i ==> !DoubleAt(s, k, c)
    ensures FindDouble(s, c, from) == Some(i)
  {
  }

  ghost predicate PlainHead(u: string) {
    FindDouble(u, '[', 0).None? && (u == "" || u[|u| - 1] != '[')
  }

  lemma FindAfterPlain(u: string, s: string)
    requires PlainHead(u)
    ensures FindDouble(u + s, '[', 0) ==
            match FindDouble(s, '[', 0) case None => None case Some(i) => Some(|u| + i)
  {
    forall k {:trigger DoubleAt(u + s, k, '[')} | 0 <= k < |u|
      ensures !DoubleAt(u + s, k, '[')
    {
      assert !DoubleAt(u, k, '[');
    }
    forall k {:trigger DoubleAt(u + s, k, '[')} | |u| <= k
      ensures DoubleAt(u + s, k, '[') == DoubleAt(s, k - |u|, '[')
    {
    }
    match FindDouble(s, '[', 0) {
      case None =>
      case Some(i) => FirstDouble(u + s, '[', 0, |u| + i);
    }
  }

  /** A plain head is shown as it is and changes nothing after it. */
  lemma PlainFirst(u: string, s: string, ev: Evidence)
    requires PlainHead(u)
    ensures Shown(u + s, ev) == Text(u) + Shown(s, ev)
    ensures Held(u + s, ev) == Held(s, ev)
    ensures CutSafe(u + s) == CutSafe(s)
  {
    hide Parse, Shown, Held;
    FindAfterPlain(u, s);
    match FindDouble(s, '[', 0) {
      case None => PlainFirstAllPlain(u, s, ev);
      case Some(i) => PlainFirstCandidate(u, s, i, ev); PlainFirstSafe(u, s, i);
    }
  }

  lemma PlainFirstAllPlain(u: string, s: string, ev: Evidence)
    requires PlainHead(u) && FindDouble(s, '[', 0).None? && FindDouble(u + s, '[', 0).None?
    ensures Shown(u + s, ev) == Text(u) + Shown(s, ev) && Held(u + s, ev) == Held(s, ev)
  {
    hide Parse;
    ShownPlain(u + s, ev);
    ShownPlain(s, ev);
    var shown := s[..|s| - |Held(s, ev)|];
    assert (u + s)[..|u| + |shown|] == u + shown;
    TextAppend(u, shown);
  }

  lemma PlainFirstCandidate(u: string, s: string, i: nat, ev: Evidence)
    requires FindDouble(s, '[', 0) == Some(i) && FindDouble(u + s, '[', 0) == Some(|u| + i)
    ensures Shown(u + s, ev) == Text(u) + Shown(s, ev) && Held(u + s, ev) == Held(s, ev)
  {
    hide Parse, Shown, Held, MarkerSymbols;
    var t := u + s;
    assert t[|u| + i..] == s[i..];
    assert t[..|u| + i] == u + s[..i];
    TextAppend(u, s[..i]);
    match FindDouble(s[i..], ']', 2) {
      case None =>
        TextAppend(u, s);
        ShownOpen(t, |u| + i, ev);
        ShownOpen(s, i, ev);
      case Some(e) =>
        ShownClosed(t, |u| + i, e, ev);
        ShownClosed(s, i, e, ev);
        Regroup(Text(u), Text(s[..i]), MarkerSymbols(s[i..][..e + 2], ev), Shown(s[i..][e + 2..], ev));
    }
  }

  lemma Regroup<T>(a: seq<T>, b: seq<T>, c: seq<T>, d: seq<T>)
    ensures a + b + c + d == a + (b + c + d)
  {
  }

  lemma Assemble<T>(whole: seq<T>, a: seq<T>, b: seq<T>, c: seq<T>, d: seq<T>)
    requires whole == a + b + c
    ensures whole + d == (a + b) + (c + d)
  {
  }

  /** Cut-safety, one `[[...]]` at a time. */
  lemma SafeByUnit(t: string, i: nat)
    requires FindDouble(t, '[', 0) == Some(i)
    ensures match FindDouble(t[i..], ']', 2)
            case None => CutSafe(t)
            case Some(e) => CutSafe(t) == (UnitSafe(t[i..], e) && CutSafe(t[i..][e + 2..]))
  {
  }

  lemma PlainFirstSafe(u: string, s: string, i: nat)
    requires FindDouble(s, '[', 0) == Some(i) && FindDouble(u + s, '[', 0) == Some(|u| + i)
    ensures CutSafe(u + s) == CutSafe(s)
  {
    hide CutSafe, UnitSafe;
    assert (u + s)[|u| + i..] == s[i..];
    SafeByUnit(u + s, |u| + i);
    SafeByUnit(s, i);
  }

  /** Without a closing `]]` everything is prose. */
  lemma NeverClosed(s: string, ev: Evidence)
    requires forall k :: !DoubleAt(s, k, ']')
    ensures OneShot(s, ev) == Text(s) && CutSafe(s)
  {
    match FindDouble(s, '[', 0) {
      case None =>
        ShownPlain(s, ev);
        var h := Held(s, ev);
        assert s == s[..|s| - |h|] + h;
        TextAppend(s[..|s| - |h|], h);
      case Some(i) =>
        var c := s[i..];
        forall k {:trigger DoubleAt(c, k, ']')} | 0 <= k ensures !DoubleAt(c, k, ']') {
          assert !DoubleAt(s, i + k, ']');
        }
        ShownOpen(s, i, ev);
        assert s == s[..i] + c;
        TextAppend(s[..i], c);
    }
  }

  /** `w` runs up to and including the first `]]`, or is the second `]` of one. */
  ghost predicate ClosingTail(w: string) {
    w == "]" || FindDouble(w, ']', 0) == Some(|w| - 2)
  }

  /** The end of a `[[...]]` that was given up as prose stays prose. */
  lemma ProseThrough(w: string, rest: string, ev: Evidence)
    requires ClosingTail(w) && !PrefixInside(w, 0)
    ensures OneShot(w + rest, ev) == Text(w) + OneShot(rest, ev)
    ensures CutSafe(w + rest) == CutSafe(rest)
  {
    hide Parse, Shown, Held, MarkerSymbols, CutSafe;
    match FindDouble(w, '[', 0) {
      case None => PlainFirst(w, rest, ev);
      case Some(i) =>
        FirstInside(w, rest, '[', 0);
        ClosesAt(w, rest, i);
        NoPrefixInTail(w, i);
        ProseCandidate(w, rest, i, ev);
    }
  }

  lemma ProseCandidate(w: string, rest: string, i: nat, ev: Evidence)
    requires i + 4 <= |w|
    requires FindDouble(w + rest, '[', 0) == Some(i)
    requires FindDouble((w + rest)[i..], ']', 2) == Some(|w| - 2 - i)
    requires !PrefixInside(w[i..], 0) && !StartsWith(w[i..], CITATION_PREFIX)
    ensures OneShot(w + rest, ev) == Text(w) + OneShot(rest, ev)
    ensures CutSafe(w + rest) == CutSafe(rest)
  {
    hide Parse, Shown, Held, CutSafe, PrefixInside;
    var t, e := w + rest, |w| - 2 - i;
    var c := t[i..];
    assert c[..e + 2] == w[i..] && c[e + 2..] == rest && t[..i] == w[..i];
    ProseUnit(c, w[i..]);
    ShownClosed(t, i, e, ev);
    SymbolsOfText(w[i..]);
    assert w == w[..i] + w[i..];
    TextAppend(w[..i], w[i..]);
    Assemble(Shown(t, ev), Text(w[..i]), Text(w[i..]), Shown(rest, ev), Text(Held(rest, ev)));
    ProseCandidateSafe(t, i, e, w, rest);
  }

  lemma ProseCandidateSafe(t: string, i: nat, e: nat, w: string, rest: string)
    requires FindDouble(t, '[', 0) == Some(i) && FindDouble(t[i..], ']', 2) == Some(e)
    requires i <= |w| && t[i..][..e + 2] == w[i..] && t[i..][e + 2..] == rest
    requires !StartsWith(t[i..], CITATION_PREFIX) && !PrefixInside(w[i..], 0)
    ensures CutSafe(t) == CutSafe(rest)
  {
  }

  lemma ProseUnit(c: string, m: string)
    requires 1 <= |m| <= |c| && c[..|m|] == m && m[|m| - 1] == ']'
    ensures StartsWith(c, CITATION_PREFIX) == StartsWith(m, CITATION_PREFIX)
  {
  }

  lemma FirstInside(w: string, rest: string, c: char, from: nat)
    requires FindDouble(w, c, from).Some?
    ensures FindDouble(w + rest, c, from) == FindDouble(w, c, from)
  {
    var i := FindDouble(w, c, from).value;
    forall k {:trigger DoubleAt(w + rest, k, c)} | from <= k < i
      ensures !DoubleAt(w + rest, k, c)
    {
      assert !DoubleAt(w, k, c);
    }
    FirstDouble(w + rest, c, from, i);
  }

  lemma ClosesAt(w: string, rest: string, i: nat)
    requires ClosingTail(w) && DoubleAt(w, i, '[')
    ensures FindDouble((w + rest)[i..], ']', 2) == Some(|w| - 2 - i)
  {
    var c := (w + rest)[i..];
    forall k {:trigger DoubleAt(c, k, ']')} | 2 <= k < |w| - 2 - i
      ensures !DoubleAt(c, k, ']')
    {
      assert !DoubleAt(w, i + k, ']');
    }
    assert DoubleAt(w, |w| - 2, ']');
    FirstDouble(c, ']', 2, |w| - 2 - i);
  }

  lemma PrefixInWindow(s: string, off: nat, w: string, j: int)
    requires off + |w| <= |s| && s[off..off + |w|] == w
    ensures PrefixAt(w, j) ==> PrefixAt(s, off + j)
  {
    assert forall k {:trigger w[k]} :: 0 <= k < |w| ==> w[k] == s[off + k];
    if 0 <= j <= |w| - |CITATION_PREFIX| {
      assert w[j..j + |CITATION_PREFIX|] == s[off + j..off + j + |CITATION_PREFIX|];
    }
  }

  lemma NoPrefixInTail(w: string, i: nat)
    requires i <= |w| && !PrefixInside(w, 0)
    ensures !PrefixInside(w[i..], 0)
    ensures !StartsWith(w[i..], CITATION_PREFIX)
  {
    forall j | 0 <= j < |w| - i
      ensures !PrefixAt(w[i..], j)
    {
      assert !PrefixAt(w, i + j);
      PrefixInWindow(w, i, w[i..], j);
    }
    assert StartsWith(w[i..], CITATION_PREFIX) ==> PrefixAt(w[i..], 0);
  }

  // ----- a cut-safe text may be cut anywhere

  lemma Reassociate<T>(a: seq<T>, b: seq<T>, c: seq<T>)
    ensures a + (b + c) == a + b + c
  {
  }

  /** One cut: what the first piece shows, followed by the rest, is the whole. */
  lemma {:induction false} OneCut(a: string, b: string, ev: Evidence)
    requires CutSafe(a + b)
    ensures Shown(a, ev) + OneShot(Held(a, ev) + b, ev) == OneShot(a + b, ev)
    ensures CutSafe(Held(a, ev) + b)
    decreases |a|
  {
    hide Parse, Shown, Held, MarkerSymbols, CutSafe;
    match FindDouble(a, '[', 0) {
      case None => CutInPlain(a, b, ev);
      case Some(i) =>
        var u, c := a[..i], a[i..];
        PlainBefore(a, i);
        assert a + b == u + (c + b);
        PlainFirst(u, c + b, ev);
        Reassociate(Text(u), Shown(c + b, ev), Text(Held(c + b, ev)));
        match FindDouble(c, ']', 2) {
          case None =>
            ShownOpen(a, i, ev);
            if !Holdable(c) {
              GivenUp(c, b, ev);
              assert a == u + c;
              TextAppend(u, c);
              Reassociate(Text(u), Text(c), OneShot(b, ev));
              assert "" + b == b;
            }
          case Some(e) =>
            ClosedHead(c, b, e, ev);
            OneCut(c[e + 2..], b, ev);
            ShownClosed(a, i, e, ev);
            var marker, rest := MarkerSymbols(c[..e + 2], ev), Shown(c[e + 2..], ev);
            Assemble(Text(u) + marker + rest, Text(u), marker, rest, OneShot(Held(a, ev) + b, ev));
            Reassociate(Text(u), marker, OneShot(c[e + 2..] + b, ev));
        }
    }
  }

  lemma CutInPlain(a: string, b: string, ev: Evidence)
    requires CutSafe(a + b) && FindDouble(a, '[', 0).None?
    ensures Shown(a, ev) + OneShot(Held(a, ev) + b, ev) == OneShot(a + b, ev)
    ensures CutSafe(Held(a, ev) + b)
  {
    hide Parse, Shown, Held, MarkerSymbols, CutSafe;
    ShownPlain(a, ev);
    var h := Held(a, ev);
    var u := a[..|a| - |h|];
    assert a + b == u + (h + b);
    assert PlainHead(u) by {
      forall k {:trigger DoubleAt(u, k, '[')} | 0 <= k ensures !DoubleAt(u, k, '[') {
        assert !DoubleAt(a, k, '[');
      }
      assert u != "" ==> !DoubleAt(a, |u| - 1, '[');
    }
    PlainFirst(u, h + b, ev);
    Reassociate(Text(u), Shown(h + b, ev), Text(Held(h + b, ev)));
  }

  lemma PlainBefore(a: string, i: nat)
    requires FindDouble(a, '[', 0) == Some(i)
    ensures PlainHead(a[..i])
  {
    forall k {:trigger DoubleAt(a[..i], k, '[')} | 0 <= k ensures !DoubleAt(a[..i], k, '[') {
      assert k < i ==> !DoubleAt(a, k, '[');
    }
    assert i > 0 ==> !DoubleAt(a, i - 1, '[');
  }

  /** A text that opens with a closed `[[...]]`. */
  lemma ClosedAtStart(t: string, e: nat, ev: Evidence)
    requires DoubleAt(t, 0, '[') && FindDouble(t, ']', 2) == Some(e)
    ensures OneShot(t, ev) == MarkerSymbols(t[..e + 2], ev) + OneShot(t[e + 2..], ev)
    ensures CutSafe(t) ==> CutSafe(t[e + 2..])
  {
    hide Parse, Shown, Held, MarkerSymbols;
    FirstDouble(t, '[', 0, 0);
    assert t[0..] == t && t[..0] == "";
    ShownClosed(t, 0, e, ev);
    var marker, rest := MarkerSymbols(t[..e + 2], ev), t[e + 2..];
    assert Text("") + marker == marker;
    Reassociate(marker, Shown(rest, ev), Text(Held(rest, ev)));
  }

  /** A candidate that closes inside the first piece is read the same way. */
  lemma ClosedHead(c: string, b: string, e: nat, ev: Evidence)
    requires DoubleAt(c, 0, '[') && FindDouble(c, ']', 2) == Some(e)
    ensures OneShot(c + b, ev) == MarkerSymbols(c[..e + 2], ev) + OneShot(c[e + 2..] + b, ev)
    ensures CutSafe(c + b) ==> CutSafe(c[e + 2..] + b)
  {
    hide Parse, Shown, Held, MarkerSymbols, CutSafe;
    FirstInside(c, b, ']', 2);
    assert (c + b)[..e + 2] == c[..e + 2] && (c + b)[e + 2..] == c[e + 2..] + b;
    ClosedAtStart(c + b, e, ev);
  }

  /** A candidate the parser gave up as prose would have been prose anyway. */
  lemma GivenUp(c: string, b: string, ev: Evidence)
    requires DoubleAt(c, 0, '[') && FindDouble(c, ']', 2).None? && !Holdable(c)
    requires CutSafe(c + b)
    ensures OneShot(c + b, ev) == Text(c) + OneShot(b, ev) && CutSafe(b)
  {
    match FindDouble(c + b, ']', 2) {
      case None => GivenUpOpen(c, b, ev);
      case Some(e) => GivenUpClosed(c, b, e, ev);
    }
  }

  lemma GivenUpOpen(c: string, b: string, ev: Evidence)
    requires DoubleAt(c, 0, '[') && FindDouble(c + b, ']', 2).None?
    ensures OneShot(c + b, ev) == Text(c) + OneShot(b, ev) && CutSafe(b)
  {
    hide Parse, CutSafe;
    var t := c + b;
    forall k ensures !DoubleAt(b, k, ']') {
      assert !DoubleAt(t, |c| + k, ']');
    }
    NeverClosed(b, ev);
    FirstDouble(t, '[', 0, 0);
    assert t[0..] == t && t[..0] == "";
    ShownOpen(t, 0, ev);
    TextAppend(c, b);
  }

  lemma GivenUpClosed(c: string, b: string, e: nat, ev: Evidence)
    requires DoubleAt(c, 0, '[') && FindDouble(c, ']', 2).None? && !Holdable(c)
    requires CutSafe(c + b) && FindDouble(c + b, ']', 2) == Some(e)
    ensures OneShot(c + b, ev) == Text(c) + OneShot(b, ev) && CutSafe(b)
  {
    hide Parse, Shown, Held, MarkerSymbols, CutSafe, Holdable, PrefixInside, Agreement;
    var n := ProseLength(c, b, e);
    var w, rest := b[..n], b[n..];
    assert b == w + rest;
    assert (c + b)[..e + 2] == c + w && (c + b)[e + 2..] == rest;
    ClosedAtStart(c + b, e, ev);
    NotACitation(c, b, e);
    ProseUnit(c + b, c + w);
    ProseMarker(c, w, ev);
    TailOfGivenUp(c, b, e);
    ProseThrough(w, rest, ev);
    Reassociate(Text(c), Text(w), OneShot(rest, ev));
  }

  lemma ProseMarker(c: string, w: string, ev: Evidence)
    requires !StartsWith(c + w, CITATION_PREFIX)
    ensures MarkerSymbols(c + w, ev) == Text(c) + Text(w)
  {
    SymbolsOfText(c + w);
    TextAppend(c, w);
  }

  /** How much of `b` belongs to the `[[...]]` that opens in `c` and closes at `e`. */
  function ProseLength(c: string, b: string, e: nat): (n: nat)
    requires 2 <= |c| && FindDouble(c, ']', 2).None? && FindDouble(c + b, ']', 2) == Some(e)
    ensures 1 <= n <= |b| && e + 2 == |c| + n
  {
    assert e + 2 <= |c| ==> DoubleAt(c, e, ']');
    e + 2 - |c|
  }

  lemma NotACitation(c: string, b: string, e: nat)
    requires DoubleAt(c, 0, '[') && FindDouble(c, ']', 2).None? && !Holdable(c)
    requires CutSafe(c + b) && FindDouble(c + b, ']', 2) == Some(e)
    ensures !StartsWith(c + b, CITATION_PREFIX)
    ensures Agreement(c + b) < |c|
    ensures !PrefixInside((c + b)[..e + 2], |c|)
  {
    var t, n := c + b, ProseLength(c, b, e);
    FirstDouble(t, '[', 0, 0);
    assert t[0..] == t;
    assert c == t[..|c|];
    assert StartsWith(t, CITATION_PREFIX) && |c| >= |CITATION_PREFIX| ==> StartsWith(c, CITATION_PREFIX);
    assert Agreement(t) >= |c| ==> StartsWith(CITATION_PREFIX, c);
    assert !PrefixInside(t[..e + 2], Agreement(t) + 1);
  }

  lemma Window(c: string, b: string, n: nat)
    requires n <= |b|
    ensures (c + b)[..|c| + n][|c|..|c| + n] == b[..n]
  {
  }

  lemma TailOfGivenUp(c: string, b: string, e: nat)
    requires DoubleAt(c, 0, '[') && FindDouble(c, ']', 2).None? && !Holdable(c)
    requires CutSafe(c + b) && FindDouble(c + b, ']', 2) == Some(e)
    ensures var w := b[..ProseLength(c, b, e)]; ClosingTail(w) && !PrefixInside(w, 0)
  {
    hide CutSafe, Agreement, PrefixAt;
    var t, n := c + b, ProseLength(c, b, e);
    var w := b[..n];
    NotACitation(c, b, e);
    if n == 1 {
      assert w == [t[e + 1]];
    } else {
      forall k {:trigger DoubleAt(w, k, ']')} | 0 <= k < n - 2 ensures !DoubleAt(w, k, ']') {
        assert !DoubleAt(t, |c| + k, ']');
      }
      assert w[n - 2] == t[e] && w[n - 1] == t[e + 1];
      FirstDouble(w, ']', 0, n - 2);
    }
    Window(c, b, n);
    forall j | 0 <= j < |w| ensures !PrefixAt(w, j) {
      assert !PrefixAt(t[..e + 2], |c| + j);
      PrefixInWindow(t[..e + 2], |c|, w, j);
    }
  }

  /** Any number of cuts, starting from any held suffix. */
  lemma {:induction false} EveryCut(held: string, pieces: seq<string>, ev: Evidence)
    requires CutSafe(held + Join(pieces))
    requires OneShot(held, ev) == Text(held)
    ensures Stream(held, pieces, ev) == OneShot(held + Join(pieces), ev)
    decreases pieces
  {
    hide Parse, Shown, Held, MarkerSymbols, CutSafe;
    if pieces == [] {
      assert held + Join(pieces) == held;
    } else {
      var a, b := held + pieces[0], Join(pieces[1..]);
      assert held + Join(pieces) == a + b;
      OneCut(a, b, ev);
      HeldIsProse(a, ev);
      EveryCut(Held(a, ev), pieces[1..], ev);
    }
  }

  /** What the parser holds back would be shown as it is. */
  lemma {:induction false} HeldIsProse(s: string, ev: Evidence)
    ensures OneShot(Held(s, ev), ev) == Text(Held(s, ev))
    decreases |s|
  {
    match FindDouble(s, '[', 0) {
      case None => ShownPlain(s, ev); NeverClosed(Held(s, ev), ev);
      case Some(i) =>
        var c := s[i..];
        match FindDouble(c, ']', 2) {
          case None =>
            ShownOpen(s, i, ev);
            if Holdable(c) {
              FirstDouble(c, '[', 0, 0);
              assert c[0..] == c;
              ShownOpen(c, 0, ev);
              assert Text("") + Text(c) == Text(c);
            } else {
              NeverClosed("", ev);
            }
          case Some(e) =>
            ShownClosed(s, i, e, ev);
            HeldIsProse(c[e + 2..], ev);
        }
    }
  }

  // ----- a text that is not cut-safe has a cut that shows

  /** A piece that ends in `]` closing something, or is that `]`, holds nothing back. */
  lemma {:induction false} NothingHeldAfterClose(s: string, ev: Evidence)
    requires s == "" || (s[|s| - 1] == ']' && (|s| == 1 || s[|s| - 2] == ']'))
    ensures Held(s, ev) == ""
    decreases |s|
  {
    match FindDouble(s, '[', 0) {
      case None => ShownPlain(s, ev);
      case Some(i) =>
        var c := s[i..];
        assert DoubleAt(c, |c| - 2, ']');
        var e := FindDouble(c, ']', 2).value;
        ShownClosed(s, i, e, ev);
        NothingHeldAfterClose(c[e + 2..], ev);
    }
  }

  /** An unclosed candidate that cannot be held is shown at once. */
  lemma GivenUpPiece(u: string, c: string, ev: Evidence)
    requires PlainHead(u) && DoubleAt(c, 0, '[') && FindDouble(c, ']', 2).None? && !Holdable(c)
    ensures Shown(u + c, ev) == Text(u) + Text(c) && Held(u + c, ev) == ""
  {
    FirstDouble(c, '[', 0, 0);
    assert c[0..] == c;
    ShownOpen(c, 0, ev);
    PlainFirst(u, c, ev);
  }

  /** Where a closed, unsafe `[[...]]` betrays a cut. */
  ghost predicate Betrays(c: string, e: nat, p: nat) {
    if StartsWith(c, CITATION_PREFIX) then p == MAX_MARKER_LENGTH + 1 && e + 1 > MAX_MARKER_LENGTH
    else Agreement(c) + 1 <= p && p < e + 2 <= |c| && PrefixAt(c[..e + 2], p)
  }

  lemma BetrayingPiece(c: string, e: nat, p: nat)
    requires DoubleAt(c, 0, '[') && FindDouble(c, ']', 2) == Some(e) && Betrays(c, e, p)
    ensures p <= e + 1
    ensures DoubleAt(c[..p], 0, '[') && FindDouble(c[..p], ']', 2).None? && !Holdable(c[..p])
  {
    if !StartsWith(c, CITATION_PREFIX) {
      PrefixClosesLater(c, e, p);
      assert |c[..p]| >= |CITATION_PREFIX| ==> c[..p][..|CITATION_PREFIX|] == c[..|CITATION_PREFIX|];
      assert Agreement(c) >= 2 by { assert c[..2] == CITATION_PREFIX[..2]; }
    }
    forall k {:trigger DoubleAt(c[..p], k, ']')} | 2 <= k ensures !DoubleAt(c[..p], k, ']') {
      assert k < e ==> !DoubleAt(c, k, ']');
    }
  }

  lemma PrefixClosesLater(c: string, e: nat, p: nat)
    requires e + 2 <= |c| && PrefixAt(c[..e + 2], p) && DoubleAt(c, e, ']')
    ensures p + |CITATION_PREFIX| <= e
  {
  }

  lemma BetrayingLengths(c: string, e: nat, p: nat, ev: Evidence)
    requires DoubleAt(c, 0, '[') && FindDouble(c, ']', 2) == Some(e) && Betrays(c, e, p)
    requires p <= e + 1
    ensures Held(c[p..e + 2], ev) == ""
    ensures p + |Shown(c[p..e + 2], ev)| != |MarkerSymbols(c[..e + 2], ev)|
  {
    NothingHeldAfterClose(c[p..e + 2], ev);
    MarkerIsShort(c[..e + 2], ev);
    assert e + 2 >= |CITATION_PREFIX| ==> c[..e + 2][..|CITATION_PREFIX|] == c[..|CITATION_PREFIX|];
    if !StartsWith(c, CITATION_PREFIX) {
      PrefixClosesLater(c, e, p);
      InnerMarkerIsShort(c, e, p, ev);
    }
  }

  /** The tail that starts at an inner citation prefix is a single marker. */
  lemma InnerMarkerIsShort(c: string, e: nat, p: nat, ev: Evidence)
    requires 2 <= e && p + |CITATION_PREFIX| <= e && e + 2 <= |c|
    requires FindDouble(c, ']', 2) == Some(e) && PrefixAt(c[..e + 2], p)
    ensures |Shown(c[p..e + 2], ev)| <= 1
  {
    var m, n := c[p..e + 2], |CITATION_PREFIX|;
    assert m[..n] == c[..e + 2][p..p + n] == CITATION_PREFIX;
    assert m[0] == m[..n][0] && m[1] == m[..n][1];
    forall k {:trigger DoubleAt(m, k, ']')} | 2 <= k < e - p ensures !DoubleAt(m, k, ']') {
      assert !DoubleAt(c, p + k, ']');
    }
    FirstDouble(m, ']', 2, e - p);
    ShownMarker(m, ev);
    MarkerIsShort(m, ev);
  }

  lemma ShownMarker(m: string, ev: Evidence)
    requires DoubleAt(m, 0, '[') && FindDouble(m, ']', 2) == Some(|m| - 2)
    ensures Shown(m, ev) == MarkerSymbols(m, ev)
  {
    FirstDouble(m, '[', 0, 0);
    assert m[0..] == m && m[..|m|] == m && m[|m|..] == "" && m[..0] == "";
    ShownClosed(m, 0, |m| - 2, ev);
    assert Text("") + MarkerSymbols(m, ev) + [] == MarkerSymbols(m, ev);
  }

  /** A citation marker shows at most one symbol, any other marker all of itself. */
  lemma MarkerIsShort(marker: string, ev: Evidence)
    ensures if StartsWith(marker, CITATION_PREFIX) then |MarkerSymbols(marker, ev)| <= 1
            else MarkerSymbols(marker, ev) == Text(marker)
  {
    SymbolsOfText(marker);
    var fs := MarkerFragments(marker, ev);
    if StartsWith(marker, CITATION_PREFIX) && fs != [] {
      assert Symbols(fs) == FragmentSymbols(fs[0]) + Symbols([]);
    }
  }

  /** A safe head in front of a text changes neither side's verdict. */
  lemma SafeHead(u: string, m: string, s: string, ev: Evidence)
    requires PlainHead(u) && DoubleAt(m, 0, '[') && FindDouble(m, ']', 2) == Some(|m| - 2)
    ensures Shown(u + m + s, ev) == Text(u) + MarkerSymbols(m, ev) + Shown(s, ev)
    ensures Held(u + m + s, ev) == Held(s, ev)
    ensures OneShot(u + m + s, ev) == Text(u) + MarkerSymbols(m, ev) + OneShot(s, ev)
  {
    hide Parse, Shown, Held, MarkerSymbols, CutSafe;
    var t := m + s;
    assert u + m + s == u + t;
    FirstDouble(t, '[', 0, 0);
    FirstInside(m, s, ']', 2);
    assert t[0..] == t && t[..0] == "" && t[..|m|] == m && t[|m|..] == s;
    ShownClosed(t, 0, |m| - 2, ev);
    PlainFirst(u, t, ev);
    assert Text("") + MarkerSymbols(m, ev) == MarkerSymbols(m, ev);
    Reassociate(Text(u), MarkerSymbols(m, ev), Shown(s, ev));
    Reassociate(Text(u) + MarkerSymbols(m, ev), Shown(s, ev), Text(Held(s, ev)));
  }

  /** A cut of an unsafe text whose result differs from the one-delta result. */
  lemma {:induction false} TellingCut(t: string, ev: Evidence) returns (pieces: seq<string>)
    requires !CutSafe(t)
    ensures pieces != [] && Join(pieces) == t
    ensures Stream("", pieces, ev) != OneShot(t, ev)
    decreases |t|
  {
    hide Parse, Shown, Held, MarkerSymbols, CutSafe, Stream, OneShot, Join, Betrays, FindDouble, PlainHead;
    var i, e := UnsafeHead(t);
    var u, c := t[..i], t[i..];
    PlainBefore(t, i);
    var m, r := c[..e + 2], c[e + 2..];
    ClosesAlone(c, e);
    Rejoin(t, i, e + 2);
    if !CutSafe(r) {
      var ps := TellingCut(r, ev);
      pieces := TellingCutLater(u, m, r, ps, ev);
    } else {
      var p := Betrayal(t, i, e);
      pieces := TellingCutHere(u, c, e, p, ev);
    }
  }

  /** An unsafe text has a first marker that closes. */
  lemma UnsafeHead(t: string) returns (i: nat, e: nat)
    requires !CutSafe(t)
    ensures FindDouble(t, '[', 0) == Some(i) && i <= |t|
    ensures FindDouble(t[i..], ']', 2) == Some(e) && e + 2 <= |t[i..]|
  {
    i := FindDouble(t, '[', 0).value;
    e := FindDouble(t[i..], ']', 2).value;
  }

  lemma Rejoin(t: string, i: nat, n: nat)
    requires i + n <= |t|
    ensures t == t[..i] + t[i..][..n] + t[i..][n..]
  {
  }

  lemma Betrayal(t: string, i: nat, e: nat) returns (p: nat)
    requires !CutSafe(t) && FindDouble(t, '[', 0) == Some(i) && FindDouble(t[i..], ']', 2) == Some(e)
    requires CutSafe(t[i..][e + 2..])
    ensures Betrays(t[i..], e, p)
  {
    var c := t[i..];
    if StartsWith(c, CITATION_PREFIX) {
      p := MAX_MARKER_LENGTH + 1;
    } else {
      p :| Agreement(c) + 1 <= p < |c[..e + 2]| && PrefixAt(c[..e + 2], p);
    }
  }

  lemma TellingCutHere(u: string, c: string, e: nat, p: nat, ev: Evidence) returns (pieces: seq<string>)
    requires PlainHead(u) && DoubleAt(c, 0, '[') && FindDouble(c, ']', 2) == Some(e) && Betrays(c, e, p)
    ensures pieces != [] && Join(pieces) == u + c[..e + 2] + c[e + 2..]
    ensures Stream("", pieces, ev) != OneShot(u + c[..e + 2] + c[e + 2..], ev)
  {
    hide Parse, Shown, Held, MarkerSymbols, Agreement, CutSafe;
    ClosesAlone(c, e);
    SafeHead(u, c[..e + 2], c[e + 2..], ev);
    pieces := BetrayingCut(u, c, e, p, ev);
    UnfoldThree(pieces);
  }

  lemma TellingCutLater(u: string, m: string, r: string, ps: seq<string>, ev: Evidence) returns (pieces: seq<string>)
    requires PlainHead(u) && DoubleAt(m, 0, '[') && FindDouble(m, ']', 2) == Some(|m| - 2)
    requires ps != [] && Join(ps) == r && Stream("", ps, ev) != OneShot(r, ev)
    ensures pieces != [] && Join(pieces) == u + m + r
    ensures Stream("", pieces, ev) != OneShot(u + m + r, ev)
  {
    hide Parse, Shown, Held, MarkerSymbols, CutSafe;
    SafeHead(u, m, r, ev);
    pieces := [u + m + ps[0]] + ps[1..];
    assert pieces[1..] == ps[1..];
    SafeHeadStream(u, m, ps, ev);
    SamePrefix(Text(u) + MarkerSymbols(m, ev), Stream("", ps, ev), OneShot(r, ev));
  }

  lemma SafeHeadStream(u: string, m: string, ps: seq<string>, ev: Evidence)
    requires ps != []
    requires PlainHead(u) && DoubleAt(m, 0, '[') && FindDouble(m, ']', 2) == Some(|m| - 2)
    ensures Stream("", [u + m + ps[0]] + ps[1..], ev) == Text(u) + MarkerSymbols(m, ev) + Stream("", ps, ev)
  {
    hide Parse, Shown, Held, MarkerSymbols;
    var a := u + m + ps[0];
    SafeHead(u, m, ps[0], ev);
    assert ([a] + ps[1..])[1..] == ps[1..];
    assert "" + ps[0] == ps[0] && "" + a == a;
    Reassociate(Text(u) + MarkerSymbols(m, ev), Shown(ps[0], ev), Stream(Held(ps[0], ev), ps[1..], ev));
  }

  lemma UnfoldThree(ps: seq<string>)
    requires |ps| == 3
    ensures Join(ps) == ps[0] + (ps[1] + (ps[2] + ""))
  {
    assert ps[1..][1..] == [ps[2]] && ps[1..][0] == ps[1];
    assert Join([ps[2]]) == ps[2] + Join([]);
  }

  lemma SamePrefix<T>(x: seq<T>, a: seq<T>, b: seq<T>)
    requires a != b
    ensures x + a != x + b
  {
    assert (x + a)[|x|..] == a && (x + b)[|x|..] == b;
  }

  lemma ClosesAlone(c: string, e: nat)
    requires DoubleAt(c, 0, '[') && FindDouble(c, ']', 2) == Some(e)
    ensures DoubleAt(c[..e + 2], 0, '[') && FindDouble(c[..e + 2], ']', 2) == Some(e)
  {
    forall k {:trigger DoubleAt(c[..e + 2], k, ']')} | 2 <= k < e ensures !DoubleAt(c[..e + 2], k, ']') {
      assert !DoubleAt(c, k, ']');
    }
    FirstDouble(c[..e + 2], ']', 2, e);
  }

  lemma BetrayingCut(u: string, c: string, e: nat, p: nat, ev: Evidence) returns (pieces: seq<string>)
    requires PlainHead(u) && DoubleAt(c, 0, '[') && FindDouble(c, ']', 2) == Some(e) && Betrays(c, e, p)
    ensures |pieces| == 3 && pieces[0] + (pieces[1] + (pieces[2] + "")) == u + c[..e + 2] + c[e + 2..]
    ensures Stream("", pieces, ev) != Text(u) + MarkerSymbols(c[..e + 2], ev) + OneShot(c[e + 2..], ev)
  {
    hide Parse, Shown, Held, MarkerSymbols, CutSafe, Agreement;
    BetrayingPiece(c, e, p);
    var a, m, r := c[..p], c[p..e + 2], c[e + 2..];
    pieces := [u + a, m, r];
    assert a + m == c[..e + 2];
    RegroupMiddle(u, a, m, r);
    GivenUpPiece(u, a, ev);
    BetrayingLengths(c, e, p, ev);
    StreamThree(u + a, m, r, ev);
    DifferentLengths(Text(u), Text(a), Shown(m, ev), MarkerSymbols(c[..e + 2], ev), OneShot(r, ev));
  }

  lemma RegroupMiddle(u: string, a: string, m: string, r: string)
    ensures (u + a) + (m + (r + "")) == u + (a + m) + r
  {
  }

  lemma DifferentLengths<T>(u: seq<T>, a: seq<T>, m: seq<T>, k: seq<T>, r: seq<T>)
    requires |a| + |m| != |k|
    ensures u + a + (m + r) != u + k + r
  {
  }

  lemma StreamThree(a: string, m: string, r: string, ev: Evidence)
    requires Held(a, ev) == "" && Held(m, ev) == ""
    ensures Stream("", [a, m, r], ev) == Shown(a, ev) + (Shown(m, ev) + OneShot(r, ev))
  {
    hide Parse, Shown, Held, MarkerSymbols;
    assert [a, m, r][1..] == [m, r] && [m, r][1..] == [r] && [r][1..] == [];
    assert "" + a == a && "" + m == m && "" + r == r;
    assert Stream("", [r], ev) == OneShot(r, ev);
  }

  /**
   The exact domain of chunk-independence: every way of cutting `text` into
   deltas shows the same symbols exactly when `text` is cut-safe.
   */
  lemma CutIndependentIffCutSafe(text: string, ev: Evidence)
    ensures CutIndependent(text, ev) <==> CutSafe(text)
  {
    if CutSafe(text) {
      NeverClosed("", ev);
      forall pieces | Join(pieces) == text
        ensures Stream("", pieces, ev) == OneShot(text, ev)
      {
        assert "" + Join(pieces) == text;
        EveryCut("", pieces, ev);
      }
    } else {
      var pieces := TellingCut(text, ev);
    }
  }

  // ----- text made of plain segments and citation markers

  datatype Token = Plain(text: string) | Marker(id: string)

  function MarkerText(id: string): string { CITATION_PREFIX + id + "]]" }

  function Render(tokens: seq<Token>): string {
    if tokens == [] then ""
    else (match tokens[0] case Plain(s) => s case Marker(id) => MarkerText(id)) + Render(tokens[1..])
  }

  /** What the reader should see: the prose, and one citation per grounded marker. */
  function Intended(tokens: seq<Token>, ev: Evidence): seq<Symbol> {
    if tokens == [] then []
    else
      (match tokens[0]
       case Plain(s) => Text(s)
       case Marker(id) => if id != "" && Grounded(id, ev) then [Cited(id)] else [])
      + Intended(tokens[1..], ev)
  }

  /**
   Plain segments contain no `[[` and do not put a `[` in front of a marker; a
   marker's reference contains no `]` and the marker can be held until it closes.
   */
  predicate WellFormed(tokens: seq<Token>) {
    tokens != [] ==>
      && (match tokens[0]
          case Plain(s) =>
            FindDouble(s, '[', 0).None? &&
            (|tokens| > 1 ==> tokens[1].Marker? && (s == "" || s[|s| - 1] != '['))
          case Marker(id) => ']' !in id && |MarkerText(id)| <= MAX_MARKER_LENGTH + 1)
      && WellFormed(tokens[1..])
  }

  lemma MarkerCloses(id: string)
    requires ']' !in id
    ensures var m := MarkerText(id);
            DoubleAt(m, 0, '[') && FindDouble(m, ']', 2) == Some(|m| - 2) && StartsWith(m, CITATION_PREFIX)
            && m[|CITATION_PREFIX|..|m| - 2] == id
  {
    var m := MarkerText(id);
    forall k {:trigger DoubleAt(m, k, ']')} | 2 <= k < |m| - 2 ensures !DoubleAt(m, k, ']') {
      if k >= |CITATION_PREFIX| { assert m[k] == id[k - |CITATION_PREFIX|]; }
    }
    FirstDouble(m, ']', 2, |m| - 2);
    assert m[..|CITATION_PREFIX|] == CITATION_PREFIX;
  }

  lemma SafeMarkerFirst(id: string, s: string)
    requires ']' !in id && |MarkerText(id)| <= MAX_MARKER_LENGTH + 1
    ensures CutSafe(MarkerText(id) + s) == CutSafe(s)
  {
    var m := MarkerText(id);
    var t := m + s;
    MarkerCloses(id);
    FirstDouble(t, '[', 0, 0);
    FirstInside(m, s, ']', 2);
    assert t[0..] == t && t[|m|..] == s;
    assert t[..|CITATION_PREFIX|] == CITATION_PREFIX;
  }

  lemma {:induction false} WellFormedReading(tokens: seq<Token>, ev: Evidence)
    requires WellFormed(tokens)
    ensures CutSafe(Render(tokens))
    ensures OneShot(Render(tokens), ev) == Intended(tokens, ev)
  {
    hide Parse, Shown, Held, MarkerSymbols, CutSafe;
    if tokens == [] {
      NeverClosed("", ev);
    } else {
      var rest := Render(tokens[1..]);
      WellFormedReading(tokens[1..], ev);
      match tokens[0] {
        case Plain(s) =>
          if |tokens| == 1 {
            assert s + rest == s && Text(s) + [] == Text(s);
            LastPlain(s, ev);
          } else {
            PlainFirst(s, rest, ev);
            Reassociate(Text(s), Shown(rest, ev), Text(Held(rest, ev)));
          }
        case Marker(id) => MarkerReading(id, rest, ev);
      }
    }
  }

  lemma MarkerReading(id: string, rest: string, ev: Evidence)
    requires ']' !in id && |MarkerText(id)| <= MAX_MARKER_LENGTH + 1
    ensures CutSafe(MarkerText(id) + rest) == CutSafe(rest)
    ensures OneShot(MarkerText(id) + rest, ev)
         == (if id != "" && Grounded(id, ev) then [Cited(id)] else []) + OneShot(rest, ev)
  {
    hide Parse, Shown, Held, MarkerSymbols, CutSafe;
    var m := MarkerText(id);
    MarkerCloses(id);
    FirstInside(m, rest, ']', 2);
    var t := m + rest;
    assert t[..|m|] == m && t[|m|..] == rest;
    ClosedAtStart(t, |m| - 2, ev);
    SafeMarkerFirst(id, rest);
    GroundedMarker(id, ev);
  }

  /** A marker is a citation exactly when its reference was issued and is spelled with letters, digits
      and `_.:-`; otherwise nothing of it is shown. */
  lemma GroundedMarker(id: string, ev: Evidence)
    ensures var issued := id != "" && id in ev.ids;
            var safe := forall c <- id :: c in ev.alnum || c == '_' || c == '.' || c == ':' || c == '-';
            MarkerSymbols("[[cite:" + id + "]]", ev) == if issued && safe then [Cited(id)] else []
    ensures MarkerSymbols(MarkerText(id), ev) == if id != "" && Grounded(id, ev) then [Cited(id)] else []
  {
    var m := MarkerText(id);
    assert m[..|CITATION_PREFIX|] == CITATION_PREFIX && m[|CITATION_PREFIX|..|m| - 2] == id;
    var fs := MarkerFragments(MarkerText(id), ev);
    if Grounded(id, ev) {
      assert fs == [Fragment("", Some(id))];
      assert Symbols(fs) == FragmentSymbols(fs[0]) + Symbols([]);
    }
  }

  /** Any other closed `[[...]]` is prose. */
  lemma OtherMarkerIsProse(marker: string, ev: Evidence)
    requires !("[[cite:" <= marker)
    ensures MarkerSymbols(marker, ev) == Text(marker)
  {
    SymbolsOfText(marker);
  }

  lemma LastPlain(s: string, ev: Evidence)
    requires FindDouble(s, '[', 0).None?
    ensures OneShot(s, ev) == Text(s) && CutSafe(s)
  {
    ShownPlain(s, ev);
    var h := Held(s, ev);
    assert s == s[..|s| - |h|] + h;
    TextAppend(s[..|s| - |h|], h);
  }

  /** Streaming refines reading: any cut of a well-formed text shows what was intended. */
  lemma StreamingShowsTheIntendedText(tokens: seq<Token>, pieces: seq<string>, ev: Evidence)
    requires WellFormed(tokens) && Join(pieces) == Render(tokens)
    ensures Stream("", pieces, ev) == Intended(tokens, ev)
  {
    hide Parse, Shown, Held, MarkerSymbols, CutSafe, OneShot;
    WellFormedReading(tokens, ev);
    CutIndependentIffCutSafe(Render(tokens), ev);
  }

  /** Outside that domain a cut can show: a citation appears inside given-up prose. */
  lemma UnsafeExample(ev: Evidence)
    requires "r" in ev.ids && 'r' in ev.alnum
    ensures !CutSafe("[[a[[cite:r]]") && !CutIndependent("[[a[[cite:r]]", ev)
  {
    var t := "[[a[[cite:r]]";
    FirstDouble(t, '[', 0, 0);
    assert t[0..] == t;
    FirstDouble(t, ']', 2, 11);
    assert t[..13] == t && PrefixAt(t, 3);
    assert Agreement(t) == 2;
    CutIndependentIffCutSafe(t, ev);
  }
}
