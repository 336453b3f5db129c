/**
 The response stream pipeline end to end: model text, through the citation
 projection, into the reducer.

 What the reader sees of a part depends on the model's text alone, the settled
 part is exactly what was forwarded, and every annotation brackets its marker.
 */
module StreamTheory {
  import opened Prelude
  import opened Protocol
  import opened CitationParser
  import opened CutIndependence
  import opened ReducerModel
  import opened ReducerTheory
  import opened CitationProjection

  // ----- annotations locate their markers

  /** One annotation brackets exactly the marker of its reference. */
  ghost predicate Brackets(text: string, a: Annotation, numbers: map<string, nat>) {
    && a.DocumentCitation? && a.start < a.end <= |text|
    && text[a.start..a.end] == "[" + Decimal(a.number) + "]"
    && a.reference in numbers && numbers[a.reference] == a.number
  }

  /** Every annotation brackets its marker, and the ranges are disjoint and increasing. */
  ghost predicate Located(text: string, annotations: seq<Annotation>, numbers: map<string, nat>) {
    && (forall i :: 0 <= i < |annotations| ==> Brackets(text, annotations[i], numbers))
    && (forall i, j :: 0 <= i < j < |annotations| ==>
        annotations[i].DocumentCitation? && annotations[j].DocumentCitation?
            && annotations[i].end <= annotations[j].start)
  }

  ghost predicate LocatedPages(p: Pages) {
    && NumbersOk(p.numbers)
    && p.annotations.Keys <= p.text.Keys && p.buffers.Keys <= p.text.Keys
    && forall k <- p.annotations :: Located(p.text[k], p.annotations[k], p.numbers)
  }

  lemma LocatedGrows(text: string, more: string, annotations: seq<Annotation>, numbers: map<string, nat>,
      numbers': map<string, nat>)
    requires Located(text, annotations, numbers)
    requires forall s <- numbers :: s in numbers' && numbers'[s] == numbers[s]
    ensures Located(text + more, annotations, numbers')
  {
  }

  lemma AppendKeepsLocated(p: Pages, k: Key, s: string)
    requires LocatedPages(p)
    ensures LocatedPages(AppendText(p, k, s))
  {
  }

  lemma CiteKeepsLocated(p: Pages, k: Key, r: string)
    requires LocatedPages(p)
    ensures LocatedPages(Cite(p, k, r).0)
  {
    hide NumbersOk, Decimal, Brackets, Located, Numbered;
    var q := Cite(p, k, r).0;
    NumberedOk(p.numbers, r);
    assert Located(Value(p, k), Lookup(p.annotations, k, []), p.numbers) by { EmptyLocated(Value(p, k), p.numbers); }
    LocatedSnoc(Value(p, k), Lookup(p.annotations, k, []), r, p.numbers, q.numbers);
    forall j <- q.annotations ensures Located(q.text[j], q.annotations[j], q.numbers) {
      if j != k {
        LocatedGrows(p.text[j], "", p.annotations[j], p.numbers, q.numbers);
        assert p.text[j] + "" == p.text[j];
      }
    }
  }

  lemma EmptyLocated(text: string, numbers: map<string, nat>)
    ensures Located(text, [], numbers)
  {
  }

  lemma LocatedSnoc(text: string, existing: seq<Annotation>, r: string, numbers: map<string, nat>,
      numbers': map<string, nat>)
    requires Located(text, existing, numbers) && r in numbers'
    requires forall s <- numbers :: s in numbers' && numbers'[s] == numbers[s]
    ensures var marker := MarkerOf(numbers'[r]);
            Located(text + marker, existing + [DocumentCitation(|text|, |text| + |marker|, r, numbers'[r])], numbers')
  {
  }

  lemma FragmentKeepsLocated(p: Pages, k: Key, f: Fragment)
    requires LocatedPages(p)
    ensures LocatedPages(ShowFragment(p, k, f).0)
  {
    hide LocatedPages, Cite, AppendText;
    AppendKeepsLocated(p, k, f.text);
    if f.reference.Some? {
      CiteKeepsLocated(if f.text == "" then p else AppendText(p, k, f.text), k, f.reference.value);
    }
  }

  lemma {:induction false} FragmentsKeepLocated(p: Pages, k: Key, fs: seq<Fragment>)
    requires LocatedPages(p)
    ensures LocatedPages(ShowFragments(p, k, fs).0)
    decreases fs
  {
    hide LocatedPages, ShowFragment;
    if fs != [] {
      FragmentKeepsLocated(p, k, fs[0]);
      FragmentsKeepLocated(ShowFragment(p, k, fs[0]).0, k, fs[1..]);
    }
  }

  /** A held buffer and an empty text concern no annotation. */
  lemma BufferKeepsLocated(p: Pages, k: Key, buffers: map<Key, string>)
    requires LocatedPages(p) && buffers.Keys <= p.text.Keys + {k}
    ensures LocatedPages(p.(text := SetDefault(p.text, k, ""), buffers := buffers))
  {
  }

  /** Every event keeps every annotation bracketing its own marker. */
  lemma ProjectKeepsLocated(p: Pages, e: Event, ev: Evidence)
    requires LocatedPages(p)
    ensures LocatedPages(Project(p, e, ev).0)
  {
    hide LocatedPages, ShowFragments, AppendText, Parse, RewrittenParts, RewrittenPart;
    match e {
      case TextDelta(o, c, delta) =>
        var k := (o, c);
        var parsed := Parse(Lookup(p.buffers, k, "") + delta, ev);
        DeltaKeepsLocated(p, k, parsed.0, parsed.1);
      case TextDone(o, c, _) =>
        var k := (o, c);
        FlushKeepsLocated(p, k);
      case _ =>
    }
  }

  lemma DeltaKeepsLocated(p: Pages, k: Key, fs: seq<Fragment>, held: string)
    requires LocatedPages(p)
    ensures var q := ShowFragments(p.(buffers := p.buffers[k := held]), k, fs).0;
            LocatedPages(q.(text := SetDefault(q.text, k, "")))
  {
    var start := p.(text := SetDefault(p.text, k, ""), buffers := p.buffers[k := held]);
    BufferKeepsLocated(p, k, p.buffers[k := held]);
    FragmentsKeepLocated(start, k, fs);
    OpeningAPage(p.(buffers := p.buffers[k := held]), k, fs);
  }

  /** Opening an empty page before or after showing fragments on it is the same. */
  lemma {:induction false} OpeningAPage(p: Pages, k: Key, fs: seq<Fragment>)
    ensures var q := ShowFragments(p, k, fs).0;
            ShowFragments(p.(text := SetDefault(p.text, k, "")), k, fs).0 == q.(text := SetDefault(q.text, k, ""))
    decreases fs
  {
    hide Decimal, Numbered, Cite;
    if fs != [] {
      var f, open := fs[0], p.(text := SetDefault(p.text, k, ""));
      var q := ShowFragment(p, k, f).0;
      if f.text == "" && (f.reference.None? || f.reference.value == "") {
        OpeningAPage(p, k, fs[1..]);
      } else {
        SamePageOpened(p, k, f);
        OpenPageStaysOpen(q, k, fs[1..]);
      }
    }
  }

  lemma SamePageOpened(p: Pages, k: Key, f: Fragment)
    requires f.text != "" || (f.reference.Some? && f.reference.value != "")
    ensures ShowFragment(p.(text := SetDefault(p.text, k, "")), k, f) == ShowFragment(p, k, f)
    ensures k in ShowFragment(p, k, f).0.text
  {
    hide Decimal, Numbered, MarkerOf;
    var open := p.(text := SetDefault(p.text, k, ""));
    forall s: string ensures AppendText(open, k, s) == AppendText(p, k, s) {
      assert open.text[k := Value(p, k) + s] == p.text[k := Value(p, k) + s];
    }
  }

  lemma {:induction false} OpenPageStaysOpen(p: Pages, k: Key, fs: seq<Fragment>)
    requires k in p.text
    ensures k in ShowFragments(p, k, fs).0.text
    decreases fs
  {
    if fs != [] {
      OpenPageStaysOpen(ShowFragment(p, k, fs[0]).0, k, fs[1..]);
    }
  }

  lemma NoPageNoBuffer(p: Pages, k: Key)
    requires LocatedPages(p)
    ensures (p.buffers - {k}).Keys <= p.text.Keys
    ensures k !in p.text ==> p.buffers - {k} == p.buffers && k !in p.buffers
  {
  }

  lemma FlushKeepsLocated(p: Pages, k: Key)
    requires LocatedPages(p)
    ensures LocatedPages(Flush(p, k).0)
  {
    hide LocatedPages, AppendText;
    NoPageNoBuffer(p, k);
    if k in p.text {
      BufferKeepsLocated(p, k, p.buffers - {k});
      assert SetDefault(p.text, k, "") == p.text;
      AppendKeepsLocated(p.(buffers := p.buffers - {k}), k, Lookup(p.buffers, k, ""));
    }
  }

  // ----- what a page reads, symbol by symbol

  /** One part as the reader has it. */
  datatype Page = Page(text: string, annotations: seq<Annotation>, numbers: map<string, nat>)

  function PageAt(p: Pages, k: Key): Page {
    Page(Value(p, k), Lookup(p.annotations, k, []), p.numbers)
  }

  function ReadSymbol(page: Page, s: Symbol): Page {
    match s
    case Visible(c) => page.(text := page.text + [c])
    case Cited(r) =>
      var numbers := Numbered(page.numbers, r);
      var marker := MarkerOf(numbers[r]);
      Page(page.text + marker,
           page.annotations + [DocumentCitation(|page.text|, |page.text| + |marker|, r, numbers[r])],
           numbers)
  }

  /** The reference: a page is its symbols, read one after the other. */
  function Read(page: Page, symbols: seq<Symbol>): Page
    decreases symbols
  {
    if symbols == [] then page else Read(ReadSymbol(page, symbols[0]), symbols[1..])
  }

  lemma {:induction false} ReadAppend(page: Page, a: seq<Symbol>, b: seq<Symbol>)
    ensures Read(page, a + b) == Read(Read(page, a), b)
    decreases a
  {
    hide ReadSymbol;
    if a == [] {
      assert a + b == b;
    } else {
      assert (a + b)[1..] == a[1..] + b;
      ReadAppend(ReadSymbol(page, a[0]), a[1..], b);
    }
  }

  lemma {:induction false} ReadText(page: Page, s: string)
    ensures Read(page, Text(s)) == page.(text := page.text + s)
    decreases s
  {
    if s == "" {
      assert page.text + s == page.text;
    } else {
      assert Text(s)[1..] == Text(s[1..]);
      ReadText(page.(text := page.text + [s[0]]), s[1..]);
      assert page.text + [s[0]] + s[1..] == page.text + s;
    }
  }

  lemma CiteReads(p: Pages, k: Key, r: string)
    ensures PageAt(Cite(p, k, r).0, k) == ReadSymbol(PageAt(p, k), Cited(r)) && Cite(p, k, r).0.buffers == p.buffers
  {
  }

  lemma FragmentReads(p: Pages, k: Key, f: Fragment)
    ensures PageAt(ShowFragment(p, k, f).0, k) == Read(PageAt(p, k), FragmentSymbols(f))
    ensures ShowFragment(p, k, f).0.buffers == p.buffers
  {
    hide Cite, ReadSymbol;
    var page := PageAt(p, k);
    ReadText(page, f.text);
    var cited := if f.reference.Some? && f.reference.value != "" then [Cited(f.reference.value)] else [];
    ReadAppend(page, Text(f.text), cited);
    if cited != [] {
      assert cited[1..] == [];
      var q := if f.text == "" then p else AppendText(p, k, f.text);
      assert PageAt(q, k) == page.(text := page.text + f.text);
      CiteReads(q, k, f.reference.value);
    }
  }

  lemma {:induction false} FragmentsRead(p: Pages, k: Key, fs: seq<Fragment>)
    ensures PageAt(ShowFragments(p, k, fs).0, k) == Read(PageAt(p, k), Symbols(fs))
    ensures ShowFragments(p, k, fs).0.buffers == p.buffers
    decreases fs
  {
    hide ShowFragment, FragmentSymbols;
    if fs != [] {
      FragmentReads(p, k, fs[0]);
      FragmentsRead(ShowFragment(p, k, fs[0]).0, k, fs[1..]);
      ReadAppend(PageAt(p, k), FragmentSymbols(fs[0]), Symbols(fs[1..]));
    }
  }

  lemma DeltaReads(p: Pages, k: Key, delta: string, ev: Evidence)
    ensures var s := Lookup(p.buffers, k, "") + delta;
            PageAt(ShowDelta(p, k, delta, ev).0, k) == Read(PageAt(p, k), Shown(s, ev))
            && Lookup(ShowDelta(p, k, delta, ev).0.buffers, k, "") == Held(s, ev)
  {
    hide Parse, ShowFragments;
    var parsed := Parse(Lookup(p.buffers, k, "") + delta, ev);
    FragmentsRead(p.(buffers := p.buffers[k := parsed.1]), k, parsed.0);
  }

  /** A part's deltas, one after the other. */
  function ShowDeltas(p: Pages, k: Key, pieces: seq<string>, ev: Evidence): Pages
    decreases pieces
  {
    if pieces == [] then p else ShowDeltas(ShowDelta(p, k, pieces[0], ev).0, k, pieces[1..], ev)
  }

  /** The settled page is the one-by-one reading of what the stream shows. */
  lemma {:induction false} StreamReads(p: Pages, k: Key, pieces: seq<string>, ev: Evidence)
    ensures PageAt(Flush(ShowDeltas(p, k, pieces, ev), k).0, k)
         == Read(PageAt(p, k), Stream(Lookup(p.buffers, k, ""), pieces, ev))
    decreases pieces
  {
    hide ShowDelta, Shown, Held, Flush;
    var held := Lookup(p.buffers, k, "");
    if pieces == [] {
      FlushReads(p, k);
    } else {
      DeltaReads(p, k, pieces[0], ev);
      var q := ShowDelta(p, k, pieces[0], ev).0;
      StreamReads(q, k, pieces[1..], ev);
      ReadAppend(PageAt(p, k), Shown(held + pieces[0], ev), Stream(Held(held + pieces[0], ev), pieces[1..], ev));
    }
  }

  lemma FlushReads(p: Pages, k: Key)
    ensures PageAt(Flush(p, k).0, k) == Read(PageAt(p, k), Text(Lookup(p.buffers, k, "")))
  {
    ReadText(PageAt(p, k), Lookup(p.buffers, k, ""));
    assert Value(p, k) + "" == Value(p, k);
  }

  /**
   The text and the annotations of a settled part do not depend on how the model's
   text was cut into deltas.
   */
  lemma SettledPageIgnoresTheCut(p: Pages, k: Key, a: seq<string>, b: seq<string>, ev: Evidence)
    requires Lookup(p.buffers, k, "") == "" && Join(a) == Join(b) && CutSafe(Join(a))
    ensures PageAt(Flush(ShowDeltas(p, k, a, ev), k).0, k) == PageAt(Flush(ShowDeltas(p, k, b, ev), k).0, k)
  {
    hide Flush, CutSafe, OneShot, Stream;
    StreamReads(p, k, a, ev);
    StreamReads(p, k, b, ev);
    CutIndependentIffCutSafe(Join(a), ev);
  }

  /** A well-formed text settles as its prose with `[n]` for every grounded marker. */
  lemma SettledPageReadsTheIntendedText(p: Pages, k: Key, tokens: seq<Token>, pieces: seq<string>, ev: Evidence)
    requires Lookup(p.buffers, k, "") == "" && WellFormed(tokens) && Join(pieces) == Render(tokens)
    ensures PageAt(Flush(ShowDeltas(p, k, pieces, ev), k).0, k) == Read(PageAt(p, k), Intended(tokens, ev))
  {
    hide Flush, Stream, Intended;
    StreamReads(p, k, pieces, ev);
    StreamingShowsTheIntendedText(tokens, pieces, ev);
  }
}
