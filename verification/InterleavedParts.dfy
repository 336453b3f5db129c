/**
 What each part of an interleaved stream reads: its own text events decide, and the
 stream as a whole only gives the numbers.
 */
module InterleavedParts {
  import opened Prelude
  import opened Protocol
  import opened CitationParser
  import opened ReducerModel
  import opened ReducerTheory
  import opened CitationProjection
  import opened CutIndependence
  import opened StreamTheory
  import opened StreamPipeline
  import opened MessageStream
  import opened ProviderStreams

  // ----- what one part reads, whatever is streamed in between

  /** The text events of one part. */
  predicate IsTextOf(e: Event, k: Key) { (e.TextDelta? || e.TextDone?) && (e.output, e.content) == k }

  function TextOf(events: seq<Event>, k: Key): seq<Event> {
    if events == [] then []
    else if IsTextOf(events[0], k) then [events[0]] + TextOf(events[1..], k)
    else TextOf(events[1..], k)
  }

  /** The symbols that one event shows of a part, and what is held after it. */
  function ShownOne(e: Event, k: Key, held: string, ev: Evidence): (seq<Symbol>, string) {
    if !IsTextOf(e, k) then ([], held)
    else if e.TextDone? then (Text(held), "")
    else (Shown(held + e.delta, ev), Held(held + e.delta, ev))
  }

  function ShownBy(events: seq<Event>, k: Key, held: string, ev: Evidence): (seq<Symbol>, string)
    decreases events
  {
    if events == [] then ([], held)
    else
      var (first, kept) := ShownOne(events[0], k, held, ev);
      var (rest, left) := ShownBy(events[1..], k, kept, ev);
      (first + rest, left)
  }

  /** What a part shows is a matter of its own text events. */
  lemma {:induction false} OwnTextShows(events: seq<Event>, k: Key, held: string, ev: Evidence)
    ensures ShownBy(TextOf(events, k), k, held, ev) == ShownBy(events, k, held, ev)
    decreases events
  {
    hide Shown, Held;
    if events != [] {
      var e, own := events[0], TextOf(events[1..], k);
      var (first, kept) := ShownOne(e, k, held, ev);
      OwnTextShows(events[1..], k, kept, ev);
      if IsTextOf(e, k) {
        assert TextOf(events, k)[0] == e && TextOf(events, k)[1..] == own;
      } else {
        var rest := ShownBy(events[1..], k, held, ev).0;
        assert [] + rest == rest;
      }
    }
  }

  /** Deltas and the end of the text show what the text shows in pieces. */
  lemma {:induction false} DeltasShow(k: Key, pieces: seq<string>, raw: string, held: string, ev: Evidence)
    ensures ShownBy(Deltas(k, pieces) + [TextDone(k.0, k.1, raw)], k, held, ev) == (Stream(held, pieces, ev), "")
    decreases pieces
  {
    hide Shown, Held;
    var done := TextDone(k.0, k.1, raw);
    if pieces == [] {
      assert [] + [done] == [done] && [done][1..] == [] && Text(held) + [] == Text(held);
    } else {
      var e, more := TextDelta(k.0, k.1, pieces[0]), Deltas(k, pieces[1..]) + [done];
      assert Deltas(k, pieces) + [done] == [e] + more && ([e] + more)[1..] == more && IsTextOf(e, k);
      DeltasShow(k, pieces[1..], raw, Held(held + pieces[0], ev), ev);
    }
  }

  /** Numbers that were given stay. */
  ghost predicate Grows(a: map<string, nat>, b: map<string, nat>) {
    forall r <- a :: r in b && b[r] == a[r]
  }

  lemma {:induction false} ReadGrows(page: Page, symbols: seq<Symbol>)
    ensures Grows(page.numbers, Read(page, symbols).numbers)
    decreases symbols
  {
    hide Decimal, MarkerOf;
    if symbols != [] { ReadGrows(ReadSymbol(page, symbols[0]), symbols[1..]); }
  }

  /** Symbols read the same with the numbers that are known later. */
  lemma {:induction false} ReadsTheSameLater(page: Page, symbols: seq<Symbol>, later: map<string, nat>)
    requires Grows(Read(page, symbols).numbers, later)
    ensures Read(page.(numbers := later), symbols) == Read(page, symbols).(numbers := later)
    decreases symbols
  {
    hide ReadSymbol;
    if symbols != [] {
      var next := ReadSymbol(page, symbols[0]);
      ReadGrows(next, symbols[1..]);
      SymbolReadsTheSameLater(page, symbols[0], later);
      ReadsTheSameLater(next, symbols[1..], later);
    }
  }

  lemma SymbolReadsTheSameLater(page: Page, s: Symbol, later: map<string, nat>)
    requires Grows(ReadSymbol(page, s).numbers, later)
    ensures ReadSymbol(page.(numbers := later), s) == ReadSymbol(page, s).(numbers := later)
  {
    hide Decimal, MarkerOf;
  }

  /** The page of `k` is the reading of these symbols with the numbers known by now. */
  ghost predicate ReadsAs(p: Pages, k: Key, symbols: seq<Symbol>) {
    PageAt(p, k) == Read(Page("", [], p.numbers), symbols)
  }

  lemma {:induction false} FragmentsGrow(p: Pages, k: Key, fs: seq<Fragment>)
    ensures Grows(p.numbers, ShowFragments(p, k, fs).0.numbers)
    decreases fs
  {
    hide Decimal, MarkerOf;
    if fs != [] { FragmentsGrow(ShowFragment(p, k, fs[0]).0, k, fs[1..]); }
  }

  /** The page of `k` and what it holds are as before; numbers may be new. */
  ghost predicate LeavesIt(p: Pages, q: Pages, k: Key) {
    && Value(q, k) == Value(p, k) && Lookup(q.annotations, k, []) == Lookup(p.annotations, k, [])
    && Lookup(q.buffers, k, "") == Lookup(p.buffers, k, "") && Grows(p.numbers, q.numbers)
  }

  lemma OtherPartsLeaveIt(p: Pages, e: Event, ev: Evidence, k: Key)
    requires ev.ids != {} && !IsTextOf(e, k)
    ensures LeavesIt(p, Project(p, e, ev).0, k)
  {
    hide ShowDelta, Flush, RewrittenParts, RewrittenPart;
    match e {
      case TextDelta(o, c, delta) => DeltaLeavesOthers(p, (o, c), delta, ev, k);
      case TextDone(o, c, _) => FlushLeavesOthers(p, (o, c), k);
      case _ =>
    }
  }

  lemma DeltaLeavesOthers(p: Pages, own: Key, delta: string, ev: Evidence, k: Key)
    requires own != k
    ensures LeavesIt(p, ShowDelta(p, own, delta, ev).0, k)
  {
    hide ShowFragments, Parse, Symbols;
    var parsed := Parse(Lookup(p.buffers, own, "") + delta, ev);
    var start := p.(buffers := p.buffers[own := parsed.1]);
    DeltaOnlyPage(p, own, delta, ev);
    FragmentsRead(start, own, parsed.0);
    FragmentsGrow(start, own, parsed.0);
  }

  lemma FlushLeavesOthers(p: Pages, own: Key, k: Key)
    requires own != k
    ensures LeavesIt(p, Flush(p, own).0, k)
  {
    FlushOnlyPage(p, own);
  }

  lemma StepReads(p: Pages, e: Event, ev: Evidence, k: Key, symbols: seq<Symbol>)
    requires ev.ids != {} && ReadsAs(p, k, symbols)
    ensures var (more, held) := ShownOne(e, k, Lookup(p.buffers, k, ""), ev);
            var q := Project(p, e, ev).0;
            ReadsAs(q, k, symbols + more) && Lookup(q.buffers, k, "") == held
  {
    hide ShowDelta, Flush, Shown, Held, Read, ReadSymbol, RewrittenParts, RewrittenPart;
    var q, held, start := Project(p, e, ev).0, Lookup(p.buffers, k, ""), Page("", [], p.numbers);
    var more := ShownOne(e, k, held, ev).0;
    if e.TextDelta? && IsTextOf(e, k) {
      DeltaReads(p, k, e.delta, ev);
    } else if IsTextOf(e, k) {
      FlushReads(p, k);
      FlushHoldsNothing(p, k);
    } else {
      OtherPartsLeaveIt(p, e, ev, k);
      assert symbols + more == symbols;
      ReadsTheSameLater(start, symbols, q.numbers);
    }
    if IsTextOf(e, k) {
      ReadAppend(start, symbols, more);
      SameReading(start, symbols + more, q, k);
    }
  }

  lemma SameReading(start: Page, symbols: seq<Symbol>, q: Pages, k: Key)
    requires PageAt(q, k) == Read(start, symbols) && start.text == "" && start.annotations == []
    ensures ReadsAs(q, k, symbols)
  {
    ReadsTheSameLater(start, symbols, q.numbers);
  }

  lemma FlushHoldsNothing(p: Pages, k: Key)
    ensures Lookup(Flush(p, k).0.buffers, k, "") == ""
  {
  }

  /** However streams of several parts are interleaved, each page reads what its own events show. */
  lemma {:induction false} PageReadsItsOwn(p: Pages, events: seq<Event>, ev: Evidence, k: Key, symbols: seq<Symbol>)
    requires ev.ids != {} && ReadsAs(p, k, symbols)
    ensures var q := ProjectAll(p, events, ev).0;
            var (more, held) := ShownBy(events, k, Lookup(p.buffers, k, ""), ev);
            ReadsAs(q, k, symbols + more) && Lookup(q.buffers, k, "") == held
    decreases events
  {
    hide Project, ReadsAs, ShownOne;
    if events == [] {
      assert symbols + [] == symbols;
    } else {
      var e, held := events[0], Lookup(p.buffers, k, "");
      var (first, kept) := ShownOne(e, k, held, ev);
      StepReads(p, e, ev, k, symbols);
      PageReadsItsOwn(Project(p, e, ev).0, events[1..], ev, k, symbols + first);
      var (rest, left) := ShownBy(events[1..], k, kept, ev);
      assert symbols + first + rest == symbols + (first + rest);
    }
  }

  /** The end of a part's text leaves the part there, whatever follows. */
  lemma {:induction false} FeedKeepsPart(slot: Slot, o: nat, events: seq<Event>, c: nat, calls: bool)
    requires c in slot.parts
    ensures c in Feed(slot, o, events, calls).parts
    decreases events
  {
    if events != [] {
      StepKeepsPart(slot, o, events[0], c, calls);
      FeedKeepsPart(SlotStep(slot, o, events[0], calls), o, events[1..], c, calls);
    }
  }

  lemma StepKeepsPart(slot: Slot, o: nat, e: Event, c: nat, calls: bool)
    requires c in slot.parts
    ensures c in SlotStep(slot, o, e, calls).parts
  {
    hide Placed, Phased, Addressed;
    match e {
      case Opened(r) => if o < |r.output| { PlacedKeepsPart(slot, r.output[o], true, c); }
      case Settled(_, r) =>
        if o < |r.output| { PlacedKeepsPart(slot, r.output[o], true, c); }
        PhasedKeepsParts(slot, calls);
        if o < |r.output| { PhasedKeepsParts(Placed(slot, r.output[o], true), calls); }
      case StreamError(_, _) =>
      case _ => AddressedKeepsPart(slot, e, c);
    }
  }

  lemma AddressedKeepsPart(slot: Slot, e: Event, c: nat)
    requires !e.Lifecycle() && c in slot.parts
    ensures c in Addressed(slot, e).parts
  {
    hide Placed;
    match e {
      case ItemAdded(_, item) => PlacedKeepsPart(slot, item, false, c);
      case ItemDone(_, item) => PlacedKeepsPart(slot, item, true, c);
      case _ =>
    }
  }

  lemma PlacedKeepsPart(slot: Slot, item: Item, done: bool, c: nat)
    requires c in slot.parts
    ensures c in Placed(slot, item, done).parts
  {
    var started := slot.(shell := Some(ShellOf(item, done)));
    match item {
      case Message(_, _, _, _, content) => PartsKeepPart(started, content, |content|, c);
      case Reasoning(_, _, content, summary, _) =>
        PartsKeepPart(started, content, |content|, c);
        SummaryKeepsParts(WithParts(started, content, |content|), summary, |summary|);
      case _ =>
    }
  }

  lemma {:induction false} PartsKeepPart(slot: Slot, parts: seq<Part>, n: nat, c: nat)
    requires n <= |parts| && c in slot.parts
    ensures c in WithParts(slot, parts, n).parts
  {
    if n > 0 { PartsKeepPart(slot, parts, n - 1, c); }
  }

  lemma {:induction false} EndedPartIsThere(p: Pages, o: nat, c: nat, slot: Slot, events: seq<Event>, ev: Evidence,
      calls: bool)
    requires ev.ids != {} && exists e :: e in events && e.TextDone? && IsTextOf(e, (o, c))
    ensures c in Feed(slot, o, ProjectAll(p, events, ev).1, calls).parts
    decreases events
  {
    hide Project, SlotStep;
    var (q, first) := Project(p, events[0], ev);
    var rest := ProjectAll(q, events[1..], ev).1;
    FeedAppend(slot, o, first, rest, calls);
    var e :| e in events && e.TextDone? && IsTextOf(e, (o, c));
    if e == events[0] {
      DonePlacesPart(p, o, c, slot, e.text, ev, calls);
      FeedKeepsPart(Feed(slot, o, first, calls), o, rest, c, calls);
    } else {
      assert e in events[1..];
      EndedPartIsThere(q, o, c, Feed(slot, o, first, calls), events[1..], ev, calls);
    }
  }

  lemma DonePlacesPart(p: Pages, o: nat, c: nat, slot: Slot, text: string, ev: Evidence, calls: bool)
    requires ev.ids != {}
    ensures c in Feed(slot, o, Project(p, TextDone(o, c, text), ev).1, calls).parts
  {
    hide Flush, Feed;
    var (q, flushed) := Flush(p, (o, c));
    var done := TextDone(o, c, Value(q, (o, c)));
    FeedAppend(slot, o, flushed, [done], calls);
    FeedOne(Feed(slot, o, flushed, calls), o, done, calls);
  }

  lemma {:induction false} TextOfHas(events: seq<Event>, k: Key)
    ensures forall e :: e in TextOf(events, k) <==> e in events && IsTextOf(e, k)
  {
    if events != [] {
      TextOfHas(events[1..], k);
      assert events == [events[0]] + events[1..];
    }
  }

  /**
   End to end for streams of many items and parts: however their events are
   interleaved, a part whose text is well formed and came in at least one delta is
   stored as its prose with `[n]` and an annotation for every grounded marker,
   numbered as the whole stream numbers its references.
   */
  lemma InterleavedPartReadsTheIntendedText(numbers: map<string, nat>, o: nat, c: nat, all: seq<Event>,
      tokens: seq<Token>, pieces: seq<string>, raw: string, ev: Evidence, calls: bool)
    requires ev.ids != {} && NumbersOk(numbers) && InShape(all, o)
    requires TextOf(all, (o, c)) == Deltas((o, c), pieces) + [TextDone(o, c, raw)]
    requires pieces != [] && WellFormed(tokens) && Join(pieces) == Render(tokens)
    ensures var (q, forwarded) := ProjectAll(NO_PAGES.(numbers := numbers), all, ev);
            var slot := Feed(EMPTY_SLOT, o, forwarded, calls);
            var page := Read(Page("", [], q.numbers), Intended(tokens, ev));
            c in slot.parts && ViewPart(slot, c) == OutputText(page.text, page.annotations)
  {
    hide Project, Disciplined, InShape, Feed, ProjectAll, HasDelta, LocatedPages, Agree, Intended, Render, WellFormed,
         Stream, Read, TextOf, Matches;
    var p, k := NO_PAGES.(numbers := numbers), (o, c);
    TextOfHas(all, k);
    ItsFirstDelta(all, k, pieces, raw);
    NothingIsLocated(numbers, o);
    ShapedIsDisciplined(numbers, o, all, ev, calls);
    StreamAgrees(p, o, EMPTY_SLOT, all, ev, calls);
    PageIffDelta(p, all, ev, k);
    var (q, forwarded) := ProjectAll(p, all, ev);
    var slot := Feed(EMPTY_SLOT, o, forwarded, calls);
    PageMatches(q, o, c, slot);
    EndedPartIsThere(p, o, c, EMPTY_SLOT, all, ev, calls);
    MatchedView(PageAt(q, k), slot, c);
    NothingRead(numbers, k);
    PageReadsItsOwn(p, all, ev, k, []);
    OwnTextShows(all, k, "", ev);
    DeltasShow(k, pieces, raw, "", ev);
    StreamingShowsTheIntendedText(tokens, pieces, ev);
    assert [] + Intended(tokens, ev) == Intended(tokens, ev);
  }

  lemma ItsFirstDelta(all: seq<Event>, k: Key, pieces: seq<string>, raw: string)
    requires pieces != [] && TextOf(all, k) == Deltas(k, pieces) + [TextDone(k.0, k.1, raw)]
    ensures HasDelta(all, k) && exists e :: e in all && e.TextDone? && IsTextOf(e, k)
  {
    TextOfHas(all, k);
    var first, done := TextDelta(k.0, k.1, pieces[0]), TextDone(k.0, k.1, raw);
    assert TextOf(all, k)[0] == first && TextOf(all, k)[|Deltas(k, pieces)|] == done;
    assert first in TextOf(all, k) && done in TextOf(all, k);
    assert IsDeltaOf(first, k) && IsTextOf(done, k);
  }

  lemma NothingRead(numbers: map<string, nat>, k: Key)
    ensures ReadsAs(NO_PAGES.(numbers := numbers), k, [])
  {
  }

  // ----- messages that are streamed side by side

  /** Openings carry no items, and a response settles with its last event. */
  ghost predicate OrdinaryLifecycle(events: seq<Event>) {
    && (forall e <- events :: e.Opened? ==> e.response.output == [])
    && forall n :: 0 <= n < |events| - 1 ==> !events[n].Settled?
  }

  /** The events of an index give the whole stream its shape there. */
  lemma {:induction false} ShapedByOwn(all: seq<Event>, before: seq<Event>, rest: seq<Event>, o: nat)
    requires all == before + rest && OrdinaryLifecycle(rest) && ItemSeen(all, o)
    requires Shaped(AddressedTo(all, o), AddressedTo(before, o), AddressedTo(rest, o), o)
    ensures Shaped(all, before, rest, o)
    decreases rest
  {
    hide EventInShape, ItemSeen;
    if rest != [] {
      var e, more := rest[0], AddressedTo(rest[1..], o);
      assert all == before + [e] + rest[1..] && rest == [e] + rest[1..];
      AddressedToSnoc(before, e, o);
      if !e.Lifecycle() && e.output == o {
        assert AddressedTo(rest, o) == [e] + more && ([e] + more)[1..] == more;
        SameShapeByOwn(all, before, e, o);
      } else {
        assert AddressedTo(rest, o) == more && AddressedTo(before, o) + [] == AddressedTo(before, o);
        LifecycleInShape(all, before, rest, o);
      }
      assert OrdinaryLifecycle(rest[1..]) by { RestIsOrdinary(rest); }
      ShapedByOwn(all, before + [e], rest[1..], o);
    }
  }

  lemma RestIsOrdinary(events: seq<Event>)
    requires events != [] && OrdinaryLifecycle(events)
    ensures OrdinaryLifecycle(events[1..])
  {
    forall n | 0 <= n < |events[1..]| - 1 ensures !events[1..][n].Settled? {
      assert !events[n + 1].Settled?;
    }
  }

  lemma LifecycleInShape(all: seq<Event>, before: seq<Event>, rest: seq<Event>, o: nat)
    requires rest != [] && all == before + rest && OrdinaryLifecycle(rest) && ItemSeen(all, o)
    requires rest[0].Lifecycle() || rest[0].output != o
    ensures EventInShape(all, before, rest[0], o)
  {
    if rest[0].Settled? {
      var e :| e in all && OpensItem(e, o);
      assert |rest| == 1 && rest == [rest[0]] && e in before;
    }
  }

  lemma {:induction false} AddressedToHas(events: seq<Event>, o: nat)
    ensures forall e :: e in AddressedTo(events, o) <==> e in events && !e.Lifecycle() && e.output == o
  {
    if events != [] {
      AddressedToHas(events[1..], o);
      assert events == [events[0]] + events[1..];
    }
  }

  lemma AddressedToNone(o: nat)
    ensures AddressedTo([], o) == []
  {
  }

  lemma AddressedToFirst(e: Event, rest: seq<Event>, o: nat)
    ensures AddressedTo([e] + rest, o) == (if IsOwn(e, o) then [e] else []) + AddressedTo(rest, o)
  {
    assert ([e] + rest)[1..] == rest;
  }

  predicate IsOwn(e: Event, o: nat) { !e.Lifecycle() && e.output == o }

  lemma {:induction false} AddressedToSnoc(events: seq<Event>, e: Event, o: nat)
    ensures AddressedTo(events + [e], o) == AddressedTo(events, o) + if IsOwn(e, o) then [e] else []
  {
    hide AddressedTo, IsOwn;
    AddressedToNone(o);
    if events == [] {
      AddressedToFirst(e, [], o);
      assert [] + [e] == [e] && [e] + [] == [e];
    } else {
      var first, rest := events[0], events[1..];
      assert events == [first] + rest && events + [e] == [first] + (rest + [e]);
      AddressedToFirst(first, rest, o);
      AddressedToFirst(first, rest + [e], o);
      AddressedToSnoc(rest, e, o);
    }
  }

  lemma SameShapeByOwn(all: seq<Event>, before: seq<Event>, e: Event, o: nat)
    requires !e.Lifecycle()
    ensures EventInShape(AddressedTo(all, o), AddressedTo(before, o), e, o) <==> EventInShape(all, before, e, o)
  {
    hide AddressedTo, HasDelta;
    SameDeltas(all, o);
    SameDeltas(before, o);
  }

  lemma SameDeltas(events: seq<Event>, o: nat)
    ensures forall c: nat :: HasDelta(AddressedTo(events, o), (o, c)) <==> HasDelta(events, (o, c))
  {
    AddressedToHas(events, o);
  }

  lemma {:induction false} TextOfOwn(events: seq<Event>, o: nat, c: nat)
    ensures TextOf(AddressedTo(events, o), (o, c)) == TextOf(events, (o, c))
  {
    if events != [] {
      var e, own := events[0], AddressedTo(events[1..], o);
      TextOfOwn(events[1..], o, c);
      if !e.Lifecycle() && e.output == o {
        assert AddressedTo(events, o) == [e] + own && ([e] + own)[1..] == own;
      } else {
        assert AddressedTo(events, o) == own;
      }
    }
  }

  lemma {:induction false} TextOfAppend(a: seq<Event>, b: seq<Event>, k: Key)
    ensures TextOf(a + b, k) == TextOf(a, k) + TextOf(b, k)
  {
    if a == [] {
      assert a + b == b;
    } else {
      assert (a + b)[1..] == a[1..] + b;
      TextOfAppend(a[1..], b, k);
    }
  }

  lemma {:induction false} TextOfDeltas(k: Key, pieces: seq<string>)
    ensures TextOf(Deltas(k, pieces), k) == Deltas(k, pieces)
  {
    if pieces != [] {
      assert Deltas(k, pieces)[1..] == Deltas(k, pieces[1..]);
      TextOfDeltas(k, pieces[1..]);
    }
  }

  lemma {:induction false} NoText(events: seq<Event>, k: Key)
    requires forall e <- events :: !IsTextOf(e, k)
    ensures TextOf(events, k) == []
  {
    if events != [] {
      assert events[0] in events;
      NoText(events[1..], k);
    }
  }

  lemma OneText(e: Event, k: Key)
    requires IsTextOf(e, k)
    ensures TextOf([e], k) == [e]
  {
    assert [e][1..] == [] && [e] + [] == [e];
  }

  lemma TextOfMessage(o: nat, first: Header, pieces: seq<string>, last: Header, raw: string)
    ensures TextOf(MessageEvents(o, first, pieces, last, raw), (o, 0))
         == Deltas((o, 0), pieces) + [TextDone(o, 0, raw)]
  {
    hide Deltas, TextOf;
    var k, closing := (o, 0), Closing(o, last, raw);
    TextOfAppend(Opening(o, first) + Deltas(k, pieces), closing, k);
    TextOfAppend(Opening(o, first), Deltas(k, pieces), k);
    TextOfDeltas(k, pieces);
    NoText(Opening(o, first), k);
    NoText([closing[1], closing[2]], k);
    TextOfAppend([closing[0]], [closing[1], closing[2]], k);
    assert closing == [closing[0]] + [closing[1], closing[2]];
    OneText(closing[0], k);
    assert [] + Deltas(k, pieces) == Deltas(k, pieces) && [closing[0]] + [] == [closing[0]];
  }

  /** Any number of messages streamed side by side: each is stored as if it had been alone, but for
      the numbers, which the whole stream gives. */
  lemma MessagesSideBySide(numbers: map<string, nat>, o: nat, all: seq<Event>, first: Header, tokens: seq<Token>,
      pieces: seq<string>, last: Header, raw: string, ev: Evidence, calls: bool)
    requires ev.ids != {} && NumbersOk(numbers) && OrdinaryLifecycle(all)
    requires AddressedTo(all, o) == MessageEvents(o, first, pieces, last, raw)
    requires pieces != [] && WellFormed(tokens) && Join(pieces) == Render(tokens)
    ensures var (q, forwarded) := ProjectAll(NO_PAGES.(numbers := numbers), all, ev);
            var slot := Feed(EMPTY_SLOT, o, forwarded, calls);
            var page := Read(Page("", [], q.numbers), Intended(tokens, ev));
            0 in slot.parts && ViewPart(slot, 0) == OutputText(page.text, page.annotations)
  {
    hide ProjectAll, Feed, Intended, Read, TextOf, Render, WellFormed, Shaped, AddressedTo, MessageEvents;
    MessageIsSeen(all, o, first, pieces, last, raw);
    MessageInShape(o, first, pieces, last, raw);
    AddressedToNone(o);
    assert [] + all == all;
    ShapedByOwn(all, [], all, o);
    TextOfOwn(all, o, 0);
    TextOfMessage(o, first, pieces, last, raw);
    InterleavedPartReadsTheIntendedText(numbers, o, 0, all, tokens, pieces, raw, ev, calls);
  }

  lemma MessageIsSeen(all: seq<Event>, o: nat, first: Header, pieces: seq<string>, last: Header, raw: string)
    requires AddressedTo(all, o) == MessageEvents(o, first, pieces, last, raw)
    ensures ItemSeen(all, o)
  {
    AddressedToHas(all, o);
    var e := ItemAdded(o, MessageOf(first, []));
    assert AddressedTo(all, o)[0] == e && e in AddressedTo(all, o);
    assert OpensItem(e, o);
  }

  // ----- an item whose text is not streamed

  /** What is forwarded of an event of a part without deltas. */
  function Emptied(e: Event): Event {
    match e
    case TextDone(o, c, _) => TextDone(o, c, "")
    case _ => e
  }

  function EmptiedAll(events: seq<Event>): (r: seq<Event>)
    ensures |r| == |events| && forall n :: 0 <= n < |r| ==> r[n] == Emptied(events[n])
  {
    seq(|events|, n requires 0 <= n < |events| => Emptied(events[n]))
  }

  lemma SilentStep(p: Pages, o: nat, slot: Slot, e: Event, ev: Evidence, calls: bool)
    requires ev.ids != {} && LocatedPages(p) && forall c: nat :: (o, c) !in p.text && !IsDeltaOf(e, (o, c))
    ensures Feed(slot, o, Project(p, e, ev).1, calls) == SlotStep(slot, o, Emptied(e), calls)
  {
    hide LocatedPages, Project, Feed, Addressed;
    if e.Lifecycle() {
      ForwardsAsItIs(p, e, ev);
      FeedOne(slot, o, e, calls);
    } else if e.output != o {
      ProjectionAddresses(p, e, ev);
      FeedElsewhere(slot, o, Project(p, e, ev).1, e.output, calls);
    } else {
      SilentForwards(p, o, e, ev);
      FeedOne(slot, o, Emptied(e), calls);
    }
  }

  lemma DeltaOfItsPart(e: Event, o: nat)
    requires !e.Lifecycle() && e.output == o
    ensures e.TextDelta? ==> exists c: nat :: IsDeltaOf(e, (o, c))
  {
    if e.TextDelta? {
      assert IsDeltaOf(e, (o, e.content));
    }
  }

  lemma SilentForwards(p: Pages, o: nat, e: Event, ev: Evidence)
    requires ev.ids != {} && LocatedPages(p) && forall c: nat :: (o, c) !in p.text && !IsDeltaOf(e, (o, c))
    requires !e.Lifecycle() && e.output == o
    ensures Project(p, e, ev) == (p, [Emptied(e)])
  {
    DeltaOfItsPart(e, o);
    hide Project, LocatedPages, HasDelta;
    match e {
      case TextDone(_, c, text) =>
        NoPageNoBuffer(p, (o, c));
        NothingToFlush(p, (o, c), text, ev);
      case PartDone(_, c, part) => ForwardsPart(p, (o, c), part, ev);
      case ItemDone(_, item) =>
        if item.Message? {
          ForwardsMessage(p, o, item, ev);
          assert RewrittenParts(p, o, item.content) == item.content;
        } else {
          ForwardsAsItIs(p, e, ev);
        }
      case _ => ForwardsAsItIs(p, e, ev);
    }
  }

  lemma ForwardsAsItIs(p: Pages, e: Event, ev: Evidence)
    requires !e.TextDelta? && !e.TextDone? && !e.PartDone? && (e.ItemDone? ==> !e.item.Message?)
    ensures Project(p, e, ev) == (p, [e])
  {
  }

  /** An item none of whose parts has a delta is stored from the provider's own events, markers and all. */
  lemma {:induction false} WithoutDeltasStoredRaw(p: Pages, o: nat, slot: Slot, all: seq<Event>, ev: Evidence,
      calls: bool)
    requires ev.ids != {} && LocatedPages(p) && forall c: nat :: (o, c) !in p.text && !HasDelta(all, (o, c))
    ensures Feed(slot, o, ProjectAll(p, all, ev).1, calls) == Feed(slot, o, EmptiedAll(all), calls)
    decreases all
  {
    hide LocatedPages, Project, SlotStep;
    if all != [] {
      var e := all[0];
      var (q, first) := Project(p, e, ev);
      forall c: nat ensures !IsDeltaOf(e, (o, c)) && (o, c) !in q.text && !HasDelta(all[1..], (o, c)) {
        DeltaOfMember(all, e, (o, c));
        DeltaOpensItsPage(p, e, ev, (o, c));
        DeltaOfRest(all, (o, c));
      }
      ProjectKeepsLocated(p, e, ev);
      SilentStep(p, o, slot, e, ev, calls);
      FeedAppend(slot, o, first, ProjectAll(q, all[1..], ev).1, calls);
      WithoutDeltasStoredRaw(q, o, SlotStep(slot, o, Emptied(e), calls), all[1..], ev, calls);
      assert EmptiedAll(all)[1..] == EmptiedAll(all[1..]);
    }
  }

  lemma DeltaOfRest(all: seq<Event>, k: Key)
    requires all != []
    ensures HasDelta(all[1..], k) ==> HasDelta(all, k)
  {
    if HasDelta(all[1..], k) {
      var e :| e in all[1..] && IsDeltaOf(e, k);
      assert e in all;
    }
  }
}
