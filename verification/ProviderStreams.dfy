/**
 Which provider streams the pipeline handles: a condition on the list of events
 alone, for any number of items and parts whose events come interleaved.
 */
module ProviderStreams {
  import opened Prelude
  import opened Protocol
  import opened CitationParser
  import opened ReducerModel
  import opened CitationProjection
  import opened CutIndependence
  import opened StreamTheory
  import opened StreamPipeline
  import opened MessageStream

  /** A finished text part: no annotations of the provider's own, and text only after it was streamed. */
  ghost predicate Finishes(before: seq<Event>, k: Key, part: Part) {
    part.OutputText? && part.annotations == [] && (part.text == "" || HasDelta(before, k))
  }

  predicate OpensItem(e: Event, o: nat) { (e.ItemAdded? || e.ItemDone?) && e.output == o }

  ghost predicate ItemSeen(before: seq<Event>, o: nat) {
    exists e :: e in before && OpensItem(e, o)
  }

  /**
   Event `e` of the stream `all`, behind `before`: items are added empty, a part
   that streams text anywhere is a text part throughout, and a snapshot repeats
   an item only after that item was announced.
   */
  ghost predicate EventInShape(all: seq<Event>, before: seq<Event>, e: Event, o: nat) {
    match e
    case Opened(r) => r.output == []
    case Settled(_, r) => |r.output| <= o || ItemSeen(before, o)
    case StreamError(_, _) => true
    case _ => e.output == o ==> PartInShape(all, before, e, o)
  }

  ghost predicate PartInShape(all: seq<Event>, before: seq<Event>, e: Event, o: nat)
    requires !e.Lifecycle()
  {
    match e
    case ItemAdded(_, item) => item.Message? || item.Reasoning? ==> item.content == []
    case ItemDone(_, Message(_, _, _, _, content)) =>
      forall c: nat :: c < |content| && HasDelta(all, (o, c)) ==> Finishes(before, (o, c), content[c])
    case ItemDone(_, Reasoning(_, _, content, _, _)) => forall c: nat :: c < |content| ==> !HasDelta(all, (o, c))
    case PartAdded(_, c, part) => HasDelta(all, (o, c)) ==> part == OutputText("", [])
    case PartDone(_, c, part) => HasDelta(all, (o, c)) ==> Finishes(before, (o, c), part)
    case AnnotationAdded(_, c, _, _) => !HasDelta(all, (o, c))
    case RefusalDelta(_, c, _) => !HasDelta(all, (o, c))
    case RefusalDone(_, c, _) => !HasDelta(all, (o, c))
    case ReasoningDelta(_, c, _) => !HasDelta(all, (o, c))
    case ReasoningDone(_, c, _) => !HasDelta(all, (o, c))
    case _ => true
  }

  /** The events of `rest`, which follow `before` in the stream `all`, have this shape. */
  ghost predicate Shaped(all: seq<Event>, before: seq<Event>, rest: seq<Event>, o: nat)
    decreases rest
  {
    rest == [] || (EventInShape(all, before, rest[0], o) && Shaped(all, before + [rest[0]], rest[1..], o))
  }

  /** The whole stream has this shape at output index `o`. */
  ghost predicate InShape(all: seq<Event>, o: nat) { Shaped(all, [], all, o) }

  // ----- the shape is a matter of each output index by itself

  predicate Concerns(e: Event, o: nat) { e.Lifecycle() || e.output == o }

  /** What a stream says about one output index: its own events and those of the response. */
  function Concerning(events: seq<Event>, o: nat): seq<Event> {
    if events == [] then []
    else if Concerns(events[0], o) then [events[0]] + Concerning(events[1..], o)
    else Concerning(events[1..], o)
  }

  lemma {:induction false} ConcerningHas(events: seq<Event>, o: nat)
    ensures forall e :: e in Concerning(events, o) <==> e in events && Concerns(e, o)
  {
    if events != [] {
      ConcerningHas(events[1..], o);
      assert events == [events[0]] + events[1..];
    }
  }

  lemma {:induction false} ConcerningSnoc(events: seq<Event>, e: Event, o: nat)
    ensures Concerning(events + [e], o) == Concerning(events, o) + if Concerns(e, o) then [e] else []
  {
    if events == [] {
      assert [e][1..] == [] && [] + [e] == [e] && [e] + [] == [e];
    } else {
      var head, tail := if Concerns(events[0], o) then [events[0]] else [], if Concerns(e, o) then [e] else [];
      var rest := events[1..];
      assert (events + [e])[1..] == rest + [e];
      ConcerningSnoc(rest, e, o);
      assert head + (Concerning(rest, o) + tail) == head + Concerning(rest, o) + tail;
    }
  }

  lemma SameFacts(events: seq<Event>, o: nat)
    ensures forall c: nat :: HasDelta(Concerning(events, o), (o, c)) <==> HasDelta(events, (o, c))
    ensures ItemSeen(Concerning(events, o), o) <==> ItemSeen(events, o)
  {
    ConcerningHas(events, o);
  }

  lemma SameShape(all: seq<Event>, before: seq<Event>, e: Event, o: nat)
    ensures EventInShape(Concerning(all, o), Concerning(before, o), e, o) <==> EventInShape(all, before, e, o)
  {
    hide Concerning, HasDelta, ItemSeen;
    SameFacts(all, o);
    SameFacts(before, o);
  }

  lemma OtherInShape(all: seq<Event>, before: seq<Event>, e: Event, o: nat)
    requires !Concerns(e, o)
    ensures EventInShape(all, before, e, o)
  {
  }

  lemma {:induction false} ShapedByConcerning(all: seq<Event>, before: seq<Event>, rest: seq<Event>, o: nat)
    ensures Shaped(Concerning(all, o), Concerning(before, o), Concerning(rest, o), o) <==> Shaped(all, before, rest, o)
    decreases rest
  {
    hide EventInShape;
    if rest != [] {
      var e, more := rest[0], Concerning(rest[1..], o);
      ConcerningSnoc(before, e, o);
      ShapedByConcerning(all, before + [e], rest[1..], o);
      if Concerns(e, o) {
        SameShape(all, before, e, o);
        assert Concerning(rest, o) == [e] + more && ([e] + more)[1..] == more;
      } else {
        OtherInShape(all, before, e, o);
        assert Concerning(before, o) + [] == Concerning(before, o);
      }
    }
  }

  /** Interleaving does not matter: a stream has the shape at an index exactly when what it says about it has. */
  lemma ShapeIsPerItem(all: seq<Event>, o: nat)
    ensures InShape(all, o) <==> InShape(Concerning(all, o), o)
  {
    ShapedByConcerning(all, [], all, o);
    ShapedByConcerning(Concerning(all, o), [], Concerning(all, o), o);
    ConcerningTwice(all, o);
  }

  lemma {:induction false} ConcerningTwice(events: seq<Event>, o: nat)
    ensures Concerning(Concerning(events, o), o) == Concerning(events, o)
  {
    if events != [] {
      ConcerningTwice(events[1..], o);
      if Concerns(events[0], o) {
        assert ([events[0]] + Concerning(events[1..], o))[1..] == Concerning(events[1..], o);
      }
    }
  }

  /** The stream of one message with one text part has the shape. */
  lemma MessageInShape(o: nat, first: Header, pieces: seq<string>, last: Header, raw: string)
    ensures InShape(MessageEvents(o, first, pieces, last, raw), o)
  {
    hide EventInShape, HasDelta;
    var all, deltas := MessageEvents(o, first, pieces, last, raw), Deltas((o, 0), pieces);
    var a, b := Opening(o, first)[0], Opening(o, first)[1];
    assert all == [a, b] + (deltas + Closing(o, last, raw));
    OpeningInShape(all, o, first);
    DeltasInShape(all, [] + [a] + [b], o, pieces, Closing(o, last, raw));
    MessageDeltas(o, first, pieces, last, raw);
    ClosingInShape(all, [] + [a] + [b] + deltas, o, last, raw);
    ShapedTwo(all, a, b, deltas + Closing(o, last, raw), o);
  }

  lemma ShapedTwo(all: seq<Event>, a: Event, b: Event, rest: seq<Event>, o: nat)
    requires EventInShape(all, [], a, o) && EventInShape(all, [] + [a], b, o) && Shaped(all, [] + [a] + [b], rest, o)
    ensures Shaped(all, [], [a, b] + rest, o)
  {
    hide EventInShape;
    var events := [a, b] + rest;
    assert events[1..] == [b] + rest && ([b] + rest)[1..] == rest;
    assert Shaped(all, [] + [a], [b] + rest, o);
  }

  lemma OpeningInShape(all: seq<Event>, o: nat, first: Header)
    ensures EventInShape(all, [], Opening(o, first)[0], o)
    ensures EventInShape(all, [] + [Opening(o, first)[0]], Opening(o, first)[1], o)
  {
  }

  lemma {:induction false} DeltasInShape(all: seq<Event>, before: seq<Event>, o: nat, pieces: seq<string>,
      rest: seq<Event>)
    ensures var deltas := Deltas((o, 0), pieces);
            Shaped(all, before, deltas + rest, o) <==> Shaped(all, before + deltas, rest, o)
    decreases pieces
  {
    hide EventInShape;
    var deltas := Deltas((o, 0), pieces);
    if pieces == [] {
      assert deltas + rest == rest && before + deltas == before;
    } else {
      var e, more := TextDelta(o, 0, pieces[0]), Deltas((o, 0), pieces[1..]);
      assert (deltas + rest)[0] == e && (deltas + rest)[1..] == more + rest && before + deltas == before + [e] + more;
      DeltaInShape(all, before, e, o);
      DeltasInShape(all, before + [e], o, pieces[1..], rest);
    }
  }

  lemma DeltaInShape(all: seq<Event>, before: seq<Event>, e: Event, o: nat)
    requires e.TextDelta?
    ensures EventInShape(all, before, e, o)
  {
  }

  /** Its deltas all precede its done events. */
  lemma MessageDeltas(o: nat, first: Header, pieces: seq<string>, last: Header, raw: string)
    ensures var before := [] + [Opening(o, first)[0]] + [Opening(o, first)[1]] + Deltas((o, 0), pieces);
            forall c: nat :: HasDelta(MessageEvents(o, first, pieces, last, raw), (o, c)) ==>
              c == 0 && HasDelta(before, (o, c))
  {
    DeltasOf((o, 0), pieces);
    var all, deltas := MessageEvents(o, first, pieces, last, raw), Deltas((o, 0), pieces);
    var before := [] + [Opening(o, first)[0]] + [Opening(o, first)[1]] + deltas;
    forall c: nat | HasDelta(all, (o, c)) ensures c == 0 && HasDelta(before, (o, c)) {
      var e :| e in all && IsDeltaOf(e, (o, c));
      assert e in Opening(o, first) || e in deltas || e in Closing(o, last, raw);
      assert e in deltas;
      assert e in before;
    }
  }

  lemma {:induction false} DeltasOf(k: Key, pieces: seq<string>)
    ensures forall e <- Deltas(k, pieces) :: IsDeltaOf(e, k)
  {
    if pieces != [] { DeltasOf(k, pieces[1..]); }
  }

  lemma ClosingInShape(all: seq<Event>, before: seq<Event>, o: nat, h: Header, raw: string)
    requires forall c: nat :: HasDelta(all, (o, c)) ==> c == 0 && HasDelta(before, (o, c))
    ensures Shaped(all, before, Closing(o, h, raw), o)
  {
    hide EventInShape, HasDelta;
    var a, b, c := Closing(o, h, raw)[0], Closing(o, h, raw)[1], Closing(o, h, raw)[2];
    assert Closing(o, h, raw)[1..] == [b, c] && [b, c][1..] == [c] && [c][1..] == [];
    HasDeltaMore(before, a, (o, 0));
    HasDeltaMore(before + [a], b, (o, 0));
    ClosingEvents(all, before, o, h, raw);
    ClosingEvents(all, before + [a], o, h, raw);
    ClosingEvents(all, before + [a] + [b], o, h, raw);
    assert Shaped(all, before + [a] + [b], [c], o);
    assert Shaped(all, before + [a], [b, c], o);
  }

  lemma ClosingEvents(all: seq<Event>, before: seq<Event>, o: nat, h: Header, raw: string)
    requires forall c: nat :: HasDelta(all, (o, c)) ==> c == 0 && HasDelta(before, (o, c))
    ensures forall e <- Closing(o, h, raw) :: EventInShape(all, before, e, o)
  {
    hide HasDelta;
  }

  // ----- pages that are open from the start

  /** The text parts of a stream at one output index. */
  ghost function TextKeys(all: seq<Event>, o: nat): (keys: set<Key>)
    ensures forall k :: k in keys <==> k.0 == o && HasDelta(all, k)
  {
    set e | e in all && e.TextDelta? && e.output == o :: (e.output, e.content)
  }

  /** The same pages, with an empty page for every key that has none yet. */
  ghost function Widened(p: Pages, keys: set<Key>): Pages { p.(text := Wide(p.text, keys)) }

  ghost function Wide(text: map<Key, string>, keys: set<Key>): map<Key, string> {
    map k | k in text.Keys + keys :: Lookup(text, k, "")
  }

  lemma WidenedAppend(p: Pages, keys: set<Key>, k: Key, s: string)
    ensures AppendText(Widened(p, keys), k, s) == Widened(AppendText(p, k, s), keys)
  {
    assert Wide(p.text, keys)[k := Value(p, k) + s] == Wide(p.text[k := Value(p, k) + s], keys);
  }

  lemma WidenedCite(p: Pages, keys: set<Key>, k: Key, r: string)
    ensures Cite(Widened(p, keys), k, r) == (Widened(Cite(p, k, r).0, keys), Cite(p, k, r).1)
  {
    hide Decimal, Numbered;
    WidenedAppend(p, keys, k, MarkerOf(Numbered(p.numbers, r)[r]));
  }

  lemma WidenedFragment(p: Pages, keys: set<Key>, k: Key, f: Fragment)
    ensures ShowFragment(Widened(p, keys), k, f) == (Widened(ShowFragment(p, k, f).0, keys), ShowFragment(p, k, f).1)
  {
    hide Cite, AppendText, Widened;
    WidenedAppend(p, keys, k, f.text);
    if f.reference.Some? {
      WidenedCite(if f.text == "" then p else AppendText(p, k, f.text), keys, k, f.reference.value);
    }
  }

  lemma {:induction false} WidenedFragments(p: Pages, keys: set<Key>, k: Key, fs: seq<Fragment>)
    ensures ShowFragments(Widened(p, keys), k, fs)
         == (Widened(ShowFragments(p, k, fs).0, keys), ShowFragments(p, k, fs).1)
    decreases fs
  {
    hide ShowFragment, Widened;
    if fs != [] {
      WidenedFragment(p, keys, k, fs[0]);
      WidenedFragments(ShowFragment(p, k, fs[0]).0, keys, k, fs[1..]);
    }
  }

  lemma WidenedDefault(text: map<Key, string>, keys: set<Key>, k: Key)
    ensures SetDefault(Wide(text, keys), k, "") == Wide(SetDefault(text, k, ""), keys)
  {
  }

  lemma WidenedDelta(p: Pages, keys: set<Key>, k: Key, delta: string, ev: Evidence)
    ensures ShowDelta(Widened(p, keys), k, delta, ev)
         == (Widened(ShowDelta(p, k, delta, ev).0, keys), ShowDelta(p, k, delta, ev).1)
  {
    hide ShowFragments, Parse, Wide, SetDefault;
    var parsed := Parse(Lookup(p.buffers, k, "") + delta, ev);
    var start := p.(buffers := p.buffers[k := parsed.1]);
    WidenedFragments(start, keys, k, parsed.0);
    var q := ShowFragments(start, k, parsed.0).0;
    WidenedDefault(q.text, keys, k);
  }

  lemma WidenedFlush(p: Pages, keys: set<Key>, k: Key)
    ensures Flush(Widened(p, keys), k) == (Widened(Flush(p, k).0, keys), Flush(p, k).1)
    ensures Value(Widened(Flush(p, k).0, keys), k) == Value(Flush(p, k).0, k)
  {
    WidenedAppend(p.(buffers := p.buffers - {k}), keys, k, Lookup(p.buffers, k, ""));
  }

  /** A part whose page is not open yet finishes empty. */
  ghost predicate EmptyUntilOpen(p: Pages, keys: set<Key>, k: Key, part: Part) {
    k in keys && k !in p.text ==> part == OutputText("", [])
  }

  lemma WidenedPart(p: Pages, keys: set<Key>, k: Key, part: Part)
    requires LocatedPages(p) && EmptyUntilOpen(p, keys, k, part)
    ensures RewrittenPart(Widened(p, keys), k, part) == RewrittenPart(p, k, part)
  {
  }

  /** Opening the pages early changes neither what is forwarded nor which pages result. */
  lemma WidenedProjects(p: Pages, keys: set<Key>, e: Event, ev: Evidence)
    requires ev.ids != {} && LocatedPages(p)
    requires e.PartDone? ==> EmptyUntilOpen(p, keys, (e.output, e.content), e.part)
    requires e.ItemDone? && e.item.Message? ==>
               forall c: nat :: c < |e.item.content| ==> EmptyUntilOpen(p, keys, (e.output, c), e.item.content[c])
    ensures Project(Widened(p, keys), e, ev) == (Widened(Project(p, e, ev).0, keys), Project(p, e, ev).1)
  {
    hide ShowDelta, Flush, RewrittenPart, LocatedPages, EmptyUntilOpen, Widened;
    match e {
      case TextDelta(o, c, delta) => WidenedDelta(p, keys, (o, c), delta, ev);
      case TextDone(o, c, _) => WidenedFlush(p, keys, (o, c));
      case PartDone(o, c, part) => WidenedPart(p, keys, (o, c), part);
      case ItemDone(o, item) =>
        if item.Message? {
          forall c: nat | c < |item.content|
            ensures RewrittenPart(Widened(p, keys), (o, c), item.content[c])
                 == RewrittenPart(p, (o, c), item.content[c])
          {
            WidenedPart(p, keys, (o, c), item.content[c]);
          }
          assert RewrittenParts(Widened(p, keys), o, item.content) == RewrittenParts(p, o, item.content);
        }
      case _ =>
    }
  }

  lemma WidenedLocated(p: Pages, keys: set<Key>)
    requires LocatedPages(p)
    ensures LocatedPages(Widened(p, keys))
  {
    hide Located, NumbersOk;
  }

  // ----- shaped streams are well timed

  /** What is known about pages and slot behind the first events of a shaped stream. */
  ghost predicate Reached(all: seq<Event>, before: seq<Event>, p: Pages, o: nat, slot: Slot) {
    && LocatedPages(p) && Agree(Widened(p, TextKeys(all, o)), o, slot)
    && (forall c: nat :: (o, c) in p.text <==> HasDelta(before, (o, c)))
    && (forall k: Key :: HasDelta(before, k) ==> HasDelta(all, k))
    && (ItemSeen(before, o) ==> slot.shell.Some?)
  }

  lemma ShapedIsWellTimed(all: seq<Event>, before: seq<Event>, p: Pages, o: nat, slot: Slot, e: Event)
    requires Reached(all, before, p, o, slot) && e in all && EventInShape(all, before, e, o)
    ensures WellTimed(p, o, slot, e) && WellTimed(Widened(p, TextKeys(all, o)), o, slot, e)
  {
    hide LocatedPages, Agree, Widened, TextKeys, HasDelta, ItemSeen, Matches;
    forall c: nat ensures (o, c) in Widened(p, TextKeys(all, o)).text <==> HasDelta(all, (o, c)) {
      WideHas(all, before, p, o, slot, c);
    }
    if e.TextDelta? && e.output == o {
      DeltaIsWellTimed(all, before, p, o, slot, e);
    }
  }

  lemma WideHas(all: seq<Event>, before: seq<Event>, p: Pages, o: nat, slot: Slot, c: nat)
    requires Reached(all, before, p, o, slot)
    ensures (o, c) in Widened(p, TextKeys(all, o)).text <==> HasDelta(all, (o, c))
  {
    hide LocatedPages, Agree, HasDelta, ItemSeen;
  }

  lemma DeltaIsWellTimed(all: seq<Event>, before: seq<Event>, p: Pages, o: nat, slot: Slot, e: Event)
    requires Reached(all, before, p, o, slot) && e in all && e.TextDelta? && e.output == o
    ensures (o, e.content) in p.text || Matches(Page("", [], p.numbers), slot, e.content)
    ensures (o, e.content) in Widened(p, TextKeys(all, o)).text
  {
    var k, wide := (o, e.content), Widened(p, TextKeys(all, o));
    assert IsDeltaOf(e, k);
    PageMatches(wide, o, e.content, slot);
  }

  /** A shaped event has what the early pages ask for. */
  lemma ShapedFinishes(all: seq<Event>, before: seq<Event>, p: Pages, o: nat, slot: Slot, e: Event)
    requires Reached(all, before, p, o, slot) && EventInShape(all, before, e, o)
    ensures e.PartDone? ==> EmptyUntilOpen(p, TextKeys(all, o), (e.output, e.content), e.part)
    ensures e.ItemDone? && e.item.Message? ==> forall c: nat :: c < |e.item.content| ==>
              EmptyUntilOpen(p, TextKeys(all, o), (e.output, c), e.item.content[c])
  {
    hide LocatedPages, Agree, HasDelta, ItemSeen;
  }

  lemma {:induction false} FeedKeepsItem(slot: Slot, o: nat, events: seq<Event>, calls: bool)
    requires slot.shell.Some?
    ensures Feed(slot, o, events, calls).shell.Some?
    decreases events
  {
    if events != [] {
      StepKeepsItem(slot, o, events[0], calls);
      FeedKeepsItem(SlotStep(slot, o, events[0], calls), o, events[1..], calls);
    }
  }

  lemma StepKeepsItem(slot: Slot, o: nat, e: Event, calls: bool)
    requires slot.shell.Some? || OpensItem(e, o)
    ensures SlotStep(slot, o, e, calls).shell.Some?
  {
    hide Addressed, Seeded;
    match e {
      case Opened(r) => if o < |r.output| { PlacedHasItem(slot, r.output[o], true); }
      case Settled(_, r) => if o < |r.output| { PlacedHasItem(slot, r.output[o], true); }
      case StreamError(_, _) =>
      case _ => AddressedHasItem(slot, e);
    }
  }

  lemma PlacedHasItem(slot: Slot, item: Item, done: bool)
    ensures Placed(slot, item, done).shell.Some?
  {
    SeededKeepsShell(slot.(shell := Some(ShellOf(item, done))), ShellOf(item, done));
  }

  lemma AddressedHasItem(slot: Slot, e: Event)
    requires !e.Lifecycle()
    ensures slot.shell.Some? || e.ItemAdded? || e.ItemDone? ==> Addressed(slot, e).shell.Some?
  {
    hide Placed;
    match e {
      case ItemAdded(_, item) => PlacedHasItem(slot, item, false);
      case ItemDone(_, item) => PlacedHasItem(slot, item, true);
      case _ => AddressedKeepsShell(slot, e);
    }
  }

  /** An item event opens the item of its index. */
  lemma ItemIsSeen(p: Pages, o: nat, slot: Slot, e: Event, ev: Evidence, calls: bool)
    requires ev.ids != {} && OpensItem(e, o)
    ensures Feed(slot, o, Project(p, e, ev).1, calls).shell.Some?
  {
    hide RewrittenParts, SlotStep;
    var events := Project(p, e, ev).1;
    assert |events| == 1 && OpensItem(events[0], o) && events == [events[0]];
    FeedOne(slot, o, events[0], calls);
    StepKeepsItem(slot, o, events[0], calls);
  }

  lemma HasDeltaMore(before: seq<Event>, e: Event, k: Key)
    ensures HasDelta(before + [e], k) <==> HasDelta(before, k) || IsDeltaOf(e, k)
  {
    if HasDelta(before, k) {
      var d :| d in before && IsDeltaOf(d, k);
      assert d in before + [e];
    }
    assert e in before + [e];
  }

  lemma ShapedStep(all: seq<Event>, before: seq<Event>, p: Pages, o: nat, slot: Slot, e: Event, ev: Evidence,
      calls: bool)
    requires ev.ids != {} && e in all && Reached(all, before, p, o, slot) && EventInShape(all, before, e, o)
    ensures WellTimed(p, o, slot, e)
    ensures var (q, events) := Project(p, e, ev);
            Reached(all, before + [e], q, o, Feed(slot, o, events, calls))
  {
    hide LocatedPages, Agree, Project, Feed, EventInShape, WellTimed, ItemSeen, HasDelta, Widened;
    var keys := TextKeys(all, o);
    var (q, events) := Project(p, e, ev);
    var after := Feed(slot, o, events, calls);
    ShapedIsWellTimed(all, before, p, o, slot, e);
    ShapedFinishes(all, before, p, o, slot, e);
    WidenedProjects(p, keys, e, ev);
    WidenedLocated(p, keys);
    EventAgrees(Widened(p, keys), o, slot, e, ev, calls);
    ProjectKeepsLocated(p, e, ev);
    forall c: nat ensures (o, c) in q.text <==> HasDelta(before + [e], (o, c)) {
      DeltaOpensItsPage(p, e, ev, (o, c));
      HasDeltaMore(before, e, (o, c));
    }
    forall k: Key | HasDelta(before + [e], k) ensures HasDelta(all, k) {
      HasDeltaMore(before, e, k);
      DeltaOfMember(all, e, k);
    }
    if ItemSeen(before + [e], o) {
      ItemStaysSeen(before, p, o, slot, e, ev, calls);
    }
  }

  lemma DeltaOfMember(all: seq<Event>, e: Event, k: Key)
    requires e in all
    ensures IsDeltaOf(e, k) ==> HasDelta(all, k)
  {
  }

  lemma ItemStaysSeen(before: seq<Event>, p: Pages, o: nat, slot: Slot, e: Event, ev: Evidence, calls: bool)
    requires ev.ids != {} && ItemSeen(before + [e], o) && (ItemSeen(before, o) ==> slot.shell.Some?)
    ensures Feed(slot, o, Project(p, e, ev).1, calls).shell.Some?
  {
    hide Feed, Project;
    var d :| d in before + [e] && OpensItem(d, o);
    if d in before {
      FeedKeepsItem(slot, o, Project(p, e, ev).1, calls);
    } else {
      ItemIsSeen(p, o, slot, e, ev, calls);
    }
  }

  lemma {:induction false} ShapedRest(all: seq<Event>, before: seq<Event>, rest: seq<Event>, p: Pages, o: nat,
      slot: Slot, ev: Evidence, calls: bool)
    requires ev.ids != {} && all == before + rest && Shaped(all, before, rest, o) && Reached(all, before, p, o, slot)
    ensures Disciplined(p, o, slot, rest, ev, calls)
    decreases rest
  {
    hide Reached, Project, Feed, WellTimed, EventInShape;
    if rest != [] {
      ShapedStep(all, before, p, o, slot, rest[0], ev, calls);
      var (q, events) := Project(p, rest[0], ev);
      assert all == before + [rest[0]] + rest[1..];
      ShapedRest(all, before + [rest[0]], rest[1..], q, o, Feed(slot, o, events, calls), ev, calls);
    }
  }

  /** A stream of this shape is disciplined, however the events of its items and parts are interleaved. */
  lemma ShapedIsDisciplined(numbers: map<string, nat>, o: nat, all: seq<Event>, ev: Evidence, calls: bool)
    requires ev.ids != {} && NumbersOk(numbers) && InShape(all, o)
    ensures Disciplined(NO_PAGES.(numbers := numbers), o, EMPTY_SLOT, all, ev, calls)
  {
    hide Shaped, Disciplined;
    NothingReached(all, numbers, o);
    assert [] + all == all;
    ShapedRest(all, [], all, NO_PAGES.(numbers := numbers), o, EMPTY_SLOT, ev, calls);
  }

  lemma NothingReached(all: seq<Event>, numbers: map<string, nat>, o: nat)
    requires NumbersOk(numbers)
    ensures Reached(all, [], NO_PAGES.(numbers := numbers), o, EMPTY_SLOT)
  {
  }

  /**
   What a client reads of a stream of this shape: every part that streamed text and
   is there holds the concatenation of the text deltas that were forwarded for it,
   with every annotation around its `[n]`, whatever else was streamed in between.
   */
  lemma ShapedPartIsForwarded(numbers: map<string, nat>, o: nat, c: nat, all: seq<Event>, ev: Evidence, calls: bool)
    requires ev.ids != {} && NumbersOk(numbers) && InShape(all, o) && HasDelta(all, (o, c))
    ensures var (q, forwarded) := ProjectAll(NO_PAGES.(numbers := numbers), all, ev);
            var slot := Feed(EMPTY_SLOT, o, forwarded, calls);
            c in slot.parts ==>
              var part := ViewPart(slot, c);
              && part.OutputText? && part.text == Forwarded(forwarded, (o, c))
              && Located(part.text, part.annotations, q.numbers)
  {
    hide Project, Forwarded, Disciplined, InShape, Feed, Located, ProjectAll, HasDelta, LocatedPages, Agree;
    var p := NO_PAGES.(numbers := numbers);
    NothingIsLocated(numbers, o);
    ShapedIsDisciplined(numbers, o, all, ev, calls);
    StreamAgrees(p, o, EMPTY_SLOT, all, ev, calls);
    PageIffDelta(p, all, ev, (o, c));
    var (q, forwarded) := ProjectAll(p, all, ev);
    PageMatches(q, o, c, Feed(EMPTY_SLOT, o, forwarded, calls));
    assert Value(p, (o, c)) == "";
    PageLocated(q, (o, c));
  }

  lemma NothingIsLocated(numbers: map<string, nat>, o: nat)
    requires NumbersOk(numbers)
    ensures LocatedPages(NO_PAGES.(numbers := numbers)) && Agree(NO_PAGES.(numbers := numbers), o, EMPTY_SLOT)
  {
  }
}
