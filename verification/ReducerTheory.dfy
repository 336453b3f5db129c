/**
 What the reducer guarantees over whole streams: an item is a fold of the events
 addressed to its index, so neither the interleaving of indices nor the way a
 text is split into deltas can be seen in the output.
 */
module ReducerTheory {
  import opened Prelude
  import opened Protocol
  import opened ReducerModel
  import opened Reducer

  ghost predicate Same(f: Slots, g: Slots) {
    forall i: nat {:trigger f(i)} {:trigger g(i)} :: f(i) == g(i)
  }

  predicate ItemLevel(events: seq<Event>) {
    forall e <- events :: !e.Lifecycle()
  }

  /** The slot at index `i` after a sequence of item, part and delta events. */
  function Fold(slot: Slot, i: nat, events: seq<Event>): Slot
    decreases events
  {
    if events == [] then slot else Fold(SlotStep(slot, i, events[0], false), i, events[1..])
  }

  function FoldAll(f: Slots, events: seq<Event>): Slots {
    (i: nat) => Fold(f(i), i, events)
  }

  /** The subsequence of events addressed to one output index. */
  function AddressedTo(events: seq<Event>, i: nat): seq<Event> {
    if events == [] then []
    else (if !events[0].Lifecycle() && events[0].output == i then [events[0]] else []) + AddressedTo(events[1..], i)
  }

  lemma {:induction false} FoldAppend(slot: Slot, i: nat, a: seq<Event>, b: seq<Event>)
    ensures Fold(slot, i, a + b) == Fold(Fold(slot, i, a), i, b)
    decreases a
  {
    hide SlotStep;
    if a == [] {
      assert a + b == b;
    } else {
      assert (a + b)[1..] == a[1..] + b;
      FoldAppend(SlotStep(slot, i, a[0], false), i, a[1..], b);
    }
  }

  /** Only the events of an index matter to its slot. */
  lemma {:induction false} FoldIsLocal(slot: Slot, i: nat, events: seq<Event>)
    requires ItemLevel(events)
    ensures Fold(slot, i, events) == Fold(slot, i, AddressedTo(events, i))
    decreases events
  {
    if events != [] {
      var e, rest := events[0], AddressedTo(events[1..], i);
      assert e in events;
      FoldIsLocal(SlotStep(slot, i, e, false), i, events[1..]);
      if e.output == i {
        assert AddressedTo(events, i) == [e] + rest && ([e] + rest)[1..] == rest;
      } else {
        assert AddressedTo(events, i) == rest;
        assert SlotStep(slot, i, e, false) == slot;
      }
    }
  }

  /** The loop of `run_sampling_request` that feeds the reducer. */
  method ApplyAll(reducer: ResponseReducer, events: seq<Event>)
    requires reducer.Valid() && forall e <- events :: !e.Settled?
    modifies reducer
    ensures reducer.Valid()
    ensures Same(reducer.AllSlots(), FoldAll(old(reducer.AllSlots()), events))
  {
    hide SlotStep, SlotOf, IsView, View;
    for k := 0 to |events|
      invariant reducer.Valid()
      invariant Same(reducer.AllSlots(), FoldAll(old(reducer.AllSlots()), events[..k]))
    {
      ghost var before := reducer.AllSlots();
      var _ := reducer.Apply(events[k]);
      SteppedFold(old(reducer.AllSlots()), before, reducer.AllSlots(), events, k, HasCall(reducer.items));
    }
    assert events[..|events|] == events;
  }

  lemma SteppedFold(f: Slots, g: Slots, h: Slots, events: seq<Event>, k: nat, calls: bool)
    requires k < |events| && !events[k].Settled?
    requires Same(g, FoldAll(f, events[..k])) && Stepped(g, h, events[k], calls)
    ensures Same(h, FoldAll(f, events[..k + 1]))
  {
    forall i: nat ensures h(i) == FoldAll(f, events[..k + 1])(i) {
      assert events[..k + 1] == events[..k] + [events[k]];
      FoldAppend(f(i), i, events[..k], [events[k]]);
      assert g(i) == FoldAll(f, events[..k])(i);
      assert [events[k]][1..] == [] && events[k] in events;
      CallsOnlyMatterToSettle(g(i), i, events[k], calls);
    }
  }

  lemma CallsOnlyMatterToSettle(slot: Slot, i: nat, e: Event, calls: bool)
    requires !e.Settled?
    ensures SlotStep(slot, i, e, calls) == SlotStep(slot, i, e, false)
  {
  }

  /** The view determines the items. */
  lemma ViewDetermined(a: map<nat, Item>, b: map<nat, Item>, f: Slots, g: Slots)
    requires IsView(a, f) && IsView(b, g) && Same(f, g)
    ensures a == b
  {
  }

  /**
   Interleaving independence: two streams that agree, index by index, on the
   order of that index's events leave the same items.
   */
  lemma InterleavingIndependent(f: Slots, a: seq<Event>, b: seq<Event>, itemsA: map<nat, Item>, itemsB: map<nat, Item>)
    requires ItemLevel(a) && ItemLevel(b)
    requires forall i: nat :: AddressedTo(a, i) == AddressedTo(b, i)
    requires IsView(itemsA, FoldAll(f, a)) && IsView(itemsB, FoldAll(f, b))
    ensures itemsA == itemsB
  {
    hide IsView;
    forall i: nat ensures FoldAll(f, a)(i) == FoldAll(f, b)(i) {
      FoldIsLocal(f(i), i, a);
      FoldIsLocal(f(i), i, b);
    }
    ViewDetermined(itemsA, itemsB, FoldAll(f, a), FoldAll(f, b));
  }

  /** Settling two equal responses with the same snapshot leaves the same items. */
  lemma SettleDetermined(f: Slots, g: Slots, h: Slots, terminal: ResponseStatus, r: Response, a: map<nat, Item>,
      b: map<nat, Item>)
    requires Stepped(f, g, Settled(terminal, r), HasCall(a)) && IsView(a, g)
    requires Stepped(f, h, Settled(terminal, r), HasCall(b)) && IsView(b, h)
    ensures a == b
  {
    hide View, Placed;
    forall i: nat ensures i in a <==> i in b {
      assert g(i) == SlotStep(f(i), i, Settled(terminal, r), HasCall(a));
      assert h(i) == SlotStep(f(i), i, Settled(terminal, r), HasCall(b));
    }
    forall i | i in a ensures a[i].FunctionCall? == b[i].FunctionCall? {
      assert g(i) == SlotStep(f(i), i, Settled(terminal, r), HasCall(a));
      assert h(i) == SlotStep(f(i), i, Settled(terminal, r), HasCall(b));
      ViewKind(g(i));
      ViewKind(h(i));
    }
    assert HasCall(a) == HasCall(b);
    forall i: nat ensures g(i) == h(i) {
      assert g(i) == SlotStep(f(i), i, Settled(terminal, r), HasCall(a));
      assert h(i) == SlotStep(f(i), i, Settled(terminal, r), HasCall(b));
    }
    ViewDetermined(a, b, g, h);
  }

  lemma ViewKind(slot: Slot)
    requires slot.shell.Some?
    ensures View(slot).FunctionCall? == slot.shell.value.FunctionCall?
  {
  }

  /** A terminal snapshot never replaces a streamed item; it only fills its phase. */
  lemma SnapshotKeepsStreamedItem(slot: Slot, i: nat, terminal: ResponseStatus, r: Response, calls: bool)
    requires slot.shell.Some?
    ensures var settled := SlotStep(slot, i, Settled(terminal, r), calls);
            settled.shell.Some? && (View(settled) == View(slot)
            || (View(slot).Message? && View(slot).phase.None?
                && View(settled) == View(slot).(phase := Some(if calls then Commentary else FinalAnswer))))
  {
    hide View;
    PhasedOnlyWhenMissing(slot, calls);
    if View(slot).Message? && View(slot).role == Assistant && View(slot).phase.None? {
      ViewOfPhased(slot, calls);
    }
  }

  // ----- how a text is split into deltas

  lemma AppendTwice(slot: Slot, c: nat, a: string, b: string, kind: Part)
    ensures Appended(Appended(slot, c, a, kind), c, b, kind) == Appended(slot, c, a + b, kind)
  {
    var before := Get(slot.text, c, "");
    assert before + a + b == before + (a + b);
    assert slot.text[c := before + a][c := before + a + b] == slot.text[c := before + a + b];
  }

  lemma SummaryTwice(slot: Slot, c: nat, a: string, b: string)
    ensures SummaryReplaced(SummaryReplaced(slot, c, a), c, b) == SummaryReplaced(slot, c, b)
  {
  }

  lemma SummaryDeltasAdd(slot: Slot, o: nat, c: nat, a: string, b: string)
    ensures Addressed(Addressed(slot, SummaryDelta(o, c, a)), SummaryDelta(o, c, b))
            == Addressed(slot, SummaryDelta(o, c, a + b))
  {
    hide SummaryReplaced;
    var before := Get(slot.summaryText, c, "");
    assert before + a + b == before + (a + b);
    SummaryTwice(slot, c, before + a, before + a + b);
    SummaryReads(slot, c, before + a);
  }

  lemma DeltasAdd(slot: Slot, e: Event, a: string, b: string)
    requires e.IsDelta()
    ensures Addressed(Addressed(slot, e.Carrying(a)), e.Carrying(b)) == Addressed(slot, e.Carrying(a + b))
  {
    hide Appended, SummaryReplaced;
    match e {
      case TextDelta(_, c, _) => AppendTwice(slot, c, a, b, OutputText("", []));
      case RefusalDelta(_, c, _) => AppendTwice(slot, c, a, b, Refusal(""));
      case ReasoningDelta(_, c, _) => AppendTwice(slot, c, a, b, ReasoningText(""));
      case SummaryDelta(o, c, _) => SummaryDeltasAdd(slot, o, c, a, b);
      case ArgumentsDelta(_, _) =>
        var before := ArgumentsOf(slot);
        assert before + a + b == before + (a + b);
    }
  }

  lemma SummaryReads(slot: Slot, c: nat, text: string)
    ensures Get(SummaryReplaced(slot, c, text).summaryText, c, "") == text
  {
  }

  /** Splitting one delta anywhere in a stream leaves every slot as it was. */
  lemma SplittingADelta(slot: Slot, i: nat, before: seq<Event>, e: Event, a: string, b: string, after: seq<Event>)
    requires e.IsDelta()
    ensures Fold(slot, i, before + [e.Carrying(a), e.Carrying(b)] + after)
         == Fold(slot, i, before + [e.Carrying(a + b)] + after)
  {
    hide Addressed;
    var start := Fold(slot, i, before);
    FoldAppend(slot, i, before + [e.Carrying(a), e.Carrying(b)], after);
    FoldAppend(slot, i, before, [e.Carrying(a), e.Carrying(b)]);
    FoldAppend(slot, i, before + [e.Carrying(a + b)], after);
    FoldAppend(slot, i, before, [e.Carrying(a + b)]);
    assert [e.Carrying(a), e.Carrying(b)][1..] == [e.Carrying(b)] && [e.Carrying(b)][1..] == [];
    assert [e.Carrying(a + b)][1..] == [];
    DeltasAdd(start, e, a, b);
  }

  // ----- done events that repeat what was streamed

  lemma {:induction false} MergeKnown(existing: seq<Annotation>, incoming: seq<Annotation>)
    requires forall a <- incoming :: a in existing
    ensures Merge(existing, incoming) == existing
    decreases incoming
  {
    if incoming != [] {
      assert incoming[0] in incoming;
      MergeKnown(existing, incoming[1..]);
    }
  }

  /** Same item to the reader: same shell, same indices, and equal parts and summaries. */
  ghost predicate SameView(a: Slot, b: Slot) {
    && a.shell == b.shell && ArgumentsOf(a) == ArgumentsOf(b)
    && a.parts.Keys == b.parts.Keys && a.summaryParts.Keys == b.summaryParts.Keys
    && (forall c :: c in a.parts ==> ViewPart(a, c) == ViewPart(b, c))
    && (forall c :: Get(a.summaryText, c, "") == Get(b.summaryText, c, ""))
  }

  lemma SameViewSameItem(a: Slot, b: Slot)
    requires SameView(a, b) && a.shell.Some?
    ensures View(a) == View(b)
  {
    hide ViewPart, Ascending, Get;
    SameParts(a, b, Ascending(a.parts.Keys));
    SameSummary(a, b, Ascending(a.summaryParts.Keys));
  }

  lemma SameParts(a: Slot, b: Slot, indices: seq<nat>)
    requires SameView(a, b) && forall c <- indices :: c in a.parts
    ensures ViewParts(a, indices) == ViewParts(b, indices)
  {
  }

  lemma SameSummary(a: Slot, b: Slot, indices: seq<nat>)
    requires SameView(a, b)
    ensures ViewSummary(a, indices) == ViewSummary(b, indices)
  {
  }

  /** A part event that repeats the part as it stands changes nothing visible. */
  lemma RepeatedPart(slot: Slot, c: nat, part: Part)
    requires c in slot.parts && part == ViewPart(slot, c) && !part.InputPart?
    ensures SameView(WithPart(slot, c, part), slot)
  {
    MergeKnown(Get(slot.annotations, c, []), PartAnnotations(part));
    var after := WithPart(slot, c, part);
    forall d | d in slot.parts ensures ViewPart(after, d) == ViewPart(slot, d) {
    }
  }

  /** A text-done event that repeats the streamed text changes nothing visible. */
  lemma RepeatedText(slot: Slot, c: nat, kind: Part)
    requires c in slot.parts
    ensures SameView(Replaced(slot, c, Get(slot.text, c, ""), kind), slot)
  {
  }

  /** The content parts of a slot, read in order. */
  ghost predicate Reads(slot: Slot, parts: seq<Part>) {
    forall c: nat :: c < |parts| ==> c in slot.parts && parts[c] == ViewPart(slot, c) && !parts[c].InputPart?
  }

  /** Repeating parts that a slot already shows changes nothing visible. */
  lemma {:induction false} RepeatedParts(slot: Slot, parts: seq<Part>, n: nat)
    requires n <= |parts| && Reads(slot, parts)
    ensures SameView(WithParts(slot, parts, n), slot)
  {
    hide ViewPart, WithPart;
    if n > 0 {
      RepeatedParts(slot, parts, n - 1);
      var before := WithParts(slot, parts, n - 1);
      assert ViewPart(before, n - 1) == ViewPart(slot, n - 1);
      RepeatedPart(before, n - 1, parts[n - 1]);
      SameViewTransitive(WithPart(before, n - 1, parts[n - 1]), before, slot);
    }
  }

  lemma SameViewTransitive(a: Slot, b: Slot, c: Slot)
    requires SameView(a, b) && SameView(b, c)
    ensures SameView(a, c)
  {
  }

  /** Slots with the same content parts, and with arguments and summaries that read the same. */
  lemma SameContentSameView(a: Slot, b: Slot)
    requires a.shell == b.shell && ArgumentsOf(a) == ArgumentsOf(b)
    requires a.parts == b.parts && a.text == b.text && a.annotations == b.annotations
    requires a.summaryParts.Keys == b.summaryParts.Keys
    requires forall c: nat :: Get(a.summaryText, c, "") == Get(b.summaryText, c, "")
    ensures SameView(a, b)
  {
  }

  /** A summary part that repeats the summary as it stands changes nothing visible. */
  lemma RepeatedSummaryPart(slot: Slot, c: nat, part: Part)
    requires c in slot.summaryParts && SummaryValue(part) == Get(slot.summaryText, c, "")
    ensures SameView(WithSummaryPart(slot, c, part), slot)
  {
  }

  lemma {:induction false} RepeatedSummaries(slot: Slot, parts: seq<Part>, n: nat)
    requires n <= |parts| && ReadsSummary(slot, parts)
    ensures SameView(WithSummaryParts(slot, parts, n), slot)
  {
    hide ViewPart, WithSummaryPart;
    if n > 0 {
      RepeatedSummaries(slot, parts, n - 1);
      var before := WithSummaryParts(slot, parts, n - 1);
      RepeatedSummaryPart(before, n - 1, parts[n - 1]);
      SameViewTransitive(WithSummaryPart(before, n - 1, parts[n - 1]), before, slot);
    }
  }

  ghost predicate ReadsSummary(slot: Slot, parts: seq<Part>) {
    forall c: nat :: c < |parts| ==>
      c in slot.summaryParts && SummaryValue(parts[c]) == Get(slot.summaryText, c, "")
  }

  /** The item carries what was streamed for it. */
  ghost predicate RepeatsContent(slot: Slot, item: Item) {
    match item
    case Message(_, _, _, _, content) => Reads(slot, content)
    case Reasoning(_, _, content, summary, _) => Reads(slot, content) && ReadsSummary(slot, summary)
    case FunctionCall(_, _, _, _, arguments) => arguments == ArgumentsOf(slot)
    case OtherItem(_, _, _, _) => true
  }

  /** A final item of any kind that repeats what was streamed for it replaces
      the item's own fields and nothing else. */
  lemma RepeatedItem(slot: Slot, item: Item)
    requires RepeatsContent(slot, item)
    ensures SameView(Placed(slot, item, true), slot.(shell := Some(ShellOf(item, true))))
  {
    hide ViewPart;
    var placed := slot.(shell := Some(ShellOf(item, true)));
    if item.Message? || item.Reasoning? {
      forall c: nat | c < |item.content| ensures item.content[c] == ViewPart(placed, c) {
        ViewPartIgnoresShell(slot, ShellOf(item, true), c);
      }
      RepeatedParts(placed, item.content, |item.content|);
    }
    if item.Reasoning? {
      var seeded := WithParts(placed, item.content, |item.content|);
      RepeatedSummaries(seeded, item.summary, |item.summary|);
      SameViewTransitive(WithSummaryParts(seeded, item.summary, |item.summary|), seeded, placed);
    } else if !item.Message? {
      SameContentSameView(Seeded(placed, ShellOf(item, true)), placed);
    }
  }

  /** A done event says again what was streamed before it. */
  ghost predicate RepeatsStreamed(slot: Slot, e: Event) {
    match e
    case ItemDone(_, item) => RepeatsContent(slot, item)
    case PartDone(_, c, part) => c in slot.parts && part == ViewPart(slot, c) && !part.InputPart?
    case TextDone(_, c, text) => c in slot.parts && text == Get(slot.text, c, "")
    case RefusalDone(_, c, text) => c in slot.parts && text == Get(slot.text, c, "")
    case ReasoningDone(_, c, text) => c in slot.parts && text == Get(slot.text, c, "")
    case SummaryPartDone(_, c, part) => c in slot.summaryParts && SummaryValue(part) == Get(slot.summaryText, c, "")
    case SummaryDone(_, c, text) => c in slot.summaryParts && text == Get(slot.summaryText, c, "")
    case ArgumentsDone(_, arguments) => arguments == ArgumentsOf(slot)
    case _ => false
  }

  /** Every done event that repeats what was streamed changes nothing visible, but for an item's own fields. */
  lemma RepeatedEvent(slot: Slot, e: Event)
    requires RepeatsStreamed(slot, e)
    ensures SameView(Addressed(slot, e),
                     if e.ItemDone? then slot.(shell := Some(ShellOf(e.item, true))) else slot)
  {
    hide Placed, WithPart, WithSummaryPart, Replaced, ViewPart;
    match e {
      case ItemDone(_, item) => RepeatedItem(slot, item);
      case PartDone(_, c, part) => RepeatedPart(slot, c, part);
      case TextDone(_, c, _) => RepeatedText(slot, c, OutputText("", []));
      case RefusalDone(_, c, _) => RepeatedText(slot, c, Refusal(""));
      case ReasoningDone(_, c, _) => RepeatedText(slot, c, ReasoningText(""));
      case SummaryPartDone(_, c, part) => RepeatedSummaryPart(slot, c, part);
      case SummaryDone(_, _, _) => SameContentSameView(Addressed(slot, e), slot);
      case ArgumentsDone(_, _) => SameContentSameView(Addressed(slot, e), slot);
    }
  }

  lemma ViewPartIgnoresShell(slot: Slot, shell: Item, c: nat)
    requires c in slot.parts
    ensures ViewPart(slot.(shell := Some(shell)), c) == ViewPart(slot, c)
  {
  }

  // ----- the response's own identity

  function Envelope(open: Option<Response>, events: seq<Event>): Option<Response>
    decreases events
  {
    if events == [] then open else Envelope(EnvelopeStep(open, events[0]), events[1..])
  }

  /** The response is known, under this id and as answering this predecessor. */
  ghost predicate Identified(open: Option<Response>, id: string, previous: Option<string>) {
    open.Some? && open.value.id == id && open.value.previousResponseId == previous
  }

  /**
   What an event has to say to leave the identity alone: a later opening repeats
   it, a settled snapshot repeats it or leaves it out.
   */
  predicate Keeps(e: Event, id: string, previous: Option<string>) {
    match e
    case Opened(r) => r.id == id && r.previousResponseId == previous
    case Settled(_, r) =>
      && (r.id == "" || r.id == id)
      && (r.previousResponseId.None? || r.previousResponseId.value == "" || r.previousResponseId == previous)
    case _ => true
  }

  /** One event keeps the identity exactly when it repeats it, or is settled and leaves it out. */
  lemma IdentityKeptIff(open: Option<Response>, e: Event, id: string, previous: Option<string>)
    requires Identified(open, id, previous)
    ensures Identified(EnvelopeStep(open, e), id, previous) <==> Keeps(e, id, previous)
  {
    if e.Settled? {
      assert EnvelopeStep(open, e).value.previousResponseId == OrElse(e.response.previousResponseId, previous);
    }
  }

  /** The response is known by its identity at every moment of a stream. */
  ghost predicate AlwaysIdentified(open: Option<Response>, events: seq<Event>, id: string, previous: Option<string>)
    decreases events
  {
    Identified(open, id, previous)
    && (events != [] ==> AlwaysIdentified(EnvelopeStep(open, events[0]), events[1..], id, previous))
  }

  /** Throughout a stream an opened response keeps its identity if and only if every event keeps it. */
  lemma {:induction false} AlwaysIdentifiedIff(open: Option<Response>, events: seq<Event>, id: string,
      previous: Option<string>)
    requires Identified(open, id, previous)
    ensures AlwaysIdentified(open, events, id, previous) <==> forall e <- events :: Keeps(e, id, previous)
    ensures (forall e <- events :: Keeps(e, id, previous)) ==> Identified(Envelope(open, events), id, previous)
    decreases events
  {
    hide EnvelopeStep, Identified, Keeps;
    if events != [] {
      assert events[0] in events;
      IdentityKeptIff(open, events[0], id, previous);
      if Keeps(events[0], id, previous) {
        AlwaysIdentifiedIff(EnvelopeStep(open, events[0]), events[1..], id, previous);
      }
    }
  }

  /** A later opening that leaves the predecessor out forgets it; a settled snapshot would not. */
  lemma LaterOpeningForgets(open: Option<Response>, id: string, previous: string, bare: Response)
    requires Identified(open, id, Some(previous)) && previous != ""
    requires bare.id == id && bare.previousResponseId == None
    ensures Envelope(open, [Opened(bare)]) == Some(bare.(output := []))
    ensures Identified(Envelope(open, [Opened(bare)]), id, None)
    ensures Identified(Envelope(open, [Settled(Completed, bare)]), id, Some(previous))
  {
  }

  /** What a settled snapshot leaves out is completed from what was opened; an error changes the
      status and the error alone. */
  lemma EnvelopeMeans(open: Response, e: Event)
    requires e.Settled? || e.StreamError?
    ensures EnvelopeStep(Some(open), e).Some?
    ensures var after := EnvelopeStep(Some(open), e).value;
            && (e.Settled? ==>
                  && after.status == e.terminal && after.error == e.response.error
                  && after.id == (if e.response.id == "" then open.id else e.response.id)
                  && after.createdAt == (if e.response.createdAt == 0 then open.createdAt else e.response.createdAt)
                  && after.model == (if e.response.model.None? || e.response.model.value == "" then open.model
                                     else e.response.model)
                  && after.output == [])
            && (e.StreamError? ==>
                  && after.status == Failed && after.error == Some(ResponseError(e.code, e.message))
                  && after.id == open.id && after.createdAt == open.createdAt && after.model == open.model
                  && after.previousResponseId == open.previousResponseId && after.output == open.output)
  {
  }

  /** The last event of a stream that speaks about the response as a whole. */
  function LastLifecycle(events: seq<Event>): Option<Event>
    decreases events
  {
    if events == [] then None
    else
      var later := LastLifecycle(events[1..]);
      if later.Some? then later else if events[0].Lifecycle() then Some(events[0]) else None
  }

  function StatusOf(e: Event): ResponseStatus
    requires e.Lifecycle()
  {
    match e
    case Opened(r) => r.status
    case Settled(terminal, _) => terminal
    case StreamError(_, _) => Failed
  }

  /** The last lifecycle event decides the status, whatever item events follow it. */
  lemma {:induction false} LastLifecycleDecides(open: Option<Response>, events: seq<Event>)
    ensures var last, after := LastLifecycle(events), Envelope(open, events);
            if last.None? then after == open
            else last.value.Lifecycle() && after.Some? && after.value.status == StatusOf(last.value)
    decreases events
  {
    if events != [] { LastLifecycleDecides(EnvelopeStep(open, events[0]), events[1..]); }
  }
}
