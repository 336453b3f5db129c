/**
 The meaning of a response stream, one output index at a time.

 A `Slot` is everything a stream has said about one output index.  It is the
 reference the reducer's flat tables are proved against: what a stream
 contributes to an index is a fold of the events addressed to that index.
 */
module ReducerModel {
  import opened Prelude
  import opened Protocol

  datatype Slot = Slot(
    shell: Option<Item>,
    parts: map<nat, Part>,
    text: map<nat, string>,
    annotations: map<nat, seq<Annotation>>,
    summaryParts: map<nat, Part>,
    summaryText: map<nat, string>,
    arguments: Option<string>)

  const EMPTY_SLOT := Slot(None, map[], map[], map[], map[], map[], None)

  function Get<V>(m: map<nat, V>, k: nat, default: V): V {
    if k in m then m[k] else default
  }

  /** `dict.setdefault`. */
  function SetDefault<K, V>(m: map<K, V>, k: K, v: V): map<K, V> {
    if k in m then m else m[k := v]
  }

  // ----- what each kind of event does to its slot

  function PartValue(part: Part): string {
    if part.Refusal? then part.refusal else part.text
  }

  function SummaryValue(part: Part): string {
    if part.Refusal? then "" else part.text
  }

  function PartAnnotations(part: Part): seq<Annotation> {
    if part.OutputText? then part.annotations else []
  }

  /** `existing` followed by the annotations it does not contain yet. */
  function Merge(existing: seq<Annotation>, incoming: seq<Annotation>): seq<Annotation>
    decreases incoming
  {
    if incoming == [] then existing
    else Merge(if incoming[0] in existing then existing else existing + [incoming[0]], incoming[1..])
  }

  function PlacedAnnotations(row: map<nat, seq<Annotation>>, c: nat, part: Part): map<nat, seq<Annotation>> {
    if PartAnnotations(part) == [] then row else row[c := Merge(Get(row, c, []), PartAnnotations(part))]
  }

  function WithPart(slot: Slot, c: nat, part: Part): Slot {
    slot.(parts := slot.parts[c := part],
          text := if PartValue(part) != "" then slot.text[c := PartValue(part)] else SetDefault(slot.text, c, ""),
          annotations := PlacedAnnotations(slot.annotations, c, part))
  }

  function WithSummaryPart(slot: Slot, c: nat, part: Part): Slot {
    slot.(summaryParts := slot.summaryParts[c := part],
          summaryText := if SummaryValue(part) != "" then slot.summaryText[c := SummaryValue(part)]
                         else SetDefault(slot.summaryText, c, ""))
  }

  /** The first `n` parts of an item, adopted in order. */
  function WithParts(slot: Slot, parts: seq<Part>, n: nat): Slot
    requires n <= |parts|
  {
    if n == 0 then slot else WithPart(WithParts(slot, parts, n - 1), n - 1, parts[n - 1])
  }

  function WithSummaryParts(slot: Slot, parts: seq<Part>, n: nat): Slot
    requires n <= |parts|
  {
    if n == 0 then slot else WithSummaryPart(WithSummaryParts(slot, parts, n - 1), n - 1, parts[n - 1])
  }

  /** The arguments of a call as they have been heard so far. */
  function ArgumentsOf(slot: Slot): string {
    if slot.arguments.Some? then slot.arguments.value else ""
  }

  function Seeded(slot: Slot, item: Item): Slot {
    match item
    case Message(_, _, _, _, content) => WithParts(slot, content, |content|)
    case Reasoning(_, _, content, summary, _) =>
      WithSummaryParts(WithParts(slot, content, |content|), summary, |summary|)
    case FunctionCall(_, _, _, _, arguments) =>
      slot.(arguments := Some(if arguments != "" then arguments else ArgumentsOf(slot)))
    case OtherItem(_, _, _, _) => slot
  }

  /** The item as it is kept: with a status, from the event when it has none. */
  function ShellOf(item: Item, done: bool): Item {
    item.(status := if item.status.Some? then item.status else Some(if done then ItemCompleted else ItemInProgress))
  }

  function Placed(slot: Slot, item: Item, done: bool): Slot {
    Seeded(slot.(shell := Some(ShellOf(item, done))), ShellOf(item, done))
  }

  function Appended(slot: Slot, c: nat, delta: string, kind: Part): Slot {
    slot.(parts := SetDefault(slot.parts, c, kind), text := slot.text[c := Get(slot.text, c, "") + delta])
  }

  function Replaced(slot: Slot, c: nat, text: string, kind: Part): Slot {
    slot.(parts := SetDefault(slot.parts, c, kind), text := slot.text[c := text])
  }

  function SummaryReplaced(slot: Slot, c: nat, text: string): Slot {
    slot.(summaryParts := SetDefault(slot.summaryParts, c, SummaryText("")), summaryText := slot.summaryText[c := text])
  }

  function InsertAt<T>(s: seq<T>, i: nat, x: T): seq<T> {
    var at := if i < |s| then i else |s|;
    s[..at] + [x] + s[at..]
  }

  function Annotated(slot: Slot, c: nat, index: nat, a: Annotation): Slot {
    slot.(parts := SetDefault(slot.parts, c, OutputText("", [])),
          annotations := slot.annotations[c := InsertAt(Get(slot.annotations, c, []), index, a)])
  }

  /** A settled response fills the phase of assistant messages that have none. */
  function Phased(slot: Slot, calls: bool): Slot {
    match slot.shell
    case Some(Message(_, _, Assistant, None, _)) =>
      slot.(shell := Some(slot.shell.value.(phase := Some(if calls then Commentary else FinalAnswer))))
    case _ => slot
  }

  /** What one event does to the slot at index `i`.  `calls` says whether the
      settled response contains a function call; only `Settled` looks at it. */
  function SlotStep(slot: Slot, i: nat, e: Event, calls: bool): Slot {
    match e
    case Opened(r) => if i < |r.output| then Placed(slot, r.output[i], true) else slot
    case Settled(_, r) =>
      Phased(if i < |r.output| && slot.shell.None? then Placed(slot, r.output[i], true) else slot, calls)
    case StreamError(_, _) => slot
    case _ => if e.output == i then Addressed(slot, e) else slot
  }

  function Addressed(slot: Slot, e: Event): Slot
    requires !e.Lifecycle()
  {
    match e
    case ItemAdded(_, item) => Placed(slot, item, false)
    case ItemDone(_, item) => Placed(slot, item, true)
    case PartAdded(_, c, part) => WithPart(slot, c, part)
    case PartDone(_, c, part) => WithPart(slot, c, part)
    case TextDelta(_, c, delta) => Appended(slot, c, delta, OutputText("", []))
    case TextDone(_, c, text) => Replaced(slot, c, text, OutputText("", []))
    case AnnotationAdded(_, c, index, a) => Annotated(slot, c, index, a)
    case RefusalDelta(_, c, delta) => Appended(slot, c, delta, Refusal(""))
    case RefusalDone(_, c, text) => Replaced(slot, c, text, Refusal(""))
    case ReasoningDelta(_, c, delta) => Appended(slot, c, delta, ReasoningText(""))
    case ReasoningDone(_, c, text) => Replaced(slot, c, text, ReasoningText(""))
    case SummaryPartAdded(_, c, part) => WithSummaryPart(slot, c, part)
    case SummaryPartDone(_, c, part) => WithSummaryPart(slot, c, part)
    case SummaryDelta(_, c, delta) => SummaryReplaced(slot, c, Get(slot.summaryText, c, "") + delta)
    case SummaryDone(_, c, text) => SummaryReplaced(slot, c, text)
    case ArgumentsDelta(_, delta) =>
      slot.(arguments := Some(ArgumentsOf(slot) + delta))
    case ArgumentsDone(_, arguments) => slot.(arguments := Some(arguments))
  }

  // ----- the item a slot stands for

  function ViewPart(slot: Slot, c: nat): Part
    requires c in slot.parts
  {
    var text := Get(slot.text, c, "");
    match slot.parts[c]
    case OutputText(_, _) => OutputText(text, Get(slot.annotations, c, []))
    case Refusal(_) => Refusal(text)
    case ReasoningText(_) => ReasoningText(text)
    case SummaryText(_) => SummaryText(text)
    case InputPart(_, _) => slot.parts[c]
  }

  function ViewParts(slot: Slot, indices: seq<nat>): (parts: seq<Part>)
    requires forall c <- indices :: c in slot.parts
    ensures |parts| == |indices| && forall k :: 0 <= k < |parts| ==> parts[k] == ViewPart(slot, indices[k])
  {
    if indices == [] then [] else [ViewPart(slot, indices[0])] + ViewParts(slot, indices[1..])
  }

  function ViewSummary(slot: Slot, indices: seq<nat>): (parts: seq<Part>)
    ensures |parts| == |indices|
    ensures forall k :: 0 <= k < |parts| ==> parts[k] == SummaryText(Get(slot.summaryText, indices[k], ""))
  {
    if indices == [] then []
    else [SummaryText(Get(slot.summaryText, indices[0], ""))] + ViewSummary(slot, indices[1..])
  }

  /** The item rebuilt from its shell and everything accumulated for it. */
  function View(slot: Slot): Item
    requires slot.shell.Some?
  {
    var parts := ViewParts(slot, Ascending(slot.parts.Keys));
    match slot.shell.value
    case Message(id, status, role, phase, _) => Message(id, status, role, phase, parts)
    case Reasoning(id, status, _, _, encrypted) =>
      Reasoning(id, status, parts, ViewSummary(slot, Ascending(slot.summaryParts.Keys)), encrypted)
    case FunctionCall(id, status, callId, name, _) =>
      FunctionCall(id, status, callId, name, ArgumentsOf(slot))
    case OtherItem(id, status, kind, payload) => OtherItem(id, status, kind, payload)
  }

  lemma SeededKeepsShell(slot: Slot, item: Item)
    ensures Seeded(slot, item).shell == slot.shell
  {
    match item {
      case Message(_, _, _, _, content) => PartsKeepShell(slot, content, |content|);
      case Reasoning(_, _, content, summary, _) =>
        PartsKeepShell(slot, content, |content|);
        SummaryKeepsShell(WithParts(slot, content, |content|), summary, |summary|);
      case _ =>
    }
  }

  lemma {:induction false} PartsKeepShell(slot: Slot, parts: seq<Part>, n: nat)
    requires n <= |parts|
    ensures WithParts(slot, parts, n).shell == slot.shell
  {
    if n > 0 { PartsKeepShell(slot, parts, n - 1); }
  }

  lemma {:induction false} SummaryKeepsShell(slot: Slot, parts: seq<Part>, n: nat)
    requires n <= |parts|
    ensures WithSummaryParts(slot, parts, n).shell == slot.shell
  {
    if n > 0 { SummaryKeepsShell(slot, parts, n - 1); }
  }

  lemma AddressedKeepsShell(slot: Slot, e: Event)
    requires !e.Lifecycle() && !e.ItemAdded? && !e.ItemDone?
    ensures Addressed(slot, e).shell == slot.shell
  {
  }

  // ----- all slots of a response at once

  /** The slot of every output index. */
  type Slots = nat -> Slot

  /** Only slot `o` differs between the two, and it became `slot`. */
  ghost predicate Became(f: Slots, g: Slots, o: nat, slot: Slot) {
    g(o) == slot && forall i: nat {:trigger g(i)} :: i != o ==> g(i) == f(i)
  }

  lemma BecameTransitive(f: Slots, g: Slots, h: Slots, o: nat, a: Slot, b: Slot)
    requires Became(f, g, o, a) && Became(g, h, o, b)
    ensures Became(f, h, o, b)
  {
  }

  /** Exactly the opened indices have an item, and it is the view of their slot. */
  ghost predicate IsView(items: map<nat, Item>, f: Slots) {
    forall i: nat {:trigger f(i)} {:trigger i in items} ::
      (i in items <==> f(i).shell.Some?) && (i in items ==> items[i] == View(f(i)))
  }

  /** The same, except that the item at `o` may be missing or out of date. */
  ghost predicate IsViewBut(items: map<nat, Item>, f: Slots, o: nat) {
    && (o in items ==> f(o).shell.Some?)
    && forall i: nat {:trigger f(i)} {:trigger i in items} :: i != o ==>
         (i in items <==> f(i).shell.Some?) && (i in items ==> items[i] == View(f(i)))
  }

  lemma ViewElsewhere(items: map<nat, Item>, f: Slots, g: Slots, o: nat, slot: Slot)
    requires IsView(items, f) && Became(f, g, o, slot)
    requires f(o).shell.Some? ==> slot.shell.Some?
    ensures IsViewBut(items, g, o)
  {
  }

  lemma ViewRebuilt(items: map<nat, Item>, f: Slots, o: nat)
    requires IsViewBut(items, f, o)
    ensures IsView(if f(o).shell.Some? then items[o := View(f(o))] else items, f)
  {
  }

  /** Every slot took the step the reference prescribes for it. */
  ghost predicate Stepped(f: Slots, g: Slots, e: Event, calls: bool) {
    forall i: nat {:trigger g(i)} :: g(i) == SlotStep(f(i), i, e, calls)
  }

  lemma AddressedStepped(f: Slots, g: Slots, e: Event, calls: bool)
    requires !e.Lifecycle() && Became(f, g, e.output, Addressed(f(e.output), e))
    ensures Stepped(f, g, e, calls)
  {
  }

  /** Slot `i` once the first `n` items of a snapshot were placed; with `missing`,
      an index that already streamed something keeps it. */
  function SnapshotSlot(slot: Slot, i: nat, output: seq<Item>, n: nat, missing: bool): Slot
    requires n <= |output|
  {
    if i < n && (missing ==> slot.shell.None?) then Placed(slot, output[i], true) else slot
  }

  ghost predicate PlacedUpTo(f: Slots, g: Slots, output: seq<Item>, n: nat, missing: bool) {
    n <= |output| && forall i: nat {:trigger g(i)} :: g(i) == SnapshotSlot(f(i), i, output, n, missing)
  }

  lemma PlacedNext(f: Slots, g: Slots, h: Slots, output: seq<Item>, n: nat, missing: bool)
    requires n < |output| && PlacedUpTo(f, g, output, n, missing)
    requires Became(g, h, n, if missing && f(n).shell.Some? then f(n) else Placed(f(n), output[n], true))
    ensures PlacedUpTo(f, h, output, n + 1, missing)
  {
  }

  /** The indices in `done` had their phase filled. */
  ghost predicate PhasedIn(f: Slots, g: Slots, done: set<nat>, calls: bool) {
    forall i: nat {:trigger g(i)} :: g(i) == if i in done then Phased(f(i), calls) else f(i)
  }

  lemma PhasedNone(f: Slots, calls: bool)
    ensures PhasedIn(f, f, {}, calls)
  {
  }

  lemma PhasedNext(f: Slots, g: Slots, h: Slots, done: set<nat>, o: nat, calls: bool)
    requires PhasedIn(f, g, done, calls) && o !in done
    requires Became(g, h, o, Phased(g(o), calls))
    ensures PhasedIn(f, h, done + {o}, calls)
  {
  }

  lemma OpenStepped(f: Slots, g: Slots, r: Response, calls: bool)
    requires PlacedUpTo(f, g, r.output, |r.output|, false)
    ensures Stepped(f, g, Opened(r), calls)
  {
  }

  lemma ErrorStepped(f: Slots, code: string, message: string, calls: bool)
    ensures Stepped(f, f, StreamError(code, message), calls)
  {
  }

  lemma SettleStepped(f: Slots, g: Slots, h: Slots, terminal: ResponseStatus, r: Response, done: set<nat>, calls: bool)
    requires PlacedUpTo(f, g, r.output, |r.output|, true) && PhasedIn(g, h, done, calls)
    requires forall i: nat :: i in done <==> g(i).shell.Some?
    ensures Stepped(f, h, Settled(terminal, r), calls)
  {
  }

  lemma ViewIgnoresShell(slot: Slot, shell: Item, indices: seq<nat>)
    requires forall c <- indices :: c in slot.parts
    ensures ViewParts(slot.(shell := Some(shell)), indices) == ViewParts(slot, indices)
  {
  }

  lemma ViewOfPhased(slot: Slot, calls: bool)
    requires slot.shell.Some? && View(slot).Message? && View(slot).role == Assistant && View(slot).phase.None?
    ensures View(Phased(slot, calls)) == View(slot).(phase := Some(if calls then Commentary else FinalAnswer))
  {
    ViewIgnoresShell(slot, Phased(slot, calls).shell.value, Ascending(slot.parts.Keys));
  }

  /** Filling a phase in an item and in its shell keeps the view. */
  lemma PhasedView(items: map<nat, Item>, f: Slots, g: Slots, o: nat, calls: bool)
    requires IsView(items, f) && o in items && items[o].Message? && items[o].role == Assistant && items[o].phase.None?
    requires Became(f, g, o, Phased(f(o), calls))
    ensures IsView(items[o := items[o].(phase := Some(if calls then Commentary else FinalAnswer))], g)
  {
    hide View;
    assert items[o] == View(f(o));
    ViewOfPhased(f(o), calls);
    ViewElsewhere(items, f, g, o, Phased(f(o), calls));
    ViewRebuilt(items, g, o);
  }

  /** What an item says about its role and phase is what its shell says. */
  lemma PhasedOnlyWhenMissing(slot: Slot, calls: bool)
    requires slot.shell.Some?
    ensures View(slot).Message? == slot.shell.value.Message?
    ensures var item := View(slot);
            Phased(slot, calls) ==
              if item.Message? && item.role == Assistant && item.phase.None?
              then slot.(shell := Some(slot.shell.value.(phase := Some(if calls then Commentary else FinalAnswer))))
              else slot
  {
  }

  ghost predicate HasCall(items: map<nat, Item>) {
    exists i :: i in items && items[i].FunctionCall?
  }
}
