/**
 What the reducer's items say about the events it was given: whatever is shown was
 said by an event, and the last event that said something whole has the last word.
 Nothing here is defined by what the reducer does.
 */
module StreamedItems {
  import opened Prelude
  import opened Protocol
  import opened ReducerModel
  import opened ReducerTheory
  import opened Reducer

  // ----- what one event says

  /** What an event says about one text: nothing, all of it, or how it goes on. */
  datatype Says = Nothing | Whole(text: string) | More(delta: string)

  /** The item that an event puts at an index. */
  function PutsItem(e: Event, o: nat): Option<Item> {
    match e
    case ItemAdded(i, item) => if i == o then Some(item) else None
    case ItemDone(i, item) => if i == o then Some(item) else None
    case Opened(r) => if o < |r.output| then Some(r.output[o]) else None
    case _ => None
  }

  function ContentOf(item: Item): seq<Part> {
    match item
    case Message(_, _, _, _, content) => content
    case Reasoning(_, _, content, _, _) => content
    case FunctionCall(_, _, _, _, _) => []
    case OtherItem(_, _, _, _) => []
  }

  function SummaryOf(item: Item): seq<Part> {
    match item
    case Reasoning(_, _, _, summary, _) => summary
    case _ => []
  }

  /** The content part that an event puts at an address. */
  function PutsPart(e: Event, o: nat, c: nat): Option<Part> {
    match e
    case PartAdded(i, d, part) => if i == o && d == c then Some(part) else None
    case PartDone(i, d, part) => if i == o && d == c then Some(part) else None
    case _ =>
      if PutsItem(e, o).Some? && c < |ContentOf(PutsItem(e, o).value)|
      then Some(ContentOf(PutsItem(e, o).value)[c]) else None
  }

  /** The kind of part that an event writes into without putting one. */
  function WritesInto(e: Event, o: nat, c: nat): Option<Part> {
    match e
    case TextDelta(i, d, _) => if i == o && d == c then Some(OutputText("", [])) else None
    case TextDone(i, d, _) => if i == o && d == c then Some(OutputText("", [])) else None
    case AnnotationAdded(i, d, _, _) => if i == o && d == c then Some(OutputText("", [])) else None
    case RefusalDelta(i, d, _) => if i == o && d == c then Some(Refusal("")) else None
    case RefusalDone(i, d, _) => if i == o && d == c then Some(Refusal("")) else None
    case ReasoningDelta(i, d, _) => if i == o && d == c then Some(ReasoningText("")) else None
    case ReasoningDone(i, d, _) => if i == o && d == c then Some(ReasoningText("")) else None
    case _ => None
  }

  function Wording(part: Part): string {
    match part
    case OutputText(text, _) => text
    case Refusal(refusal) => refusal
    case ReasoningText(text) => text
    case SummaryText(text) => text
    case InputPart(text, _) => text
  }

  /** A part or an item says a whole text when it carries one; an empty one leaves it open. */
  function Carries(text: string): Says { if text == "" then Nothing else Whole(text) }

  function SaysText(e: Event, o: nat, c: nat): Says {
    match e
    case TextDelta(i, d, delta) => if i == o && d == c then More(delta) else Nothing
    case RefusalDelta(i, d, delta) => if i == o && d == c then More(delta) else Nothing
    case ReasoningDelta(i, d, delta) => if i == o && d == c then More(delta) else Nothing
    case TextDone(i, d, text) => if i == o && d == c then Whole(text) else Nothing
    case RefusalDone(i, d, text) => if i == o && d == c then Whole(text) else Nothing
    case ReasoningDone(i, d, text) => if i == o && d == c then Whole(text) else Nothing
    case _ => if PutsPart(e, o, c).Some? then Carries(Wording(PutsPart(e, o, c).value)) else Nothing
  }

  function PutsSummary(e: Event, o: nat, c: nat): Option<Part> {
    match e
    case SummaryPartAdded(i, d, part) => if i == o && d == c then Some(part) else None
    case SummaryPartDone(i, d, part) => if i == o && d == c then Some(part) else None
    case _ =>
      if PutsItem(e, o).Some? && c < |SummaryOf(PutsItem(e, o).value)|
      then Some(SummaryOf(PutsItem(e, o).value)[c]) else None
  }

  function SaysSummary(e: Event, o: nat, c: nat): Says {
    match e
    case SummaryDelta(i, d, delta) => if i == o && d == c then More(delta) else Nothing
    case SummaryDone(i, d, text) => if i == o && d == c then Whole(text) else Nothing
    case _ =>
      if PutsSummary(e, o, c).Some? && !PutsSummary(e, o, c).value.Refusal?
      then Carries(Wording(PutsSummary(e, o, c).value)) else Nothing
  }

  predicate ConcernsSummary(e: Event, o: nat, c: nat) {
    || PutsSummary(e, o, c).Some?
    || (e.SummaryDelta? && e.output == o && e.summary == c) || (e.SummaryDone? && e.output == o && e.summary == c)
  }

  function SaysArguments(e: Event, o: nat): Says {
    match e
    case ArgumentsDelta(i, delta) => if i == o then More(delta) else Nothing
    case ArgumentsDone(i, arguments) => if i == o then Whole(arguments) else Nothing
    case _ =>
      if PutsItem(e, o).Some? && PutsItem(e, o).value.FunctionCall? then Carries(PutsItem(e, o).value.arguments)
      else Nothing
  }

  /** The event brings this annotation to a part. */
  predicate Brings(e: Event, o: nat, c: nat, a: Annotation) {
    || (e.AnnotationAdded? && e.output == o && e.content == c && e.annotation == a)
    || (PutsPart(e, o, c).Some? && PutsPart(e, o, c).value.OutputText? && a in PutsPart(e, o, c).value.annotations)
  }

  // ----- what a list of events says

  function Deltas(says: seq<Says>): seq<string> {
    if says == [] then []
    else (if says[0].More? then [says[0].delta] else []) + Deltas(says[1..])
  }

  /** The last whole text that was said from position `n - 1` on, and how it went on after that. */
  ghost predicate SaidSince(says: seq<Says>, n: nat, text: string) {
    && n <= |says| && (n > 0 ==> says[n - 1].Whole?)
    && (forall m :: n <= m < |says| ==> !says[m].Whole?)
    && text == (if n == 0 then "" else says[n - 1].text) + Join(Deltas(says[n..]))
  }

  /** The text of the last whole value, followed by what was added later. */
  ghost predicate IsSaid(says: seq<Says>, text: string) {
    exists n: nat :: SaidSince(says, n, text)
  }

  function Texts(events: seq<Event>, o: nat, c: nat): (r: seq<Says>)
    ensures |r| == |events| && forall n :: 0 <= n < |r| ==> r[n] == SaysText(events[n], o, c)
  {
    seq(|events|, n requires 0 <= n < |events| => SaysText(events[n], o, c))
  }

  function Summaries(events: seq<Event>, o: nat, c: nat): (r: seq<Says>)
    ensures |r| == |events| && forall n :: 0 <= n < |r| ==> r[n] == SaysSummary(events[n], o, c)
  {
    seq(|events|, n requires 0 <= n < |events| => SaysSummary(events[n], o, c))
  }

  function AllArguments(events: seq<Event>, o: nat): (r: seq<Says>)
    ensures |r| == |events| && forall n :: 0 <= n < |r| ==> r[n] == SaysArguments(events[n], o)
  {
    seq(|events|, n requires 0 <= n < |events| => SaysArguments(events[n], o))
  }

  /** Event `n` is the last that puts an item at the index. */
  ghost predicate LastItem(events: seq<Event>, n: nat, o: nat) {
    n < |events| && PutsItem(events[n], o).Some? && forall m :: n < m < |events| ==> PutsItem(events[m], o).None?
  }

  /** The item's own fields are those of the item put last; its status is its own, or else follows from the event. */
  ghost predicate HasOwnFields(shown: Item, e: Event, o: nat)
    requires PutsItem(e, o).Some?
  {
    var item := PutsItem(e, o).value;
    && shown.id == item.id
    && shown.status == Some(if item.status.Some? then item.status.value
                            else if e.ItemAdded? then ItemInProgress else ItemCompleted)
    && match item
       case Message(_, _, role, phase, _) => shown.Message? && shown.role == role && shown.phase == phase
       case Reasoning(_, _, _, _, encrypted) => shown.Reasoning? && shown.encrypted == encrypted
       case FunctionCall(_, _, callId, name, _) => shown.FunctionCall? && shown.callId == callId && shown.name == name
       case OtherItem(_, _, kind, payload) => shown.OtherItem? && shown.kind == kind && shown.payload == payload
  }

  predicate SameKind(a: Part, b: Part) {
    match a
    case OutputText(_, _) => b.OutputText?
    case Refusal(_) => b.Refusal?
    case ReasoningText(_) => b.ReasoningText?
    case SummaryText(_) => b.SummaryText?
    case InputPart(_, _) => b == a
  }

  ghost predicate LastPart(events: seq<Event>, n: nat, o: nat, c: nat) {
    n < |events| && PutsPart(events[n], o, c).Some? && forall m :: n < m < |events| ==> PutsPart(events[m], o, c).None?
  }

  /** No event puts the part, and event `n` is the first that writes into it. */
  ghost predicate FirstWritten(events: seq<Event>, n: nat, o: nat, c: nat) {
    && n < |events| && WritesInto(events[n], o, c).Some?
    && (forall m :: 0 <= m < |events| ==> PutsPart(events[m], o, c).None?)
    && forall m :: 0 <= m < n ==> WritesInto(events[m], o, c).None?
  }

  predicate ConcernsPart(e: Event, o: nat, c: nat) { PutsPart(e, o, c).Some? || WritesInto(e, o, c).Some? }

  ghost predicate SomeConcerns(events: seq<Event>, o: nat, c: nat) {
    exists e :: e in events && ConcernsPart(e, o, c)
  }

  ghost predicate SomeConcernsSummary(events: seq<Event>, o: nat, c: nat) {
    exists e :: e in events && ConcernsSummary(e, o, c)
  }

  ghost predicate SomeBrings(events: seq<Event>, o: nat, c: nat, a: Annotation) {
    exists e :: e in events && Brings(e, o, c, a)
  }

  /** The part is of the kind put last, or else of the kind written first; its text is what was
      said, and its annotations are those that were brought. */
  ghost predicate PartShows(part: Part, events: seq<Event>, o: nat, c: nat) {
    && (forall n: nat :: LastPart(events, n, o, c) ==> SameKind(PutsPart(events[n], o, c).value, part))
    && (forall n: nat :: FirstWritten(events, n, o, c) ==> SameKind(WritesInto(events[n], o, c).value, part))
    && (!part.InputPart? ==> IsSaid(Texts(events, o, c), Wording(part)))
    && (part.OutputText? ==> forall a :: a in part.annotations <==> SomeBrings(events, o, c, a))
  }

  /** One part for every content index that some event concerns, in ascending order. */
  ghost predicate ContentShows(content: seq<Part>, events: seq<Event>, o: nat) {
    exists at :: ContentAt(content, events, o, at)
  }

  /** The parts stand at these content indices. */
  ghost predicate ContentAt(content: seq<Part>, events: seq<Event>, o: nat, at: seq<nat>) {
    && Increasing(at) && |at| == |content| && (forall c :: c in at <==> SomeConcerns(events, o, c))
    && forall k :: 0 <= k < |at| ==> PartShows(content[k], events, o, at[k])
  }

  ghost predicate SummaryShows(summary: seq<Part>, events: seq<Event>, o: nat) {
    exists at :: SummaryAt(summary, events, o, at)
  }

  ghost predicate SummaryAt(summary: seq<Part>, events: seq<Event>, o: nat, at: seq<nat>) {
    && Increasing(at) && |at| == |summary| && (forall c :: c in at <==> SomeConcernsSummary(events, o, c))
    && forall k :: 0 <= k < |at| ==> summary[k].SummaryText? && IsSaid(Summaries(events, o, at[k]), summary[k].text)
  }

  /** Everything an item shows. */
  ghost predicate ItemShows(item: Item, events: seq<Event>, o: nat) {
    && (forall n: nat :: LastItem(events, n, o) ==> HasOwnFields(item, events[n], o))
    && (item.Message? ==> ContentShows(item.content, events, o))
    && (item.Reasoning? ==> ContentShows(item.content, events, o) && SummaryShows(item.summary, events, o))
    && (item.FunctionCall? ==> IsSaid(AllArguments(events, o), item.arguments))
  }

  ghost predicate SomePuts(events: seq<Event>, o: nat) {
    exists e :: e in events && PutsItem(e, o).Some?
  }

  /** Exactly the indices at which an item was put have one, and it shows what was said. */
  ghost predicate ItemsShow(items: map<nat, Item>, events: seq<Event>) {
    && (forall o: nat :: o in items <==> SomePuts(events, o))
    && forall o: nat {:trigger items[o]} :: o in items ==> ItemShows(items[o], events, o)
  }

  // ----- one text over a list of events

  function After(text: string, s: Says): string {
    match s
    case Nothing => text
    case Whole(whole) => whole
    case More(delta) => text + delta
  }

  lemma {:induction false} DeltasSnoc(says: seq<Says>, s: Says)
    ensures Deltas(says + [s]) == Deltas(says) + if s.More? then [s.delta] else []
  {
    if says == [] {
      assert [s][1..] == [] && (says + [s])[1..] == [];
      assert Deltas([s]) == (if s.More? then [s.delta] else []) + Deltas([]);
    } else {
      var head, tail := if says[0].More? then [says[0].delta] else [], if s.More? then [s.delta] else [];
      assert (says + [s])[1..] == says[1..] + [s];
      DeltasSnoc(says[1..], s);
      assert head + (Deltas(says[1..]) + tail) == head + Deltas(says[1..]) + tail;
    }
  }

  lemma SaidOneMore(says: seq<Says>, text: string, s: Says)
    requires IsSaid(says, text)
    ensures IsSaid(says + [s], After(text, s))
  {
    hide SaidSince;
    var n: nat :| SaidSince(says, n, text);
    if s.Whole? {
      WholeIsSaid(says, s.text);
    } else {
      GoesOn(says, n, text, s);
    }
  }

  lemma WholeIsSaid(says: seq<Says>, text: string)
    ensures SaidSince(says + [Whole(text)], |says| + 1, text)
  {
    var all := says + [Whole(text)];
    assert all[|says| + 1..] == [] && all[|says|] == Whole(text);
    assert text + "" == text;
  }

  lemma GoesOn(says: seq<Says>, n: nat, text: string, s: Says)
    requires SaidSince(says, n, text) && !s.Whole?
    ensures SaidSince(says + [s], n, After(text, s))
  {
    hide Join, Deltas;
    var all, later := says + [s], Deltas(says[n..]);
    assert all[n..] == says[n..] + [s];
    DeltasSnoc(says[n..], s);
    assert later + [] == later;
    if s.More? {
      JoinSnoc(later, s.delta);
      var start := if n == 0 then "" else says[n - 1].text;
      assert start + Join(later) + s.delta == start + (Join(later) + s.delta);
    }
    assert forall m :: 0 <= m < |says| ==> all[m] == says[m];
  }

  lemma NothingSaid()
    ensures IsSaid([], "")
  {
    assert SaidSince([], 0, "");
  }

  // ----- what one event does to a slot

  /** Text and annotations of a part after some parts were put in order. */
  lemma {:induction false} PartsSay(slot: Slot, parts: seq<Part>, n: nat, c: nat)
    requires n <= |parts|
    ensures var after := WithParts(slot, parts, n);
            && Get(after.text, c, "")
               == After(Get(slot.text, c, ""), if c < n then Carries(Wording(parts[c])) else Nothing)
            && (c in after.parts <==> c < n || c in slot.parts)
            && (c in after.parts ==> after.parts[c] == if c < n then parts[c] else slot.parts[c])
            && (forall a :: a in Get(after.annotations, c, []) <==>
                  a in Get(slot.annotations, c, []) || (c < n && a in PartAnnotations(parts[c])))
            && after.summaryText == slot.summaryText && after.summaryParts == slot.summaryParts
            && after.arguments == slot.arguments
  {
    hide Merge;
    if n > 0 {
      PartsSay(slot, parts, n - 1, c);
      MergeHas(Get(WithParts(slot, parts, n - 1).annotations, n - 1, []), PartAnnotations(parts[n - 1]));
    }
  }

  lemma {:induction false} MergeHas(existing: seq<Annotation>, incoming: seq<Annotation>)
    ensures forall a :: a in Merge(existing, incoming) <==> a in existing || a in incoming
    decreases incoming
  {
    if incoming != [] {
      MergeHas(if incoming[0] in existing then existing else existing + [incoming[0]], incoming[1..]);
      assert incoming == [incoming[0]] + incoming[1..];
    }
  }

  lemma {:induction false} SummariesSay(slot: Slot, parts: seq<Part>, n: nat, c: nat)
    requires n <= |parts|
    ensures var after := WithSummaryParts(slot, parts, n);
            && Get(after.summaryText, c, "") == After(Get(slot.summaryText, c, ""),
                 if c < n && !parts[c].Refusal? then Carries(Wording(parts[c])) else Nothing)
            && (c in after.summaryParts <==> c < n || c in slot.summaryParts)
            && after.text == slot.text && after.parts == slot.parts && after.annotations == slot.annotations
            && after.arguments == slot.arguments
  {
    if n > 0 { SummariesSay(slot, parts, n - 1, c); }
  }

  /** A part after one event: what was said, what was put, and the kind that was written into. */
  ghost predicate PartBecomes(slot: Slot, after: Slot, c: nat, says: Says, put: Option<Part>, into: Option<Part>) {
    && Get(after.text, c, "") == After(Get(slot.text, c, ""), says)
    && (c in after.parts <==> c in slot.parts || put.Some? || into.Some?)
    && (c in after.parts ==>
          after.parts[c] == if put.Some? then put.value else if c in slot.parts then slot.parts[c] else into.value)
  }

  ghost predicate PartMoves(slot: Slot, after: Slot, e: Event, o: nat, c: nat) {
    PartBecomes(slot, after, c, SaysText(e, o, c), PutsPart(e, o, c), WritesInto(e, o, c))
  }

  ghost predicate AnnotationsMove(slot: Slot, after: Slot, e: Event, o: nat, c: nat) {
    forall a :: a in Get(after.annotations, c, []) <==> a in Get(slot.annotations, c, []) || Brings(e, o, c, a)
  }

  ghost predicate SummaryBecomes(slot: Slot, after: Slot, c: nat, says: Says, concerned: bool) {
    && Get(after.summaryText, c, "") == After(Get(slot.summaryText, c, ""), says)
    && (c in after.summaryParts <==> c in slot.summaryParts || concerned)
  }

  ghost predicate SummaryMoves(slot: Slot, after: Slot, e: Event, o: nat, c: nat) {
    SummaryBecomes(slot, after, c, SaysSummary(e, o, c), ConcernsSummary(e, o, c))
  }

  lemma ItemMovesParts(slot: Slot, item: Item, done: bool, c: nat)
    ensures var after, content := Placed(slot, item, done), ContentOf(item);
            && Get(after.text, c, "")
               == After(Get(slot.text, c, ""), if c < |content| then Carries(Wording(content[c])) else Nothing)
            && (c in after.parts <==> c in slot.parts || c < |content|)
            && (c in after.parts ==> after.parts[c] == if c < |content| then content[c] else slot.parts[c])
            && (forall a :: a in Get(after.annotations, c, []) <==>
                  a in Get(slot.annotations, c, []) || (c < |content| && a in PartAnnotations(content[c])))
  {
    var started := slot.(shell := Some(ShellOf(item, done)));
    match item {
      case Message(_, _, _, _, content) => PartsSay(started, content, |content|, c);
      case Reasoning(_, _, content, summary, _) =>
        PartsSay(started, content, |content|, c);
        SummariesSay(WithParts(started, content, |content|), summary, |summary|, c);
      case _ =>
    }
  }

  lemma ItemMovesSummary(slot: Slot, item: Item, done: bool, c: nat)
    ensures var after, summary := Placed(slot, item, done), SummaryOf(item);
            && Get(after.summaryText, c, "") == After(Get(slot.summaryText, c, ""),
                 if c < |summary| && !summary[c].Refusal? then Carries(Wording(summary[c])) else Nothing)
            && (c in after.summaryParts <==> c in slot.summaryParts || c < |summary|)
  {
    var started := slot.(shell := Some(ShellOf(item, done)));
    match item {
      case Message(_, _, _, _, content) => PartsSay(started, content, |content|, c);
      case Reasoning(_, _, content, summary, _) =>
        PartsSay(started, content, |content|, c);
        SummariesSay(WithParts(started, content, |content|), summary, |summary|, c);
      case _ =>
    }
  }

  lemma ItemMovesArguments(slot: Slot, item: Item, done: bool)
    ensures ArgumentsOf(Placed(slot, item, done))
         == After(ArgumentsOf(slot), if item.FunctionCall? then Carries(item.arguments) else Nothing)
    ensures Placed(slot, item, done).shell == Some(ShellOf(item, done))
  {
    var started := slot.(shell := Some(ShellOf(item, done)));
    SeededKeepsShell(started, ShellOf(item, done));
    match item {
      case Message(_, _, _, _, content) => PartsSay(started, content, |content|, 0);
      case Reasoning(_, _, content, summary, _) =>
        PartsSay(started, content, |content|, 0);
        SummariesSay(WithParts(started, content, |content|), summary, |summary|, 0);
      case _ =>
    }
  }

  lemma SameBecomes(slot: Slot, after: Slot, c: nat)
    requires Get(after.text, c, "") == Get(slot.text, c, "")
    requires (c in after.parts <==> c in slot.parts) && (c in slot.parts ==> after.parts[c] == slot.parts[c])
    ensures PartBecomes(slot, after, c, Nothing, None, None)
  {
  }

  lemma AppendBecomes(slot: Slot, d: nat, delta: string, kind: Part, c: nat)
    ensures var after := Appended(slot, d, delta, kind);
            && PartBecomes(slot, after, d, More(delta), None, Some(kind))
            && (c != d ==> PartBecomes(slot, after, c, Nothing, None, None))
            && after.annotations == slot.annotations
  {
  }

  lemma ReplaceBecomes(slot: Slot, d: nat, text: string, kind: Part, c: nat)
    ensures var after := Replaced(slot, d, text, kind);
            && PartBecomes(slot, after, d, Whole(text), None, Some(kind))
            && (c != d ==> PartBecomes(slot, after, c, Nothing, None, None))
            && after.annotations == slot.annotations
  {
  }

  lemma AnnotateBecomes(slot: Slot, d: nat, index: nat, x: Annotation, c: nat)
    ensures var after := Annotated(slot, d, index, x);
            && PartBecomes(slot, after, d, Nothing, None, Some(OutputText("", [])))
            && (c != d ==> PartBecomes(slot, after, c, Nothing, None, None))
            && forall a :: a in Get(after.annotations, c, []) <==>
                 a in Get(slot.annotations, c, []) || (c == d && a == x)
  {
    hide InsertAt;
    InsertHas(Get(slot.annotations, d, []), index, x);
  }

  lemma PartEventBecomes(slot: Slot, d: nat, part: Part, c: nat)
    ensures var after := WithPart(slot, d, part);
            && PartBecomes(slot, after, d, Carries(Wording(part)), Some(part), None)
            && (c != d ==> PartBecomes(slot, after, c, Nothing, None, None))
            && forall a :: a in Get(after.annotations, c, []) <==>
                 a in Get(slot.annotations, c, []) || (c == d && a in PartAnnotations(part))
  {
    hide Merge;
    MergeHas(Get(slot.annotations, d, []), PartAnnotations(part));
  }

  lemma StepMovesPart(slot: Slot, e: Event, o: nat, c: nat)
    requires !e.Settled?
    ensures PartMoves(slot, SlotStep(slot, o, e, false), e, o, c)
    ensures AnnotationsMove(slot, SlotStep(slot, o, e, false), e, o, c)
  {
    if e.Opened? || e.ItemAdded? || e.ItemDone? {
      ItemEventMovesPart(slot, e, o, c);
    } else if e.Lifecycle() || e.output != o {
      SameBecomes(slot, slot, c);
    } else {
      AddressedMovesPart(slot, e, o, c);
    }
  }

  lemma ItemEventMovesPart(slot: Slot, e: Event, o: nat, c: nat)
    requires e.Opened? || e.ItemAdded? || e.ItemDone?
    ensures PartMoves(slot, SlotStep(slot, o, e, false), e, o, c)
    ensures AnnotationsMove(slot, SlotStep(slot, o, e, false), e, o, c)
  {
    hide Placed, ContentOf;
    if PutsItem(e, o).Some? {
      ItemMovesParts(slot, PutsItem(e, o).value, !e.ItemAdded?, c);
      assert SlotStep(slot, o, e, false) == Placed(slot, PutsItem(e, o).value, !e.ItemAdded?);
    } else {
      assert SlotStep(slot, o, e, false) == slot;
    }
  }

  lemma AddressedMovesPart(slot: Slot, e: Event, o: nat, c: nat)
    requires !e.Lifecycle() && !e.ItemAdded? && !e.ItemDone? && e.output == o
    ensures PartMoves(slot, Addressed(slot, e), e, o, c) && AnnotationsMove(slot, Addressed(slot, e), e, o, c)
  {
    hide PartBecomes, Appended, Replaced, Annotated, WithPart, SummaryReplaced, WithSummaryPart, Carries, Wording;
    match e {
      case PartAdded(_, d, part) => PartEventBecomes(slot, d, part, c);
      case PartDone(_, d, part) => PartEventBecomes(slot, d, part, c);
      case TextDelta(_, d, delta) => AppendBecomes(slot, d, delta, OutputText("", []), c);
      case TextDone(_, d, text) => ReplaceBecomes(slot, d, text, OutputText("", []), c);
      case AnnotationAdded(_, d, index, a) => AnnotateBecomes(slot, d, index, a, c);
      case RefusalDelta(_, d, delta) => AppendBecomes(slot, d, delta, Refusal(""), c);
      case RefusalDone(_, d, text) => ReplaceBecomes(slot, d, text, Refusal(""), c);
      case ReasoningDelta(_, d, delta) => AppendBecomes(slot, d, delta, ReasoningText(""), c);
      case ReasoningDone(_, d, text) => ReplaceBecomes(slot, d, text, ReasoningText(""), c);
      case _ => SideEventsKeepParts(slot, e, c);
    }
  }

  lemma SideEventsKeepParts(slot: Slot, e: Event, c: nat)
    requires e.SummaryPartAdded? || e.SummaryPartDone? || e.SummaryDelta? || e.SummaryDone? || e.ArgumentsDelta?
             || e.ArgumentsDone?
    ensures PartBecomes(slot, Addressed(slot, e), c, Nothing, None, None)
    ensures Addressed(slot, e).annotations == slot.annotations
  {
    var after := Addressed(slot, e);
    assert after.text == slot.text && after.parts == slot.parts && after.annotations == slot.annotations;
  }

  lemma InsertHas(s: seq<Annotation>, i: nat, x: Annotation)
    ensures forall a :: a in InsertAt(s, i, x) <==> a in s || a == x
  {
    var at := if i < |s| then i else |s|;
    assert s == s[..at] + s[at..];
  }

  lemma SummaryReplaceBecomes(slot: Slot, d: nat, text: string, c: nat)
    ensures var after := SummaryReplaced(slot, d, text);
            && SummaryBecomes(slot, after, d, Whole(text), true)
            && (c != d ==> SummaryBecomes(slot, after, c, Nothing, false))
  {
  }

  lemma SummaryPartBecomes(slot: Slot, d: nat, part: Part, c: nat)
    ensures var after := WithSummaryPart(slot, d, part);
            && SummaryBecomes(slot, after, d, if part.Refusal? then Nothing else Carries(Wording(part)), true)
            && (c != d ==> SummaryBecomes(slot, after, c, Nothing, false))
  {
  }

  lemma MoreIsWhole(slot: Slot, after: Slot, c: nat, delta: string)
    requires SummaryBecomes(slot, after, c, Whole(Get(slot.summaryText, c, "") + delta), true)
    ensures SummaryBecomes(slot, after, c, More(delta), true)
  {
  }

  lemma StepMovesSummary(slot: Slot, e: Event, o: nat, c: nat)
    requires !e.Settled?
    ensures SummaryMoves(slot, SlotStep(slot, o, e, false), e, o, c)
  {
    if e.Opened? || e.ItemAdded? || e.ItemDone? {
      ItemEventMovesSummary(slot, e, o, c);
    } else if !e.Lifecycle() && e.output == o {
      AddressedMovesSummary(slot, e, o, c);
    }
  }

  lemma ItemEventMovesSummary(slot: Slot, e: Event, o: nat, c: nat)
    requires e.Opened? || e.ItemAdded? || e.ItemDone?
    ensures SummaryMoves(slot, SlotStep(slot, o, e, false), e, o, c)
  {
    hide Placed, SummaryOf;
    if PutsItem(e, o).Some? {
      ItemMovesSummary(slot, PutsItem(e, o).value, !e.ItemAdded?, c);
      assert SlotStep(slot, o, e, false) == Placed(slot, PutsItem(e, o).value, !e.ItemAdded?);
    } else {
      assert SlotStep(slot, o, e, false) == slot;
    }
  }

  lemma AddressedMovesSummary(slot: Slot, e: Event, o: nat, c: nat)
    requires !e.Lifecycle() && !e.ItemAdded? && !e.ItemDone? && e.output == o
    ensures SummaryMoves(slot, Addressed(slot, e), e, o, c)
  {
    hide SummaryBecomes, SummaryReplaced, WithSummaryPart, Carries, Wording;
    match e {
      case SummaryPartAdded(_, d, part) => SummaryPartBecomes(slot, d, part, c);
      case SummaryPartDone(_, d, part) => SummaryPartBecomes(slot, d, part, c);
      case SummaryDelta(_, d, delta) =>
        SummaryReplaceBecomes(slot, d, Get(slot.summaryText, d, "") + delta, c);
        MoreIsWhole(slot, Addressed(slot, e), d, delta);
      case SummaryDone(_, d, text) => SummaryReplaceBecomes(slot, d, text, c);
      case _ => OthersKeepSummary(slot, e, c);
    }
  }

  lemma OthersKeepSummary(slot: Slot, e: Event, c: nat)
    requires !e.Lifecycle() && !e.ItemAdded? && !e.ItemDone?
    requires !e.SummaryPartAdded? && !e.SummaryPartDone? && !e.SummaryDelta? && !e.SummaryDone?
    ensures SummaryBecomes(slot, Addressed(slot, e), c, Nothing, false)
  {
    hide Merge, InsertAt;
    var after := Addressed(slot, e);
    assert after.summaryText == slot.summaryText && after.summaryParts == slot.summaryParts;
  }

  /** What one event leaves of the arguments and of the item's own fields. */
  ghost predicate OwnMoves(slot: Slot, after: Slot, e: Event, o: nat) {
    && ArgumentsOf(after) == After(ArgumentsOf(slot), SaysArguments(e, o))
    && after.shell == if PutsItem(e, o).Some? then Some(ShellOf(PutsItem(e, o).value, !e.ItemAdded?)) else slot.shell
  }

  lemma StepMovesOwn(slot: Slot, e: Event, o: nat)
    requires !e.Settled?
    ensures OwnMoves(slot, SlotStep(slot, o, e, false), e, o)
  {
    if e.Opened? || e.ItemAdded? || e.ItemDone? {
      ItemEventMovesOwn(slot, e, o);
    } else {
      OtherMovesOwn(slot, e, o);
    }
  }

  lemma ItemEventMovesOwn(slot: Slot, e: Event, o: nat)
    requires e.Opened? || e.ItemAdded? || e.ItemDone?
    ensures OwnMoves(slot, SlotStep(slot, o, e, false), e, o)
  {
    hide Placed;
    if PutsItem(e, o).Some? {
      ItemMovesArguments(slot, PutsItem(e, o).value, !e.ItemAdded?);
      assert SlotStep(slot, o, e, false) == Placed(slot, PutsItem(e, o).value, !e.ItemAdded?);
    } else {
      assert SlotStep(slot, o, e, false) == slot;
    }
  }

  lemma OtherMovesOwn(slot: Slot, e: Event, o: nat)
    requires !e.Settled? && !e.Opened? && !e.ItemAdded? && !e.ItemDone?
    ensures OwnMoves(slot, SlotStep(slot, o, e, false), e, o)
  {
    hide Merge, InsertAt;
    if !e.Lifecycle() && e.output == o {
      AddressedKeepsShell(slot, e);
    }
  }

  // ----- a slot after a list of events

  ghost predicate PartTold(slot: Slot, events: seq<Event>, o: nat, c: nat) {
    && IsSaid(Texts(events, o, c), Get(slot.text, c, ""))
    && (c in slot.parts <==> SomeConcerns(events, o, c))
    && (c in slot.parts ==> KindTold(slot.parts[c], events, o, c))
    && forall a :: a in Get(slot.annotations, c, []) <==> SomeBrings(events, o, c, a)
  }

  /** The part is the one put last, or else the kind written first. */
  ghost predicate KindTold(part: Part, events: seq<Event>, o: nat, c: nat) {
    && (forall n: nat :: LastPart(events, n, o, c) ==> part == PutsPart(events[n], o, c).value)
    && (forall n: nat :: FirstWritten(events, n, o, c) ==> part == WritesInto(events[n], o, c).value)
  }

  ghost predicate SummaryTold(slot: Slot, events: seq<Event>, o: nat, c: nat) {
    && IsSaid(Summaries(events, o, c), Get(slot.summaryText, c, ""))
    && (c in slot.summaryParts <==> SomeConcernsSummary(events, o, c))
  }

  ghost predicate OwnTold(slot: Slot, events: seq<Event>, o: nat) {
    && IsSaid(AllArguments(events, o), ArgumentsOf(slot))
    && (slot.shell.Some? <==> SomePuts(events, o))
    && forall n: nat :: LastItem(events, n, o) ==>
         slot.shell == Some(ShellOf(PutsItem(events[n], o).value, !events[n].ItemAdded?))
  }

  ghost predicate Told(slot: Slot, events: seq<Event>, o: nat) {
    && (forall c: nat :: PartTold(slot, events, o, c))
    && (forall c: nat :: SummaryTold(slot, events, o, c))
    && OwnTold(slot, events, o)
  }

  lemma ConcernsOneMore(events: seq<Event>, e: Event, o: nat, c: nat)
    ensures SomeConcerns(events + [e], o, c) <==> SomeConcerns(events, o, c) || ConcernsPart(e, o, c)
    ensures SomeConcernsSummary(events + [e], o, c) <==> SomeConcernsSummary(events, o, c) || ConcernsSummary(e, o, c)
  {
    if SomeConcerns(events, o, c) {
      var d :| d in events && ConcernsPart(d, o, c);
      assert d in events + [e];
    }
    if SomeConcernsSummary(events, o, c) {
      var d :| d in events && ConcernsSummary(d, o, c);
      assert d in events + [e];
    }
    assert e in events + [e];
  }

  lemma BringsOneMore(events: seq<Event>, e: Event, o: nat, c: nat, a: Annotation)
    ensures SomeBrings(events + [e], o, c, a) <==> SomeBrings(events, o, c, a) || Brings(e, o, c, a)
  {
    if SomeBrings(events, o, c, a) {
      var d :| d in events && Brings(d, o, c, a);
      assert d in events + [e];
    }
    assert e in events + [e];
  }

  lemma PutsOneMore(events: seq<Event>, e: Event, o: nat)
    ensures SomePuts(events + [e], o) <==> SomePuts(events, o) || PutsItem(e, o).Some?
  {
    if SomePuts(events, o) {
      var d :| d in events && PutsItem(d, o).Some?;
      assert d in events + [e];
    }
    assert e in events + [e];
  }

  /** What was put last, or written first, behind one more event. */
  lemma KindOneMore(part: Part, after: Part, events: seq<Event>, e: Event, o: nat, c: nat)
    requires PutsPart(e, o, c).Some? ==> after == PutsPart(e, o, c).value
    requires PutsPart(e, o, c).None? && SomeConcerns(events, o, c) ==> after == part && KindTold(part, events, o, c)
    requires PutsPart(e, o, c).None? && !SomeConcerns(events, o, c) && WritesInto(e, o, c).Some? ==>
               after == WritesInto(e, o, c).value
    ensures KindTold(after, events + [e], o, c)
  {
    hide PutsPart, WritesInto;
    var all, last := events + [e], |events|;
    assert forall m :: 0 <= m < last ==> all[m] == events[m];
    assert all[last] == e;
    forall n: nat | LastPart(all, n, o, c) ensures after == PutsPart(all[n], o, c).value {
      if n < last {
        assert PutsPart(all[last], o, c).None?;
        assert ConcernsPart(events[n], o, c) && events[n] in events;
        assert LastPart(events, n, o, c);
      }
    }
    forall n: nat | FirstWritten(all, n, o, c) ensures after == WritesInto(all[n], o, c).value {
      assert PutsPart(all[last], o, c).None?;
      if n < last {
        assert ConcernsPart(events[n], o, c) && events[n] in events;
        assert FirstWritten(events, n, o, c);
      } else {
        NoneConcerns(events, o, c);
      }
    }
  }

  lemma NoneConcerns(events: seq<Event>, o: nat, c: nat)
    requires forall m :: 0 <= m < |events| ==> PutsPart(events[m], o, c).None? && WritesInto(events[m], o, c).None?
    ensures !SomeConcerns(events, o, c)
  {
  }

  lemma PartOneMore(slot: Slot, after: Slot, events: seq<Event>, e: Event, o: nat, c: nat)
    requires PartTold(slot, events, o, c) && PartMoves(slot, after, e, o, c) && AnnotationsMove(slot, after, e, o, c)
    ensures PartTold(after, events + [e], o, c)
  {
    hide KindTold, IsSaid, SomeConcerns, SomeBrings, PutsPart, WritesInto, SaysText, Brings, After;
    assert Texts(events + [e], o, c) == Texts(events, o, c) + [SaysText(e, o, c)];
    SaidOneMore(Texts(events, o, c), Get(slot.text, c, ""), SaysText(e, o, c));
    ConcernsOneMore(events, e, o, c);
    if c in after.parts {
      KindOneMore(if c in slot.parts then slot.parts[c] else after.parts[c], after.parts[c], events, e, o, c);
    }
    forall a ensures a in Get(after.annotations, c, []) <==> SomeBrings(events + [e], o, c, a) {
      BringsOneMore(events, e, o, c, a);
    }
  }

  lemma SummaryOneMore(slot: Slot, after: Slot, events: seq<Event>, e: Event, o: nat, c: nat)
    requires SummaryTold(slot, events, o, c) && SummaryMoves(slot, after, e, o, c)
    ensures SummaryTold(after, events + [e], o, c)
  {
    hide IsSaid, SomeConcernsSummary, ConcernsSummary, SaysSummary, After;
    assert Summaries(events + [e], o, c) == Summaries(events, o, c) + [SaysSummary(e, o, c)];
    SaidOneMore(Summaries(events, o, c), Get(slot.summaryText, c, ""), SaysSummary(e, o, c));
    ConcernsOneMore(events, e, o, c);
  }

  lemma OwnOneMore(slot: Slot, after: Slot, events: seq<Event>, e: Event, o: nat)
    requires OwnTold(slot, events, o) && OwnMoves(slot, after, e, o)
    ensures OwnTold(after, events + [e], o)
  {
    hide IsSaid, SomePuts, PutsItem, SaysArguments, After, ShellOf;
    var all, last := events + [e], |events|;
    assert AllArguments(all, o) == AllArguments(events, o) + [SaysArguments(e, o)];
    SaidOneMore(AllArguments(events, o), ArgumentsOf(slot), SaysArguments(e, o));
    PutsOneMore(events, e, o);
    assert forall m :: 0 <= m < last ==> all[m] == events[m];
    assert all[last] == e;
    forall n: nat | LastItem(all, n, o)
      ensures after.shell == Some(ShellOf(PutsItem(all[n], o).value, !all[n].ItemAdded?))
    {
      if n < last {
        assert PutsItem(all[last], o).None?;
        assert LastItem(events, n, o);
      }
    }
  }

  lemma NothingTold(o: nat)
    ensures Told(EMPTY_SLOT, [], o)
  {
    NothingSaid();
    forall c: nat ensures PartTold(EMPTY_SLOT, [], o, c) && SummaryTold(EMPTY_SLOT, [], o, c) {
      assert Texts([], o, c) == [] && Summaries([], o, c) == [];
    }
    assert AllArguments([], o) == [];
  }

  /** A slot tells what the events said, for every list of events that does not settle the response. */
  lemma {:induction false} SlotTells(events: seq<Event>, o: nat)
    requires forall e <- events :: !e.Settled?
    ensures Told(Fold(EMPTY_SLOT, o, events), events, o)
    decreases |events|
  {
    hide SlotStep, PartTold, SummaryTold, OwnTold, PartMoves, SummaryMoves, OwnMoves, AnnotationsMove;
    if events == [] {
      NothingTold(o);
    } else {
      var rest, e := events[..|events| - 1], events[|events| - 1];
      assert events == rest + [e];
      SlotTells(rest, o);
      FoldAppend(EMPTY_SLOT, o, rest, [e]);
      assert [e][1..] == [];
      var slot, after := Fold(EMPTY_SLOT, o, rest), Fold(EMPTY_SLOT, o, events);
      assert after == SlotStep(slot, o, e, false);
      forall c: nat ensures PartTold(after, events, o, c) && SummaryTold(after, events, o, c) {
        StepMovesPart(slot, e, o, c);
        PartOneMore(slot, after, rest, e, o, c);
        StepMovesSummary(slot, e, o, c);
        SummaryOneMore(slot, after, rest, e, o, c);
      }
      StepMovesOwn(slot, e, o);
      OwnOneMore(slot, after, rest, e, o);
    }
  }

  // ----- what is shown of it

  /** Its kind, text and annotations survive in the part that is shown. */
  lemma PartIsShown(slot: Slot, events: seq<Event>, o: nat, c: nat)
    requires PartTold(slot, events, o, c) && c in slot.parts
    ensures PartShows(ViewPart(slot, c), events, o, c)
  {
    hide IsSaid, SomeConcerns, SomeBrings, PutsPart, WritesInto;
    var part := ViewPart(slot, c);
    forall n: nat | LastPart(events, n, o, c) ensures SameKind(PutsPart(events[n], o, c).value, part) {
      assert slot.parts[c] == PutsPart(events[n], o, c).value;
    }
    forall n: nat | FirstWritten(events, n, o, c) ensures SameKind(WritesInto(events[n], o, c).value, part) {
      assert slot.parts[c] == WritesInto(events[n], o, c).value;
    }
  }

  lemma ContentIsShown(slot: Slot, events: seq<Event>, o: nat)
    requires forall c: nat :: PartTold(slot, events, o, c)
    ensures ContentShows(ViewParts(slot, Ascending(slot.parts.Keys)), events, o)
  {
    hide PartShows, ViewPart, Increasing, SomeConcerns, PartTold, KindTold, IsSaid, SomeBrings;
    var at := Ascending(slot.parts.Keys);
    var content := ViewParts(slot, at);
    forall c ensures c in at <==> SomeConcerns(events, o, c) {
      PartIsThere(slot, events, o, c);
    }
    forall k | 0 <= k < |at| ensures PartShows(content[k], events, o, at[k]) {
      assert at[k] in at;
      PartIsShown(slot, events, o, at[k]);
    }
    assert ContentAt(content, events, o, at);
  }

  lemma PartIsThere(slot: Slot, events: seq<Event>, o: nat, c: nat)
    requires PartTold(slot, events, o, c)
    ensures c in slot.parts <==> SomeConcerns(events, o, c)
  {
  }

  lemma SummaryIsShown(slot: Slot, events: seq<Event>, o: nat)
    requires forall c: nat :: SummaryTold(slot, events, o, c)
    ensures SummaryShows(ViewSummary(slot, Ascending(slot.summaryParts.Keys)), events, o)
  {
    hide IsSaid, Increasing, SomeConcernsSummary, SummaryTold;
    var at := Ascending(slot.summaryParts.Keys);
    var summary := ViewSummary(slot, at);
    forall c ensures c in at <==> SomeConcernsSummary(events, o, c) {
      SummaryIsThere(slot, events, o, c);
    }
    forall k | 0 <= k < |at|
      ensures summary[k].SummaryText? && IsSaid(Summaries(events, o, at[k]), summary[k].text)
    {
      SummaryIsThere(slot, events, o, at[k]);
    }
    assert SummaryAt(summary, events, o, at);
  }

  lemma SummaryIsThere(slot: Slot, events: seq<Event>, o: nat, c: nat)
    requires SummaryTold(slot, events, o, c)
    ensures c in slot.summaryParts <==> SomeConcernsSummary(events, o, c)
    ensures IsSaid(Summaries(events, o, c), Get(slot.summaryText, c, ""))
  {
  }

  lemma {:induction false} SomeLastItem(events: seq<Event>, o: nat) returns (n: nat)
    requires SomePuts(events, o)
    ensures LastItem(events, n, o)
    decreases |events|
  {
    hide PutsItem;
    n := |events| - 1;
    if PutsItem(events[n], o).None? {
      var rest := events[..n];
      assert events == rest + [events[n]];
      PutsOneMore(rest, events[n], o);
      n := SomeLastItem(rest, o);
    }
  }

  lemma ItemIsShown(slot: Slot, events: seq<Event>, o: nat)
    requires Told(slot, events, o) && slot.shell.Some?
    ensures ItemShows(View(slot), events, o)
  {
    hide PartTold, SummaryTold, ContentShows, SummaryShows, IsSaid, SomePuts, PutsItem, HasOwnFields, ShellOf,
         ViewParts, ViewSummary, Ascending;
    ContentIsShown(slot, events, o);
    SummaryIsShown(slot, events, o);
    forall n: nat | LastItem(events, n, o) ensures HasOwnFields(View(slot), events[n], o) {
      OwnFieldsShown(slot, events[n], o);
    }
  }

  lemma OwnFieldsShown(slot: Slot, e: Event, o: nat)
    requires PutsItem(e, o).Some? && slot.shell == Some(ShellOf(PutsItem(e, o).value, !e.ItemAdded?))
    ensures HasOwnFields(View(slot), e, o)
  {
    hide PutsItem, ViewParts, ViewSummary;
  }

  /**
   For every list of events that does not settle the response: the items are those
   that were put, each with the own fields of the item put last, its parts in the
   order of their indices, and as their texts and arguments what was said of them.
   */
  lemma ItemsShowWhatWasSaid(f: Slots, events: seq<Event>, items: map<nat, Item>)
    requires (forall o: nat :: f(o) == EMPTY_SLOT) && forall e <- events :: !e.Settled?
    requires IsView(items, FoldAll(f, events))
    ensures ItemsShow(items, events)
  {
    hide Told, ItemShows, Fold, View, SomePuts;
    forall o: nat
      ensures o in items <==> SomePuts(events, o)
      ensures o in items ==> ItemShows(items[o], events, o)
    {
      var slot := FoldAll(f, events)(o);
      SlotTells(events, o);
      assert slot == Fold(EMPTY_SLOT, o, events);
      ShellIsPut(slot, events, o);
      if o in items {
        ItemIsShown(slot, events, o);
      }
    }
  }

  lemma ShellIsPut(slot: Slot, events: seq<Event>, o: nat)
    requires Told(slot, events, o)
    ensures slot.shell.Some? <==> SomePuts(events, o)
  {
  }

  /** A new reducer that is given these events. */
  method Reduce(events: seq<Event>) returns (reducer: ResponseReducer)
    requires forall e <- events :: !e.Settled?
    ensures fresh(reducer) && reducer.Valid() && ItemsShow(reducer.items, events)
  {
    hide Fold, IsView, ItemsShow;
    reducer := new ResponseReducer();
    ghost var f := reducer.AllSlots();
    ApplyAll(reducer, events);
    SameView(reducer.items, reducer.AllSlots(), FoldAll(f, events));
    ItemsShowWhatWasSaid(f, events, reducer.items);
  }

  lemma SameView(items: map<nat, Item>, f: Slots, g: Slots)
    requires IsView(items, f) && Same(f, g)
    ensures IsView(items, g)
  {
    hide View;
  }

  // ----- a settled response

  /** An assistant message without a phase gets one: commentary in a response with a call, else the answer. */
  ghost predicate PhaseFilled(item: Item, after: Item, items: map<nat, Item>) {
    if item.Message? && item.role == Assistant && item.phase == None then
      var calls := exists i :: i in items && items[i].FunctionCall?;
      after == Message(item.id, item.status, Assistant, Some(if calls then Commentary else FinalAnswer), item.content)
    else after == item
  }

  /** `item` is what was streamed at an index, or else what the final snapshot puts there. */
  ghost predicate StreamedOrSnapshot(item: Item, events: seq<Event>, r: Response, o: nat) {
    ItemShows(item, if SomePuts(events, o) then events else events + [Opened(r)], o)
  }

  /** What a settled response holds: every streamed item, the snapshot's items where nothing was
      streamed, and a phase for every assistant message. */
  ghost predicate SettledShow(items: map<nat, Item>, events: seq<Event>, r: Response) {
    && (forall o: nat :: o in items <==> SomePuts(events, o) || o < |r.output|)
    && forall o: nat {:trigger items[o]} :: o in items ==>
         exists item :: StreamedOrSnapshot(item, events, r, o) && PhaseFilled(item, items[o], items)
  }

  lemma SettledSlotShows(slot: Slot, events: seq<Event>, terminal: ResponseStatus, r: Response, o: nat,
      items: map<nat, Item>) returns (item: Item)
    requires (forall e <- events :: !e.Settled?) && slot == Fold(EMPTY_SLOT, o, events)
    requires var after := SlotStep(slot, o, Settled(terminal, r), HasCall(items));
             after.shell.Some? && o in items && items[o] == View(after)
    ensures StreamedOrSnapshot(item, events, r, o) && PhaseFilled(item, items[o], items)
    ensures SomePuts(events, o) || o < |r.output|
  {
    hide Told, ItemShows, Fold, View, SomePuts, Placed;
    SlotTells(events, o);
    ShellIsPut(slot, events, o);
    var base := if o < |r.output| && slot.shell.None? then Placed(slot, r.output[o], true) else slot;
    PhasedKeepsShell(base, HasCall(items));
    item := View(base);
    if slot.shell.None? {
      var more := events + [Opened(r)];
      FoldAppend(EMPTY_SLOT, o, events, [Opened(r)]);
      assert [Opened(r)][1..] == [];
      FoldOne(slot, o, Opened(r));
      SlotTells(more, o);
      ItemIsShown(base, more, o);
    } else {
      ItemIsShown(slot, events, o);
    }
    PhasedShows(base, HasCall(items));
  }

  lemma FoldOne(slot: Slot, o: nat, e: Event)
    ensures Fold(slot, o, [e]) == SlotStep(slot, o, e, false)
  {
    assert [e][1..] == [];
  }

  lemma PhasedKeepsShell(slot: Slot, calls: bool)
    ensures Phased(slot, calls).shell.Some? <==> slot.shell.Some?
  {
  }

  lemma PhasedShows(slot: Slot, calls: bool)
    requires slot.shell.Some?
    ensures var item, after := View(slot), Phased(slot, calls);
            after.shell.Some? && View(after) ==
              if item.Message? && item.role == Assistant && item.phase == None then
                var phase := if calls then Commentary else FinalAnswer;
                Message(item.id, item.status, Assistant, Some(phase), item.content)
              else item
  {
    hide View;
    PhasedOnlyWhenMissing(slot, calls);
    if View(slot).Message? && View(slot).role == Assistant && View(slot).phase.None? {
      ViewOfPhased(slot, calls);
    }
  }

  /** A new reducer that is given a whole response. */
  method ReduceResponse(events: seq<Event>, terminal: ResponseStatus, r: Response) returns (reducer: ResponseReducer)
    requires forall e <- events :: !e.Settled?
    ensures fresh(reducer) && reducer.Valid() && SettledShow(reducer.items, events, r)
  {
    hide Fold, IsView, SettledShow, SlotStep, View;
    reducer := new ResponseReducer();
    ghost var f := reducer.AllSlots();
    ApplyAll(reducer, events);
    ghost var before := reducer.AllSlots();
    var _ := reducer.Apply(Settled(terminal, r));
    SettledItemsShow(f, before, reducer.AllSlots(), events, terminal, r, reducer.items);
  }

  lemma SettledItemsShow(f: Slots, before: Slots, after: Slots, events: seq<Event>, terminal: ResponseStatus,
      r: Response, items: map<nat, Item>)
    requires (forall o: nat :: f(o) == EMPTY_SLOT) && forall e <- events :: !e.Settled?
    requires Same(before, FoldAll(f, events))
    requires Stepped(before, after, Settled(terminal, r), HasCall(items)) && IsView(items, after)
    ensures SettledShow(items, events, r)
  {
    hide Told, Fold, View, SomePuts, SlotStep, StreamedOrSnapshot, PhaseFilled;
    forall o: nat
      ensures o in items <==> SomePuts(events, o) || o < |r.output|
      ensures o in items ==>
                exists item :: StreamedOrSnapshot(item, events, r, o) && PhaseFilled(item, items[o], items)
    {
      var slot := before(o);
      assert slot == FoldAll(f, events)(o) && after(o) == SlotStep(slot, o, Settled(terminal, r), HasCall(items));
      SlotTells(events, o);
      ShellIsPut(slot, events, o);
      SettledShell(slot, o, terminal, r, HasCall(items));
      if o in items {
        var item := SettledSlotShows(slot, events, terminal, r, o, items);
      }
    }
  }

  lemma SettledShell(slot: Slot, o: nat, terminal: ResponseStatus, r: Response, calls: bool)
    ensures SlotStep(slot, o, Settled(terminal, r), calls).shell.Some? <==> slot.shell.Some? || o < |r.output|
  {
    hide Placed;
    if o < |r.output| {
      ItemMovesArguments(slot, r.output[o], true);
      PhasedKeepsShell(Placed(slot, r.output[o], true), calls);
    }
    PhasedKeepsShell(slot, calls);
  }
}
