/**
 From the model's text to the stored message: what a client keeps when a provider
 streams one message, its text cut into deltas in any way.
 */
module MessageStream {
  import opened Prelude
  import opened Protocol
  import opened CitationParser
  import opened CutIndependence
  import opened ReducerModel
  import opened ReducerTheory
  import opened CitationProjection
  import opened StreamTheory
  import opened StreamPipeline

  /** The text of one part, delta by delta. */
  function Deltas(k: Key, pieces: seq<string>): seq<Event> {
    if pieces == [] then [] else [TextDelta(k.0, k.1, pieces[0])] + Deltas(k, pieces[1..])
  }

  /** The fields a provider announces a message with, apart from its content. */
  datatype Header = Header(id: Option<string>, status: Option<ItemStatus>, role: Role, phase: Option<Phase>)

  function MessageOf(h: Header, content: seq<Part>): Item { Message(h.id, h.status, h.role, h.phase, content) }

  function Opening(o: nat, h: Header): seq<Event> {
    [ItemAdded(o, MessageOf(h, [])), PartAdded(o, 0, OutputText("", []))]
  }

  /** The provider repeats its own text, markers included, in every done event. */
  function Closing(o: nat, h: Header, raw: string): seq<Event> {
    [TextDone(o, 0, raw), PartDone(o, 0, OutputText(raw, [])), ItemDone(o, MessageOf(h, [OutputText(raw, [])]))]
  }

  /** One streamed message with one text part. */
  function MessageEvents(o: nat, first: Header, pieces: seq<string>, last: Header, raw: string): seq<Event> {
    Opening(o, first) + Deltas((o, 0), pieces) + Closing(o, last, raw)
  }

  lemma {:induction false} DisciplinedAppend(p: Pages, o: nat, slot: Slot, a: seq<Event>, b: seq<Event>,
      ev: Evidence, calls: bool)
    requires Disciplined(p, o, slot, a, ev, calls)
    requires var (q, first) := ProjectAll(p, a, ev); Disciplined(q, o, Feed(slot, o, first, calls), b, ev, calls)
    ensures Disciplined(p, o, slot, a + b, ev, calls)
    decreases a
  {
    hide Project, SlotStep, WellTimed;
    if a == [] {
      assert a + b == b;
    } else {
      assert (a + b)[1..] == a[1..] + b;
      var (q, first) := Project(p, a[0], ev);
      var (r, rest) := ProjectAll(q, a[1..], ev);
      FeedAppend(slot, o, first, rest, calls);
      DisciplinedAppend(q, o, Feed(slot, o, first, calls), a[1..], b, ev, calls);
    }
  }

  lemma DisciplinedOne(p: Pages, o: nat, slot: Slot, e: Event, ev: Evidence, calls: bool)
    requires WellTimed(p, o, slot, e)
    ensures Disciplined(p, o, slot, [e], ev, calls)
  {
  }

  /** Text deltas are always well timed on a page that is open, or on an empty text part. */
  lemma {:induction false} DeltasDisciplined(p: Pages, k: Key, slot: Slot, pieces: seq<string>, ev: Evidence,
      calls: bool)
    requires ev.ids != {} && LocatedPages(p) && Agree(p, k.0, slot)
    requires k in p.text || Matches(Page("", [], p.numbers), slot, k.1)
    ensures Disciplined(p, k.0, slot, Deltas(k, pieces), ev, calls)
    ensures ProjectAll(p, Deltas(k, pieces), ev).0 == ShowDeltas(p, k, pieces, ev)
    decreases pieces
  {
    hide LocatedPages, Agree, ShowDelta, SlotStep, Matches;
    if pieces != [] {
      var e, rest := TextDelta(k.0, k.1, pieces[0]), Deltas(k, pieces[1..]);
      assert k == (k.0, k.1) && Deltas(k, pieces)[1..] == rest;
      EventAgrees(p, k.0, slot, e, ev, calls);
      ProjectKeepsLocated(p, e, ev);
      DeltaOpens(p, k, pieces[0], ev);
      var (q, first) := Project(p, e, ev);
      DeltasDisciplined(q, k, Feed(slot, k.0, first, calls), pieces[1..], ev, calls);
    }
  }

  // ----- the slot keeps its one part

  /** Text and annotations of one part. */
  ghost predicate OnPart(events: seq<Event>, k: Key) {
    forall e <- events :: (e.TextDelta? || e.AnnotationAdded? || e.TextDone?) && (e.output, e.content) == k
  }

  lemma {:induction false} FeedOnPart(slot: Slot, k: Key, events: seq<Event>, calls: bool)
    requires OnPart(events, k) && slot.parts.Keys == {k.1}
    ensures var after := Feed(slot, k.0, events, calls); after.parts.Keys == {k.1} && after.shell == slot.shell
    decreases events
  {
    hide InsertAt;
    if events != [] {
      assert events[0] in events;
      var next := SlotStep(slot, k.0, events[0], calls);
      assert next.parts.Keys == {k.1};
      FeedOnPart(next, k, events[1..], calls);
    }
  }

  lemma {:induction false} FragmentsOnPart(p: Pages, k: Key, fs: seq<Fragment>)
    ensures OnPart(ShowFragments(p, k, fs).1, k)
    decreases fs
  {
    hide Decimal, Numbered, MarkerOf;
    if fs != [] {
      FragmentsOnPart(ShowFragment(p, k, fs[0]).0, k, fs[1..]);
    }
  }

  lemma {:induction false} DeltasOnPart(p: Pages, k: Key, pieces: seq<string>, ev: Evidence)
    requires ev.ids != {}
    ensures OnPart(ProjectAll(p, Deltas(k, pieces), ev).1, k)
    decreases pieces
  {
    hide ShowFragments, Parse;
    if pieces != [] {
      assert k == (k.0, k.1) && Deltas(k, pieces)[1..] == Deltas(k, pieces[1..]);
      var parsed := Parse(Lookup(p.buffers, k, "") + pieces[0], ev);
      FragmentsOnPart(p.(buffers := p.buffers[k := parsed.1]), k, parsed.0);
      DeltasOnPart(ShowDelta(p, k, pieces[0], ev).0, k, pieces[1..], ev);
    }
  }

  // ----- the whole stream

  /** The slot once the message and its empty part were announced. */
  function Announced(o: nat, h: Header): Slot {
    WithPart(Placed(EMPTY_SLOT, MessageOf(h, []), false), 0, OutputText("", []))
  }

  lemma OpeningStep(p: Pages, o: nat, h: Header, ev: Evidence, calls: bool)
    requires ev.ids != {} && p.text == map[]
    ensures ProjectAll(p, Opening(o, h), ev) == (p, Opening(o, h))
    ensures Feed(EMPTY_SLOT, o, Opening(o, h), calls) == Announced(o, h)
    ensures Disciplined(p, o, EMPTY_SLOT, Opening(o, h), ev, calls)
    ensures Agree(p, o, Announced(o, h)) && Matches(Page("", [], p.numbers), Announced(o, h), 0)
    ensures Announced(o, h).parts.Keys == {0}
  {
    var a, b := Opening(o, h)[0], Opening(o, h)[1];
    assert Opening(o, h)[1..] == [b] && [b][1..] == [];
    ProjectAllOne(p, b, ev);
    assert [a] + [b] == Opening(o, h);
    var placed := Placed(EMPTY_SLOT, MessageOf(h, []), false);
    FeedOne(placed, o, b, calls);
    DisciplinedOne(p, o, placed, b, ev, calls);
    FeedOne(EMPTY_SLOT, o, a, calls);
  }

  /** The done events close the page, and the slot keeps its one part under the final item. */
  lemma ClosingStep(p: Pages, o: nat, slot: Slot, h: Header, raw: string, ev: Evidence, calls: bool)
    requires ev.ids != {} && LocatedPages(p) && Agree(p, o, slot) && (o, 0) in p.text && slot.parts.Keys == {0}
    ensures Disciplined(p, o, slot, Closing(o, h, raw), ev, calls)
    ensures var (q, closed) := ProjectAll(p, Closing(o, h, raw), ev);
            && q == Flush(p, (o, 0)).0 && (o, 0) in q.text && Feed(slot, o, closed, calls).parts.Keys == {0}
            && HasHeader(Feed(slot, o, closed, calls), h)
  {
    hide LocatedPages, Agree, Feed, RewrittenPart, RewrittenParts, Flush, View, ProjectAll;
    var events := Closing(o, h, raw);
    var a, b, c := events[0], events[1], events[2];
    var (q, first) := Project(p, a, ev);
    TextDoneStep(p, o, slot, raw, ev, calls);
    var done := Feed(slot, o, first, calls);
    var partDone, itemDone := Project(q, b, ev).1, Project(q, c, ev).1;
    PartDoneStep(q, o, done, raw, ev, calls);
    var placed := Feed(done, o, partDone, calls);
    ItemDoneStep(q, o, placed, h, raw, ev, calls);
    ThreeEvents(p, q, o, slot, a, b, c, ev, calls);
  }

  /** The final item's own fields. */
  ghost predicate HasHeader(slot: Slot, h: Header) {
    slot.shell.Some? && slot.shell.value.Message? && slot.shell.value.id == h.id && slot.shell.value.role == h.role
    && slot.shell.value.phase == h.phase
    && slot.shell.value.status == Some(if h.status.Some? then h.status.value else ItemCompleted)
  }

  lemma TextDoneStep(p: Pages, o: nat, slot: Slot, raw: string, ev: Evidence, calls: bool)
    requires ev.ids != {} && LocatedPages(p) && Agree(p, o, slot) && (o, 0) in p.text && slot.parts.Keys == {0}
    ensures var (q, first) := Project(p, TextDone(o, 0, raw), ev);
            && q == Flush(p, (o, 0)).0 && (o, 0) in q.text && Feed(slot, o, first, calls).parts.Keys == {0}
            && LocatedPages(q) && Agree(q, o, Feed(slot, o, first, calls))
  {
    hide LocatedPages, Agree, Feed;
    var e := TextDone(o, 0, raw);
    EventAgrees(p, o, slot, e, ev, calls);
    ProjectKeepsLocated(p, e, ev);
    FeedOnPart(slot, (o, 0), Project(p, e, ev).1, calls);
  }

  lemma PartDoneStep(q: Pages, o: nat, slot: Slot, raw: string, ev: Evidence, calls: bool)
    requires ev.ids != {} && slot.parts.Keys == {0}
    ensures var (r, events) := Project(q, PartDone(o, 0, OutputText(raw, [])), ev);
            r == q && Feed(slot, o, events, calls).parts.Keys == {0}
  {
    hide RewrittenPart, PlacedAnnotations, PartValue;
    FeedOne(slot, o, PartDone(o, 0, RewrittenPart(q, (o, 0), OutputText(raw, []))), calls);
  }

  lemma ItemDoneStep(q: Pages, o: nat, slot: Slot, h: Header, raw: string, ev: Evidence, calls: bool)
    requires ev.ids != {} && slot.parts.Keys == {0}
    ensures var (r, events) := Project(q, ItemDone(o, MessageOf(h, [OutputText(raw, [])])), ev);
            r == q && Feed(slot, o, events, calls).parts.Keys == {0} && HasHeader(Feed(slot, o, events, calls), h)
  {
    hide RewrittenPart, PlacedAnnotations, PartValue;
    var content := RewrittenParts(q, o, [OutputText(raw, [])]);
    var item := MessageOf(h, content);
    FeedOne(slot, o, ItemDone(o, item), calls);
    SeededKeepsShell(slot.(shell := Some(ShellOf(item, true))), ShellOf(item, true));
    assert WithParts(slot.(shell := Some(ShellOf(item, true))), content, 0).parts == slot.parts;
  }

  /** Three events in a row, of which only the first changes the pages. */
  lemma ThreeEvents(p: Pages, q: Pages, o: nat, slot: Slot, a: Event, b: Event, c: Event, ev: Evidence, calls: bool)
    requires Project(p, a, ev).0 == q && Project(q, b, ev).0 == q && Project(q, c, ev).0 == q
    requires WellTimed(p, o, slot, a)
    requires var done := Feed(slot, o, Project(p, a, ev).1, calls);
             WellTimed(q, o, done, b) && WellTimed(q, o, Feed(done, o, Project(q, b, ev).1, calls), c)
    ensures Disciplined(p, o, slot, [a, b, c], ev, calls)
    ensures ProjectAll(p, [a, b, c], ev) == (q, Project(p, a, ev).1 + (Project(q, b, ev).1 + Project(q, c, ev).1))
    ensures Feed(slot, o, ProjectAll(p, [a, b, c], ev).1, calls)
         == Feed(Feed(Feed(slot, o, Project(p, a, ev).1, calls), o, Project(q, b, ev).1, calls), o, Project(q, c, ev).1,
                 calls)
  {
    hide Project, WellTimed, SlotStep;
    var first, second, third := Project(p, a, ev).1, Project(q, b, ev).1, Project(q, c, ev).1;
    assert [a, b, c][1..] == [b, c] && [b, c][1..] == [c] && [c][1..] == [];
    ProjectAllOne(q, c, ev);
    var done := Feed(slot, o, first, calls);
    DisciplinedOne(q, o, Feed(done, o, second, calls), c, ev, calls);
    assert Disciplined(q, o, done, [b, c], ev, calls);
    assert ProjectAll(q, [b, c], ev) == (q, second + third);
    FeedAppend(done, o, second, third, calls);
    FeedAppend(slot, o, first, second + third, calls);
  }

  /** A message with one part, whatever else the slot remembers, shows that part. */
  lemma OnePartView(slot: Slot, h: Header)
    requires HasHeader(slot, h) && slot.parts.Keys == {0}
    ensures View(slot) == Message(h.id, slot.shell.value.status, h.role, h.phase, [ViewPart(slot, 0)])
  {
    hide ViewPart;
    OneIndex(Ascending(slot.parts.Keys));
  }

  lemma OneIndex(q: seq<nat>)
    requires Increasing(q) && forall x :: x in q <==> x == 0
    ensures q == [0]
  {
    if |q| > 1 {
      FirstTwoDiffer(q);
    }
    assert 0 in q;
  }

  lemma FirstTwoDiffer(q: seq<nat>)
    requires Increasing(q) && |q| > 1
    ensures exists x :: x in q && x != 0
  {
    assert q[0] < q[1] && q[1] in q;
  }

  /** A message with one part, its text streamed in at least one delta. */
  lemma StreamedMessage(
      numbers: map<string, nat>, o: nat, first: Header, tokens: seq<Token>, pieces: seq<string>, last: Header,
      raw: string, ev: Evidence, calls: bool)
    requires ev.ids != {} && NumbersOk(numbers)
    requires WellFormed(tokens) && pieces != [] && Join(pieces) == Render(tokens)
    ensures var events := MessageEvents(o, first, pieces, last, raw);
            var (_, forwarded) := ProjectAll(NO_PAGES.(numbers := numbers), events, ev);
            var slot, page := Feed(EMPTY_SLOT, o, forwarded, calls), Read(Page("", [], numbers), Intended(tokens, ev));
            && slot.shell.Some?
            && View(slot) == Message(last.id, Some(if last.status.Some? then last.status.value else ItemCompleted),
                                     last.role, last.phase, [OutputText(page.text, page.annotations)])
  {
    hide Agree, LocatedPages, Feed, Disciplined, View, Intended, Render, WellFormed, Closing, Opening, Read, Announced,
         ProjectAll, NumbersOk, ShowDeltas, Matches, Flush, Ascending;
    var p, k := NO_PAGES.(numbers := numbers), (o, 0);
    FreshLocated(numbers);
    OpeningStep(p, o, first, ev, calls);
    var announced, deltas := Announced(o, first), Deltas(k, pieces);
    DeltasDisciplined(p, k, announced, pieces, ev, calls);
    StreamAgrees(p, o, announced, deltas, ev, calls);
    DeltasOnPart(p, k, pieces, ev);
    var (q, streamed) := ProjectAll(p, deltas, ev);
    FeedOnPart(announced, k, streamed, calls);
    var filled := Feed(announced, o, streamed, calls);
    DeltasOpen(p, k, pieces, ev);
    ClosingStep(q, o, filled, last, raw, ev, calls);
    StreamAgrees(q, o, filled, Closing(o, last, raw), ev, calls);
    var (r, closed) := ProjectAll(q, Closing(o, last, raw), ev);
    var slot := Feed(filled, o, closed, calls);
    ProjectAllAppend(p, Opening(o, first), deltas, ev);
    ProjectAllAppend(p, Opening(o, first) + deltas, Closing(o, last, raw), ev);
    FeedAppend(EMPTY_SLOT, o, Opening(o, first), streamed, calls);
    FeedAppend(EMPTY_SLOT, o, Opening(o, first) + streamed, closed, calls);
    SettledPageReadsTheIntendedText(p, k, tokens, pieces, ev);
    PageMatches(r, o, 0, slot);
    OnePartView(slot, last);
    MatchedView(PageAt(r, k), slot, 0);
  }

  /** The done events of a message whose text was never streamed put the provider's own text into its part. */
  lemma SilentClosing(p: Pages, o: nat, first: Header, h: Header, raw: string, ev: Evidence, calls: bool)
    requires ev.ids != {} && p.text == map[] && p.buffers == map[]
    requires Agree(p, o, Announced(o, first)) && Announced(o, first).parts.Keys == {0}
    ensures var slot := Feed(Announced(o, first), o, ProjectAll(p, Closing(o, h, raw), ev).1, calls);
            slot.parts.Keys == {0} && HasHeader(slot, h) && ViewPart(slot, 0) == OutputText(raw, [])
  {
    hide Agree, ProjectAll, Announced, ViewPart, Placed, WithPart, HasHeader, Project, Disciplined;
    var announced, part := Announced(o, first), OutputText(raw, []);
    var a, b, c := TextDone(o, 0, raw), PartDone(o, 0, part), ItemDone(o, MessageOf(h, [part]));
    assert Closing(o, h, raw) == [a, b, c];
    ProjectsSilently(p, o, h, raw, ev);
    var emptied := Replaced(announced, 0, "", OutputText("", []));
    var placed := WithPart(emptied, 0, part);
    FeedOne(announced, o, TextDone(o, 0, ""), calls);
    FeedOne(emptied, o, b, calls);
    FeedOne(placed, o, c, calls);
    AnnouncedIsEmpty(o, first);
    ThreeEvents(p, p, o, announced, a, b, c, ev, calls);
    PartShowsItself(emptied, part, raw);
    ItemDoneStep(p, o, placed, h, raw, ev, calls);
    PlacedShowsItself(placed, h, raw);
  }

  lemma AnnouncedIsEmpty(o: nat, h: Header)
    ensures Get(Announced(o, h).text, 0, "") == "" && Get(Announced(o, h).annotations, 0, []) == []
    ensures Announced(o, h).parts == map[0 := OutputText("", [])]
  {
  }

  lemma ProjectsSilently(p: Pages, o: nat, h: Header, raw: string, ev: Evidence)
    requires ev.ids != {} && p.text == map[] && p.buffers == map[]
    ensures var part := OutputText(raw, []);
            && Project(p, TextDone(o, 0, raw), ev) == (p, [TextDone(o, 0, "")])
            && Project(p, PartDone(o, 0, part), ev) == (p, [PartDone(o, 0, part)])
            && Project(p, ItemDone(o, MessageOf(h, [part])), ev) == (p, [ItemDone(o, MessageOf(h, [part]))])
  {
    NothingToFlush(p, (o, 0), raw, ev);
    assert RewrittenParts(p, o, [OutputText(raw, [])]) == [OutputText(raw, [])];
  }

  lemma PartShowsItself(slot: Slot, part: Part, raw: string)
    requires part == OutputText(raw, []) && Get(slot.text, 0, "") == "" && Get(slot.annotations, 0, []) == []
    ensures WithPart(slot, 0, part).parts == slot.parts[0 := part] && ViewPart(WithPart(slot, 0, part), 0) == part
  {
  }

  lemma PlacedShowsItself(slot: Slot, h: Header, raw: string)
    requires 0 in slot.parts && ViewPart(slot, 0) == OutputText(raw, [])
    ensures var after := Placed(slot, MessageOf(h, [OutputText(raw, [])]), true);
            0 in after.parts && ViewPart(after, 0) == OutputText(raw, [])
  {
    var item := MessageOf(h, [OutputText(raw, [])]);
    RepeatedItem(slot, item);
    ViewPartIgnoresShell(slot, ShellOf(item, true), 0);
  }

  /** A message announced and closed without a delta is stored as the provider wrote it. */
  lemma SilentMessage(numbers: map<string, nat>, o: nat, first: Header, last: Header, raw: string, ev: Evidence,
      calls: bool)
    requires ev.ids != {}
    ensures var events := MessageEvents(o, first, [], last, raw);
            var slot := Feed(EMPTY_SLOT, o, ProjectAll(NO_PAGES.(numbers := numbers), events, ev).1, calls);
            slot.parts.Keys == {0} && HasHeader(slot, last) && ViewPart(slot, 0) == OutputText(raw, [])
  {
    hide Agree, Feed, Announced, Closing, Opening, ProjectAll, ViewPart, Matches, HasHeader;
    var p := NO_PAGES.(numbers := numbers);
    OpeningStep(p, o, first, ev, calls);
    SilentClosing(p, o, first, last, raw, ev, calls);
    ProjectAllAppend(p, Opening(o, first), Closing(o, last, raw), ev);
    FeedAppend(EMPTY_SLOT, o, Opening(o, first), ProjectAll(p, Closing(o, last, raw), ev).1, calls);
    assert Opening(o, first) + [] + Closing(o, last, raw) == Opening(o, first) + Closing(o, last, raw);
  }

  /** The text part a message is stored with: its page, or without any delta the provider's own text. */
  function StoredPart(page: Page, pieces: seq<string>, raw: string): Part {
    if pieces == [] then OutputText(raw, []) else OutputText(page.text, page.annotations)
  }

  /**
   End to end: for a message whose text is well formed, however its text was cut
   into deltas, the stored message has one text part, which reads as the prose
   with `[n]` for every grounded marker, annotated where the markers stand, if
   and only if there was a delta, or nothing in the done events to store instead.
   */
  lemma StoredMessageReadsTheIntendedText(
      numbers: map<string, nat>, o: nat, first: Header, tokens: seq<Token>, pieces: seq<string>, last: Header,
      raw: string, ev: Evidence, calls: bool)
    requires ev.ids != {} && NumbersOk(numbers)
    requires WellFormed(tokens) && Join(pieces) == Render(tokens)
    ensures var events := MessageEvents(o, first, pieces, last, raw);
            var (_, forwarded) := ProjectAll(NO_PAGES.(numbers := numbers), events, ev);
            var slot, page := Feed(EMPTY_SLOT, o, forwarded, calls), Read(Page("", [], numbers), Intended(tokens, ev));
            var stored := StoredPart(page, pieces, raw);
            && slot.shell.Some?
            && View(slot) == Message(last.id, Some(if last.status.Some? then last.status.value else ItemCompleted),
                                     last.role, last.phase, [stored])
            && (stored == OutputText(page.text, page.annotations) <==> pieces != [] || raw == "")
  {
    hide Feed, View, Intended, Render, WellFormed, Read, ProjectAll, NumbersOk, MessageEvents, ViewPart;
    if pieces == [] {
      SilentMessage(numbers, o, first, last, raw, ev, calls);
      var (_, forwarded) := ProjectAll(NO_PAGES.(numbers := numbers), MessageEvents(o, first, pieces, last, raw), ev);
      OnePartView(Feed(EMPTY_SLOT, o, forwarded, calls), last);
      NothingIntended(numbers, tokens, ev);
    } else {
      StreamedMessage(numbers, o, first, tokens, pieces, last, raw, ev, calls);
    }
  }

  /** An empty text is meant to read as an empty text. */
  lemma NothingIntended(numbers: map<string, nat>, tokens: seq<Token>, ev: Evidence)
    requires WellFormed(tokens) && Join([]) == Render(tokens)
    ensures Read(Page("", [], numbers), Intended(tokens, ev)) == Page("", [], numbers)
  {
    hide WellFormed, Render, Intended, Read;
    SettledPageReadsTheIntendedText(NO_PAGES.(numbers := numbers), (0, 0), tokens, [], ev);
  }

  lemma MatchedView(page: Page, slot: Slot, c: nat)
    requires Matches(page, slot, c) && c in slot.parts
    ensures ViewPart(slot, c) == OutputText(page.text, page.annotations)
  {
  }

  lemma FreshLocated(numbers: map<string, nat>)
    requires NumbersOk(numbers)
    ensures LocatedPages(NO_PAGES.(numbers := numbers))
  {
  }

  lemma {:induction false} DeltasOpen(p: Pages, k: Key, pieces: seq<string>, ev: Evidence)
    requires pieces != []
    ensures k in ShowDeltas(p, k, pieces, ev).text
    decreases pieces
  {
    hide ShowDelta;
    DeltaOpens(p, k, pieces[0], ev);
    if |pieces| > 1 {
      DeltasOpen(ShowDelta(p, k, pieces[0], ev).0, k, pieces[1..], ev);
    }
  }
}
