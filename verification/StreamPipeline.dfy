/**
 One sampling request: every provider event is projected, and everything the
 projection forwards is reduced (`run_sampling_request` of `agent/turn.py`).
 The projection's pages and the reducer's slots stay in agreement.
 */
module StreamPipeline {
  import opened Prelude
  import opened Protocol
  import opened CitationParser
  import opened ReducerModel
  import opened ReducerTheory
  import opened CitationProjection
  import opened StreamTheory
  import opened Reducer

  /** What a list of events appends to the text of one part. */
  function Forwarded(events: seq<Event>, k: Key): string {
    if events == [] then ""
    else (if events[0].TextDelta? && (events[0].output, events[0].content) == k then events[0].delta else "")
         + Forwarded(events[1..], k)
  }

  lemma {:induction false} ForwardedAppend(a: seq<Event>, b: seq<Event>, k: Key)
    ensures Forwarded(a + b, k) == Forwarded(a, k) + Forwarded(b, k)
    decreases a
  {
    if a == [] {
      assert a + b == b;
    } else {
      assert (a + b)[1..] == a[1..] + b;
      ForwardedAppend(a[1..], b, k);
    }
  }

  lemma ForwardedOne(e: Event, k: Key)
    ensures Forwarded([e], k) == if e.TextDelta? && (e.output, e.content) == k then e.delta else ""
  {
  }

  lemma Associative(a: string, b: string, c: string)
    ensures a + b + c == a + (b + c)
  {
  }

  lemma TextForwards(p: Pages, k: Key, s: string, j: Key)
    ensures Value(if s == "" then p else AppendText(p, k, s), j)
         == Value(p, j) + Forwarded(if s == "" then [] else [TextDelta(k.0, k.1, s)], j)
  {
  }

  lemma FragmentForwards(p: Pages, k: Key, f: Fragment, j: Key)
    ensures Value(ShowFragment(p, k, f).0, j) == Value(p, j) + Forwarded(ShowFragment(p, k, f).1, j)
  {
    hide Decimal, Numbered, Cite, Forwarded, AppendText, Value;
    var q := if f.text == "" then p else AppendText(p, k, f.text);
    var shown := if f.text == "" then [] else [TextDelta(k.0, k.1, f.text)];
    TextForwards(p, k, f.text, j);
    if f.reference.Some? && f.reference.value != "" {
      var cited := Cite(q, k, f.reference.value).1;
      CiteForwards(q, k, f.reference.value, j);
      ForwardedAppend(shown, cited, j);
      Associative(Value(p, j), Forwarded(shown, j), Forwarded(cited, j));
    }
  }

  lemma CiteForwards(p: Pages, k: Key, r: string, j: Key)
    ensures Value(Cite(p, k, r).0, j) == Value(p, j) + Forwarded(Cite(p, k, r).1, j)
  {
    hide Decimal, Numbered;
    var cited := Cite(p, k, r).1;
    assert cited == [cited[0]] + [cited[1]];
    ForwardedAppend([cited[0]], [cited[1]], j);
    ForwardedOne(cited[0], j);
    ForwardedOne(cited[1], j);
  }

  lemma {:induction false} FragmentsForward(p: Pages, k: Key, fs: seq<Fragment>, j: Key)
    ensures Value(ShowFragments(p, k, fs).0, j) == Value(p, j) + Forwarded(ShowFragments(p, k, fs).1, j)
    decreases fs
  {
    hide ShowFragment;
    if fs != [] {
      var q, first := ShowFragment(p, k, fs[0]).0, ShowFragment(p, k, fs[0]).1;
      FragmentForwards(p, k, fs[0], j);
      FragmentsForward(q, k, fs[1..], j);
      ForwardedAppend(first, ShowFragments(q, k, fs[1..]).1, j);
    }
  }

  lemma FlushForwards(p: Pages, k: Key, j: Key)
    ensures Value(Flush(p, k).0, j) == Value(p, j) + Forwarded(Flush(p, k).1, j)
  {
  }

  /** A page grows by exactly what the projection forwards for it. */
  lemma PageIsForwarded(p: Pages, e: Event, ev: Evidence, j: Key)
    requires ev.ids != {}
    ensures Value(Project(p, e, ev).0, j) == Value(p, j) + Forwarded(Project(p, e, ev).1, j)
  {
    hide Parse, RewrittenParts, RewrittenPart, ShowFragments, Forwarded, Flush;
    match e {
      case TextDelta(o, c, delta) =>
        var parsed := Parse(Lookup(p.buffers, (o, c), "") + delta, ev);
        FragmentsForward(p.(buffers := p.buffers[(o, c) := parsed.1]), (o, c), parsed.0, j);
      case TextDone(o, c, _) =>
        var (q, flushed) := Flush(p, (o, c));
        var done := TextDone(o, c, Value(q, (o, c)));
        FlushForwards(p, (o, c), j);
        ForwardedAppend(flushed, [done], j);
        ForwardedOne(done, j);
      case PartDone(o, c, part) => ForwardedOne(PartDone(o, c, RewrittenPart(p, (o, c), part)), j);
      case ItemDone(o, Message(id, status, role, phase, content)) =>
        ForwardedOne(ItemDone(o, Message(id, status, role, phase, RewrittenParts(p, o, content))), j);
      case _ => ForwardedOne(e, j);
    }
  }

  // ----- pages and slots agree

  /** The reducer's part `c` holds the projection's page, and is a text part if it exists. */
  ghost predicate Matches(page: Page, slot: Slot, c: nat) {
    && Get(slot.text, c, "") == page.text
    && Get(slot.annotations, c, []) == page.annotations
    && (c in slot.parts ==> slot.parts[c].OutputText?)
  }

  /** Every page of output index `o` is what the reducer holds. */
  ghost predicate Agree(p: Pages, o: nat, slot: Slot) {
    forall c: nat :: (o, c) in p.text ==> Matches(PageAt(p, (o, c)), slot, c)
  }

  /** What the stream discipline asks of one event before it is projected. */
  ghost predicate WellTimed(p: Pages, o: nat, slot: Slot, e: Event) {
    match e
    case Opened(r) => r.output == []
    case Settled(_, r) => slot.shell.Some? || |r.output| <= o
    case StreamError(_, _) => true
    case _ => e.output == o ==> WellTimedHere(p, o, slot, e)
  }

  /** Added items are empty, a part that streamed text stays a text part, and
      a provider writes no annotations of its own. */
  ghost predicate WellTimedHere(p: Pages, o: nat, slot: Slot, e: Event)
    requires !e.Lifecycle()
  {
    match e
    case ItemAdded(_, item) => item.Message? || item.Reasoning? ==> item.content == []
    case ItemDone(_, Message(_, _, _, _, content)) =>
      forall c: nat :: c < |content| && (o, c) in p.text ==> content[c].OutputText? && content[c].annotations == []
    case ItemDone(_, Reasoning(_, _, content, _, _)) => forall c: nat :: c < |content| ==> (o, c) !in p.text
    case PartAdded(_, c, part) => (o, c) in p.text ==> part == OutputText("", [])
    case PartDone(_, c, part) => (o, c) in p.text ==> part.OutputText? && part.annotations == []
    case TextDelta(_, c, _) => (o, c) in p.text || Matches(Page("", [], p.numbers), slot, c)
    case AnnotationAdded(_, c, _, _) => (o, c) !in p.text
    case RefusalDelta(_, c, _) => (o, c) !in p.text
    case RefusalDone(_, c, _) => (o, c) !in p.text
    case ReasoningDelta(_, c, _) => (o, c) !in p.text
    case ReasoningDone(_, c, _) => (o, c) !in p.text
    case _ => true
  }

  ghost predicate SamePart(a: Slot, b: Slot, d: nat) {
    && Get(a.text, d, "") == Get(b.text, d, "")
    && Get(a.annotations, d, []) == Get(b.annotations, d, [])
    && (d in a.parts <==> d in b.parts) && (d in a.parts ==> a.parts[d] == b.parts[d])
  }

  /** Two slots that differ at most in part `c` (and in shell, summaries and arguments). */
  ghost predicate SameOffPart(a: Slot, b: Slot, c: nat) {
    forall d: nat :: d != c ==> SamePart(a, b, d)
  }

  /** `calls` is what a settling event sees; it is the same for the whole list. */
  function Feed(slot: Slot, i: nat, events: seq<Event>, calls: bool): Slot
    decreases events
  {
    if events == [] then slot else Feed(SlotStep(slot, i, events[0], calls), i, events[1..], calls)
  }

  lemma {:induction false} FeedAppend(slot: Slot, i: nat, a: seq<Event>, b: seq<Event>, calls: bool)
    ensures Feed(slot, i, a + b, calls) == Feed(Feed(slot, i, a, calls), i, b, calls)
    decreases a
  {
    hide SlotStep;
    if a == [] {
      assert a + b == b;
    } else {
      assert (a + b)[1..] == a[1..] + b;
      FeedAppend(SlotStep(slot, i, a[0], calls), i, a[1..], b, calls);
    }
  }

  lemma FeedOne(slot: Slot, i: nat, e: Event, calls: bool)
    ensures Feed(slot, i, [e], calls) == SlotStep(slot, i, e, calls)
  {
  }

  /** Appending forwarded text keeps page and part in step. */
  lemma AppendMatches(page: Page, slot: Slot, c: nat, s: string)
    requires Matches(page, slot, c)
    ensures var after := Appended(slot, c, s, OutputText("", []));
            Matches(page.(text := page.text + s), after, c) && SameOffPart(slot, after, c)
  {
  }

  lemma AnnotateMatches(page: Page, slot: Slot, c: nat, a: Annotation)
    requires Matches(page, slot, c)
    ensures var after := Annotated(slot, c, |page.annotations|, a);
            Matches(page.(annotations := page.annotations + [a]), after, c) && SameOffPart(slot, after, c)
  {
  }

  lemma SameOffPartTransitive(a: Slot, b: Slot, c: Slot, d: nat)
    requires SameOffPart(a, b, d) && SameOffPart(b, c, d)
    ensures SameOffPart(a, c, d)
  {
    forall k: nat | k != d ensures SamePart(a, c, k) {
      assert SamePart(a, b, k) && SamePart(b, c, k);
    }
  }

  // ----- one fragment, one delta

  /** The pages differ at most at `k` (and in buffers and numbers). */
  ghost predicate OnlyPage(p: Pages, q: Pages, k: Key) {
    forall j: Key :: j != k ==>
      (j in q.text <==> j in p.text) && Value(q, j) == Value(p, j)
          && Lookup(q.annotations, j, []) == Lookup(p.annotations, j, [])
  }

  lemma OnlyPageTransitive(p: Pages, q: Pages, r: Pages, k: Key)
    requires OnlyPage(p, q, k) && OnlyPage(q, r, k)
    ensures OnlyPage(p, r, k)
  {
  }

  lemma AppendOnlyPage(p: Pages, k: Key, s: string)
    ensures OnlyPage(p, AppendText(p, k, s), k)
  {
  }

  lemma CiteOnlyPage(p: Pages, k: Key, r: string)
    ensures OnlyPage(p, Cite(p, k, r).0, k)
  {
    hide Decimal, Numbered, MarkerOf;
  }

  lemma FragmentOnlyPage(p: Pages, k: Key, f: Fragment)
    ensures OnlyPage(p, ShowFragment(p, k, f).0, k)
  {
    hide Cite, AppendText, OnlyPage;
    var q := if f.text == "" then p else AppendText(p, k, f.text);
    SameIsOnlyPage(p, k);
    AppendOnlyPage(p, k, f.text);
    if f.reference.Some? {
      CiteOnlyPage(q, k, f.reference.value);
      OnlyPageTransitive(p, q, Cite(q, k, f.reference.value).0, k);
    }
  }

  lemma {:induction false} FragmentsOnlyPage(p: Pages, k: Key, fs: seq<Fragment>)
    ensures OnlyPage(p, ShowFragments(p, k, fs).0, k)
    decreases fs
  {
    hide ShowFragment, OnlyPage;
    if fs == [] {
      SameIsOnlyPage(p, k);
    } else {
      var q := ShowFragment(p, k, fs[0]).0;
      FragmentOnlyPage(p, k, fs[0]);
      FragmentsOnlyPage(q, k, fs[1..]);
      OnlyPageTransitive(p, q, ShowFragments(q, k, fs[1..]).0, k);
    }
  }

  lemma SameIsOnlyPage(p: Pages, k: Key)
    ensures OnlyPage(p, p, k)
  {
  }

  /** After the forwarded events, page and part still match and nothing else moved. */
  ghost predicate InStep(p: Pages, q: Pages, k: Key, slot: Slot, after: Slot) {
    && Matches(PageAt(q, k), after, k.1)
    && SameOffPart(slot, after, k.1) && after.shell == slot.shell
  }

  lemma TextInStep(p: Pages, k: Key, s: string, slot: Slot, calls: bool)
    requires Matches(PageAt(p, k), slot, k.1)
    ensures InStep(p, AppendText(p, k, s), k, slot, Feed(slot, k.0, [TextDelta(k.0, k.1, s)], calls))
  {
    FeedOne(slot, k.0, TextDelta(k.0, k.1, s), calls);
    AppendMatches(PageAt(p, k), slot, k.1, s);
  }

  lemma CiteInStep(p: Pages, k: Key, r: string, slot: Slot, calls: bool)
    requires Matches(PageAt(p, k), slot, k.1)
    ensures InStep(p, Cite(p, k, r).0, k, slot, Feed(slot, k.0, Cite(p, k, r).1, calls))
  {
    hide Decimal, Numbered, MarkerOf, Matches;
    var page, cited := PageAt(p, k), Cite(p, k, r).1;
    var shown := Appended(slot, k.1, cited[0].delta, OutputText("", []));
    AppendMatches(page, slot, k.1, cited[0].delta);
    AnnotateMatches(page.(text := page.text + cited[0].delta), shown, k.1, cited[1].annotation);
    var noted := Annotated(shown, k.1, cited[1].index, cited[1].annotation);
    SameOffPartTransitive(slot, shown, noted, k.1);
    assert cited == [cited[0]] + [cited[1]];
    FeedAppend(slot, k.0, [cited[0]], [cited[1]], calls);
    FeedOne(slot, k.0, cited[0], calls);
    FeedOne(shown, k.0, cited[1], calls);
    MatchesIgnoresNumbers(PageAt(Cite(p, k, r).0, k), noted, k.1, p.numbers);
  }

  lemma MatchesIgnoresNumbers(page: Page, slot: Slot, c: nat, numbers: map<string, nat>)
    ensures Matches(page.(numbers := numbers), slot, c) == Matches(page, slot, c)
  {
  }

  lemma InStepTransitive(p: Pages, q: Pages, r: Pages, k: Key, a: Slot, b: Slot, c: Slot)
    requires InStep(p, q, k, a, b) && InStep(q, r, k, b, c)
    ensures InStep(p, r, k, a, c)
  {
    SameOffPartTransitive(a, b, c, k.1);
  }

  lemma FragmentInStep(p: Pages, k: Key, f: Fragment, slot: Slot, calls: bool)
    requires Matches(PageAt(p, k), slot, k.1)
    ensures InStep(p, ShowFragment(p, k, f).0, k, slot, Feed(slot, k.0, ShowFragment(p, k, f).1, calls))
  {
    hide Cite, SlotStep, Matches, SameOffPart, AppendText;
    var q := if f.text == "" then p else AppendText(p, k, f.text);
    var shown := if f.text == "" then [] else [TextDelta(k.0, k.1, f.text)];
    var after := Feed(slot, k.0, shown, calls);
    SameOffPartReflexive(slot, k.1);
    TextInStep(p, k, f.text, slot, calls);
    if f.reference.Some? && f.reference.value != "" {
      CiteInStep(q, k, f.reference.value, after, calls);
      FeedAppend(slot, k.0, shown, Cite(q, k, f.reference.value).1, calls);
      InStepTransitive(p, q, Cite(q, k, f.reference.value).0, k, slot, after,
                       Feed(after, k.0, Cite(q, k, f.reference.value).1, calls));
    }
  }

  lemma SameOffPartReflexive(slot: Slot, c: nat)
    ensures SameOffPart(slot, slot, c)
  {
  }

  lemma {:induction false} FragmentsInStep(p: Pages, k: Key, fs: seq<Fragment>, slot: Slot, calls: bool)
    requires Matches(PageAt(p, k), slot, k.1)
    ensures InStep(p, ShowFragments(p, k, fs).0, k, slot, Feed(slot, k.0, ShowFragments(p, k, fs).1, calls))
    decreases fs
  {
    hide ShowFragment, SlotStep, Matches, SameOffPart, PageAt;
    if fs == [] {
      SameOffPartReflexive(slot, k.1);
    } else {
      var q, first := ShowFragment(p, k, fs[0]).0, ShowFragment(p, k, fs[0]).1;
      FragmentInStep(p, k, fs[0], slot, calls);
      var after := Feed(slot, k.0, first, calls);
      FragmentsInStep(q, k, fs[1..], after, calls);
      var rest := ShowFragments(q, k, fs[1..]);
      FeedAppend(slot, k.0, first, rest.1, calls);
      InStepTransitive(p, q, rest.0, k, slot, after, Feed(after, k.0, rest.1, calls));
    }
  }

  /** Pages that moved only at `k`, in step with the slot, agree with it again. */
  lemma StepAgrees(p: Pages, q: Pages, k: Key, slot: Slot, after: Slot)
    requires Agree(p, k.0, slot) && OnlyPage(p, q, k)
    requires SameOffPart(slot, after, k.1) && (k in q.text ==> Matches(PageAt(q, k), after, k.1))
    ensures Agree(q, k.0, after)
  {
    forall c: nat | (k.0, c) in q.text ensures Matches(PageAt(q, (k.0, c)), after, c) {
      if c != k.1 {
        assert Matches(PageAt(p, (k.0, c)), slot, c);
        assert SamePart(slot, after, c);
      }
    }
  }

  lemma DeltaAgrees(p: Pages, k: Key, delta: string, ev: Evidence, slot: Slot, calls: bool)
    requires LocatedPages(p) && Agree(p, k.0, slot)
    requires k in p.text || Matches(Page("", [], p.numbers), slot, k.1)
    ensures var projected := ShowDelta(p, k, delta, ev);
            Agree(projected.0, k.0, Feed(slot, k.0, projected.1, calls))
  {
    hide Parse, ShowFragments, Matches, OnlyPage, SameOffPart, Feed, Agree;
    var parsed := Parse(Lookup(p.buffers, k, "") + delta, ev);
    var start := p.(buffers := p.buffers[k := parsed.1]);
    StartMatches(p, k, slot, parsed.1);
    FragmentsInStep(start, k, parsed.0, slot, calls);
    FragmentsOnlyPage(start, k, parsed.0);
    var q := ShowFragments(start, k, parsed.0).0;
    OpenOnlyPage(p, q, k, parsed.1);
    StepAgrees(p, q.(text := SetDefault(q.text, k, "")), k, slot,
               Feed(slot, k.0, ShowFragments(start, k, parsed.0).1, calls));
  }

  lemma StartMatches(p: Pages, k: Key, slot: Slot, held: string)
    requires LocatedPages(p) && Agree(p, k.0, slot)
    requires k in p.text || Matches(Page("", [], p.numbers), slot, k.1)
    ensures Matches(PageAt(p.(buffers := p.buffers[k := held]), k), slot, k.1)
  {
  }

  lemma OpenOnlyPage(p: Pages, q: Pages, k: Key, held: string)
    requires OnlyPage(p.(buffers := p.buffers[k := held]), q, k)
    ensures OnlyPage(p, q.(text := SetDefault(q.text, k, "")), k)
    ensures PageAt(q.(text := SetDefault(q.text, k, "")), k) == PageAt(q, k)
  {
  }

  lemma DoneAgrees(p: Pages, k: Key, slot: Slot, calls: bool)
    requires LocatedPages(p) && Agree(p, k.0, slot)
    ensures var (q, flushed) := Flush(p, k);
            Agree(q, k.0, Feed(slot, k.0, flushed + [TextDone(k.0, k.1, Value(q, k))], calls))
  {
    hide LocatedPages, SlotStep, Matches, SameOffPart;
    var (q, flushed) := Flush(p, k);
    var done := TextDone(k.0, k.1, Value(q, k));
    FeedAppend(slot, k.0, flushed, [done], calls);
    var after := Feed(slot, k.0, flushed, calls);
    FeedOne(after, k.0, done, calls);
    NoPageNoBuffer(p, k);
    SameOffPartReflexive(slot, k.1);
    if k in p.text {
      assert Matches(PageAt(p, (k.0, k.1)), slot, k.1);
      TextInStep(p.(buffers := p.buffers - {k}), k, Lookup(p.buffers, k, ""), slot, calls);
    }
    DoneStep(q, k, after, calls);
    SameOffPartTransitive(slot, after, SlotStep(after, k.0, done, calls), k.1);
    StepAgrees(p, q, k, slot, SlotStep(after, k.0, done, calls));
  }

  /** A done event carrying the page's own text leaves a matching part matching. */
  lemma DoneStep(q: Pages, k: Key, slot: Slot, calls: bool)
    ensures var after := SlotStep(slot, k.0, TextDone(k.0, k.1, Value(q, k)), calls);
            SameOffPart(slot, after, k.1)
            && (Matches(PageAt(q, k), slot, k.1) ==> Matches(PageAt(q, k), after, k.1))
  {
  }

  // ----- the events that stream no text

  lemma SameElsewhereAgrees(p: Pages, o: nat, c: nat, slot: Slot, after: Slot)
    requires Agree(p, o, slot) && SameOffPart(slot, after, c) && (o, c) !in p.text
    ensures Agree(p, o, after)
  {
    hide Matches, SameOffPart;
    SameIsOnlyPage(p, (o, c));
    StepAgrees(p, p, (o, c), slot, after);
  }

  /** What the projection makes of a finished part: the page, with the annotations it located. */
  ghost predicate Repeats(part: Part, page: Page) {
    part == OutputText(page.text, Merge([], page.annotations))
  }

  lemma {:induction false} MergeSubset(existing: seq<Annotation>, incoming: seq<Annotation>)
    ensures forall a <- Merge(existing, incoming) :: a in existing || a in incoming
    decreases incoming
  {
    if incoming != [] {
      MergeSubset(if incoming[0] in existing then existing else existing + [incoming[0]], incoming[1..]);
    }
  }

  /** Placing a part that repeats its page leaves page and part matching. */
  lemma PartAgrees(p: Pages, o: nat, slot: Slot, c: nat, part: Part)
    requires Agree(p, o, slot)
    requires (o, c) in p.text ==> part == OutputText("", []) || Repeats(part, PageAt(p, (o, c)))
    ensures Agree(p, o, WithPart(slot, c, part))
  {
    hide OnlyPage, Merge, Agree;
    var page := PageAt(p, (o, c));
    MergeSubset([], page.annotations);
    PartOffPart(slot, c, part);
    if (o, c) in p.text {
      PageMatches(p, o, c, slot);
      MergeKnown(page.annotations, Merge([], page.annotations));
      SameIsOnlyPage(p, (o, c));
      StepAgrees(p, p, (o, c), slot, WithPart(slot, c, part));
    } else {
      SameElsewhereAgrees(p, o, c, slot, WithPart(slot, c, part));
    }
  }

  lemma PageMatches(p: Pages, o: nat, c: nat, slot: Slot)
    requires Agree(p, o, slot) && (o, c) in p.text
    ensures Matches(PageAt(p, (o, c)), slot, c)
  {
  }

  lemma PartOffPart(slot: Slot, c: nat, part: Part)
    ensures SameOffPart(slot, WithPart(slot, c, part), c)
  {
  }

  lemma {:induction false} PartsAgree(p: Pages, o: nat, slot: Slot, parts: seq<Part>, n: nat)
    requires Agree(p, o, slot) && n <= |parts|
    requires forall c: nat :: c < |parts| && (o, c) in p.text ==> Repeats(parts[c], PageAt(p, (o, c)))
    ensures Agree(p, o, WithParts(slot, parts, n))
  {
    hide Agree, WithPart, Repeats, PageAt;
    if n > 0 {
      PartsAgree(p, o, slot, parts, n - 1);
      PartAgrees(p, o, WithParts(slot, parts, n - 1), n - 1, parts[n - 1]);
    }
  }

  /** Two slots with the same content parts agree with the same pages. */
  lemma SamePartsAgree(p: Pages, o: nat, slot: Slot, after: Slot)
    requires Agree(p, o, slot)
    requires after.parts == slot.parts && after.text == slot.text && after.annotations == slot.annotations
    ensures Agree(p, o, after)
  {
  }

  lemma {:induction false} SummaryKeepsParts(slot: Slot, parts: seq<Part>, n: nat)
    requires n <= |parts|
    ensures var after := WithSummaryParts(slot, parts, n);
            after.parts == slot.parts && after.text == slot.text && after.annotations == slot.annotations
  {
    if n > 0 { SummaryKeepsParts(slot, parts, n - 1); }
  }

  lemma PlacedAgrees(p: Pages, o: nat, slot: Slot, item: Item, done: bool)
    requires Agree(p, o, slot)
    requires item.Message? || item.Reasoning? ==>
      forall c: nat :: c < |item.content| && (o, c) in p.text ==> Repeats(item.content[c], PageAt(p, (o, c)))
    ensures Agree(p, o, Placed(slot, item, done))
  {
    hide Agree, Repeats, PageAt;
    var started := slot.(shell := Some(ShellOf(item, done)));
    SamePartsAgree(p, o, slot, started);
    match item {
      case Message(_, _, _, _, content) => PartsAgree(p, o, started, content, |content|);
      case Reasoning(_, _, content, summary, _) =>
        PartsAgree(p, o, started, content, |content|);
        var seeded := WithParts(started, content, |content|);
        SummaryKeepsParts(seeded, summary, |summary|);
        SamePartsAgree(p, o, seeded, WithSummaryParts(seeded, summary, |summary|));
      case _ => SamePartsAgree(p, o, started, Seeded(started, ShellOf(item, done)));
    }
  }

  /** A finished message is rewritten to repeat every page that streamed. */
  lemma RewrittenRepeats(p: Pages, o: nat, content: seq<Part>, c: nat)
    requires c < |content| && (o, c) in p.text
    requires content[c].OutputText? && content[c].annotations == []
    ensures Repeats(RewrittenParts(p, o, content)[c], PageAt(p, (o, c)))
  {
  }

  /** An event that puts something other than text into a part without a page. */
  lemma ForeignAgrees(p: Pages, o: nat, slot: Slot, e: Event)
    requires !e.Lifecycle() && e.output == o && Agree(p, o, slot)
    requires e.AnnotationAdded? || e.RefusalDelta? || e.RefusalDone? || e.ReasoningDelta? || e.ReasoningDone?
    requires (o, e.content) !in p.text
    ensures Agree(p, o, Addressed(slot, e))
  {
    hide Agree, Merge, InsertAt;
    var after := Addressed(slot, e);
    assert SameOffPart(slot, after, e.content);
    SameElsewhereAgrees(p, o, e.content, slot, after);
  }

  lemma SideAgrees(p: Pages, o: nat, slot: Slot, e: Event)
    requires !e.Lifecycle() && e.output == o && Agree(p, o, slot)
    requires e.SummaryPartAdded? || e.SummaryPartDone? || e.SummaryDelta? || e.SummaryDone? || e.ArgumentsDelta?
             || e.ArgumentsDone?
    ensures Agree(p, o, Addressed(slot, e))
  {
    hide Agree;
    SamePartsAgree(p, o, slot, Addressed(slot, e));
  }

  lemma LifecycleAgrees(p: Pages, o: nat, slot: Slot, e: Event, calls: bool)
    requires e.Lifecycle() && Agree(p, o, slot) && WellTimed(p, o, slot, e)
    ensures Agree(p, o, SlotStep(slot, o, e, calls))
  {
    hide Agree, Placed, Phased;
    PhasedKeepsParts(slot, calls);
    SamePartsAgree(p, o, slot, SlotStep(slot, o, e, calls));
  }

  lemma PhasedKeepsParts(slot: Slot, calls: bool)
    ensures var after := Phased(slot, calls);
            after.parts == slot.parts && after.text == slot.text && after.annotations == slot.annotations
  {
  }

  /** One event addressed to this index that the projection forwards alone. */
  lemma WholeAgrees(p: Pages, o: nat, slot: Slot, e: Event, ev: Evidence)
    requires !e.Lifecycle() && e.output == o && !e.TextDelta? && !e.TextDone? && ev.ids != {}
    requires Agree(p, o, slot) && WellTimed(p, o, slot, e)
    ensures var (q, events) := Project(p, e, ev);
            q == p && |events| == 1 && !events[0].Lifecycle() && events[0].output == o
                && Agree(p, o, Addressed(slot, events[0]))
  {
    hide Agree, Repeats, PageAt, Placed, WithPart, RewrittenParts, Annotated, Appended, Replaced, SummaryReplaced,
         WithSummaryPart;
    match e {
      case ItemAdded(_, item) => PlacedAgrees(p, o, slot, item, false);
      case ItemDone(_, item) =>
        if item.Message? {
          var content := RewrittenParts(p, o, item.content);
          forall c: nat | c < |content| && (o, c) in p.text ensures Repeats(content[c], PageAt(p, (o, c))) {
            RewrittenRepeats(p, o, item.content, c);
          }
          PlacedAgrees(p, o, slot, Message(item.id, item.status, item.role, item.phase, content), true);
        } else {
          PlacedAgrees(p, o, slot, item, true);
        }
      case PartAdded(_, c, part) => PartAgrees(p, o, slot, c, part);
      case PartDone(_, c, part) =>
        FinishedRepeats(p, (o, c), part);
        PartAgrees(p, o, slot, c, RewrittenPart(p, (o, c), part));
      case AnnotationAdded(_, _, _, _) => ForeignAgrees(p, o, slot, e);
      case RefusalDelta(_, _, _) => ForeignAgrees(p, o, slot, e);
      case RefusalDone(_, _, _) => ForeignAgrees(p, o, slot, e);
      case ReasoningDelta(_, _, _) => ForeignAgrees(p, o, slot, e);
      case ReasoningDone(_, _, _) => ForeignAgrees(p, o, slot, e);
      case _ => SideAgrees(p, o, slot, e);
    }
  }

  lemma FinishedRepeats(p: Pages, k: Key, part: Part)
    requires k in p.text ==> part.OutputText? && part.annotations == []
    ensures k in p.text ==> Repeats(RewrittenPart(p, k, part), PageAt(p, k))
  {
  }

  // ----- events of other output indices

  ghost predicate AllAddress(events: seq<Event>, o: nat) {
    forall e <- events :: !e.Lifecycle() && e.output == o
  }

  lemma {:induction false} FeedElsewhere(slot: Slot, i: nat, events: seq<Event>, o: nat, calls: bool)
    requires AllAddress(events, o) && i != o
    ensures Feed(slot, i, events, calls) == slot
    decreases events
  {
    hide Addressed, Placed, Phased;
    if events != [] {
      assert events[0] in events;
      FeedElsewhere(slot, i, events[1..], o, calls);
    }
  }

  lemma {:induction false} FragmentsAddress(p: Pages, k: Key, fs: seq<Fragment>)
    ensures AllAddress(ShowFragments(p, k, fs).1, k.0)
    decreases fs
  {
    hide Decimal, Numbered, MarkerOf;
    if fs != [] {
      FragmentsAddress(ShowFragment(p, k, fs[0]).0, k, fs[1..]);
    }
  }

  lemma ProjectionAddresses(p: Pages, e: Event, ev: Evidence)
    requires !e.Lifecycle()
    ensures AllAddress(Project(p, e, ev).1, e.output)
  {
    hide ShowFragments, Parse, RewrittenParts, RewrittenPart;
    if e.TextDelta? {
      var k := (e.output, e.content);
      var parsed := Parse(Lookup(p.buffers, k, "") + e.delta, ev);
      FragmentsAddress(p.(buffers := p.buffers[k := parsed.1]), k, parsed.0);
    }
  }

  lemma ProjectionElsewhere(p: Pages, e: Event, ev: Evidence, o: nat, slot: Slot)
    requires !e.Lifecycle() && e.output != o && Agree(p, o, slot)
    ensures Agree(Project(p, e, ev).0, o, slot)
  {
    hide ShowDelta, Flush, OnlyPage, Agree;
    match e {
      case TextDelta(i, c, delta) =>
        DeltaOnlyPage(p, (i, c), delta, ev);
        OtherPagesAgree(p, ShowDelta(p, (i, c), delta, ev).0, (i, c), o, slot);
      case TextDone(i, c, _) =>
        FlushOnlyPage(p, (i, c));
        OtherPagesAgree(p, Flush(p, (i, c)).0, (i, c), o, slot);
      case _ =>
    }
  }

  lemma FlushOnlyPage(p: Pages, k: Key)
    ensures OnlyPage(p, Flush(p, k).0, k)
  {
  }

  lemma OtherPagesAgree(p: Pages, q: Pages, k: Key, o: nat, slot: Slot)
    requires Agree(p, o, slot) && OnlyPage(p, q, k) && k.0 != o
    ensures Agree(q, o, slot)
  {
  }

  // ----- which parts have a page

  predicate IsDeltaOf(e: Event, k: Key) { e.TextDelta? && (e.output, e.content) == k }

  ghost predicate HasDelta(events: seq<Event>, k: Key) {
    exists e :: e in events && IsDeltaOf(e, k)
  }

  lemma DeltaOpens(p: Pages, k: Key, delta: string, ev: Evidence)
    ensures k in ShowDelta(p, k, delta, ev).0.text
  {
  }

  /** One event opens a page exactly for the part that it is a text delta of. */
  lemma DeltaOpensItsPage(p: Pages, e: Event, ev: Evidence, k: Key)
    requires ev.ids != {} && LocatedPages(p)
    ensures k in Project(p, e, ev).0.text <==> k in p.text || IsDeltaOf(e, k)
  {
    hide ShowDelta, Flush, LocatedPages, RewrittenParts, RewrittenPart;
    match e {
      case TextDelta(o, c, delta) =>
        DeltaOpens(p, (o, c), delta, ev);
        DeltaOnlyPage(p, (o, c), delta, ev);
      case TextDone(o, c, _) =>
        NoPageNoBuffer(p, (o, c));
        FlushOnlyPage(p, (o, c));
        FlushOpensNone(p, (o, c));
      case _ =>
    }
  }

  lemma DeltaOnlyPage(p: Pages, k: Key, delta: string, ev: Evidence)
    ensures OnlyPage(p, ShowDelta(p, k, delta, ev).0, k)
  {
    hide ShowFragments, Parse, OnlyPage;
    var parsed := Parse(Lookup(p.buffers, k, "") + delta, ev);
    var start := p.(buffers := p.buffers[k := parsed.1]);
    FragmentsOnlyPage(start, k, parsed.0);
    OpenOnlyPage(p, ShowFragments(start, k, parsed.0).0, k, parsed.1);
  }

  lemma FlushOpensNone(p: Pages, k: Key)
    requires k !in p.text ==> k !in p.buffers
    ensures k in Flush(p, k).0.text <==> k in p.text
  {
  }

  /** A part has a page exactly when a text delta of it was projected. */
  lemma {:induction false} PageIffDelta(p: Pages, events: seq<Event>, ev: Evidence, k: Key)
    requires ev.ids != {} && LocatedPages(p)
    ensures k in ProjectAll(p, events, ev).0.text <==> k in p.text || HasDelta(events, k)
    decreases events
  {
    hide LocatedPages, Project;
    if events != [] {
      DeltaOpensItsPage(p, events[0], ev, k);
      ProjectKeepsLocated(p, events[0], ev);
      PageIffDelta(Project(p, events[0], ev).0, events[1..], ev, k);
    }
  }

  /** Without a held buffer the end of a part's text shows nothing. */
  lemma NothingToFlush(p: Pages, k: Key, text: string, ev: Evidence)
    requires ev.ids != {} && k !in p.buffers && k !in p.text
    ensures Project(p, TextDone(k.0, k.1, text), ev) == (p, [TextDone(k.0, k.1, "")])
  {
    assert p.buffers - {k} == p.buffers;
    var done := TextDone(k.0, k.1, "");
    assert [] + [done] == [done];
  }

  /** A part without a page is forwarded as the provider wrote it; only its `text.done` is emptied. */
  lemma WithoutPageForwardedRaw(p: Pages, e: Event, ev: Evidence, o: nat, c: nat)
    requires ev.ids != {} && LocatedPages(p) && (o, c) !in p.text
    requires !e.Lifecycle() && e.output == o && !IsDeltaOf(e, (o, c))
    ensures e.PartDone? && e.content == c ==> Project(p, e, ev) == (p, [e])
    ensures e.TextDone? && e.content == c ==> Project(p, e, ev) == (p, [TextDone(o, c, "")])
    ensures e.ItemDone? && e.item.Message? && c < |e.item.content| ==>
              var (q, sent) := Project(p, e, ev);
              && q == p && |sent| == 1 && sent[0].ItemDone? && sent[0].item.Message?
              && |sent[0].item.content| == |e.item.content| && sent[0].item.content[c] == e.item.content[c]
  {
    hide Project, LocatedPages;
    match e {
      case TextDone(_, d, text) =>
        NoPageNoBuffer(p, (o, c));
        if d == c { NothingToFlush(p, (o, c), text, ev); }
      case PartDone(_, d, part) => ForwardsPart(p, (o, d), part, ev);
      case ItemDone(_, item) => if item.Message? { ForwardsMessage(p, o, item, ev); }
      case _ =>
    }
  }

  lemma ForwardsPart(p: Pages, k: Key, part: Part, ev: Evidence)
    requires ev.ids != {}
    ensures Project(p, PartDone(k.0, k.1, part), ev) == (p, [PartDone(k.0, k.1, RewrittenPart(p, k, part))])
  {
  }

  function RewrittenMessage(p: Pages, o: nat, item: Item): Item
    requires item.Message?
  {
    Message(item.id, item.status, item.role, item.phase, RewrittenParts(p, o, item.content))
  }

  lemma ForwardsMessage(p: Pages, o: nat, item: Item, ev: Evidence)
    requires ev.ids != {} && item.Message?
    ensures Project(p, ItemDone(o, item), ev) == (p, [ItemDone(o, RewrittenMessage(p, o, item))])
  {
  }

  // ----- one event, then whole streams

  /** After any well-timed event, pages and slots agree again. */
  lemma EventAgrees(p: Pages, o: nat, slot: Slot, e: Event, ev: Evidence, calls: bool)
    requires ev.ids != {} && LocatedPages(p) && Agree(p, o, slot) && WellTimed(p, o, slot, e)
    ensures Agree(Project(p, e, ev).0, o, Feed(slot, o, Project(p, e, ev).1, calls))
  {
    hide LocatedPages, Agree, Matches, Feed, ShowDelta, Flush, Addressed;
    if e.Lifecycle() {
      FeedOne(slot, o, e, calls);
      LifecycleAgrees(p, o, slot, e, calls);
    } else if e.output != o {
      ProjectionAddresses(p, e, ev);
      FeedElsewhere(slot, o, Project(p, e, ev).1, e.output, calls);
      ProjectionElsewhere(p, e, ev, o, slot);
    } else if e.TextDelta? {
      DeltaAgrees(p, (o, e.content), e.delta, ev, slot, calls);
    } else if e.TextDone? {
      DoneAgrees(p, (o, e.content), slot, calls);
    } else {
      WholeAgrees(p, o, slot, e, ev);
      FeedWhole(slot, o, Project(p, e, ev).1, calls);
    }
  }

  lemma FeedWhole(slot: Slot, o: nat, events: seq<Event>, calls: bool)
    requires |events| == 1 && !events[0].Lifecycle() && events[0].output == o
    ensures Feed(slot, o, events, calls) == Addressed(slot, events[0])
  {
  }

  /** The projection over a whole stream: the pages, and everything it forwards. */
  function ProjectAll(p: Pages, events: seq<Event>, ev: Evidence): (Pages, seq<Event>)
    decreases events
  {
    if events == [] then (p, [])
    else
      var (q, first) := Project(p, events[0], ev);
      var (r, rest) := ProjectAll(q, events[1..], ev);
      (r, first + rest)
  }

  /** Every event of a stream is well timed for output index `o`. */
  ghost predicate Disciplined(p: Pages, o: nat, slot: Slot, events: seq<Event>, ev: Evidence, calls: bool)
    decreases events
  {
    events == [] ||
    (WellTimed(p, o, slot, events[0]) &&
     var (q, first) := Project(p, events[0], ev);
     Disciplined(q, o, Feed(slot, o, first, calls), events[1..], ev, calls))
  }

  /**
   End to end: over every disciplined stream, the reducer holds for each page
   exactly its text and annotations, the page is what was forwarded for it, and
   each annotation spans its own `[n]`.
   */
  lemma {:induction false} StreamAgrees(p: Pages, o: nat, slot: Slot, events: seq<Event>, ev: Evidence, calls: bool)
    requires ev.ids != {} && LocatedPages(p) && Agree(p, o, slot)
    requires Disciplined(p, o, slot, events, ev, calls)
    ensures var (q, forwarded) := ProjectAll(p, events, ev);
            && LocatedPages(q) && Agree(q, o, Feed(slot, o, forwarded, calls))
            && forall k: Key :: Value(q, k) == Value(p, k) + Forwarded(forwarded, k)
    decreases events
  {
    hide LocatedPages, Agree, Project, SlotStep, WellTimed, Value;
    if events != [] {
      var (q, first) := Project(p, events[0], ev);
      ProjectKeepsLocated(p, events[0], ev);
      EventAgrees(p, o, slot, events[0], ev, calls);
      var next := Feed(slot, o, first, calls);
      StreamAgrees(q, o, next, events[1..], ev, calls);
      var (r, rest) := ProjectAll(q, events[1..], ev);
      FeedAppend(slot, o, first, rest, calls);
      forall k: Key ensures Value(r, k) == Value(p, k) + Forwarded(first + rest, k) {
        PageIsForwarded(p, events[0], ev, k);
        ForwardedAppend(first, rest, k);
        Associative(Value(p, k), Forwarded(first, k), Forwarded(rest, k));
      }
    }
  }

  /**
   The settled part a client reads: the concatenation of the text deltas it was
   sent, with every annotation bracketing its `[n]` in that text.
   */
  lemma SettledPartIsForwarded(o: nat, c: nat, events: seq<Event>, ev: Evidence, calls: bool)
    requires ev.ids != {} && Disciplined(NO_PAGES, o, EMPTY_SLOT, events, ev, calls)
    ensures var (q, forwarded) := ProjectAll(NO_PAGES, events, ev);
            var slot := Feed(EMPTY_SLOT, o, forwarded, calls);
            (o, c) in q.text && c in slot.parts ==>
              var part := ViewPart(slot, c);
              && part.OutputText? && part.text == Forwarded(forwarded, (o, c))
              && Located(part.text, part.annotations, q.numbers)
  {
    hide Project, SlotStep, Forwarded, Disciplined, WellTimed, Feed, Located, ProjectAll;
    NothingAgrees(o);
    StreamAgrees(NO_PAGES, o, EMPTY_SLOT, events, ev, calls);
    var (q, forwarded) := ProjectAll(NO_PAGES, events, ev);
    var slot := Feed(EMPTY_SLOT, o, forwarded, calls);
    if (o, c) in q.text && c in slot.parts {
      PageMatches(q, o, c, slot);
      assert Value(NO_PAGES, (o, c)) == "";
      PageLocated(q, (o, c));
    }
  }

  lemma NothingAgrees(o: nat)
    ensures LocatedPages(NO_PAGES) && Agree(NO_PAGES, o, EMPTY_SLOT)
  {
  }

  lemma PageLocated(p: Pages, k: Key)
    requires LocatedPages(p) && k in p.text
    ensures Located(Value(p, k), Lookup(p.annotations, k, []), p.numbers)
  {
  }

  // ----- the loop that connects the two

  /** Every slot took the steps of all the events. */
  ghost predicate Fed(f: Slots, g: Slots, events: seq<Event>, calls: bool) {
    forall i: nat {:trigger g(i)} :: g(i) == Feed(f(i), i, events, calls)
  }

  ghost predicate NoneSettles(events: seq<Event>) {
    forall e <- events :: !e.Settled?
  }

  lemma FedOne(f: Slots, g: Slots, e: Event, calls: bool)
    requires Stepped(f, g, e, calls)
    ensures Fed(f, g, [e], calls)
  {
  }

  /** Until a response settles, nothing asks whether it contains a call. */
  lemma {:induction false} FeedIgnoresCalls(slot: Slot, i: nat, events: seq<Event>, a: bool, b: bool)
    requires NoneSettles(events)
    ensures Feed(slot, i, events, a) == Feed(slot, i, events, b)
    decreases events
  {
    hide SlotStep;
    if events != [] {
      assert events[0] in events;
      CallsOnlyMatterToSettle(slot, i, events[0], a);
      CallsOnlyMatterToSettle(slot, i, events[0], b);
      FeedIgnoresCalls(SlotStep(slot, i, events[0], a), i, events[1..], a, b);
    }
  }

  lemma FedMore(f: Slots, g: Slots, h: Slots, done: seq<Event>, more: seq<Event>, before: bool, calls: bool)
    requires NoneSettles(done) && Fed(f, g, done, before) && Fed(g, h, more, calls)
    ensures Fed(f, h, done + more, calls)
  {
    forall i: nat ensures h(i) == Feed(f(i), i, done + more, calls) {
      FeedIgnoresCalls(f(i), i, done, before, calls);
      FeedAppend(f(i), i, done, more, calls);
      assert g(i) == Feed(f(i), i, done, before);
    }
  }

  /** The client is sent what was reduced; only a settling event carries the rebuilt response instead. */
  ghost predicate Yields(yielded: seq<Event>, reduced: seq<Event>) {
    |yielded| == |reduced| && forall j :: 0 <= j < |yielded| ==>
      if reduced[j].Settled? then yielded[j].Settled? && yielded[j].terminal == reduced[j].terminal
      else yielded[j] == reduced[j]
  }

  /** Reduce the events one incoming event was projected to. */
  method ReduceAll(reducer: ResponseReducer, events: seq<Event>) returns (yielded: seq<Event>, ghost calls: bool)
    requires reducer.Valid() && (|events| == 1 || NoneSettles(events))
    modifies reducer
    ensures reducer.Valid() && Yields(yielded, events)
    ensures Fed(old(reducer.AllSlots()), reducer.AllSlots(), events, calls)
  {
    hide Feed, Stepped, SlotOf, IsView;
    yielded, calls := [], false;
    FedNothing(reducer.AllSlots());
    for j := 0 to |events|
      invariant reducer.Valid() && Yields(yielded, events[..j])
      invariant Fed(old(reducer.AllSlots()), reducer.AllSlots(), events[..j], calls)
    {
      ghost var before, now := reducer.AllSlots(), calls;
      var y := reducer.Apply(events[j]);
      yielded, calls := yielded + [y], HasCall(reducer.items);
      FedOne(before, reducer.AllSlots(), events[j], calls);
      FedMore(old(reducer.AllSlots()), before, reducer.AllSlots(), events[..j], [events[j]], now, calls);
      assert events[..j + 1] == events[..j] + [events[j]];
    }
    assert events[..|events|] == events;
  }

  lemma FedNothing(f: Slots)
    ensures Fed(f, f, [], false)
  {
  }

  lemma ProjectionSettles(p: Pages, e: Event, ev: Evidence)
    ensures var events := Project(p, e, ev).1;
            if e.Settled? then events == [e] else NoneSettles(events)
  {
    hide ShowFragments, Parse, RewrittenParts, RewrittenPart, Flush;
    if !e.Lifecycle() {
      ProjectionAddresses(p, e, ev);
    }
  }

  lemma {:induction false} ProjectAllAppend(p: Pages, a: seq<Event>, b: seq<Event>, ev: Evidence)
    ensures var (q, first) := ProjectAll(p, a, ev);
            var (r, rest) := ProjectAll(q, b, ev);
            ProjectAll(p, a + b, ev) == (r, first + rest)
    decreases a
  {
    hide Project;
    if a == [] {
      assert a + b == b && [] + ProjectAll(p, b, ev).1 == ProjectAll(p, b, ev).1;
    } else {
      assert (a + b)[1..] == a[1..] + b;
      var (q, first) := Project(p, a[0], ev);
      ProjectAllAppend(q, a[1..], b, ev);
      var (r, more) := ProjectAll(q, a[1..], ev);
      var (_, rest) := ProjectAll(r, b, ev);
      assert first + (more + rest) == first + more + rest;
    }
  }

  lemma ProjectAllOne(p: Pages, e: Event, ev: Evidence)
    ensures ProjectAll(p, [e], ev) == Project(p, e, ev)
  {
    hide Project;
    var (q, events) := Project(p, e, ev);
    assert [e][1..] == [] && events + [] == events;
  }

  /**
   `run_sampling_request`: project every provider event and reduce everything
   the projection forwards.  A provider settles a response with its last event.
   */
  method RunSamplingRequest(projection: CitationProjection, reducer: ResponseReducer, events: seq<Event>)
    returns (yielded: seq<Event>, ghost sent: seq<Event>, ghost calls: bool)
    requires reducer.Valid() && forall i :: 0 <= i < |events| - 1 ==> !events[i].Settled?
    modifies projection, projection.references, reducer
    ensures reducer.Valid() && Yields(yielded, sent)
    ensures (projection.Model(), sent) == ProjectAll(old(projection.Model()), events, projection.evidence)
    ensures Fed(old(reducer.AllSlots()), reducer.AllSlots(), sent, calls)
  {
    hide Project, Feed, SlotOf, IsView, Fed;
    yielded, sent, calls := [], [], false;
    FedNothing(reducer.AllSlots());
    for i := 0 to |events|
      invariant reducer.Valid() && Yields(yielded, sent) && (i < |events| ==> NoneSettles(sent))
      invariant (projection.Model(), sent) == ProjectAll(old(projection.Model()), events[..i], projection.evidence)
      invariant Fed(old(reducer.AllSlots()), reducer.AllSlots(), sent, calls)
    {
      ghost var p, before, slots := projection.Model(), calls, reducer.AllSlots();
      var projected := projection.ProjectEvent(events[i]);
      ProjectionSettles(p, events[i], projection.evidence);
      ProjectAllOne(p, events[i], projection.evidence);
      ProjectAllAppend(old(projection.Model()), events[..i], [events[i]], projection.evidence);
      assert events[..i + 1] == events[..i] + [events[i]];
      var reduced;
      reduced, calls := ReduceAll(reducer, projected);
      FedMore(old(reducer.AllSlots()), slots, reducer.AllSlots(), sent, projected, before, calls);
      yielded, sent := yielded + reduced, sent + projected;
    }
    assert events[..|events|] == events;
  }
}
