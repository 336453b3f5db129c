/**
 One user turn: repeated sampling requests with tool rounds in between
 (`run_turn` of `agent/turn.py`, `_tool_router` of `agent/session.py`).
 */
module TurnLoop {
  import opened Prelude
  import opened Configuration
  import opened ContextSelection
  import opened ToolOrchestration

  /** One output item of a response: a requested function call, or anything else. */
  datatype Produced = Requested(call: Call) | Made(entry: Entry)

  /** A settled response; `answered` says its final text is an answer. */
  datatype Response = Response(completed: bool, output: seq<Produced>, answered: bool)

  datatype Outcome = Answered | Unfinished | NoResponse | ToolAfterLimit | NoAnswer | SamplingLimit

  /** What the turn cannot foresee, by iteration, round and call: the sampled responses (none when
      a stream ends early), what handlers report, how long outputs are, and native content. */
  datatype World = World(
    sample: nat -> Option<Response>, report: nat -> nat -> string, weigh: nat -> nat -> nat,
    content: nat -> Option<nat>)

  function EntryOf(p: Produced): Entry {
    match p
    case Requested(call) => Entry(FunctionCall, call.callId, call.size)
    case Made(entry) => entry
  }

  function Entries(output: seq<Produced>): (r: seq<Entry>)
    ensures |r| == |output| && forall k :: 0 <= k < |r| ==> r[k] == EntryOf(output[k])
  {
    seq(|output|, k requires 0 <= k < |output| => EntryOf(output[k]))
  }

  /** The positions of the requested function calls, in output order. */
  function CallPositions(output: seq<Produced>): (at: seq<nat>)
    ensures Increasing(at) && forall j :: 0 <= j < |at| ==> at[j] < |output| && output[at[j]].Requested?
    ensures forall k: nat :: k < |output| && output[k].Requested? ==> k in at
  {
    if output == [] then []
    else
      var last := |output| - 1;
      var before := CallPositions(output[..last]);
      before + if output[last].Requested? then [last] else []
  }

  /** `Response.function_calls`. */
  function FunctionCalls(output: seq<Produced>): (calls: seq<Call>)
    ensures |calls| == |CallPositions(output)|
    ensures forall k :: 0 <= k < |calls| ==>
              CallPositions(output)[k] < |output| && output[CallPositions(output)[k]] == Requested(calls[k])
  {
    seq(|CallPositions(output)|, k requires 0 <= k < |CallPositions(output)| => CallAt(output, k))
  }

  function CallAt(output: seq<Produced>, k: nat): (call: Call)
    requires k < |CallPositions(output)|
    ensures output[CallPositions(output)[k]] == Requested(call)
  {
    assert CallPositions(output)[k] in CallPositions(output);
    output[CallPositions(output)[k]].call
  }

  function OutputEntries(outputs: seq<Observation>, weigh: nat -> nat): (r: seq<Entry>)
    ensures |r| == |outputs|
    ensures forall k :: 0 <= k < |r| ==> r[k] == Entry(FunctionOutput, outputs[k].callId, weigh(k))
  {
    seq(|outputs|, k requires 0 <= k < |outputs| => Entry(FunctionOutput, outputs[k].callId, weigh(k)))
  }

  // ----- the recorded history

  /** Every function call has its output, and every function output its call. */
  ghost predicate AllAnswered(items: seq<Entry>) {
    && (forall i: nat :: i < |items| && items[i].kind.FunctionCall? ==> HasAnswer(items, i))
    && (forall j: nat :: j < |items| && items[j].kind.FunctionOutput? ==> HasRequest(items, j))
  }

  ghost predicate HasAnswer(items: seq<Entry>, i: nat) {
    exists j: nat :: Answers(items, j, i)
  }

  ghost predicate HasRequest(items: seq<Entry>, j: nat) {
    exists i: nat :: Answers(items, j, i)
  }

  /** What is asked of a provider: the items it adds keep call ids apart, and it answers only hosted calls. */
  ghost predicate Fresh(items: seq<Entry>, output: seq<Produced>) {
    && WellFormedHistory(items + Entries(output))
    && (forall p <- output :: p.Made? ==> !p.entry.kind.FunctionCall? && !p.entry.kind.FunctionOutput?)
    && (forall i: nat :: |items| <= i < |items| + |output| && output[i - |items|].Requested? ==>
        !HasAnswer(items + Entries(output), i))
  }

  /** The items of one tool round: the response, the outputs of its calls, and a message for native content. */
  function Round(output: seq<Produced>, outputs: seq<Observation>, weigh: nat -> nat,
      content: Option<nat>): seq<Entry> {
    Entries(output) + OutputEntries(outputs, weigh) + if content.Some? then [Entry(Message, "", content.value)] else []
  }

  ghost predicate AnswersCalls(output: seq<Produced>, outputs: seq<Observation>) {
    && |outputs| == |FunctionCalls(output)|
    && forall k :: 0 <= k < |outputs| ==> outputs[k].callId == FunctionCalls(output)[k].callId
  }

  /** `after` is `before` and one tool round: the response, one output per call in call order, and native content. */
  ghost predicate RoundAdded(before: seq<Entry>, after: seq<Entry>, output: seq<Produced>, world: World, round: nat) {
    exists outputs :: AnswersCalls(output, outputs)
        && after == before + Round(output, outputs, world.weigh(round), world.content(round))
  }

  /** The response asks for tools, so the turn goes on after it. */
  ghost predicate AsksForTools(response: Option<Response>) {
    response.Some? && response.value.completed && FunctionCalls(response.value.output) != []
  }

  /** How a turn ends, by its last response; one that still asks for tools found none exposed. */
  function Ending(last: Option<Response>): Outcome {
    if last.None? then NoResponse
    else if !last.value.completed then Unfinished
    else if FunctionCalls(last.value.output) != [] then ToolAfterLimit
    else if last.value.answered then Answered
    else NoAnswer
  }

  /** A response asks for tools exactly when one of its items is a function call. */
  lemma AsksIff(output: seq<Produced>)
    ensures FunctionCalls(output) == [] <==> forall k :: 0 <= k < |output| ==> output[k].Made?
  {
    if k :| 0 <= k < |output| && output[k].Requested? {
      assert k in CallPositions(output);
    }
    if CallPositions(output) != [] {
      assert CallPositions(output)[0] in CallPositions(output);
    }
  }

  /** What each end of a turn says about the last response. */
  lemma EndingMeans(last: Option<Response>)
    ensures Ending(last).NoResponse? <==> last == None
    ensures Ending(last).Unfinished? <==> last.Some? && !last.value.completed
    ensures last.Some? && last.value.completed ==>
              var r, asks := last.value, exists k :: 0 <= k < |last.value.output| && last.value.output[k].Requested?;
              && (Ending(last).ToolAfterLimit? <==> asks)
              && (Ending(last).Answered? <==> !asks && r.answered)
              && (Ending(last).NoAnswer? <==> !asks && !r.answered)
  {
    if last.Some? {
      AsksIff(last.value.output);
    }
  }

  /** What the last response leaves in the conversation. */
  function Remains(last: Option<Response>): seq<Entry> {
    if last.Some? && last.value.completed then Entries(last.value.output) else []
  }

  /** Request `k + 1` is built from what request `k` was built from, its response, and the tool round it asked for. */
  ghost predicate Chained(sent: seq<seq<Entry>>, world: World) {
    && (sent != [] ==> sent[0] == [])
    && forall k: nat {:trigger sent[k]} :: k + 1 < |sent| ==> Linked(sent, k, world)
  }

  ghost predicate Linked(sent: seq<seq<Entry>>, k: nat, world: World)
    requires k + 1 < |sent|
  {
    AsksForTools(world.sample(k + 1)) && RoundAdded(sent[k], sent[k + 1], world.sample(k + 1).value.output, world, k)
  }

  lemma ChainedMore(sent: seq<seq<Entry>>, items: seq<Entry>, world: World)
    requires Chained(sent, world)
    requires if sent == [] then items == []
             else
               && AsksForTools(world.sample(|sent|))
               && RoundAdded(sent[|sent| - 1], items, world.sample(|sent|).value.output, world, |sent| - 1)
    ensures Chained(sent + [items], world)
  {
    hide RoundAdded, AsksForTools;
    var more := sent + [items];
    forall k: nat | k + 1 < |more| ensures Linked(more, k, world) {
      if k + 1 < |sent| {
        assert Linked(sent, k, world) by { assert sent[k] == more[k]; }
      }
    }
  }

  /** Two answers of one round never share a call id. */
  lemma RoundAnswersApart(items: seq<Entry>, output: seq<Produced>, j: nat, k: nat)
    requires Fresh(items, output) && j < k < |FunctionCalls(output)|
    ensures FunctionCalls(output)[j].callId != FunctionCalls(output)[k].callId
  {
    var at := CallPositions(output);
    assert at[j] in at && at[k] in at && at[j] < at[k];
    var all := items + Entries(output);
    assert all[|items| + at[j]] == EntryOf(output[at[j]]) && all[|items| + at[k]] == EntryOf(output[at[k]]);
  }

  lemma RoundAnswersNew(items: seq<Entry>, output: seq<Produced>, k: nat, j: nat)
    requires Fresh(items, output) && k < |FunctionCalls(output)|
    requires j < |items| + |output| && (items + Entries(output))[j].IsOutput()
    ensures (items + Entries(output))[j].callId != FunctionCalls(output)[k].callId
  {
    var at, all := CallPositions(output), items + Entries(output);
    assert at[k] in at && all[|items| + at[k]] == EntryOf(output[at[k]]);
    assert !HasAnswer(all, |items| + at[k]);
    assert !Answers(all, j, |items| + at[k]);
  }

  /** Where an item of a tool round comes from. */
  lemma RoundParts(items: seq<Entry>, output: seq<Produced>, outputs: seq<Observation>, weigh: nat -> nat,
      content: Option<nat>)
    ensures var before, after := items + Entries(output), items + Round(output, outputs, weigh, content);
            && |after| == |before| + |outputs| + (if content.Some? then 1 else 0)
            && (forall j: nat :: j < |before| ==> after[j] == before[j])
            && (forall j: nat :: |before| <= j < |before| + |outputs| ==>
                after[j] == Entry(FunctionOutput, outputs[j - |before|].callId, weigh(j - |before|)))
            && (forall j: nat :: |before| + |outputs| <= j < |after| ==> after[j].kind.Message?)
  {
  }

  lemma RoundIsWellFormed(items: seq<Entry>, output: seq<Produced>, outputs: seq<Observation>, weigh: nat -> nat,
      content: Option<nat>)
    requires Fresh(items, output) && AnswersCalls(output, outputs)
    ensures WellFormedHistory(items + Round(output, outputs, weigh, content))
  {
    hide Round, OutputEntries, Entries, FunctionCalls, HasAnswer, Fresh, AnswersCalls, Answers;
    var after := items + Round(output, outputs, weigh, content);
    forall i, j | 0 <= i < j < |after| && after[i].IsCall() && after[j].IsCall()
      ensures after[i].callId != after[j].callId
    {
      RoundCallsApart(items, output, outputs, weigh, content, i, j);
    }
    forall i, j | 0 <= i < j < |after| && after[i].IsOutput() && after[j].IsOutput()
      ensures after[i].callId != after[j].callId
    {
      RoundOutputsApart(items, output, outputs, weigh, content, i, j);
    }
    forall i, j | 0 <= i < |after| && 0 <= j < |after| && Answers(after, j, i) ensures i < j {
      RoundCallsFirst(items, output, outputs, weigh, content, i, j);
    }
  }

  lemma RoundCallsApart(items: seq<Entry>, output: seq<Produced>, outputs: seq<Observation>, weigh: nat -> nat,
      content: Option<nat>, i: nat, j: nat)
    requires Fresh(items, output)
    requires var after := items + Round(output, outputs, weigh, content);
             i < j < |after| && after[i].IsCall() && after[j].IsCall()
    ensures var after := items + Round(output, outputs, weigh, content);
            after[i].callId != after[j].callId
  {
    hide Round, OutputEntries, Entries, FunctionCalls, HasAnswer;
    RoundParts(items, output, outputs, weigh, content);
  }

  lemma RoundOutputsApart(items: seq<Entry>, output: seq<Produced>, outputs: seq<Observation>, weigh: nat -> nat,
      content: Option<nat>, i: nat, j: nat)
    requires Fresh(items, output) && AnswersCalls(output, outputs)
    requires var after := items + Round(output, outputs, weigh, content);
             i < j < |after| && after[i].IsOutput() && after[j].IsOutput()
    ensures var after := items + Round(output, outputs, weigh, content);
            after[i].callId != after[j].callId
  {
    hide Round, OutputEntries, Entries, FunctionCalls, HasAnswer;
    RoundParts(items, output, outputs, weigh, content);
    var n := |items + Entries(output)|;
    if i >= n {
      RoundAnswersApart(items, output, i - n, j - n);
    } else if j >= n {
      RoundAnswersNew(items, output, j - n, i);
    }
  }

  lemma RoundCallsFirst(items: seq<Entry>, output: seq<Produced>, outputs: seq<Observation>, weigh: nat -> nat,
      content: Option<nat>, i: nat, j: nat)
    requires Fresh(items, output) && Answers(items + Round(output, outputs, weigh, content), j, i)
    ensures i < j
  {
    hide Round, OutputEntries, Entries, FunctionCalls, HasAnswer;
    var before := items + Entries(output);
    RoundParts(items, output, outputs, weigh, content);
    if j < |before| {
      assert Answers(before, j, i);
    }
  }

  lemma RoundIsAnswered(items: seq<Entry>, output: seq<Produced>, outputs: seq<Observation>, weigh: nat -> nat,
      content: Option<nat>)
    requires AllAnswered(items) && Fresh(items, output) && AnswersCalls(output, outputs)
    ensures AllAnswered(items + Round(output, outputs, weigh, content))
  {
    hide Round, Fresh, AnswersCalls;
    var after := items + Round(output, outputs, weigh, content);
    forall i: nat | i < |after| && after[i].kind.FunctionCall? ensures HasAnswer(after, i) {
      CallIsAnswered(items, output, outputs, weigh, content, i);
    }
    forall j: nat | j < |after| && after[j].kind.FunctionOutput? ensures HasRequest(after, j) {
      OutputIsRequested(items, output, outputs, weigh, content, j);
    }
  }

  lemma CallIsAnswered(items: seq<Entry>, output: seq<Produced>, outputs: seq<Observation>, weigh: nat -> nat,
      content: Option<nat>, i: nat)
    requires AllAnswered(items) && Fresh(items, output) && AnswersCalls(output, outputs)
    requires i < |items + Round(output, outputs, weigh, content)|
    requires (items + Round(output, outputs, weigh, content))[i].kind.FunctionCall?
    ensures HasAnswer(items + Round(output, outputs, weigh, content), i)
  {
    hide Round, Fresh, AnswersCalls, WellFormedHistory;
    var before, after := items + Entries(output), items + Round(output, outputs, weigh, content);
    RoundParts(items, output, outputs, weigh, content);
    if i < |items| {
      assert after[i] == before[i] == items[i];
      assert HasAnswer(items, i);
      var j: nat :| Answers(items, j, i);
      assert Answers(after, j, i) by { assert after[j] == before[j] == items[j]; }
    } else {
      NewCallIsAnswered(items, output, outputs, i - |items|);
      var k: nat :| k < |outputs| && outputs[k].callId == output[i - |items|].call.callId;
      assert Answers(after, |before| + k, i);
    }
  }

  lemma OutputIsRequested(items: seq<Entry>, output: seq<Produced>, outputs: seq<Observation>, weigh: nat -> nat,
      content: Option<nat>, j: nat)
    requires AllAnswered(items) && Fresh(items, output) && AnswersCalls(output, outputs)
    requires j < |items + Round(output, outputs, weigh, content)|
    requires (items + Round(output, outputs, weigh, content))[j].kind.FunctionOutput?
    ensures HasRequest(items + Round(output, outputs, weigh, content), j)
  {
    hide Round, Fresh, WellFormedHistory;
    var before, after := items + Entries(output), items + Round(output, outputs, weigh, content);
    RoundParts(items, output, outputs, weigh, content);
    if j < |items| {
      assert after[j] == before[j] == items[j];
      assert HasRequest(items, j);
      var i: nat :| Answers(items, j, i);
      assert Answers(after, j, i) by { assert after[i] == before[i] == items[i]; }
    } else {
      OnlyNewOutputs(items, output, j, after[j], before);
      var k := j - |before|;
      var at := CallPositions(output);
      assert at[k] in at && before[|items| + at[k]] == EntryOf(output[at[k]]);
      assert Answers(after, j, |items| + at[k]);
    }
  }

  lemma NewCallIsAnswered(items: seq<Entry>, output: seq<Produced>, outputs: seq<Observation>, p: nat)
    requires AnswersCalls(output, outputs) && Fresh(items, output) && p < |output|
    requires EntryOf(output[p]).kind.FunctionCall?
    ensures output[p].Requested? && exists k: nat :: k < |outputs| && outputs[k].callId == output[p].call.callId
  {
    assert output[p] in output;
    var at := CallPositions(output);
    assert p in at;
    var k :| 0 <= k < |at| && at[k] == p;
    assert outputs[k].callId == FunctionCalls(output)[k].callId;
  }

  lemma OnlyNewOutputs(items: seq<Entry>, output: seq<Produced>, j: nat, e: Entry, before: seq<Entry>)
    requires Fresh(items, output) && before == items + Entries(output) && |items| <= j && e.kind.FunctionOutput?
    ensures j < |before| ==> before[j] != e
  {
  }

  /**
   What the model is sent pairs up: a function call is in the request exactly
   when its output is.
   */
  lemma RequestsArePaired(items: seq<Entry>, budget: nat, i: nat)
    requires WellFormedHistory(items) && AllAnswered(items) && i in Scan(items, budget, 0).selected && i < |items|
    ensures items[i].kind.FunctionCall? ==>
              exists j: nat :: Answers(items, j, i) && j in Scan(items, budget, 0).selected
    ensures items[i].kind.FunctionOutput? ==>
              exists c: nat :: Answers(items, i, c) && c in Scan(items, budget, 0).selected
  {
    if items[i].kind.FunctionCall? {
      assert HasAnswer(items, i);
      var j: nat :| Answers(items, j, i);
      SelectionIsClosed(items, budget, j, i);
    }
    if items[i].kind.FunctionOutput? {
      assert HasRequest(items, i);
      var c: nat :| Answers(items, i, c);
      SelectionIsClosed(items, budget, i, c);
    }
  }

  // ----- the loop

  /** The names a step exposes: none once a budget is spent. */
  function StepTools(config: SessionConfiguration, turn: TurnContext, registry: Registry,
      allowed: Option<set<string>>, sandbox: bool): seq<string>
    reads turn`toolRound, turn`toolCallCount
  {
    var toolsAllowed := turn.toolRound < config.maxToolRounds && turn.toolCallCount < config.maxToolCalls
                        && (allowed.None? || allowed.value != {});
    Exposed(registry, if toolsAllowed then allowed else Some({}), sandbox)
  }

  /** A step exposes exactly the allowed tools while both budgets last, and none afterwards. */
  lemma StepToolsNeedBudget(config: SessionConfiguration, turn: TurnContext, registry: Registry,
      allowed: Option<set<string>>, sandbox: bool)
    ensures forall name :: name in StepTools(config, turn, registry, allowed, sandbox) <==>
      (turn.toolRound < config.maxToolRounds && turn.toolCallCount < config.maxToolCalls
       && name in registry.order && Allowed(registry, allowed, sandbox, name))
    ensures StepTools(config, turn, registry, allowed, sandbox) != [] ==>
      turn.toolRound < config.maxToolRounds && turn.toolCallCount < config.maxToolCalls
  {
    EmptyAllowListExposesNothing(registry, registry.order, sandbox);
  }

  /** The budgets of a turn, and its log of executions. */
  ghost predicate WithinBudgets(turn: TurnContext, config: SessionConfiguration)
    reads turn`toolRound, turn`toolCallCount, turn`launches, turn`executedToolSignatures
  {
    && turn.toolRound <= config.maxToolRounds && turn.toolCallCount <= config.maxToolCalls
    && NoRepeats(turn.launches, turn.executedToolSignatures) && turn.toolCallCount == Charged(turn.launches)
  }

  ghost predicate Paired(items: seq<Entry>) {
    WellFormedHistory(items) && AllAnswered(items)
  }

  lemma RoundIsPaired(before: seq<Entry>, output: seq<Produced>, outputs: seq<Observation>, weigh: nat -> nat,
      content: Option<nat>)
    requires Paired(before) && Fresh(before, output) && AnswersCalls(output, outputs)
    ensures Paired(before + Round(output, outputs, weigh, content))
  {
    hide WellFormedHistory, AllAnswered, Fresh, Round;
    RoundIsWellFormed(before, output, outputs, weigh, content);
    RoundIsAnswered(before, output, outputs, weigh, content);
  }

  /** The provider kept its part in every response that led to another request. */
  ghost predicate AllFresh(sent: seq<seq<Entry>>, world: World) {
    forall k: nat {:trigger sent[k]} :: k + 1 < |sent| && AsksForTools(world.sample(k + 1)) ==>
      Fresh(sent[k], world.sample(k + 1).value.output)
  }

  /** Every request of a turn is built from a history in which calls and outputs pair up. */
  lemma {:induction false} EveryRequestIsPaired(sent: seq<seq<Entry>>, world: World, k: nat)
    requires Chained(sent, world) && AllFresh(sent, world) && k < |sent|
    ensures Paired(sent[k])
    decreases k
  {
    hide Paired, Fresh, RoundAdded, AnswersCalls, Round;
    if k == 0 {
      NothingPaired();
    } else {
      EveryRequestIsPaired(sent, world, k - 1);
      assert sent[k - 1] == sent[k - 1];
      assert Linked(sent, k - 1, world);
      RoundAddedIsPaired(sent[k - 1], sent[k], world.sample(k).value.output, world, k - 1);
    }
  }

  lemma RoundAddedIsPaired(before: seq<Entry>, after: seq<Entry>, output: seq<Produced>, world: World, round: nat)
    requires Paired(before) && Fresh(before, output) && RoundAdded(before, after, output, world, round)
    ensures Paired(after)
  {
    hide Paired, Fresh, AnswersCalls, Round;
    var outputs :| AnswersCalls(output, outputs)
        && after == before + Round(output, outputs, world.weigh(round), world.content(round));
    RoundIsPaired(before, output, outputs, world.weigh(round), world.content(round));
  }

  lemma NothingPaired()
    ensures Paired([])
  {
  }

  /** The dynamic part of a conversation. */
  ghost function Dynamic(conversation: ConversationState): seq<Entry>
    requires conversation.Valid()
    reads conversation
  {
    conversation.items[conversation.initialItemCount..]
  }

  lemma BatchAccounts(calls: seq<Call>, surface: Surface, before: set<string>, log: seq<Launch>,
      handle: nat -> string)
    requires NoRepeats(log, before) && surface.remaining >= 0
    ensures var s := Screen(calls, |calls|, surface, before);
            var charged := Executed(ObservedUpTo(calls, |calls|, surface, before, handle));
            && Screening(calls, |calls|, surface, before, s)
            && charged <= surface.remaining
            && NoRepeats(log + Launches(calls, s.launched, handle), s.signatures)
            && Charged(log + Launches(calls, s.launched, handle)) == Charged(log) + charged
  {
    hide Screen, Executed, ObservedUpTo, NoRepeats, Charged;
    ScreenIsScreening(calls, |calls|, surface, before);
    BatchKeepsLog(calls, surface, before, log, handle);
    ChargedIsCounted(calls, |calls|, surface, before, handle);
    var launched := Screen(calls, |calls|, surface, before).launched;
    ChargedLaunches(calls, launched, handle);
    ChargedAppend(log, Launches(calls, launched, handle));
  }

  /** Execute the calls of a response and charge them. */
  method RunCalls(config: SessionConfiguration, turn: TurnContext, calls: seq<Call>, names: seq<string>,
      registry: Registry, handle: nat -> string)
    returns (batch: Batch)
    requires WithinBudgets(turn, config)
    modifies turn`toolCallCount, turn`executedToolSignatures, turn`launches
    ensures WithinBudgets(turn, config)
    ensures |batch.outputs| == |calls| && forall k :: 0 <= k < |calls| ==> batch.outputs[k].callId == calls[k].callId
  {
    hide NoRepeats, Charged, Screen, Screening, Executed;
    var surface := Surface(names, registry, config.maxToolCalls - turn.toolCallCount);
    BatchAccounts(calls, surface, turn.executedToolSignatures, turn.launches, handle);
    batch := Execute(calls, turn, surface, handle);
    turn.toolCallCount := turn.toolCallCount + batch.executedCallCount;
  }

  /** Record what a batch observed, and the native content it returned. */
  method RecordBatch(conversation: ConversationState, outputs: seq<Observation>, weigh: nat -> nat,
      content: Option<nat>,
                     output: seq<Produced>, ghost before: seq<Entry>)
    requires conversation.Valid() && Dynamic(conversation) == before + Entries(output) && AnswersCalls(output, outputs)
    modifies conversation`items
    ensures conversation.Valid()
    ensures conversation.items[..conversation.initialItemCount]
            == old(conversation.items[..conversation.initialItemCount])
    ensures Dynamic(conversation) == before + Round(output, outputs, weigh, content)
  {
    hide Entries, OutputEntries, AnswersCalls;
    ghost var n, noted := conversation.initialItemCount, OutputEntries(outputs, weigh);
    ghost var message := if content.Some? then [Entry(Message, "", content.value)] else [];
    Suffixes(conversation.items, n, noted);
    conversation.Record(OutputEntries(outputs, weigh));
    Suffixes(conversation.items, n, message);
    if content.Some? {
      conversation.Record([Entry(Message, "", content.value)]);
    }
    Grouped(before, Entries(output), noted, message);
  }

  lemma Suffixes<T>(s: seq<T>, n: nat, more: seq<T>)
    requires n <= |s|
    ensures (s + more)[n..] == s[n..] + more && (s + more)[..n] == s[..n] && s + [] == s
  {
  }

  lemma Grouped<T>(a: seq<T>, b: seq<T>, c: seq<T>, d: seq<T>)
    ensures a + b + c + d == a + (b + c + d)
  {
  }

  /** The tool round of `run_turn`: execute the calls, charge them, record what was observed. */
  method RunTools(config: SessionConfiguration, turn: TurnContext, conversation: ConversationState,
      output: seq<Produced>,
                  names: seq<string>, registry: Registry, world: World, ghost before: seq<Entry>)
    requires conversation.Valid() && WithinBudgets(turn, config)
    requires turn.toolRound < config.maxToolRounds
    requires Dynamic(conversation) == before + Entries(output)
    modifies turn`toolRound, turn`toolCallCount, turn`executedToolSignatures, turn`launches, conversation`items
    ensures conversation.Valid() && WithinBudgets(turn, config) && turn.toolRound == old(turn.toolRound) + 1
    ensures conversation.items[..conversation.initialItemCount]
            == old(conversation.items[..conversation.initialItemCount])
    ensures RoundAdded(before, Dynamic(conversation), output, world, old(turn.toolRound))
  {
    hide NoRepeats, Charged, Round;
    var calls, round := FunctionCalls(output), turn.toolRound;
    turn.toolRound := turn.toolRound + 1;
    var batch := RunCalls(config, turn, calls, names, registry, world.report(round));
    RecordBatch(conversation, batch.outputs, world.weigh(round), world.content(round), output, before);
  }

  /** One sampling request of `run_turn`: a completed response is recorded. */
  method SampleStep(turn: TurnContext, conversation: ConversationState, world: World)
    returns (response: Option<Response>)
    requires conversation.Valid()
    modifies turn`modelIteration, conversation`items
    ensures turn.modelIteration == old(turn.modelIteration) + 1 && response == world.sample(turn.modelIteration)
    ensures conversation.Valid() && conversation.items == old(conversation.items) + Remains(response)
    ensures Dynamic(conversation) == old(Dynamic(conversation)) + Remains(response)
  {
    hide Entries;
    turn.modelIteration := turn.modelIteration + 1;
    response := world.sample(turn.modelIteration);
    ghost var n := conversation.initialItemCount;
    Suffixes(conversation.items, n, Remains(response));
    if response.Some? && response.value.completed {
      conversation.Record(Entries(response.value.output));
    } else {
      Suffixes(conversation.items[n..], 0, []);
    }
  }

  /** The tool round after a response that asks for tools, with the router rebuilt from the exposed names. */
  method ToolStep(config: SessionConfiguration, turn: TurnContext, conversation: ConversationState,
      output: seq<Produced>,
                  names: seq<string>, registry: Registry, sandbox: bool, world: World, ghost before: seq<Entry>)
    requires conversation.Valid() && WithinBudgets(turn, config) && turn.toolRound < config.maxToolRounds
    requires Dynamic(conversation) == before + Entries(output)
    modifies turn`toolRound, turn`toolCallCount, turn`executedToolSignatures, turn`launches, conversation`items
    ensures conversation.Valid() && WithinBudgets(turn, config) && turn.toolRound == old(turn.toolRound) + 1
    ensures conversation.items[..conversation.initialItemCount]
            == old(conversation.items[..conversation.initialItemCount])
    ensures RoundAdded(before, Dynamic(conversation), output, world, old(turn.toolRound))
  {
    hide RoundAdded, WithinBudgets, Entries;
    var exposed := Exposed(registry, Some(set name | name in names), sandbox);
    RunTools(config, turn, conversation, output, exposed, registry, world, before);
  }

  /** The conversation before request `n`, which the last response led to. */
  ghost predicate ReadyToSample(sent: seq<seq<Entry>>, items: seq<Entry>, world: World) {
    && Chained(sent, world)
    && if sent == [] then items == []
       else AsksForTools(world.sample(|sent|))
            && RoundAdded(sent[|sent| - 1], items, world.sample(|sent|).value.output, world, |sent| - 1)
  }

  /**
   `run_turn`.  Under a valid configuration the sampling-request limit is never
   the reason a turn ends, and no budget is exceeded.
   */
  method RunTurn(config: SessionConfiguration, registry: Registry, allowed: Option<set<string>>, sandbox: bool,
                 turn: TurnContext, conversation: ConversationState, world: World)
    returns (outcome: Outcome, ghost sent: seq<seq<Entry>>)
    requires config.Valid() && conversation.Valid() && conversation.initialItemCount == |conversation.items|
    requires turn.modelIteration == turn.toolRound == turn.toolCallCount == 0
    requires turn.launches == [] && turn.executedToolSignatures == {}
    modifies turn, conversation`items
    ensures conversation.Valid() && old(conversation.items) <= conversation.items
    ensures outcome != SamplingLimit && WithinBudgets(turn, config)
    ensures turn.modelIteration == |sent| == turn.toolRound + 1 <= config.maxModelTurns
    ensures outcome == Ending(world.sample(turn.modelIteration))
    ensures outcome.ToolAfterLimit? ==> StepTools(config, turn, registry, allowed, sandbox) == []
    ensures Chained(sent, world)
    ensures conversation.items == old(conversation.items) + sent[|sent| - 1]
            + Remains(world.sample(turn.modelIteration))
  {
    hide StepTools, Chained, WithinBudgets, Dynamic, FunctionCalls, ReadyToSample, RoundAdded, Entries;
    sent := [];
    NothingLogged(turn, config);
    NothingSent(conversation, world);
    ghost var items := conversation.items;
    while true
      invariant conversation.Valid() && conversation.initialItemCount == |items|
      invariant conversation.items == items + Dynamic(conversation)
      invariant turn.modelIteration == turn.toolRound == |sent| && turn.toolRound <= config.maxToolRounds
      invariant WithinBudgets(turn, config)
      invariant ReadyToSample(sent, Dynamic(conversation), world)
      decreases config.maxToolRounds - turn.toolRound
    {
      if turn.modelIteration >= config.maxModelTurns {
        return SamplingLimit, sent;
      }
      var names := StepTools(config, turn, registry, allowed, sandbox);
      StepToolsNeedBudget(config, turn, registry, allowed, sandbox);
      ghost var before := Dynamic(conversation);
      ReadyIsChained(sent, before, world);
      sent := sent + [before];
      var response := SampleStep(turn, conversation, world);
      assert conversation.items == items + before + Remains(response);
      if response.None? || !response.value.completed || FunctionCalls(response.value.output) == [] || names == [] {
        return Ending(response), sent;
      }
      var output := response.value.output;
      ToolStep(config, turn, conversation, output, names, registry, sandbox, world, before);
      NextIsReady(sent, conversation, items, response, world);
    }
  }

  lemma NothingSent(conversation: ConversationState, world: World)
    requires conversation.Valid() && conversation.initialItemCount == |conversation.items|
    ensures Dynamic(conversation) == [] && conversation.items == conversation.items + Dynamic(conversation)
    ensures ReadyToSample([], Dynamic(conversation), world)
  {
  }

  lemma NothingLogged(turn: TurnContext, config: SessionConfiguration)
    requires config.Valid() && turn.toolRound == turn.toolCallCount == 0
    requires turn.launches == [] && turn.executedToolSignatures == {}
    ensures WithinBudgets(turn, config)
  {
  }

  lemma ReadyIsChained(sent: seq<seq<Entry>>, items: seq<Entry>, world: World)
    requires ReadyToSample(sent, items, world)
    ensures Chained(sent + [items], world)
  {
    hide RoundAdded, Chained;
    ChainedMore(sent, items, world);
  }

  lemma NextIsReady(sent: seq<seq<Entry>>, conversation: ConversationState, items: seq<Entry>,
      response: Option<Response>, world: World)
    requires sent != [] && Chained(sent, world) && response == world.sample(|sent|) && AsksForTools(response)
    requires conversation.Valid() && conversation.initialItemCount == |items| && conversation.items[..|items|] == items
    requires RoundAdded(sent[|sent| - 1], Dynamic(conversation), response.value.output, world, |sent| - 1)
    ensures ReadyToSample(sent, Dynamic(conversation), world)
    ensures conversation.items == items + Dynamic(conversation)
  {
    hide RoundAdded, Chained, AsksForTools;
  }

  /**
   Without handlers that report an unexecuted outcome, a turn launches at most
   `max_tool_calls` calls: exactly then every launch is charged.
   */
  lemma LaunchesWithinBudget(turn: TurnContext, config: SessionConfiguration)
    requires WithinBudgets(turn, config)
    ensures turn.toolCallCount == |turn.launches| <==>
              forall launch <- turn.launches :: launch.outcome !in UNEXECUTED_OUTCOMES
    ensures (forall launch <- turn.launches :: launch.outcome !in UNEXECUTED_OUTCOMES) ==>
              |turn.launches| <= config.maxToolCalls
  {
    hide NoRepeats;
  }
}
