/**
 Progress forwarding while tools run (`_execute_tools` of `agent/turn.py`): the
 tools report into a queue, a getter task takes one update at a time, and the
 consumer yields.  Every interleaving of the three is a run of this machine.
 */
module ToolProgress {
  import opened Prelude

  type Update = string

  datatype Output = Activity(update: Update) | Completed

  /** The getter task: absent between a yield and its replacement, waiting, or done with a result. */
  datatype Getter = Absent | Waiting | Holding(update: Update) | Cancelled

  /** Where the consumer stands in the source. */
  datatype Phase = AtLoopHead | InWait | AfterYield | AtExit | Draining | Finished

  datatype State = State(
    reported: seq<Update>, queue: seq<Update>, executed: bool,
    getter: Getter, phase: Phase, yielded: seq<Output>)

  const START := State([], [], false, Waiting, AtLoopHead, [])

  datatype Action =
    | Report(update: Update)  // a tool reports; only while the execution runs
    | Finish                  // the execution task is done
    | Get                     // the getter task takes the head of the queue
    | Enter                   // the loop condition is evaluated
    | Wake                    // `asyncio.wait` returns, and a held update is yielded
    | Resume                  // the consumer continues after the yield, with a new getter
    | Leave                   // after the loop: yield what the getter holds, or cancel it
    | Drain                   // yield one update that is still queued
    | Deliver                 // yield the batch

  function Held(s: State): seq<Update> { if s.getter.Holding? then [s.getter.update] else [] }

  /** The state after an action, or none when the action is not possible. */
  function Do(s: State, a: Action): Option<State> {
    match a
    case Report(u) => if s.executed then None else Some(s.(reported := s.reported + [u], queue := s.queue + [u]))
    case Finish => if s.executed then None else Some(s.(executed := true))
    case Get =>
      if s.getter.Waiting? && s.queue != [] then Some(s.(getter := Holding(s.queue[0]), queue := s.queue[1..]))
      else None
    case Enter => if s.phase.AtLoopHead? then Some(s.(phase := if s.executed then AtExit else InWait)) else None
    case Wake =>
      if !s.phase.InWait? then None
      else if s.getter.Holding? then
        Some(s.(yielded := s.yielded + [Activity(s.getter.update)], getter := Absent, phase := AfterYield))
      else if s.executed then Some(s.(phase := AtLoopHead))
      else None
    case Resume => if s.phase.AfterYield? then Some(s.(getter := Waiting, phase := AtLoopHead)) else None
    case Leave =>
      if !s.phase.AtExit? then None
      else if s.getter.Holding? then
        Some(s.(yielded := s.yielded + [Activity(s.getter.update)], getter := Absent, phase := Draining))
      else Some(s.(getter := Cancelled, phase := Draining))
    case Drain =>
      if s.phase.Draining? && s.queue != [] then
        Some(s.(yielded := s.yielded + [Activity(s.queue[0])], queue := s.queue[1..]))
      else None
    case Deliver =>
      if s.phase.Draining? && s.queue == [] then Some(s.(yielded := s.yielded + [Completed], phase := Finished))
      else None
  }

  /** A run, when every action in it is possible. */
  function Run(s: State, actions: seq<Action>): Option<State>
    decreases actions
  {
    if actions == [] then Some(s)
    else
      var next := Do(s, actions[0]);
      if next.None? then None else Run(next.value, actions[1..])
  }

  function Activities(updates: seq<Update>): (r: seq<Output>)
    ensures |r| == |updates| && forall k :: 0 <= k < |r| ==> r[k] == Activity(updates[k])
  {
    seq(|updates|, k requires 0 <= k < |updates| => Activity(updates[k]))
  }

  /** Nothing is lost, repeated or reordered: what was reported is what was
      yielded, then what the getter holds, then what is queued. */
  ghost predicate Conserved(s: State, shown: seq<Update>) {
    && s.reported == shown + Held(s) + s.queue
    && s.yielded == Activities(shown) + (if s.phase.Finished? then [Completed] else [])
  }

  ghost predicate Consistent(s: State) {
    && (s.phase.AtExit? || s.phase.Draining? || s.phase.Finished? ==> s.executed)
    && (s.phase.Draining? || s.phase.Finished? ==> s.getter.Absent? || s.getter.Cancelled?)
    && (s.phase.AtLoopHead? || s.phase.InWait? || s.phase.AtExit? ==> s.getter.Waiting? || s.getter.Holding?)
    && (s.phase.AfterYield? ==> s.getter.Absent?)
    && (s.phase.Finished? ==> s.queue == [])
  }

  /** What an action adds to the updates shown. */
  function NowShown(s: State, a: Action): seq<Update> {
    match a
    case Wake => Held(s)
    case Leave => Held(s)
    case Drain => if s.queue != [] then [s.queue[0]] else []
    case _ => []
  }

  lemma StepConserves(s: State, a: Action, shown: seq<Update>)
    requires Consistent(s) && Conserved(s, shown) && Do(s, a).Some?
    ensures Consistent(Do(s, a).value) && Conserved(Do(s, a).value, shown + NowShown(s, a))
  {
    var t := Do(s, a).value;
    assert t.reported == shown + NowShown(s, a) + Held(t) + t.queue;
  }

  /** In every reachable state, nothing is lost, repeated or reordered. */
  lemma {:induction false} RunConserves(s: State, actions: seq<Action>, shown: seq<Update>) returns (final: seq<Update>)
    requires Consistent(s) && Conserved(s, shown) && Run(s, actions).Some?
    ensures Consistent(Run(s, actions).value) && Conserved(Run(s, actions).value, final)
    decreases actions
  {
    hide Do, Consistent, Conserved, NowShown;
    if actions == [] {
      final := shown;
    } else {
      StepConserves(s, actions[0], shown);
      final := RunConserves(Do(s, actions[0]).value, actions[1..], shown + NowShown(s, actions[0]));
    }
  }

  /** The updates that the tools report in a run, in order. */
  function Reports(actions: seq<Action>): seq<Update> {
    if actions == [] then []
    else (if actions[0].Report? then [actions[0].update] else []) + Reports(actions[1..])
  }

  lemma StepReports(s: State, a: Action)
    requires Do(s, a).Some?
    ensures Do(s, a).value.reported == s.reported + if a.Report? then [a.update] else []
  {
  }

  /** What counts as reported is what the tools reported. */
  lemma {:induction false} RunReports(s: State, actions: seq<Action>)
    requires Run(s, actions).Some?
    ensures Run(s, actions).value.reported == s.reported + Reports(actions)
    decreases actions
  {
    hide Do;
    if actions != [] {
      var head := if actions[0].Report? then [actions[0].update] else [];
      StepReports(s, actions[0]);
      RunReports(Do(s, actions[0]).value, actions[1..]);
      assert s.reported + head + Reports(actions[1..]) == s.reported + (head + Reports(actions[1..]));
    }
  }

  /**
   Exactly-once delivery: when the batch is delivered, every update that a tool
   reported was yielded before it, once and in order.
   */
  lemma DeliveredExactlyOnce(actions: seq<Action>)
    requires Run(START, actions).Some? && Run(START, actions).value.phase.Finished?
    ensures var s := Run(START, actions).value;
            && s.executed && s.yielded == Activities(s.reported) + [Completed]
            && s.reported == Reports(actions)
  {
    hide Run, Do;
    RunReports(START, actions);
    assert [] + Reports(actions) == Reports(actions);
    assert Conserved(START, []);
    var shown := RunConserves(START, actions, []);
    var s := Run(START, actions).value;
    assert shown + Held(s) + s.queue == shown;
  }

  /** At any moment, what the client saw is a prefix of what was reported. */
  lemma ShownIsAPrefix(actions: seq<Action>)
    requires Run(START, actions).Some? && !Run(START, actions).value.phase.Finished?
    ensures var s := Run(START, actions).value;
            && |s.yielded| <= |s.reported| && s.reported == Reports(actions)
            && s.yielded == Activities(s.reported[..|s.yielded|])
  {
    hide Run, Do;
    RunReports(START, actions);
    assert [] + Reports(actions) == Reports(actions);
    assert Conserved(START, []);
    var shown := RunConserves(START, actions, []);
    var s := Run(START, actions).value;
    assert s.reported[..|shown|] == shown;
    assert s.yielded == Activities(shown);
  }

  /** Once the execution is done, how much work is left: no run can go on for ever. */
  function Left(s: State): nat {
    2 * |s.queue| + 2 * |Held(s)| +
    (match s.phase case AtLoopHead => 5 case InWait => 6 case AfterYield => 6 case AtExit => 2
                   case Draining => 1 case Finished => 0)
  }

  /** The consumer never gets stuck, and once the tools are done it only has finitely much left to do. */
  lemma ConsumerNeverStuck(s: State)
    requires Consistent(s) && s.executed && !s.phase.Finished?
    ensures exists a :: a in {Enter, Wake, Resume, Leave, Drain, Deliver} && Do(s, a).Some?
  {
    match s.phase
    case AtLoopHead => assert Do(s, Enter).Some?;
    case InWait => assert Do(s, Wake).Some?;
    case AfterYield => assert Do(s, Resume).Some?;
    case AtExit => assert Do(s, Leave).Some?;
    case Draining => assert if s.queue == [] then Do(s, Deliver).Some? else Do(s, Drain).Some?;
  }

  lemma WorkRunsOut(s: State, a: Action)
    requires Consistent(s) && s.executed && Do(s, a).Some?
    ensures a.Get? ==> Left(Do(s, a).value) == Left(s) && |Do(s, a).value.queue| < |s.queue|
    ensures !a.Get? ==> Left(Do(s, a).value) < Left(s)
  {
  }
}
