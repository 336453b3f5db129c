/**
 One batch of tool calls: which of them run, and what is observed for each
 (`agent/tools/core/router.py` and `agent/tools/core/orchestrator.py`).
 */
module ToolOrchestration {
  import opened Prelude

  /** A requested call; its arguments are in the canonical form of `_tool_signature`, when they decode. */
  datatype Call = Call(callId: string, name: string, arguments: Option<string>, size: nat)

  datatype Tool = Tool(direct: bool, requiresSandbox: bool)

  /** Tools in registration order, and the (name, arguments) pairs their schemas accept. */
  datatype Registry = Registry(order: seq<string>, tools: map<string, Tool>, accepted: set<(string, string)>)

  /** A per-step allow-list; no list at all allows every tool. */
  predicate Allowed(registry: Registry, allowed: Option<set<string>>, sandbox: bool, name: string) {
    && name in registry.tools && (allowed.Some? ==> name in allowed.value)
    && registry.tools[name].direct && (sandbox || !registry.tools[name].requiresSandbox)
  }

  /** The names a `ToolRouter` exposes. */
  function Exposed(registry: Registry, allowed: Option<set<string>>, sandbox: bool): (names: seq<string>)
    ensures forall name :: name in names <==> name in registry.order && Allowed(registry, allowed, sandbox, name)
  {
    ExposedAmong(registry, registry.order, allowed, sandbox)
  }

  function ExposedAmong(registry: Registry, order: seq<string>, allowed: Option<set<string>>,
      sandbox: bool): (names: seq<string>)
    ensures forall name :: name in names <==> name in order && Allowed(registry, allowed, sandbox, name)
  {
    if order == [] then []
    else
      (if Allowed(registry, allowed, sandbox, order[0]) then [order[0]] else [])
      + ExposedAmong(registry, order[1..], allowed, sandbox)
  }

  /** The exposed tools: registered, on the allow-list if there is one, direct, and not in want of a sandbox. */
  lemma ExposedMeans(registry: Registry, allowed: Option<set<string>>, sandbox: bool, name: string)
    ensures name in Exposed(registry, allowed, sandbox) <==>
              && name in registry.order && name in registry.tools
              && (allowed == None || name in allowed.value)
              && registry.tools[name].direct && (registry.tools[name].requiresSandbox ==> sandbox)
  {
  }

  /** They keep the order of registration. */
  lemma {:induction false} ExposedInOrder(registry: Registry, order: seq<string>, allowed: Option<set<string>>,
      sandbox: bool) returns (at: seq<nat>)
    ensures var names := ExposedAmong(registry, order, allowed, sandbox);
            && |at| == |names| && Increasing(at)
            && forall k :: 0 <= k < |at| ==> at[k] < |order| && order[at[k]] == names[k]
  {
    if order == [] {
      at := [];
    } else {
      var rest := ExposedInOrder(registry, order[1..], allowed, sandbox);
      at := OneLater(order, ExposedAmong(registry, order[1..], allowed, sandbox), rest,
                     Allowed(registry, allowed, sandbox, order[0]));
    }
  }

  lemma OneLater(order: seq<string>, names: seq<string>, rest: seq<nat>, first: bool) returns (at: seq<nat>)
    requires order != [] && |rest| == |names| && Increasing(rest)
    requires forall k :: 0 <= k < |rest| ==> rest[k] < |order[1..]| && order[1..][rest[k]] == names[k]
    ensures var more := (if first then [order[0]] else []) + names;
            && |at| == |more| && Increasing(at)
            && forall k :: 0 <= k < |at| ==> at[k] < |order| && order[at[k]] == more[k]
  {
    var later := seq(|rest|, k requires 0 <= k < |rest| => rest[k] + 1);
    forall k | 0 <= k < |later| ensures 0 < later[k] < |order| && order[later[k]] == names[k] {
      assert order[1..][rest[k]] == order[rest[k] + 1];
    }
    assert Increasing(later);
    if first {
      at := [0] + later;
      PutsFirst(order, names, later);
    } else {
      at := later;
      assert [] + names == names;
    }
  }

  lemma PutsFirst(order: seq<string>, names: seq<string>, later: seq<nat>)
    requires order != [] && |later| == |names| && Increasing(later)
    requires forall k :: 0 <= k < |later| ==> 0 < later[k] < |order| && order[later[k]] == names[k]
    ensures var at, more := [0] + later, [order[0]] + names;
            && |at| == |more| && Increasing(at)
            && forall k :: 0 <= k < |at| ==> at[k] < |order| && order[at[k]] == more[k]
  {
    var at, more := [0] + later, [order[0]] + names;
    assert at[0] == 0 && more[0] == order[0];
    assert forall k :: 0 < k < |at| ==> at[k] == later[k - 1] && more[k] == names[k - 1];
  }

  /** An empty allow-list exposes no tool. */
  lemma {:induction false} EmptyAllowListExposesNothing(registry: Registry, order: seq<string>, sandbox: bool)
    ensures ExposedAmong(registry, order, Some({}), sandbox) == []
  {
    if order != [] { EmptyAllowListExposesNothing(registry, order[1..], sandbox); }
  }

  /** The outcomes that do not count against the tool-call budget. */
  const UNEXECUTED_OUTCOMES := {"duplicate_call", "invalid_arguments", "tool_call_limit", "tool_not_exposed",
                                "unknown_tool"}

  datatype Observation = Observation(callId: string, outcome: string)

  datatype Batch = Batch(outputs: seq<Observation>, executedCallCount: nat)

  /** The text that the turn remembers a request by; `arguments` is in canonical form. */
  function SignatureOf(name: string, arguments: string): string { name + ":" + arguments }

  function Signature(call: Call): string {
    SignatureOf(call.name, if call.arguments.Some? then call.arguments.value else "")
  }

  /** Requests of tools without a colon in their names have the same signature exactly when they
      are the same request. */
  lemma SignatureIsExact(name: string, arguments: string, other: string, others: string)
    requires ':' !in name && ':' !in other
    ensures SignatureOf(name, arguments) == SignatureOf(other, others) <==> name == other && arguments == others
  {
    if SignatureOf(name, arguments) == SignatureOf(other, others) {
      FirstSeparatorSplits(':', name, other, arguments, others);
    }
  }

  /** No canonical text of arguments is a proper end of another, as no JSON object is. */
  ghost predicate NoEndsOf(texts: set<string>) {
    forall a, b :: a in texts && b in texts && |b| <= |a| && a[|a| - |b|..] == b ==> a == b
  }

  /** Whatever the tools are called, the signature tells requests with such arguments apart. */
  lemma SignatureIsExactAnyName(name: string, arguments: string, other: string, others: string, texts: set<string>)
    requires NoEndsOf(texts) && arguments in texts && others in texts
    ensures SignatureOf(name, arguments) == SignatureOf(other, others) <==> name == other && arguments == others
  {
    var s, t := SignatureOf(name, arguments), SignatureOf(other, others);
    if s == t {
      ShorterIsAnEnd(name, arguments, other, others);
      ShorterIsAnEnd(other, others, name, arguments);
      assert s[..|name|] == name && t[..|other|] == other;
    }
  }

  lemma ShorterIsAnEnd(name: string, arguments: string, other: string, others: string)
    requires SignatureOf(name, arguments) == SignatureOf(other, others)
    ensures |others| <= |arguments| ==> arguments[|arguments| - |others|..] == others
  {
    var s, t := SignatureOf(name, arguments), SignatureOf(other, others);
    assert s[|s| - |arguments|..] == arguments && t[|t| - |others|..] == others;
    if |others| <= |arguments| {
      assert s[|s| - |arguments|..][|arguments| - |others|..] == s[|s| - |others|..];
    }
  }

  /** Why a call is refused, in the order the checks are made. */
  function Refusal(call: Call, names: seq<string>, registry: Registry, signatures: set<string>, pending: nat,
      remaining: int): Option<string> {
    if call.arguments.None? then Some("invalid_arguments")
    else if call.name !in names then Some("tool_not_exposed")
    else if call.name !in registry.tools then Some("unknown_tool")
    else if (call.name, call.arguments.value) !in registry.accepted then Some("invalid_arguments")
    else if Signature(call) in signatures then Some("duplicate_call")
    else if pending >= remaining then Some("tool_call_limit")
    else None
  }

  /** The batch as far as it was screened: every signature of the turn, and the positions to run. */
  datatype Screened = Screened(signatures: set<string>, launched: seq<nat>)

  datatype Surface = Surface(names: seq<string>, registry: Registry, remaining: int)

  function RefusalAt(calls: seq<Call>, k: nat, surface: Surface, before: set<string>): Option<string>
    requires k < |calls|
  {
    var s := Screen(calls, k, surface, before);
    Refusal(calls[k], surface.names, surface.registry, s.signatures, |s.launched|, surface.remaining)
  }

  /** The first `n` calls of a batch, screened one after the other. */
  function Screen(calls: seq<Call>, n: nat, surface: Surface, before: set<string>): Screened
    requires n <= |calls|
    decreases n, 0
  {
    if n == 0 then Screened(before, [])
    else
      var s := Screen(calls, n - 1, surface, before);
      if Refusal(calls[n - 1], surface.names, surface.registry, s.signatures, |s.launched|, surface.remaining).Some?
      then s
      else Screened(s.signatures + {Signature(calls[n - 1])}, s.launched + [n - 1])
  }

  /** What is observed for call `k`: its refusal, or what its handler reported. */
  function Observed(calls: seq<Call>, k: nat, surface: Surface, before: set<string>, handle: nat -> string): Observation
    requires k < |calls|
  {
    var refusal := RefusalAt(calls, k, surface, before);
    Observation(calls[k].callId, if refusal.Some? then refusal.value else handle(k))
  }

  function Executed(outputs: seq<Observation>): nat {
    if outputs == [] then 0
    else Executed(outputs[..|outputs| - 1]) + if outputs[|outputs| - 1].outcome in UNEXECUTED_OUTCOMES then 0 else 1
  }

  /** An execution: what was requested, and the outcome its handler reported. */
  datatype Launch = Launch(name: string, arguments: string, outcome: string)

  function LaunchSignature(launch: Launch): string { SignatureOf(launch.name, launch.arguments) }

  class TurnContext {
    var modelIteration: nat
    var toolRound: nat
    var toolCallCount: nat
    var executedToolSignatures: set<string>
    /** Every execution started in this turn. */
    ghost var launches: seq<Launch>

    constructor ()
      ensures modelIteration == toolRound == toolCallCount == 0 && executedToolSignatures == {} && launches == []
    {
      modelIteration, toolRound, toolCallCount, executedToolSignatures := 0, 0, 0, {};
      launches := [];
    }
  }

  ghost predicate InBatch(calls: seq<Call>, launched: seq<nat>) {
    forall j :: 0 <= j < |launched| ==> launched[j] < |calls|
  }

  /** What a batch adds to the execution log. */
  ghost function Launches(calls: seq<Call>, launched: seq<nat>, handle: nat -> string): (r: seq<Launch>)
    requires InBatch(calls, launched)
    ensures |r| == |launched|
    ensures forall j :: 0 <= j < |r| ==> LaunchSignature(r[j]) == Signature(calls[launched[j]])
    ensures forall j :: 0 <= j < |r| ==> r[j].name == calls[launched[j]].name && r[j].outcome == handle(launched[j])
    ensures forall j :: 0 <= j < |r| ==>
              calls[launched[j]].arguments.Some? ==> r[j].arguments == calls[launched[j]].arguments.value
  {
    seq(|launched|, j requires 0 <= j < |launched| => LaunchOf(calls[launched[j]], handle(launched[j])))
  }

  ghost function LaunchOf(call: Call, outcome: string): Launch {
    Launch(call.name, if call.arguments.Some? then call.arguments.value else "", outcome)
  }

  /** The calls that run: exposed, accepted by their schema, new in this turn, and within the budget. */
  ghost predicate Runs(calls: seq<Call>, k: nat, surface: Surface) {
    k < |calls| && Acceptable(calls[k], surface.names, surface.registry)
  }

  ghost predicate LaunchedHas(calls: seq<Call>, launched: seq<nat>, x: string) {
    exists j :: 0 <= j < |launched| && launched[j] < |calls| && Signature(calls[launched[j]]) == x
  }

  /** The launched signatures are new and distinct, and there are at most `remaining` of them. */
  ghost predicate Screening(calls: seq<Call>, n: nat, surface: Surface, before: set<string>, s: Screened) {
    && Increasing(s.launched)
    && (forall j :: 0 <= j < |s.launched| ==>
          s.launched[j] < n && Runs(calls, s.launched[j], surface) && Signature(calls[s.launched[j]]) !in before)
    && (forall i, j :: 0 <= i < j < |s.launched| ==> Signature(calls[s.launched[i]]) != Signature(calls[s.launched[j]]))
    && (forall x :: x in s.signatures <==> x in before || LaunchedHas(calls, s.launched, x))
    && |s.launched| <= (if surface.remaining > 0 then surface.remaining else 0)
  }

  lemma LaunchedSnoc(calls: seq<Call>, launched: seq<nat>, k: nat, x: string)
    requires k < |calls|
    ensures LaunchedHas(calls, launched + [k], x) <==> LaunchedHas(calls, launched, x) || x == Signature(calls[k])
  {
    hide Signature;
    if LaunchedHas(calls, launched, x) {
      var j :| 0 <= j < |launched| && launched[j] < |calls| && Signature(calls[launched[j]]) == x;
      assert (launched + [k])[j] == launched[j];
    }
    if x == Signature(calls[k]) {
      assert (launched + [k])[|launched|] == k;
    }
  }

  lemma LaunchingOne(calls: seq<Call>, k: nat, surface: Surface, before: set<string>, s: Screened)
    requires k < |calls| && Screening(calls, k, surface, before, s)
    requires Refusal(calls[k], surface.names, surface.registry, s.signatures, |s.launched|, surface.remaining).None?
    ensures Screening(calls, k + 1, surface, before, Screened(s.signatures + {Signature(calls[k])}, s.launched + [k]))
  {
    hide Signature, LaunchedHas;
    forall x
      ensures LaunchedHas(calls, s.launched + [k], x) <==> LaunchedHas(calls, s.launched, x) || x == Signature(calls[k])
    {
      LaunchedSnoc(calls, s.launched, k, x);
    }
    forall i | 0 <= i < |s.launched| ensures Signature(calls[s.launched[i]]) != Signature(calls[k]) {
      LaunchedIs(calls, s.launched, i);
    }
  }

  lemma LaunchedIs(calls: seq<Call>, launched: seq<nat>, j: nat)
    requires j < |launched| && launched[j] < |calls|
    ensures LaunchedHas(calls, launched, Signature(calls[launched[j]]))
  {
  }

  lemma {:induction false} ScreenIsScreening(calls: seq<Call>, n: nat, surface: Surface, before: set<string>)
    requires n <= |calls|
    ensures Screening(calls, n, surface, before, Screen(calls, n, surface, before))
    decreases n
  {
    hide Signature, Refusal, Screening;
    if n > 0 {
      ScreenIsScreening(calls, n - 1, surface, before);
      var s := Screen(calls, n - 1, surface, before);
      if Refusal(calls[n - 1], surface.names, surface.registry, s.signatures, |s.launched|, surface.remaining).None? {
        LaunchingOne(calls, n - 1, surface, before, s);
      } else {
        RefusingOne(calls, n - 1, surface, before, s);
      }
    } else {
      NothingLaunched(calls, surface, before);
    }
  }

  lemma NothingLaunched(calls: seq<Call>, surface: Surface, before: set<string>)
    ensures Screening(calls, 0, surface, before, Screened(before, []))
  {
  }

  lemma RefusingOne(calls: seq<Call>, k: nat, surface: Surface, before: set<string>, s: Screened)
    requires k < |calls| && Screening(calls, k, surface, before, s)
    ensures Screening(calls, k + 1, surface, before, s)
  {
  }

  /** Earlier decisions stand. */
  lemma {:induction false} ScreenGrows(calls: seq<Call>, k: nat, n: nat, surface: Surface, before: set<string>)
    requires k < n <= |calls|
    ensures k in Screen(calls, n, surface, before).launched <==> RefusalAt(calls, k, surface, before).None?
    decreases n
  {
    ScreenIsScreening(calls, n - 1, surface, before);
    if k < n - 1 {
      ScreenGrows(calls, k, n - 1, surface, before);
    }
  }

  /** The router only exposes registered tools, so the unknown-tool refusal cannot happen. */
  lemma UnknownToolIsUnreachable(call: Call, registry: Registry, allowed: Option<set<string>>, sandbox: bool,
                                 signatures: set<string>, pending: nat, remaining: int)
    ensures Refusal(call, Exposed(registry, allowed, sandbox), registry, signatures, pending,
                    remaining) != Some("unknown_tool")
  {
  }

  /** How many of the launched calls reported an outcome that counts. */
  function Counted(launched: seq<nat>, handle: nat -> string): (c: nat)
    ensures c <= |launched|
    ensures c == |launched| <==> forall k <- launched :: handle(k) !in UNEXECUTED_OUTCOMES
  {
    if launched == [] then 0
    else
      var last := launched[|launched| - 1];
      assert launched == launched[..|launched| - 1] + [last];
      Counted(launched[..|launched| - 1], handle) + if handle(last) in UNEXECUTED_OUTCOMES then 0 else 1
  }

  function ObservedUpTo(calls: seq<Call>, n: nat, surface: Surface, before: set<string>,
      handle: nat -> string): (r: seq<Observation>)
    requires n <= |calls|
    ensures |r| == n
  {
    seq(n, k requires 0 <= k < n => Observed(calls, k, surface, before, handle))
  }

  /** The call is exposed, registered and accepted by its schema. */
  predicate Acceptable(call: Call, names: seq<string>, registry: Registry) {
    call.arguments.Some? && call.name in names && call.name in registry.tools
    && (call.name, call.arguments.value) in registry.accepted
  }

  /** When a call runs, and what the refusals of an acceptable call mean. */
  lemma RefusalMeans(call: Call, names: seq<string>, registry: Registry, signatures: set<string>, pending: nat,
      remaining: int)
    ensures var r := Refusal(call, names, registry, signatures, pending, remaining);
            var ok, repeated := Acceptable(call, names, registry),
              Signature(call) in signatures;
            && (r.None? <==> ok && !repeated && pending < remaining)
            && (r == Some("duplicate_call") <==> ok && repeated)
            && (r == Some("tool_call_limit") <==> ok && !repeated && pending >= remaining)
    ensures var r := Refusal(call, names, registry, signatures, pending, remaining);
            && (r == Some("tool_not_exposed") <==> call.arguments.Some? && call.name !in names)
            && (r == Some("unknown_tool") <==>
                  call.arguments.Some? && call.name in names && call.name !in registry.tools)
            && (r == Some("invalid_arguments") <==>
                  || call.arguments.None?
                  || (call.name in names && call.name in registry.tools
                      && (call.name, call.arguments.value) !in registry.accepted))
  {
    hide Signature;
    assert "duplicate_call"[0] == 'd' && "tool_call_limit"[5] == 'c' && "tool_not_exposed"[5] == 'n';
    assert "invalid_arguments"[0] == 'i' && "unknown_tool"[0] == 'u' && "tool_not_exposed"[0] == 't'
        && "tool_call_limit"[0] == 't';
  }

  lemma RefusalsAreUnexecuted(call: Call, names: seq<string>, registry: Registry, signatures: set<string>,
      pending: nat, remaining: int)
    ensures var r := Refusal(call, names, registry, signatures, pending, remaining);
            r.Some? ==> r.value in UNEXECUTED_OUTCOMES
  {
  }

  lemma ExecutedOne(outputs: seq<Observation>, o: Observation)
    ensures Executed(outputs + [o]) == Executed(outputs) + if o.outcome in UNEXECUTED_OUTCOMES then 0 else 1
  {
  }

  lemma CountedOne(launched: seq<nat>, k: nat, handle: nat -> string)
    ensures Counted(launched + [k], handle)
            == Counted(launched, handle) + if handle(k) in UNEXECUTED_OUTCOMES then 0 else 1
  {
  }

  /** The budget is charged for the launched calls whose handler did not report an unexecuted outcome. */
  lemma {:induction false} ChargedIsCounted(calls: seq<Call>, n: nat, surface: Surface, before: set<string>,
      handle: nat -> string)
    requires n <= |calls|
    ensures Executed(ObservedUpTo(calls, n, surface, before, handle))
            == Counted(Screen(calls, n, surface, before).launched, handle)
    decreases n
  {
    hide Refusal, Executed, Counted, Signature;
    if n == 0 {
      NothingExecuted(handle);
    } else {
      ChargedIsCounted(calls, n - 1, surface, before, handle);
      var fewer := ObservedUpTo(calls, n - 1, surface, before, handle);
      var o := Observed(calls, n - 1, surface, before, handle);
      assert ObservedUpTo(calls, n, surface, before, handle) == fewer + [o];
      ExecutedOne(fewer, o);
      var s := Screen(calls, n - 1, surface, before);
      RefusalsAreUnexecuted(calls[n - 1], surface.names, surface.registry, s.signatures, |s.launched|,
                            surface.remaining);
      CountedOne(s.launched, n - 1, handle);
    }
  }

  lemma NothingExecuted(handle: nat -> string)
    ensures Executed([]) == 0 == Counted([], handle)
  {
  }

  function Elements(q: seq<nat>): set<nat> { set k | k in q }

  /** What is known about each call while the batch is screened and run. */
  ghost predicate Noted(observations: seq<Option<Observation>>, calls: seq<Call>, n: nat, running: set<nat>,
      surface: Surface, before: set<string>, handle: nat -> string) {
    && |observations| == |calls| && n <= |calls|
    && forall k: nat :: k < |calls| ==>
         observations[k] == if k < n && k !in running then Some(Observed(calls, k, surface, before, handle)) else None
  }

  /** The screening loop of `execute`. */
  method ScreenCalls(calls: seq<Call>, turn: TurnContext, surface: Surface, ghost handle: nat -> string)
    returns (observations: array<Option<Observation>>, pending: seq<nat>)
    modifies turn`executedToolSignatures
    ensures fresh(observations)
    ensures Screened(turn.executedToolSignatures, pending)
            == Screen(calls, |calls|, surface, old(turn.executedToolSignatures))
    ensures Noted(observations[..], calls, |calls|, Elements(pending), surface, old(turn.executedToolSignatures),
                  handle)
  {
    hide Signature, Refusal;
    ghost var before := turn.executedToolSignatures;
    observations := new Option<Observation>[|calls|](_ => None);
    pending := [];
    for index := 0 to |calls|
      invariant Screened(turn.executedToolSignatures, pending) == Screen(calls, index, surface, before)
      invariant forall k <- pending :: k < index
      invariant Noted(observations[..], calls, index, Elements(pending), surface, before, handle)
    {
      var call := calls[index];
      var refusal := Refusal(call, surface.names, surface.registry, turn.executedToolSignatures, |pending|,
                             surface.remaining);
      assert refusal == RefusalAt(calls, index, surface, before);
      if refusal.Some? {
        observations[index] := Some(Observation(call.callId, refusal.value));
      } else {
        turn.executedToolSignatures := turn.executedToolSignatures + {Signature(call)};
        pending := pending + [index];
      }
    }
  }

  /** The tasks of `execute` finish in any order; each notes its own observation. */
  method RunPending(calls: seq<Call>, observations: array<Option<Observation>>, pending: seq<nat>,
      ghost surface: Surface, ghost before: set<string>, handle: nat -> string)
    requires pending == Screen(calls, |calls|, surface, before).launched
    requires Noted(observations[..], calls, |calls|, Elements(pending), surface, before, handle)
    modifies observations
    ensures Noted(observations[..], calls, |calls|, {}, surface, before, handle)
  {
    hide Screen, RefusalAt;
    LaunchedRun(calls, surface, before);
    var running := Elements(pending);
    while running != {}
      invariant forall k <- running :: k in pending
      invariant Noted(observations[..], calls, |calls|, running, surface, before, handle)
      decreases running
    {
      var k :| k in running;
      observations[k] := Some(Observation(calls[k].callId, handle(k)));
      running := running - {k};
    }
  }

  /** `ToolOrchestrator.execute`: `handle(k)` is what running call `k` reports. */
  method Execute(calls: seq<Call>, turn: TurnContext, surface: Surface, handle: nat -> string) returns (batch: Batch)
    modifies turn`executedToolSignatures, turn`launches
    ensures var before := old(turn.executedToolSignatures);
            var s := Screen(calls, |calls|, surface, before);
            && batch.outputs == ObservedUpTo(calls, |calls|, surface, before, handle)
            && batch.executedCallCount == Executed(batch.outputs)
            && Screening(calls, |calls|, surface, before, s)
            && turn.executedToolSignatures == s.signatures
            && turn.launches == old(turn.launches) + Launches(calls, s.launched, handle)
  {
    hide Screen, Observed;
    ghost var before := turn.executedToolSignatures;
    var observations, pending := ScreenCalls(calls, turn, surface, handle);
    ScreenIsScreening(calls, |calls|, surface, before);
    RunPending(calls, observations, pending, surface, before, handle);
    turn.launches := turn.launches + Launches(calls, pending, handle);
    var outputs := [];
    for k := 0 to |calls|
      invariant outputs == ObservedUpTo(calls, k, surface, before, handle)
    {
      assert observations[..][k] == Some(Observed(calls, k, surface, before, handle));
      outputs := outputs + [observations[k].value];
    }
    batch := Batch(outputs, Executed(outputs));
  }

  lemma LaunchedRun(calls: seq<Call>, surface: Surface, before: set<string>)
    ensures forall k <- Screen(calls, |calls|, surface, before).launched ::
              k < |calls| && RefusalAt(calls, k, surface, before).None?
  {
    hide Screen, RefusalAt;
    ScreenIsScreening(calls, |calls|, surface, before);
    var launched := Screen(calls, |calls|, surface, before).launched;
    forall k | k in launched ensures k < |calls| && RefusalAt(calls, k, surface, before).None? {
      var j :| 0 <= j < |launched| && launched[j] == k;
      ScreenGrows(calls, k, |calls|, surface, before);
    }
  }

  /** A batch keeps the execution log free of repetitions. */
  lemma BatchKeepsLog(calls: seq<Call>, surface: Surface, before: set<string>, log: seq<Launch>, handle: nat -> string)
    requires Screening(calls, |calls|, surface, before, Screen(calls, |calls|, surface, before))
    requires NoRepeats(log, before)
    ensures var s := Screen(calls, |calls|, surface, before);
            NoRepeats(log + Launches(calls, s.launched, handle), s.signatures)
  {
    PrefixKeepsLog(calls, |calls|, surface, before, log, handle);
  }

  /** So does every part of it. */
  lemma PrefixKeepsLog(calls: seq<Call>, n: nat, surface: Surface, before: set<string>, log: seq<Launch>,
      handle: nat -> string)
    requires n <= |calls| && Screening(calls, n, surface, before, Screen(calls, n, surface, before))
    requires NoRepeats(log, before)
    ensures InBatch(calls, Screen(calls, n, surface, before).launched)
    ensures var s := Screen(calls, n, surface, before);
            NoRepeats(log + Launches(calls, s.launched, handle), s.signatures)
  {
    hide Screen, Signature, LaunchSignature, Logged, LaunchedHas;
    var s := Screen(calls, n, surface, before);
    var more := Launches(calls, s.launched, handle);
    forall x ensures x in s.signatures <==> Logged(log + more, x) {
      LoggedAppend(log, more, x);
      LaunchesLogged(calls, s.launched, handle, x);
    }
    forall j, k | 0 <= j < k < |log + more|
      ensures LaunchSignature((log + more)[j]) != LaunchSignature((log + more)[k])
    {
      if j < |log| <= k {
        OneIsLogged(log, j);
      }
    }
  }

  /** Some execution of the log has this signature. */
  ghost predicate Logged(log: seq<Launch>, x: string) {
    exists k :: 0 <= k < |log| && LaunchSignature(log[k]) == x
  }

  lemma OneIsLogged(log: seq<Launch>, k: nat)
    requires k < |log|
    ensures Logged(log, LaunchSignature(log[k]))
  {
  }

  lemma LoggedAppend(a: seq<Launch>, b: seq<Launch>, x: string)
    ensures Logged(a + b, x) <==> Logged(a, x) || Logged(b, x)
  {
    if k :| 0 <= k < |a| && LaunchSignature(a[k]) == x {
      assert (a + b)[k] == a[k];
    }
    if k :| 0 <= k < |b| && LaunchSignature(b[k]) == x {
      assert (a + b)[|a| + k] == b[k];
    }
  }

  lemma LaunchesLogged(calls: seq<Call>, launched: seq<nat>, handle: nat -> string, x: string)
    requires InBatch(calls, launched)
    ensures Logged(Launches(calls, launched, handle), x) <==> LaunchedHas(calls, launched, x)
  {
    hide Signature, LaunchSignature;
    var log := Launches(calls, launched, handle);
    if j :| 0 <= j < |launched| && launched[j] < |calls| && Signature(calls[launched[j]]) == x {
      assert LaunchSignature(log[j]) == x;
    }
  }

  /** The signatures of the log are distinct, and they are exactly `signatures`. */
  ghost predicate NoRepeats(log: seq<Launch>, signatures: set<string>) {
    && (forall j, k :: 0 <= j < k < |log| ==> LaunchSignature(log[j]) != LaunchSignature(log[k]))
    && (forall s :: s in signatures <==> Logged(log, s))
  }

  /** The same request, by name and arguments. */
  ghost predicate Requested(log: seq<Launch>, call: Call) {
    exists k :: 0 <= k < |log| && log[k].name == call.name && call.arguments == Some(log[k].arguments)
  }

  ghost predicate PlainNames(log: seq<Launch>) {
    forall k :: 0 <= k < |log| ==> ':' !in log[k].name
  }

  /** The signature tells this call from every other request in the log. */
  ghost predicate Tells(log: seq<Launch>, call: Call) {
    call.arguments.Some? ==> forall k :: 0 <= k < |log| && LaunchSignature(log[k]) == Signature(call) ==>
      log[k].name == call.name && log[k].arguments == call.arguments.value
  }

  lemma PlainNamesTell(log: seq<Launch>, call: Call)
    requires PlainNames(log) && ':' !in call.name
    ensures Tells(log, call)
  {
    if call.arguments.Some? {
      forall k | 0 <= k < |log| && LaunchSignature(log[k]) == Signature(call)
        ensures log[k].name == call.name && log[k].arguments == call.arguments.value
      {
        SignatureIsExact(log[k].name, log[k].arguments, call.name, call.arguments.value);
      }
    }
  }

  lemma SuchArgumentsTell(log: seq<Launch>, call: Call, texts: set<string>)
    requires NoEndsOf(texts) && (forall k :: 0 <= k < |log| ==> log[k].arguments in texts)
    requires call.arguments.Some? ==> call.arguments.value in texts
    ensures Tells(log, call)
  {
    hide NoEndsOf;
    if call.arguments.Some? {
      forall k | 0 <= k < |log| && LaunchSignature(log[k]) == Signature(call)
        ensures log[k].name == call.name && log[k].arguments == call.arguments.value
      {
        SignatureIsExactAnyName(log[k].name, log[k].arguments, call.name, call.arguments.value, texts);
      }
    }
  }

  /** An acceptable call repeats a remembered signature exactly when the same tool was executed
      with the same arguments. */
  lemma RepeatedIff(log: seq<Launch>, signatures: set<string>, call: Call)
    requires NoRepeats(log, signatures) && Tells(log, call) && call.arguments.Some?
    ensures Signature(call) in signatures <==> Requested(log, call)
  {
    hide SignatureOf;
    if k :| 0 <= k < |log| && log[k].name == call.name && call.arguments == Some(log[k].arguments) {
      assert LaunchSignature(log[k]) == Signature(call);
    }
    assert Signature(call) in signatures <==> Logged(log, Signature(call));
  }

  /** The executions of a turn before call `k` of a batch. */
  ghost function Earlier(calls: seq<Call>, k: nat, surface: Surface, before: set<string>, log: seq<Launch>,
      handle: nat -> string): seq<Launch>
    requires k <= |calls|
  {
    log + (if InBatch(calls, Screen(calls, k, surface, before).launched)
           then Launches(calls, Screen(calls, k, surface, before).launched, handle) else [])
  }

  /** Call `k` is refused as a duplicate exactly when it is acceptable and requested before, and runs exactly
      when it is acceptable, new in that sense, and within the budget. */
  ghost predicate RefusedOnlyAsRepeated(calls: seq<Call>, k: nat, surface: Surface, before: set<string>,
      log: seq<Launch>, earlier: seq<Launch>)
    requires k < |calls|
  {
    var call, refusal := calls[k], RefusalAt(calls, k, surface, before);
    var ok := Acceptable(call, surface.names, surface.registry);
    && (refusal == Some("duplicate_call") <==> ok && Requested(earlier, call))
    && (refusal.None? <==> ok && !Requested(earlier, call) && |earlier| - |log| < surface.remaining)
  }

  lemma DuplicateIffTold(calls: seq<Call>, k: nat, surface: Surface, before: set<string>, log: seq<Launch>,
      handle: nat -> string)
    requires k < |calls| && NoRepeats(log, before)
    requires Tells(Earlier(calls, k, surface, before, log, handle), calls[k])
    ensures RefusedOnlyAsRepeated(calls, k, surface, before, log, Earlier(calls, k, surface, before, log, handle))
  {
    hide Screen, Signature, SignatureOf, Requested, Screening, Tells;
    var s, call := Screen(calls, k, surface, before), calls[k];
    ScreenIsScreening(calls, k, surface, before);
    ScreeningRuns(calls, k, surface, before, s);
    PrefixKeepsLog(calls, k, surface, before, log, handle);
    RefusalMeans(call, surface.names, surface.registry, s.signatures, |s.launched|, surface.remaining);
    var earlier := Earlier(calls, k, surface, before, log, handle);
    assert earlier == log + Launches(calls, s.launched, handle);
    if Acceptable(call, surface.names, surface.registry) {
      RepeatedIff(earlier, s.signatures, call);
    }
  }

  /**
   In a turn whose executions so far are in the log, call `k` of a batch is refused as
   a duplicate exactly when it is acceptable and the same tool was executed with the
   same arguments before: earlier in the turn, or by an earlier call of the batch.
   It runs exactly when it is acceptable, new in that sense, and within the budget.
   Here for tools without a colon in their names.
   */
  lemma DuplicateIff(calls: seq<Call>, k: nat, surface: Surface, before: set<string>, log: seq<Launch>,
      handle: nat -> string)
    requires k < |calls| && NoRepeats(log, before) && PlainNames(log)
    requires forall name <- surface.names :: ':' !in name
    ensures RefusedOnlyAsRepeated(calls, k, surface, before, log, Earlier(calls, k, surface, before, log, handle))
  {
    hide Screen, Signature, SignatureOf, Requested, Screening, LaunchSignature, Tells, RefusedOnlyAsRepeated;
    var s, earlier := Screen(calls, k, surface, before), Earlier(calls, k, surface, before, log, handle);
    ScreenIsScreening(calls, k, surface, before);
    ScreeningRuns(calls, k, surface, before, s);
    if calls[k].name in surface.names {
      PlainNamesTell(earlier, calls[k]);
      DuplicateIffTold(calls, k, surface, before, log, handle);
    } else {
      NotExposedIsRefused(calls, k, surface, before, log, earlier);
    }
  }

  /** The same for any names: the arguments are JSON objects, of which none is a proper end of another. */
  lemma DuplicateIffAnyName(calls: seq<Call>, k: nat, surface: Surface, before: set<string>, log: seq<Launch>,
      handle: nat -> string, texts: set<string>)
    requires k < |calls| && NoRepeats(log, before) && NoEndsOf(texts)
    requires forall i :: 0 <= i < |log| ==> log[i].arguments in texts
    requires forall i :: 0 <= i < |calls| && calls[i].arguments.Some? ==> calls[i].arguments.value in texts
    ensures RefusedOnlyAsRepeated(calls, k, surface, before, log, Earlier(calls, k, surface, before, log, handle))
  {
    hide Screen, Signature, SignatureOf, Requested, Screening, LaunchSignature, Tells, RefusedOnlyAsRepeated, NoEndsOf;
    var s, earlier := Screen(calls, k, surface, before), Earlier(calls, k, surface, before, log, handle);
    ScreenIsScreening(calls, k, surface, before);
    ScreeningRuns(calls, k, surface, before, s);
    forall i | 0 <= i < |earlier| ensures earlier[i].arguments in texts {
      if i >= |log| {
        assert calls[s.launched[i - |log|]].arguments.Some?;
      }
    }
    SuchArgumentsTell(earlier, calls[k], texts);
    DuplicateIffTold(calls, k, surface, before, log, handle);
  }

  lemma NotExposedIsRefused(calls: seq<Call>, k: nat, surface: Surface, before: set<string>, log: seq<Launch>,
      earlier: seq<Launch>)
    requires k < |calls| && calls[k].name !in surface.names
    ensures RefusedOnlyAsRepeated(calls, k, surface, before, log, earlier)
  {
    hide Screen, Signature, Requested;
    var s := Screen(calls, k, surface, before);
    RefusalMeans(calls[k], surface.names, surface.registry, s.signatures, |s.launched|, surface.remaining);
  }

  /** What was launched was acceptable. */
  lemma ScreeningRuns(calls: seq<Call>, n: nat, surface: Surface, before: set<string>, s: Screened)
    requires n <= |calls| && Screening(calls, n, surface, before, s)
    ensures InBatch(calls, s.launched)
    ensures forall j :: 0 <= j < |s.launched| ==>
              calls[s.launched[j]].name in surface.names && calls[s.launched[j]].arguments.Some?
  {
    hide Signature;
    forall j | 0 <= j < |s.launched|
      ensures s.launched[j] < |calls| && calls[s.launched[j]].name in surface.names
      ensures calls[s.launched[j]].arguments.Some?
    {
      assert Runs(calls, s.launched[j], surface);
    }
  }

  /** The log of a turn keeps to names without a colon. */
  lemma BatchKeepsPlainNames(calls: seq<Call>, surface: Surface, before: set<string>, log: seq<Launch>,
      handle: nat -> string)
    requires PlainNames(log) && forall name <- surface.names :: ':' !in name
    ensures InBatch(calls, Screen(calls, |calls|, surface, before).launched)
    ensures PlainNames(log + Launches(calls, Screen(calls, |calls|, surface, before).launched, handle))
  {
    hide Screen, Signature, SignatureOf, LaunchSignature, Screening;
    ScreenIsScreening(calls, |calls|, surface, before);
    ScreeningRuns(calls, |calls|, surface, before, Screen(calls, |calls|, surface, before));
  }

  /** The positions of the outputs that count. */
  function Counting(outputs: seq<Observation>): set<nat> {
    set k: nat | k < |outputs| && outputs[k].outcome !in UNEXECUTED_OUTCOMES
  }

  /** The charge of a batch is the number of its outputs with an executed outcome. */
  lemma {:induction false} ExecutedIsCount(outputs: seq<Observation>)
    ensures Executed(outputs) == |Counting(outputs)|
  {
    hide Counting;
    if outputs == [] {
      assert Counting([]) == {} by { NothingCounts(); }
    } else {
      var rest, last := outputs[..|outputs| - 1], outputs[|outputs| - 1];
      assert outputs == rest + [last];
      ExecutedIsCount(rest);
      CountingOne(rest, last);
    }
  }

  lemma NothingCounts()
    ensures Counting([]) == {} && ChargedAt([]) == {}
  {
  }

  lemma CountingOne(rest: seq<Observation>, last: Observation)
    ensures |Counting(rest + [last])| == |Counting(rest)| + if last.outcome in UNEXECUTED_OUTCOMES then 0 else 1
  {
    var all, n := rest + [last], |rest|;
    assert forall k :: 0 <= k < n ==> all[k] == rest[k];
    assert Counting(all) == Counting(rest) + if last.outcome in UNEXECUTED_OUTCOMES then {} else {n};
    assert n !in Counting(rest);
  }

  /** How much of the log counts against the budget. */
  function Charged(log: seq<Launch>): (c: nat)
    ensures c <= |log|
    ensures c == |log| <==> forall e <- log :: e.outcome !in UNEXECUTED_OUTCOMES
  {
    if log == [] then 0
    else
      var last := log[|log| - 1];
      assert log == log[..|log| - 1] + [last];
      Charged(log[..|log| - 1]) + if last.outcome in UNEXECUTED_OUTCOMES then 0 else 1
  }

  function ChargedAt(log: seq<Launch>): set<nat> {
    set k: nat | k < |log| && log[k].outcome !in UNEXECUTED_OUTCOMES
  }

  /** The charge of a turn is the number of its executions with an executed outcome. */
  lemma {:induction false} ChargedIsCount(log: seq<Launch>)
    ensures Charged(log) == |ChargedAt(log)|
  {
    hide ChargedAt;
    if log == [] {
      assert ChargedAt([]) == {} by { NothingCounts(); }
    } else {
      var rest, last := log[..|log| - 1], log[|log| - 1];
      assert log == rest + [last];
      ChargedIsCount(rest);
      ChargedAtOne(rest, last);
    }
  }

  lemma ChargedAtOne(rest: seq<Launch>, last: Launch)
    ensures |ChargedAt(rest + [last])| == |ChargedAt(rest)| + if last.outcome in UNEXECUTED_OUTCOMES then 0 else 1
  {
    var all, n := rest + [last], |rest|;
    assert forall k :: 0 <= k < n ==> all[k] == rest[k];
    assert ChargedAt(all) == ChargedAt(rest) + if last.outcome in UNEXECUTED_OUTCOMES then {} else {n};
    assert n !in ChargedAt(rest);
  }

  lemma {:induction false} ChargedAppend(a: seq<Launch>, b: seq<Launch>)
    ensures Charged(a + b) == Charged(a) + Charged(b)
  {
    if b == [] {
      assert a + b == a;
    } else {
      assert (a + b)[..|a + b| - 1] == a + b[..|b| - 1];
      ChargedAppend(a, b[..|b| - 1]);
    }
  }

  lemma ChargedOne(log: seq<Launch>, e: Launch)
    ensures Charged(log + [e]) == Charged(log) + if e.outcome in UNEXECUTED_OUTCOMES then 0 else 1
  {
  }

  lemma {:induction false} ChargedLaunches(calls: seq<Call>, launched: seq<nat>, handle: nat -> string)
    requires InBatch(calls, launched)
    ensures Charged(Launches(calls, launched, handle)) == Counted(launched, handle)
    decreases |launched|
  {
    hide Signature, Charged;
    if launched != [] {
      var rest := launched[..|launched| - 1];
      ChargedLaunches(calls, rest, handle);
      var log, more := Launches(calls, rest, handle), Launches(calls, launched, handle);
      assert more == log + [more[|more| - 1]];
      ChargedOne(log, more[|more| - 1]);
    }
  }

  /** A handler that itself reports an unexecuted outcome runs without being charged. */
  lemma UnchargedLaunch()
    ensures var calls := [Call("c", "t", Some("{}"), 0)];
            var surface := Surface(["t"], Registry(["t"], map["t" := Tool(true, false)], {("t", "{}")}), 1);
            && Screen(calls, 1, surface, {}).launched == [0]
            && Executed(ObservedUpTo(calls, 1, surface, {}, _ => "invalid_arguments")) == 0
  {
  }
}
