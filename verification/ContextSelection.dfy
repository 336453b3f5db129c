/**
 Which tool interactions of a turn the model sees again
 (`_selected_input_items` of `agent/context_manager.py`).

 Items are known by their position in the dynamic part of the conversation,
 which is what `id(item)` tells apart in the source.
 */
module ContextSelection {
  import opened Prelude

  datatype Kind = FunctionCall | HostedCall | FunctionOutput | HostedResult | Reasoning | Message

  /** One recorded item; `size` is `_item_characters`. */
  datatype Entry = Entry(kind: Kind, callId: string, size: nat) {
    predicate IsCall() { kind.FunctionCall? || kind.HostedCall? }
    predicate IsOutput() { kind.FunctionOutput? || kind.HostedResult? }
  }

  /** `_matching_call`: the last call with this id. */
  function MatchingCall(items: seq<Entry>, callId: string): (r: Option<nat>)
    ensures r.Some? ==> r.value < |items| && items[r.value].IsCall() && items[r.value].callId == callId
    ensures forall k :: (if r.Some? then r.value else -1) < k < |items| ==>
              !(items[k].IsCall() && items[k].callId == callId)
  {
    if items == [] then None
    else
      var last := |items| - 1;
      if items[last].IsCall() && items[last].callId == callId then Some(last)
      else MatchingCall(items[..last], callId)
  }

  /** Some output lies behind position `k` and before `call`. */
  ghost predicate OutputBetween(items: seq<Entry>, k: int, call: nat)
    requires call <= |items|
  {
    exists j :: 0 <= j && k < j < call && items[j].IsOutput()
  }

  /** `_preceding_reasoning`: the nearest reasoning item before a call, unless an output lies between. */
  function PrecedingReasoning(items: seq<Entry>, call: nat): (r: Option<nat>)
    requires call <= |items|
    ensures r.Some? ==> r.value < call && items[r.value].kind.Reasoning?
    ensures r.Some? ==> forall k :: r.value < k < call ==> !items[k].IsOutput() && !items[k].kind.Reasoning?
    ensures r.None? ==> forall k :: 0 <= k < call && items[k].kind.Reasoning? ==> OutputBetween(items, k, call)
  {
    if call == 0 || items[call - 1].IsOutput() then None
    else if items[call - 1].kind.Reasoning? then Some(call - 1)
    else PrecedingReasoning(items, call - 1)
  }

  function CallOf(items: seq<Entry>, j: nat): Option<nat>
    requires j < |items|
  {
    MatchingCall(items, items[j].callId)
  }

  function ReasoningOf(items: seq<Entry>, j: nat): Option<nat>
    requires j < |items|
  {
    var call := CallOf(items, j);
    if call.None? then None else PrecedingReasoning(items, call.value)
  }

  function Found(r: Option<nat>): set<nat> { if r.Some? then {r.value} else {} }

  /** An output with its call and the reasoning that led to the call. */
  function Interaction(items: seq<Entry>, j: nat): (s: set<nat>)
    requires j < |items|
    ensures j in s && forall x <- s :: x < |items| && (x != j ==> !items[x].IsOutput())
  {
    {j} + Found(CallOf(items, j)) + Found(ReasoningOf(items, j))
  }

  function SizeAt(items: seq<Entry>, r: Option<nat>): nat {
    if r.Some? && r.value < |items| then items[r.value].size else 0
  }

  function InteractionSize(items: seq<Entry>, j: nat): nat
    requires j < |items|
  {
    items[j].size + SizeAt(items, CallOf(items, j)) + SizeAt(items, ReasoningOf(items, j))
  }

  /** The unit of an output: itself, the last call with its id, and the nearest reasoning before that call
      with no output between. */
  lemma InteractionIs(items: seq<Entry>, j: nat, x: nat)
    requires j < |items|
    ensures x in Interaction(items, j) <==>
              || x == j
              || IsItsCall(items, j, x)
              || exists c: nat :: IsItsCall(items, j, c) && IsItsReasoning(items, c, x)
  {
    var call := CallOf(items, j);
    if call.Some? {
      assert IsItsCall(items, j, call.value);
      var reasoning := PrecedingReasoning(items, call.value);
      if reasoning.Some? {
        assert IsItsReasoning(items, call.value, reasoning.value);
      }
    }
  }

  ghost predicate IsItsCall(items: seq<Entry>, j: nat, c: nat)
    requires j < |items|
  {
    && c < |items| && items[c].IsCall() && items[c].callId == items[j].callId
    && forall k :: c < k < |items| ==> !(items[k].IsCall() && items[k].callId == items[j].callId)
  }

  ghost predicate IsItsReasoning(items: seq<Entry>, c: nat, x: nat)
    requires c < |items|
  {
    && x < c && items[x].kind.Reasoning?
    && forall k :: x < k < c ==> !items[k].IsOutput() && !items[k].kind.Reasoning?
  }

  /** The running state of the selection. */
  datatype Choice = Choice(selected: set<nat>, excluded: set<nat>, remaining: int)

  /** The first thing selected is taken whatever its size. */
  predicate Fits(s: Choice, size: nat) {
    s.selected == {} || size <= s.remaining
  }

  function Take(s: Choice, unit: set<nat>, size: nat): Choice {
    s.(selected := s.selected + unit, remaining := s.remaining - size)
  }

  /** One iteration of the selection loop. */
  function Visit(items: seq<Entry>, s: Choice, i: nat): Choice
    requires i < |items|
  {
    var item := items[i];
    if item.IsOutput() then
      if Fits(s, InteractionSize(items, i)) then Take(s, Interaction(items, i), InteractionSize(items, i))
      else s.(excluded := s.excluded + Interaction(items, i))
    else if (item.kind.FunctionCall? || item.kind.Reasoning?) && (i in s.selected || i in s.excluded) then s
    else if Fits(s, item.size) then Take(s, {i}, item.size)
    else s
  }

  /** The items from position `n` on, visited last to first. */
  function Scan(items: seq<Entry>, budget: nat, n: nat): Choice
    requires n <= |items|
    decreases |items| - n
  {
    if n == |items| then Choice({}, {}, budget) else Visit(items, Scan(items, budget, n + 1), n)
  }

  /** The items at the selected positions, from position `n` on. */
  function Kept(items: seq<Entry>, selected: set<nat>, n: nat): seq<Entry>
    requires n <= |items|
    decreases |items| - n
  {
    if n == |items| then []
    else (if n in selected then [items[n]] else []) + Kept(items, selected, n + 1)
  }

  /** The items of one turn: what it started with, then what the model and the tools added. */
  class ConversationState {
    var items: seq<Entry>
    var initialItemCount: nat

    ghost predicate Valid()
      reads this
    {
      initialItemCount <= |items|
    }

    constructor (initial: seq<Entry>)
      ensures Valid() && items == initial && initialItemCount == |initial|
    {
      items, initialItemCount := initial, |initial|;
    }

    method Record(more: seq<Entry>)
      requires Valid()
      modifies this`items
      ensures Valid() && items == old(items) + more
    {
      items := items + more;
    }
  }

  /** `_selected_input_items`. */
  method SelectedInputItems(conversation: ConversationState, budget: nat) returns (input: seq<Entry>)
    requires conversation.Valid()
    ensures var dynamic := conversation.items[conversation.initialItemCount..];
            input == conversation.items[..conversation.initialItemCount]
                + Kept(dynamic, Scan(dynamic, budget, 0).selected, 0)
  {
    var initial := conversation.items[..conversation.initialItemCount];
    var dynamic := conversation.items[conversation.initialItemCount..];
    if dynamic == [] {
      return initial;
    }
    var selected: set<nat>, excluded: set<nat>, remaining: int := {}, {}, budget;
    for i := |dynamic| downto 0
      invariant Choice(selected, excluded, remaining) == Scan(dynamic, budget, i)
    {
      var item := dynamic[i];
      if item.IsOutput() {
        var interaction, size := Interaction(dynamic, i), InteractionSize(dynamic, i);
        if selected != {} && size > remaining {
          excluded := excluded + interaction;
          continue;
        }
        selected, remaining := selected + interaction, remaining - size;
        continue;
      }
      if (item.kind.FunctionCall? || item.kind.Reasoning?) && (i in selected || i in excluded) {
        continue;
      }
      if selected != {} && item.size > remaining {
        continue;
      }
      selected, remaining := selected + {i}, remaining - item.size;
    }
    var kept := [];
    for i := |dynamic| downto 0
      invariant kept == Kept(dynamic, selected, i)
    {
      kept := (if i in selected then [dynamic[i]] else []) + kept;
    }
    input := initial + kept;
  }

  // ----- order

  /** `picked` are the items at increasing positions `at`, and those are the selected ones. */
  ghost predicate PickedInOrder(items: seq<Entry>, selected: set<nat>, n: nat, picked: seq<Entry>, at: seq<nat>) {
    && |at| == |picked| && Increasing(at)
    && (forall k :: 0 <= k < |at| ==> n <= at[k] < |items| && at[k] in selected && picked[k] == items[at[k]])
    && (forall x :: x in selected && n <= x < |items| ==> x in at)
  }

  /** What is kept stays in its order, and nothing else is kept. */
  lemma {:induction false} KeptInOrder(items: seq<Entry>, selected: set<nat>, n: nat) returns (at: seq<nat>)
    requires n <= |items|
    ensures PickedInOrder(items, selected, n, Kept(items, selected, n), at)
    decreases |items| - n
  {
    if n == |items| {
      at := [];
    } else {
      at := KeptInOrder(items, selected, n + 1);
      var rest := Kept(items, selected, n + 1);
      if n in selected {
        PickedFirst(items, selected, n, rest, at);
        at := [n] + at;
      } else {
        assert [] + rest == rest;
      }
    }
  }

  lemma PickedFirst(items: seq<Entry>, selected: set<nat>, n: nat, picked: seq<Entry>, at: seq<nat>)
    requires n < |items| && n in selected && PickedInOrder(items, selected, n + 1, picked, at)
    ensures PickedInOrder(items, selected, n, [items[n]] + picked, [n] + at)
  {
  }

  // ----- calls and outputs stay together

  /** Every call has its own id, every output answers its own call, and the call comes first. */
  ghost predicate WellFormedHistory(items: seq<Entry>) {
    && (forall i, j :: 0 <= i < j < |items| && items[i].IsCall() && items[j].IsCall() ==>
        items[i].callId != items[j].callId)
    && (forall i, j :: 0 <= i < j < |items| && items[i].IsOutput() && items[j].IsOutput() ==>
        items[i].callId != items[j].callId)
    && (forall i, j :: 0 <= i < |items| && 0 <= j < |items| && Answers(items, j, i) ==> i < j)
  }

  /** Output `j` answers call `i`. */
  ghost predicate Answers(items: seq<Entry>, j: nat, i: nat) {
    && j < |items| && i < |items| && items[j].IsOutput() && items[i].IsCall() && items[j].callId == items[i].callId
  }

  lemma AnswersItsCall(items: seq<Entry>, j: nat, i: nat)
    requires WellFormedHistory(items) && Answers(items, j, i)
    ensures CallOf(items, j) == Some(i)
  {
  }

  /** What holds once every item from `n` on was visited. */
  ghost predicate Together(items: seq<Entry>, s: Choice, n: nat) {
    && (forall j {:trigger items[j]} :: n <= j < |items| && items[j].IsOutput() ==>
          if j in s.selected then Interaction(items, j) <= s.selected else Interaction(items, j) <= s.excluded)
    && (forall j :: j in s.selected && j < |items| && items[j].IsOutput() ==> n <= j)
    && (forall j: nat, i: nat {:trigger Answers(items, j, i)} ::
        Answers(items, j, i) && items[i].kind.FunctionCall? && i in s.selected ==> j in s.selected)
  }

  lemma TogetherStep(items: seq<Entry>, s: Choice, n: nat)
    requires WellFormedHistory(items) && n < |items| && Together(items, s, n + 1)
    ensures Together(items, Visit(items, s, n), n)
  {
    hide CallOf, ReasoningOf, InteractionSize, WellFormedHistory;
    var after := Visit(items, s, n);
    forall j: nat, i: nat | Answers(items, j, i) && items[i].kind.FunctionCall? && i in after.selected
      ensures j in after.selected
    {
      AnswersItsCall(items, j, i);
      CallAlreadyDecided(items, s, n, j, i);
      if items[n].IsOutput() {
        OneAnswer(items, n, j, i);
      }
    }
  }

  /** Only the interaction of its own output contains a call. */
  lemma OneAnswer(items: seq<Entry>, n: nat, j: nat, i: nat)
    requires WellFormedHistory(items) && n < |items| && items[n].IsOutput() && Answers(items, j, i)
    ensures i in Interaction(items, n) ==> j == n
  {
  }

  /** When a call is visited, the visit of its output has decided about both. */
  lemma CallAlreadyDecided(items: seq<Entry>, s: Choice, n: nat, j: nat, i: nat)
    requires WellFormedHistory(items) && n < |items| && Together(items, s, n + 1)
    requires Answers(items, j, i) && items[i].kind.FunctionCall?
    ensures n < j ==> i in (if j in s.selected then s.selected else s.excluded)
    ensures i == n ==> n < j
    ensures i in s.selected ==> j in s.selected
  {
  }

  lemma {:induction false} ScanTogether(items: seq<Entry>, budget: nat, n: nat)
    requires WellFormedHistory(items) && n <= |items|
    ensures Together(items, Scan(items, budget, n), n)
    decreases |items| - n
  {
    hide Visit;
    if n < |items| {
      ScanTogether(items, budget, n + 1);
      TogetherStep(items, Scan(items, budget, n + 1), n);
    }
  }

  /**
   A function call that has an output is kept exactly when that output is kept,
   and a kept output keeps its call and the reasoning that led to it.
   */
  lemma SelectionIsClosed(items: seq<Entry>, budget: nat, j: nat, i: nat)
    requires WellFormedHistory(items) && Answers(items, j, i)
    ensures var selected := Scan(items, budget, 0).selected;
            && (items[i].kind.FunctionCall? ==> (i in selected <==> j in selected))
            && (j in selected ==> i in selected)
            && (j in selected && PrecedingReasoning(items, i).Some? ==> PrecedingReasoning(items, i).value in selected)
  {
    hide Scan;
    ScanTogether(items, budget, 0);
    AnswersItsCall(items, j, i);
    assert i in Interaction(items, j);
  }

  // ----- the budget

  /** The total size of the selected items from position `n` on. */
  function Weight(items: seq<Entry>, selected: set<nat>, n: nat): nat
    requires n <= |items|
    decreases |items| - n
  {
    if n == |items| then 0 else (if n in selected then items[n].size else 0) + Weight(items, selected, n + 1)
  }

  lemma {:induction false} KeptWeighs(items: seq<Entry>, selected: set<nat>, n: nat)
    requires n <= |items|
    ensures Weight(items, selected, n) == Total(Kept(items, selected, n))
    decreases |items| - n
  {
    hide Total;
    if n < |items| {
      KeptWeighs(items, selected, n + 1);
      TotalFirst(items[n], Kept(items, selected, n + 1));
    } else {
      NothingTotals();
    }
  }

  lemma NothingTotals()
    ensures Total([]) == 0
  {
  }

  lemma TotalFirst(x: Entry, rest: seq<Entry>)
    ensures Total([x] + rest) == x.size + Total(rest) && Total([] + rest) == Total(rest)
  {
    assert [] + rest == rest && ([x] + rest)[1..] == rest;
  }

  function Total(entries: seq<Entry>): nat {
    if entries == [] then 0 else entries[0].size + Total(entries[1..])
  }

  lemma {:induction false} AddingOne(items: seq<Entry>, selected: set<nat>, x: nat, n: nat)
    requires n <= |items|
    ensures Weight(items, selected + {x}, n) <= Weight(items, selected, n) + SizeAt(items, Some(x))
    ensures x < n ==> Weight(items, selected + {x}, n) == Weight(items, selected, n)
    decreases |items| - n
  {
    if n < |items| { AddingOne(items, selected, x, n + 1); }
  }

  lemma AddingFound(items: seq<Entry>, selected: set<nat>, r: Option<nat>)
    ensures Weight(items, selected + Found(r), 0) <= Weight(items, selected, 0) + SizeAt(items, r)
  {
    if r.Some? {
      AddingOne(items, selected, r.value, 0);
    } else {
      assert selected + Found(r) == selected;
    }
  }

  lemma {:induction false} OneMoreWeighs(items: seq<Entry>, selected: set<nat>, x: nat, n: nat)
    requires n <= |items| && x !in selected
    ensures Weight(items, selected + {x}, n)
         == Weight(items, selected, n) + if n <= x < |items| then items[x].size else 0
    decreases |items| - n
  {
    if n < |items| { OneMoreWeighs(items, selected, x, n + 1); }
  }

  /** What a unit costs is the size of what it takes. */
  lemma InteractionWeighs(items: seq<Entry>, j: nat)
    requires j < |items| && items[j].IsOutput()
    ensures InteractionSize(items, j) == Weight(items, Interaction(items, j), 0)
  {
    hide Weight;
    var call, reasoning := CallOf(items, j), ReasoningOf(items, j);
    NothingWeighs(items, 0);
    OneMoreWeighs(items, {}, j, 0);
    assert {} + {j} == {j};
    if call.Some? {
      OneMoreWeighs(items, {j}, call.value, 0);
      if reasoning.Some? {
        OneMoreWeighs(items, {j} + {call.value}, reasoning.value, 0);
        assert Interaction(items, j) == {j} + {call.value} + {reasoning.value};
      } else {
        assert Interaction(items, j) == {j} + {call.value};
      }
    } else {
      assert Interaction(items, j) == {j};
    }
  }

  lemma AddingInteraction(items: seq<Entry>, selected: set<nat>, j: nat)
    requires j < |items|
    ensures Weight(items, selected + Interaction(items, j), 0) <= Weight(items, selected, 0) + InteractionSize(items, j)
  {
    hide Weight;
    var call, reasoning := CallOf(items, j), ReasoningOf(items, j);
    AddingFound(items, selected, Some(j));
    AddingFound(items, selected + {j}, call);
    AddingFound(items, selected + {j} + Found(call), reasoning);
    assert selected + Interaction(items, j) == selected + {j} + Found(call) + Found(reasoning);
  }

  /** What position `i` weighs when it is taken. */
  function UnitSize(items: seq<Entry>, i: nat): nat
    requires i < |items|
  {
    if items[i].IsOutput() then InteractionSize(items, i) else items[i].size
  }

  /** `first` is what was taken first; later units only use what is left of the budget. */
  ghost predicate Bounded(items: seq<Entry>, s: Choice, budget: nat) {
    && Weight(items, s.selected, 0) <= budget - s.remaining
    && (s.selected == {} ==> s.remaining == budget && s.excluded == {})
    && (s.selected != {} && items != [] ==> 0 <= s.remaining || budget - s.remaining <= UnitSize(items, |items| - 1))
  }

  lemma BoundedStep(items: seq<Entry>, s: Choice, budget: nat, i: nat)
    requires i < |items| && Bounded(items, s, budget) && (s.selected == {} ==> i == |items| - 1)
    ensures Bounded(items, Visit(items, s, i), budget) && Visit(items, s, i).selected != {}
  {
    hide Weight, Interaction, InteractionSize;
    AddingInteraction(items, s.selected, i);
    AddingFound(items, s.selected, Some(i));
    assert i in Interaction(items, i);
  }

  lemma {:induction false} ScanBounded(items: seq<Entry>, budget: nat, n: nat)
    requires n <= |items|
    ensures Bounded(items, Scan(items, budget, n), budget)
    ensures n < |items| ==> Scan(items, budget, n).selected != {}
    ensures n == |items| ==> Scan(items, budget, n) == Choice({}, {}, budget)
    decreases |items| - n
  {
    hide Visit;
    if n == |items| {
      NothingWeighs(items, 0);
    } else {
      ScanBounded(items, budget, n + 1);
      BoundedStep(items, Scan(items, budget, n + 1), budget, n);
    }
  }

  lemma {:induction false} NothingWeighs(items: seq<Entry>, n: nat)
    requires n <= |items|
    ensures Weight(items, {}, n) == 0
    decreases |items| - n
  {
    if n < |items| { NothingWeighs(items, n + 1); }
  }

  /**
   What is kept is at most the budget, or the size of the last unit alone: that
   one is taken first, whatever its size.
   */
  lemma SelectionIsBounded(items: seq<Entry>, budget: nat)
    requires items != []
    ensures var size, last := Total(Kept(items, Scan(items, budget, 0).selected, 0)), UnitSize(items, |items| - 1);
            size <= if budget < last then last else budget
  {
    hide Weight, Kept, Total;
    ScanBounded(items, budget, 0);
    KeptWeighs(items, Scan(items, budget, 0).selected, 0);
  }

  // ----- is the latest tool output always retained?

  /** Position `latest` is the last tool output of the turn. */
  ghost predicate IsLatest(items: seq<Entry>, latest: nat) {
    latest < |items| && items[latest].IsOutput() && forall k :: latest < k < |items| ==> !items[k].IsOutput()
  }

  /** What the items behind position `n` leave of the budget; the very last one is always taken. */
  function LeftBehind(items: seq<Entry>, budget: nat, n: nat): int
    requires n <= |items|
    decreases |items| - n
  {
    if n == |items| then budget
    else
      var left := LeftBehind(items, budget, n + 1);
      if n == |items| - 1 || items[n].size <= left then left - items[n].size else left
  }

  lemma {:induction false} TrailingScan(items: seq<Entry>, budget: nat, n: nat)
    requires n <= |items| && forall k :: n <= k < |items| ==> !items[k].IsOutput()
    ensures var s := Scan(items, budget, n);
            && s.remaining == LeftBehind(items, budget, n) && s.excluded == {}
            && (forall x <- s.selected :: n <= x) && (s.selected == {} <==> n == |items|)
    decreases |items| - n
  {
    if n < |items| { TrailingScan(items, budget, n + 1); }
  }

  /**
   The latest tool output is retained exactly when nothing was recorded after it,
   or its interaction fits into what those later items leave of the budget.
   */
  lemma LatestOutputKeptIff(items: seq<Entry>, budget: nat, latest: nat)
    requires WellFormedHistory(items) && IsLatest(items, latest)
    ensures latest in Scan(items, budget, 0).selected
       <==> latest == |items| - 1 || InteractionSize(items, latest) <= LeftBehind(items, budget, latest + 1)
  {
    hide Visit, Interaction, InteractionSize, LeftBehind;
    TrailingScan(items, budget, latest + 1);
    VisitLatest(items, Scan(items, budget, latest + 1), latest);
    assert Scan(items, budget, latest) == Visit(items, Scan(items, budget, latest + 1), latest);
    OutputsSettle(items, budget, 0, latest);
  }

  /**
   Any tool output is kept exactly when its interaction fits into what the later
   items leave, or when it is the very last item.
   */
  lemma OutputKeptIff(items: seq<Entry>, budget: nat, j: nat)
    requires j < |items| && items[j].IsOutput()
    ensures j in Scan(items, budget, 0).selected
       <==> j == |items| - 1 || InteractionSize(items, j) <= Scan(items, budget, j + 1).remaining
  {
    hide Visit, Interaction, InteractionSize, Bounded;
    NotYetVisited(items, budget, j + 1, j);
    VisitLatest(items, Scan(items, budget, j + 1), j);
    assert Scan(items, budget, j) == Visit(items, Scan(items, budget, j + 1), j);
    OutputsSettle(items, budget, 0, j);
    ScanBounded(items, budget, j + 1);
  }

  lemma VisitLatest(items: seq<Entry>, s: Choice, j: nat)
    requires j < |items| && items[j].IsOutput() && j !in s.selected
    ensures j in Visit(items, s, j).selected <==> Fits(s, InteractionSize(items, j))
  {
  }

  /** Once an output was visited, later visits do not change whether it is selected. */
  lemma {:induction false} OutputsSettle(items: seq<Entry>, budget: nat, n: nat, j: nat)
    requires n <= j < |items| && items[j].IsOutput()
    ensures j in Scan(items, budget, n).selected <==> j in Scan(items, budget, j).selected
    decreases j - n
  {
    hide InteractionSize;
    if n < j { OutputsSettle(items, budget, n + 1, j); }
  }

  /** An image returned by a tool is recorded after the output, and can push it out. */
  lemma LatestOutputCanBeDropped()
    ensures var items := [Entry(FunctionCall, "c", 2), Entry(FunctionOutput, "c", 9_000), Entry(Message, "", 400_000)];
            WellFormedHistory(items) && IsLatest(items, 1) && 1 !in Scan(items, 12_000, 0).selected
  {
    var items := [Entry(FunctionCall, "c", 2), Entry(FunctionOutput, "c", 9_000), Entry(Message, "", 400_000)];
    assert LeftBehind(items, 12_000, 3) == 12_000 && LeftBehind(items, 12_000, 2) == -388_000;
    LatestOutputKeptIff(items, 12_000, 1);
  }

  // ----- hosted calls

  /** A call other than a function call is only taken by its own visit or with its own result. */
  lemma HostedStep(items: seq<Entry>, s: Choice, n: nat, j: nat, i: nat)
    requires WellFormedHistory(items) && n < |items| && Answers(items, j, i) && items[i].kind.HostedCall?
    ensures n != i && n != j ==> (i in Visit(items, s, n).selected <==> i in s.selected)
    ensures i in s.selected ==> i in Visit(items, s, n).selected
    ensures n == j && i !in s.selected && j !in s.selected ==>
      (i in Visit(items, s, n).selected <==> j in Visit(items, s, n).selected)
    ensures n == i ==> (i in Visit(items, s, n).selected <==> i in s.selected || Fits(s, items[i].size))
  {
    hide MatchingCall, PrecedingReasoning, InteractionSize;
    AnswersItsCall(items, j, i);
    if items[n].IsOutput() {
      OneAnswer(items, n, j, i);
    }
  }

  /** Before a hosted call is visited it is selected exactly with its result. */
  lemma {:induction false} HostedWithResult(items: seq<Entry>, budget: nat, n: nat, j: nat, i: nat)
    requires WellFormedHistory(items) && Answers(items, j, i) && items[i].kind.HostedCall? && i < n <= |items|
    ensures i in Scan(items, budget, n).selected <==> j in Scan(items, budget, n).selected
    decreases |items| - n
  {
    hide Visit;
    if n < |items| {
      HostedWithResult(items, budget, n + 1, j, i);
      HostedStep(items, Scan(items, budget, n + 1), n, j, i);
      if n == j {
        NotYetVisited(items, budget, n + 1, j);
      } else {
        ResultStep(items, Scan(items, budget, n + 1), n, j);
      }
    }
  }

  /** Only its own visit selects an output. */
  lemma ResultStep(items: seq<Entry>, s: Choice, n: nat, j: nat)
    requires n < |items| && j < |items| && items[j].IsOutput() && n != j
    ensures j in Visit(items, s, n).selected <==> j in s.selected
  {
    hide InteractionSize;
  }

  lemma {:induction false} NotYetVisited(items: seq<Entry>, budget: nat, n: nat, j: nat)
    requires j < n <= |items| && items[j].IsOutput()
    ensures j !in Scan(items, budget, n).selected
    decreases |items| - n
  {
    hide Visit;
    if n < |items| {
      NotYetVisited(items, budget, n + 1, j);
      ResultStep(items, Scan(items, budget, n + 1), n, j);
    }
  }

  /** Once a hosted call was visited, it stays as it is. */
  lemma {:induction false} HostedSettles(items: seq<Entry>, budget: nat, n: nat, j: nat, i: nat)
    requires WellFormedHistory(items) && Answers(items, j, i) && items[i].kind.HostedCall? && n <= i
    ensures i in Scan(items, budget, n).selected <==> i in Scan(items, budget, i).selected
    decreases i - n
  {
    hide Visit;
    if n < i {
      HostedSettles(items, budget, n + 1, j, i);
      HostedStep(items, Scan(items, budget, n + 1), n, j, i);
    }
  }

  /** When the result at `j` is visited it is taken: it comes last, or its interaction still fits. */
  predicate ResultFits(items: seq<Entry>, budget: nat, j: nat)
    requires j < |items|
  {
    j == |items| - 1 || InteractionSize(items, j) <= Scan(items, budget, j + 1).remaining
  }

  /** When the call at `i` is visited it fits by itself. */
  predicate CallFits(items: seq<Entry>, budget: nat, i: nat)
    requires i < |items|
  {
    items[i].size <= Scan(items, budget, i + 1).remaining
  }

  /**
   A hosted call is kept exactly when its result fits as it is visited, or the call
   by itself does later: the skip of excluded calls covers function calls only.
   */
  lemma HostedCallKeptIff(items: seq<Entry>, budget: nat, j: nat, i: nat)
    requires WellFormedHistory(items) && Answers(items, j, i) && items[i].kind.HostedCall?
    ensures i in Scan(items, budget, 0).selected <==> ResultFits(items, budget, j) || CallFits(items, budget, i)
  {
    hide Visit, InteractionSize;
    OutputKeptIff(items, budget, j);
    HostedSettles(items, budget, 0, j, i);
    HostedWithResult(items, budget, i + 1, j, i);
    HostedStep(items, Scan(items, budget, i + 1), i, j, i);
    ScanBounded(items, budget, i + 1);
    OutputsSettle(items, budget, 0, j);
    OutputsSettle(items, budget, i + 1, j);
  }

  /** Call and result are kept or dropped together if and only if the result fits or the call alone does not. */
  lemma HostedPairTogetherIff(items: seq<Entry>, budget: nat, j: nat, i: nat)
    requires WellFormedHistory(items) && Answers(items, j, i) && items[i].kind.HostedCall?
    ensures var selected := Scan(items, budget, 0).selected;
            (i in selected <==> j in selected) <==> ResultFits(items, budget, j) || !CallFits(items, budget, i)
  {
    hide Scan, InteractionSize;
    HostedCallKeptIff(items, budget, j, i);
    OutputKeptIff(items, budget, j);
  }

  /** Such a call: what a hosted execution printed no longer fits, but the call does. */
  lemma HostedCallCanStayAlone()
    ensures var items := [Entry(HostedCall, "c", 180), Entry(HostedResult, "c", 11_900), Entry(Message, "", 300)];
            WellFormedHistory(items) && 0 in Scan(items, 12_000, 0).selected && 1 !in Scan(items, 12_000, 0).selected
  {
    var items := [Entry(HostedCall, "c", 180), Entry(HostedResult, "c", 11_900), Entry(Message, "", 300)];
    assert LeftBehind(items, 12_000, 3) == 12_000 && LeftBehind(items, 12_000, 2) == 11_700;
    LatestOutputKeptIff(items, 12_000, 1);
    TrailingScan(items, 12_000, 2);
    assert items[1].size <= InteractionSize(items, 1);
    assert Scan(items, 12_000, 1).remaining == 11_700;
    HostedCallKeptIff(items, 12_000, 1, 0);
  }
}
