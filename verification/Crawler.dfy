/**
 The concurrent crawler of `script/ute_lib.py`: workers share a visited set and a
 work queue, `main` seeds the queue, waits at `url_queue.join()` and then sends
 one sentinel per worker.  Every interleaving of the threads is a run of this
 machine; `enqueue` is two steps, because the lock is released before the put.
 */
module Crawler {
  import opened Prelude

  type Url = string

  datatype Phase =
    | Idle                                              // before `url_queue.get()`
    | Working(url: Url, discovered: Option<Url>)        // in `process_url`; maybe between lock and put
    | Finishing(ended: Option<Url>)                     // before `task_done`; no URL for a sentinel
    | Stopped

  datatype Main =
    | Seeding(next: nat, discovered: Option<Url>)
    | Joining
    | Closing(sentinels: nat)
    | Finished

  /** `unfinished` is the queue's own counter; `taken` and `finished` are history. */
  datatype State = State(
    visited: set<Url>, queue: seq<Option<Url>>, unfinished: nat,
    workers: seq<Phase>, main: Main, taken: seq<Url>, finished: seq<Url>)

  datatype Action =
    | Get(w: nat) | Discover(w: nat, link: string) | Put(w: nat) | End(w: nat) | TaskDone(w: nat)
    | Seed | PutSeed | StopSeeding | PassBarrier | PutSentinel | Exit

  /** What the crawler is started with; `normalize` yields nothing for a URL that is not crawled. */
  datatype Setup = Setup(seeds: seq<string>, workers: nat, normalize: string -> Option<Url>)

  function Start(setup: Setup): State {
    State({}, [], 0, seq(setup.workers, _ => Idle), Seeding(0, None), [], [])
  }

  function With(s: State, w: nat, p: Phase): State
    requires w < |s.workers|
  {
    s.(workers := s.workers[w := p])
  }

  /** The locked part of `enqueue`: what still has to be put. */
  function Claim(visited: set<Url>, link: string, setup: Setup): Option<Url> {
    var url := setup.normalize(link);
    if url.Some? && url.value !in visited then url else None
  }

  function Claimed(url: Option<Url>): set<Url> { if url.Some? then {url.value} else {} }

  function Queued(s: State, item: Option<Url>): State {
    s.(queue := s.queue + [item], unfinished := s.unfinished + 1)
  }

  /** The steps of worker `w`. */
  function WorkerStep(s: State, a: Action, setup: Setup): Option<State>
    requires a.Get? || a.Discover? || a.Put? || a.End? || a.TaskDone?
  {
    if a.w >= |s.workers| then None
    else match (a, s.workers[a.w])
      case (Get(w), Idle) =>
        if s.queue == [] then None
        else if s.queue[0].None? then Some(With(s, w, Finishing(None)).(queue := s.queue[1..]))
        else
          var url := s.queue[0].value;
          Some(With(s, w, Working(url, None)).(queue := s.queue[1..], taken := s.taken + [url]))
      case (Discover(w, link), Working(url, None)) =>
        var found := Claim(s.visited, link, setup);
        Some(With(s, w, Working(url, found)).(visited := s.visited + Claimed(found)))
      case (Put(w), Working(url, Some(found))) => Some(Queued(With(s, w, Working(url, None)), Some(found)))
      case (End(w), Working(url, None)) => Some(With(s, w, Finishing(Some(url))))
      case (TaskDone(w), Finishing(url)) =>
        if s.unfinished == 0 then None
        else if url.None? then Some(With(s, w, Stopped).(unfinished := s.unfinished - 1))
        else Some(With(s, w, Idle).(unfinished := s.unfinished - 1, finished := s.finished + [url.value]))
      case _ => None
  }

  function MainStep(s: State, a: Action, setup: Setup): Option<State> {
    match (a, s.main)
    case (Seed, Seeding(next, None)) =>
      if next >= |setup.seeds| then None
      else
        var found := Claim(s.visited, setup.seeds[next], setup);
        Some(s.(visited := s.visited + Claimed(found), main := Seeding(next + 1, found)))
    case (PutSeed, Seeding(next, Some(found))) => Some(Queued(s, Some(found)).(main := Seeding(next, None)))
    case (StopSeeding, Seeding(next, None)) => if next < |setup.seeds| then None else Some(s.(main := Joining))
    case (PassBarrier, Joining) => if s.unfinished == 0 then Some(s.(main := Closing(0))) else None
    case (PutSentinel, Closing(n)) =>
      if n < |s.workers| then Some(Queued(s, None).(main := Closing(n + 1))) else None
    case (Exit, Closing(n)) =>
      if n == |s.workers| && forall p <- s.workers :: p.Stopped? then Some(s.(main := Finished)) else None
    case _ => None
  }

  function Do(s: State, a: Action, setup: Setup): Option<State> {
    if a.Get? || a.Discover? || a.Put? || a.End? || a.TaskDone? then WorkerStep(s, a, setup) else MainStep(s, a, setup)
  }

  function Run(s: State, actions: seq<Action>, setup: Setup): Option<State>
    decreases actions
  {
    if actions == [] then Some(s)
    else
      var next := Do(s, actions[0], setup);
      if next.None? then None else Run(next.value, actions[1..], setup)
  }

  // ----- what is where

  function Count(workers: seq<Phase>, f: Phase -> bool): nat {
    if workers == [] then 0 else (if f(workers[0]) then 1 else 0) + Count(workers[1..], f)
  }

  predicate Busy(p: Phase) { p.Working? || p.Finishing? }

  /** Workers that took a sentinel. */
  predicate Released(p: Phase) { p.Stopped? || (p.Finishing? && p.ended.None?) }

  lemma {:induction false} CountUpdate(workers: seq<Phase>, w: nat, p: Phase, f: Phase -> bool)
    requires w < |workers|
    ensures Count(workers[w := p], f) == Count(workers, f) + (if f(p) then 1 else 0) - (if f(workers[w]) then 1 else 0)
  {
    if w == 0 {
      assert workers[w := p][1..] == workers[1..];
    } else {
      assert workers[w := p][1..] == workers[1..][w - 1 := p];
      CountUpdate(workers[1..], w - 1, p, f);
    }
  }

  lemma {:induction false} CountNone(workers: seq<Phase>, f: Phase -> bool)
    ensures Count(workers, f) == 0 <==> forall p <- workers :: !f(p)
  {
    if workers != [] {
      CountNone(workers[1..], f);
      assert workers == [workers[0]] + workers[1..];
    }
  }

  lemma {:induction false} CountAll(workers: seq<Phase>, f: Phase -> bool)
    ensures (forall p <- workers :: f(p)) ==> Count(workers, f) == |workers|
    ensures Count(workers, f) <= |workers|
  {
    if workers != [] { CountAll(workers[1..], f); }
  }

  /** Is the worker between marking this URL and putting it? */
  function Pends(url: Url): Phase -> bool { (p: Phase) => p.Working? && p.discovered == Some(url) }

  /** Is the worker processing this URL? */
  function Handles(url: Url): Phase -> bool {
    (p: Phase) => (p.Working? && p.url == url) || (p.Finishing? && p.ended == Some(url))
  }

  function One(b: bool): nat { if b then 1 else 0 }

  /** A visited URL is exactly once on its way to the queue, in the queue, or taken from it. */
  ghost predicate Accounted(s: State, url: Url) {
    One(url in s.visited) ==
      Count(s.workers, Pends(url)) + One(s.main.Seeding? && s.main.discovered == Some(url))
      + multiset(s.queue)[Some(url)] + multiset(s.taken)[url]
  }

  ghost predicate Partitioned(s: State) {
    forall url {:trigger Accounted(s, url)} :: Accounted(s, url)
  }

  /** What was taken is being processed or was processed. */
  ghost predicate Followed(s: State, url: Url) {
    multiset(s.taken)[url] == Count(s.workers, Handles(url)) + multiset(s.finished)[url]
  }

  ghost predicate Tracked(s: State) {
    forall url {:trigger Followed(s, url)} :: Followed(s, url)
  }

  /** The queue's counter counts what is queued and what is being worked on. */
  ghost predicate Counted(s: State) {
    s.unfinished == |s.queue| + Count(s.workers, Busy)
  }

  ghost predicate Closed(m: Main) { m.Closing? || m.Finished? }

  /** Before the barrier there are no sentinels; behind it there is nothing else, one per worker at most. */
  ghost predicate Phased(s: State) {
    if !Closed(s.main) then
      (forall q <- s.queue :: q.Some?) && forall p <- s.workers :: !Released(p)
    else
      && (forall q <- s.queue :: q.None?)
      && (forall p <- s.workers :: p.Idle? || Released(p))
      && (s.main.Closing? ==>
            && s.main.sentinels == |s.queue| + Count(s.workers, Released)
            && s.main.sentinels <= |s.workers|)
      && (s.main.Finished? ==> s.queue == [] && forall p <- s.workers :: p.Stopped?)
  }

  ghost predicate Inv(s: State) {
    Partitioned(s) && Tracked(s) && Counted(s) && Phased(s)
  }

  // ----- every step keeps the invariant

  lemma ClaimIsNew(visited: set<Url>, link: string, setup: Setup, url: Url)
    ensures var found := Claim(visited, link, setup);
            One(url in visited + Claimed(found)) == One(url in visited) + One(found == Some(url))
  {
  }

  lemma HeadLeaves<T>(q: seq<T>)
    requires q != []
    ensures multiset(q) == multiset{q[0]} + multiset(q[1..])
  {
    assert q == [q[0]] + q[1..];
  }

  lemma WorkerKeepsCounted(s: State, a: Action, setup: Setup)
    requires Counted(s) && (a.Get? || a.Discover? || a.Put? || a.End? || a.TaskDone?) && WorkerStep(s, a, setup).Some?
    ensures Counted(WorkerStep(s, a, setup).value)
  {
    hide Count, Claim;
    CountUpdate(s.workers, a.w, WorkerStep(s, a, setup).value.workers[a.w], Busy);
  }

  lemma WorkerKeepsFollowed(s: State, a: Action, setup: Setup, url: Url)
    requires Followed(s, url) && (a.Get? || a.Discover? || a.Put? || a.End? || a.TaskDone?)
             && WorkerStep(s, a, setup).Some?
    ensures Followed(WorkerStep(s, a, setup).value, url)
  {
    hide Count, Claim;
    CountUpdate(s.workers, a.w, WorkerStep(s, a, setup).value.workers[a.w], Handles(url));
  }

  lemma GetKeepsAccounted(s: State, w: nat, setup: Setup, url: Url)
    requires Accounted(s, url) && WorkerStep(s, Get(w), setup).Some?
    ensures Accounted(WorkerStep(s, Get(w), setup).value, url)
  {
    hide Count;
    CountUpdate(s.workers, w, WorkerStep(s, Get(w), setup).value.workers[w], Pends(url));
    HeadLeaves(s.queue);
  }

  lemma WorkerKeepsAccounted(s: State, a: Action, setup: Setup, url: Url)
    requires Accounted(s, url) && (a.Get? || a.Discover? || a.Put? || a.End? || a.TaskDone?)
             && WorkerStep(s, a, setup).Some?
    ensures Accounted(WorkerStep(s, a, setup).value, url)
  {
    hide Count, Claim, Claimed;
    if a.Get? {
      GetKeepsAccounted(s, a.w, setup, url);
    } else {
      CountUpdate(s.workers, a.w, WorkerStep(s, a, setup).value.workers[a.w], Pends(url));
      if a.Discover? {
        ClaimIsNew(s.visited, a.link, setup, url);
      }
    }
  }

  lemma WorkerKeepsPhased(s: State, a: Action, setup: Setup)
    requires Inv(s) && (a.Get? || a.Discover? || a.Put? || a.End? || a.TaskDone?) && WorkerStep(s, a, setup).Some?
    ensures Phased(WorkerStep(s, a, setup).value)
  {
    hide Count, Claim, Partitioned, Tracked, Counted;
    var t := WorkerStep(s, a, setup).value;
    CountUpdate(s.workers, a.w, t.workers[a.w], Released);
    assert s.workers[a.w] in s.workers && (s.queue != [] ==> s.queue[0] in s.queue);
    forall p | p in t.workers ensures p in s.workers || p == t.workers[a.w] {
    }
  }

  lemma MainKeepsCounted(s: State, a: Action, setup: Setup)
    requires Counted(s) && MainStep(s, a, setup).Some?
    ensures Counted(MainStep(s, a, setup).value)
  {
  }

  lemma MainKeepsFollowed(s: State, a: Action, setup: Setup, url: Url)
    requires Followed(s, url) && MainStep(s, a, setup).Some?
    ensures Followed(MainStep(s, a, setup).value, url)
  {
  }

  lemma MainKeepsAccounted(s: State, a: Action, setup: Setup, url: Url)
    requires Accounted(s, url) && MainStep(s, a, setup).Some?
    ensures Accounted(MainStep(s, a, setup).value, url)
  {
  }

  lemma MainKeepsPhased(s: State, a: Action, setup: Setup)
    requires Inv(s) && MainStep(s, a, setup).Some?
    ensures Phased(MainStep(s, a, setup).value)
  {
    hide Count, Claim, Partitioned, Tracked;
    if a.PassBarrier? {
      CountNone(s.workers, Busy);
      CountNone(s.workers, Released);
    }
    if a.Exit? {
      CountAll(s.workers, Released);
    }
  }

  lemma StepKeepsInv(s: State, a: Action, setup: Setup)
    requires Inv(s) && Do(s, a, setup).Some?
    ensures Inv(Do(s, a, setup).value)
  {
    hide Accounted, Followed, Counted, Phased, WorkerStep, MainStep;
    var t := Do(s, a, setup).value;
    if a.Get? || a.Discover? || a.Put? || a.End? || a.TaskDone? {
      WorkerKeepsCounted(s, a, setup);
      WorkerKeepsPhased(s, a, setup);
      forall url ensures Accounted(t, url) { WorkerKeepsAccounted(s, a, setup, url); }
      forall url ensures Followed(t, url) { WorkerKeepsFollowed(s, a, setup, url); }
    } else {
      MainKeepsCounted(s, a, setup);
      MainKeepsPhased(s, a, setup);
      forall url ensures Accounted(t, url) { MainKeepsAccounted(s, a, setup, url); }
      forall url ensures Followed(t, url) { MainKeepsFollowed(s, a, setup, url); }
    }
  }

  lemma StartInv(setup: Setup)
    ensures Inv(Start(setup))
  {
    var s := Start(setup);
    CountNone(s.workers, Busy);
    CountNone(s.workers, Released);
    forall url ensures Accounted(s, url) && Followed(s, url) {
      CountNone(s.workers, Pends(url));
      CountNone(s.workers, Handles(url));
    }
  }

  lemma {:induction false} RunKeepsInv(s: State, actions: seq<Action>, setup: Setup)
    requires Inv(s) && Run(s, actions, setup).Some?
    ensures Inv(Run(s, actions, setup).value)
    decreases actions
  {
    hide Inv, Do;
    if actions != [] {
      StepKeepsInv(s, actions[0], setup);
      RunKeepsInv(Do(s, actions[0], setup).value, actions[1..], setup);
    }
  }

  // ----- the guarantees

  /** Under every interleaving, each URL is taken from the queue at most once, and only after it was marked. */
  lemma ProcessedAtMostOnce(setup: Setup, actions: seq<Action>)
    requires Run(Start(setup), actions, setup).Some?
    ensures var s := Run(Start(setup), actions, setup).value;
            && (forall i, j :: 0 <= i < j < |s.taken| ==> s.taken[i] != s.taken[j])
            && (forall url <- s.taken :: url in s.visited)
  {
    hide Run;
    StartInv(setup);
    RunKeepsInv(Start(setup), actions, setup);
    TakenApart(Run(Start(setup), actions, setup).value);
  }

  lemma TakenApart(s: State)
    requires Partitioned(s)
    ensures forall i, j :: 0 <= i < j < |s.taken| ==> s.taken[i] != s.taken[j]
    ensures forall url <- s.taken :: url in s.visited
  {
    hide Count;
    forall i, j | 0 <= i < j < |s.taken| ensures s.taken[i] != s.taken[j] {
      assert Accounted(s, s.taken[j]);
      TwiceTaken(s.taken, i, j);
    }
    forall url | url in s.taken ensures url in s.visited {
      assert Accounted(s, url) && multiset(s.taken)[url] > 0;
    }
  }

  lemma TwiceTaken(q: seq<Url>, i: nat, j: nat)
    requires i < j < |q|
    ensures q[i] == q[j] ==> multiset(q)[q[j]] >= 2
  {
    assert q == q[..i] + [q[i]] + q[i + 1..j] + [q[j]] + q[j + 1..];
  }

  /** The barrier: once `join` has returned, everything visited was processed to the end,
      and no worker is in a position to enqueue again. */
  lemma BarrierIsSafe(setup: Setup, actions: seq<Action>)
    requires Run(Start(setup), actions, setup).Some? && Closed(Run(Start(setup), actions, setup).value.main)
    ensures var s := Run(Start(setup), actions, setup).value;
            && (forall url :: One(url in s.visited) == multiset(s.taken)[url] == multiset(s.finished)[url])
            && (forall p <- s.workers :: !p.Working?)
            && (forall q <- s.queue :: q.None?)
  {
    hide Run, Count;
    StartInv(setup);
    RunKeepsInv(Start(setup), actions, setup);
    var s := Run(Start(setup), actions, setup).value;
    forall url ensures One(url in s.visited) == multiset(s.taken)[url] == multiset(s.finished)[url] {
      NothingUnderway(s, url);
    }
  }

  lemma NothingUnderway(s: State, url: Url)
    requires Inv(s) && Closed(s.main)
    ensures One(url in s.visited) == multiset(s.taken)[url] == multiset(s.finished)[url]
  {
    hide Count, Counted;
    assert Accounted(s, url) && Followed(s, url);
    CountNone(s.workers, Pends(url));
    CountNone(s.workers, Handles(url));
    assert Some(url) !in s.queue;
  }

  // ----- what is crawled

  /** The normalised form of one of the first `next` seeds. */
  ghost predicate Seeded(setup: Setup, next: nat, url: Url) {
    exists k :: 0 <= k < next && k < |setup.seeds| && setup.normalize(setup.seeds[k]) == Some(url)
  }

  predicate Discovers(a: Action, setup: Setup, url: Url) { a.Discover? && setup.normalize(a.link) == Some(url) }

  /** The normalised form of a link that a worker looked at. */
  ghost predicate Linked(actions: seq<Action>, setup: Setup, url: Url) {
    exists a :: a in actions && Discovers(a, setup, url)
  }

  /** How many seeds `main` has looked at. */
  function SeedsDone(m: Main, setup: Setup): nat {
    if m.Seeding? then m.next else |setup.seeds|
  }

  /** Visited is what the seeds and the links looked at so far normalise to. */
  ghost predicate VisitedIsFound(s: State, actions: seq<Action>, setup: Setup) {
    && SeedsDone(s.main, setup) <= |setup.seeds|
    && forall url :: url in s.visited <==> Seeded(setup, SeedsDone(s.main, setup), url) || Linked(actions, setup, url)
  }

  lemma LinkedSnoc(actions: seq<Action>, a: Action, setup: Setup, url: Url)
    ensures Linked(actions + [a], setup, url) <==> Linked(actions, setup, url) || Discovers(a, setup, url)
  {
    if Linked(actions, setup, url) {
      var b :| b in actions && Discovers(b, setup, url);
      assert b in actions + [a];
    }
    assert a in actions + [a];
  }

  lemma SeededNext(setup: Setup, next: nat, url: Url)
    requires next < |setup.seeds|
    ensures Seeded(setup, next + 1, url) <==>
              Seeded(setup, next, url) || setup.normalize(setup.seeds[next]) == Some(url)
  {
  }

  /** Claiming a link adds exactly its normalised form. */
  lemma ClaimAdds(visited: set<Url>, link: string, setup: Setup, url: Url)
    ensures url in visited + Claimed(Claim(visited, link, setup)) <==>
              url in visited || setup.normalize(link) == Some(url)
  {
  }

  lemma StepFinds(s: State, a: Action, actions: seq<Action>, setup: Setup)
    requires VisitedIsFound(s, actions, setup) && Do(s, a, setup).Some?
    ensures VisitedIsFound(Do(s, a, setup).value, actions + [a], setup)
  {
    hide Claim, Claimed, Seeded, Linked;
    var t := Do(s, a, setup).value;
    forall url
      ensures url in t.visited <==> Seeded(setup, SeedsDone(t.main, setup), url) || Linked(actions + [a], setup, url)
    {
      LinkedSnoc(actions, a, setup, url);
      if a.Discover? {
        ClaimAdds(s.visited, a.link, setup, url);
      } else if a.Seed? {
        ClaimAdds(s.visited, setup.seeds[s.main.next], setup, url);
        SeededNext(setup, s.main.next, url);
      }
    }
  }

  lemma {:induction false} RunFinds(s: State, done: seq<Action>, actions: seq<Action>, setup: Setup)
    requires VisitedIsFound(s, done, setup) && Run(s, actions, setup).Some?
    ensures VisitedIsFound(Run(s, actions, setup).value, done + actions, setup)
    decreases actions
  {
    hide Do, VisitedIsFound;
    if actions == [] {
      assert done + actions == done;
    } else {
      StepFinds(s, actions[0], done, setup);
      RunFinds(Do(s, actions[0], setup).value, done + [actions[0]], actions[1..], setup);
      assert done + [actions[0]] + actions[1..] == done + actions;
    }
  }

  /**
   The barrier is complete: once `join` has returned, the normalised form of every
   seed and of every link that a worker found is visited and was processed exactly
   once, and nothing else was.
   */
  lemma EverythingFoundIsProcessed(setup: Setup, actions: seq<Action>, url: Url)
    requires Run(Start(setup), actions, setup).Some? && Closed(Run(Start(setup), actions, setup).value.main)
    ensures var s := Run(Start(setup), actions, setup).value;
            var found := (exists k :: 0 <= k < |setup.seeds| && setup.normalize(setup.seeds[k]) == Some(url))
              || exists a :: a in actions && Discovers(a, setup, url);
            (url in s.visited <==> found) && multiset(s.finished)[url] == if found then 1 else 0
  {
    hide Run;
    assert VisitedIsFound(Start(setup), [], setup);
    RunFinds(Start(setup), [], actions, setup);
    assert [] + actions == actions;
    BarrierIsSafe(setup, actions);
  }

  /** At the end every worker took exactly one of the sentinels, and none is left. */
  lemma OneSentinelEach(setup: Setup, actions: seq<Action>)
    requires Run(Start(setup), actions, setup).Some?
    ensures var s := Run(Start(setup), actions, setup).value;
            && (s.main.Closing? ==> s.main.sentinels == |s.queue| + Count(s.workers, Released))
            && (s.main.Finished? ==> s.queue == [] && s.unfinished == 0 && forall p <- s.workers :: p.Stopped?)
  {
    hide Run, Count;
    StartInv(setup);
    RunKeepsInv(Start(setup), actions, setup);
    var s := Run(Start(setup), actions, setup).value;
    if s.main.Finished? {
      CountNone(s.workers, Busy);
    }
  }

  /** With at least one worker the crawl never gets stuck: some thread can always go on,
      whatever its page still links to. */
  lemma NeverStuck(setup: Setup, s: State)
    requires Inv(s) && |s.workers| > 0 && !s.main.Finished?
    ensures exists a: Action :: !a.Discover? && Do(s, a, setup).Some?
  {
    hide Partitioned, Tracked, Count;
    if w :| 0 <= w < |s.workers| && Busy(s.workers[w]) {
      CountPositive(s.workers, w, Busy);
      BusyCanStep(setup, s, w);
    } else {
      assert forall p <- s.workers :: !Busy(p);
      CountNone(s.workers, Busy);
      QuietCanStep(setup, s);
    }
  }

  lemma {:induction false} CountPositive(workers: seq<Phase>, w: nat, f: Phase -> bool)
    requires w < |workers| && f(workers[w])
    ensures Count(workers, f) > 0
  {
    if w > 0 { CountPositive(workers[1..], w - 1, f); }
  }

  lemma BusyCanStep(setup: Setup, s: State, w: nat)
    requires w < |s.workers| && Busy(s.workers[w]) && s.unfinished > 0
    ensures exists a: Action :: !a.Discover? && Do(s, a, setup).Some?
  {
    match s.workers[w]
    case Working(_, None) => assert Do(s, End(w), setup).Some?;
    case Working(_, Some(_)) => assert Do(s, Put(w), setup).Some?;
    case Finishing(_) => assert Do(s, TaskDone(w), setup).Some?;
  }

  /** Nobody is working: the queue can be served, or `main` can go on. */
  lemma QuietCanStep(setup: Setup, s: State)
    requires Inv(s) && |s.workers| > 0 && !s.main.Finished? && forall p <- s.workers :: !Busy(p)
    ensures exists a: Action :: !a.Discover? && Do(s, a, setup).Some?
  {
    hide Partitioned, Tracked;
    CountNone(s.workers, Busy);
    assert s.workers[0] in s.workers;
    match s.main
    case Seeding(next, None) =>
      assert Do(s, if next < |setup.seeds| then Seed else StopSeeding, setup).Some?;
    case Seeding(_, Some(_)) => assert Do(s, PutSeed, setup).Some?;
    case Joining => assert Do(s, if s.queue == [] then PassBarrier else Get(0), setup).Some?;
    case Closing(n) => ClosingCanStep(setup, s);
  }

  lemma ClosingCanStep(setup: Setup, s: State)
    requires Phased(s) && s.main.Closing? && forall p <- s.workers :: !Busy(p)
    ensures exists a: Action :: !a.Discover? && Do(s, a, setup).Some?
  {
    hide Count;
    CountAll(s.workers, Released);
    if s.main.sentinels < |s.workers| {
      assert Do(s, PutSentinel, setup).Some?;
    } else if w :| 0 <= w < |s.workers| && s.workers[w].Idle? {
      FewerReleased(s.workers, w);
      assert Do(s, Get(w), setup).Some?;
    } else {
      assert forall p <- s.workers :: p.Stopped?;
      assert Do(s, Exit, setup).Some?;
    }
  }

  lemma {:induction false} FewerReleased(workers: seq<Phase>, w: nat)
    requires w < |workers| && workers[w].Idle?
    ensures Count(workers, Released) < |workers|
  {
    CountAll(workers[1..], Released);
    if w > 0 { FewerReleased(workers[1..], w - 1); }
  }

  // ----- the crawl ends

  /** Every URL that normalising can yield. */
  ghost predicate Confined(setup: Setup, universe: set<Url>) {
    forall link :: setup.normalize(link).Some? ==> setup.normalize(link).value in universe
  }

  /** What a worker still has to do: a discovered URL has to be put, a taken one finished. */
  function WorkerLeft(p: Phase): nat {
    match p
    case Working(_, found) => 2 + if found.Some? then 4 else 0
    case Finishing(_) => 1
    case _ => 0
  }

  function WorkersLeft(workers: seq<Phase>): nat {
    if workers == [] then 0 else WorkerLeft(workers[0]) + WorkersLeft(workers[1..])
  }

  function MainLeft(m: Main, seeds: nat, workers: nat): nat {
    match m
    case Seeding(next, found) => 4 * workers + 3 + (if next < seeds then seeds - next else 0)
        + (if found.Some? then 4 else 0)
    case Joining => 4 * workers + 2
    case Closing(n) => 1 + if n < workers then 4 * (workers - n) else 0
    case Finished => 0
  }

  /** A URL costs 5 steps before it is discovered, 4 until it is put, 3 in the queue, 2 in work and 1
      before `task_done`. */
  function Left(s: State, setup: Setup, universe: set<Url>): nat {
    5 * |universe - s.visited| + 3 * |s.queue| + WorkersLeft(s.workers) + MainLeft(s.main, |setup.seeds|, |s.workers|)
  }

  lemma {:induction false} WorkersLeftUpdate(workers: seq<Phase>, w: nat, p: Phase)
    requires w < |workers|
    ensures WorkersLeft(workers[w := p]) + WorkerLeft(workers[w]) == WorkersLeft(workers) + WorkerLeft(p)
  {
    if w == 0 {
      assert workers[w := p][1..] == workers[1..];
    } else {
      assert workers[w := p][1..] == workers[1..][w - 1 := p];
      WorkersLeftUpdate(workers[1..], w - 1, p);
    }
  }

  /** Marking a new URL leaves one less to discover; marking none leaves everything as it is. */
  lemma ClaimShrinks(visited: set<Url>, link: string, setup: Setup, universe: set<Url>)
    requires Confined(setup, universe)
    ensures var found := Claim(visited, link, setup);
            |universe - (visited + Claimed(found))| + One(found.Some?) == |universe - visited|
  {
    var found := Claim(visited, link, setup);
    if found.Some? {
      assert universe - (visited + Claimed(found)) == (universe - visited) - {found.value};
    } else {
      assert universe - (visited + Claimed(found)) == universe - visited;
    }
  }

  lemma WorkerMovesOn(s: State, a: Action, setup: Setup, universe: set<Url>)
    requires Confined(setup, universe) && (a.Get? || a.Discover? || a.Put? || a.End? || a.TaskDone?)
    requires WorkerStep(s, a, setup).Some?
    ensures var t := WorkerStep(s, a, setup).value;
            Left(t, setup, universe) < Left(s, setup, universe) || (a.Discover? && t == s)
  {
    hide WorkersLeft, Claim, Claimed, Confined;
    var t := WorkerStep(s, a, setup).value;
    WorkersLeftUpdate(s.workers, a.w, t.workers[a.w]);
    if a.Discover? {
      ClaimShrinks(s.visited, a.link, setup, universe);
      if Claim(s.visited, a.link, setup).None? {
        NothingClaimed(s, a.w);
      }
    }
  }

  lemma NothingClaimed(s: State, w: nat)
    requires w < |s.workers|
    ensures s.visited + Claimed(None) == s.visited && s.workers[w := s.workers[w]] == s.workers
  {
  }

  lemma MainMovesOn(s: State, a: Action, setup: Setup, universe: set<Url>)
    requires Confined(setup, universe) && MainStep(s, a, setup).Some?
    ensures Left(MainStep(s, a, setup).value, setup, universe) < Left(s, setup, universe)
  {
    hide WorkersLeft, Claim, Claimed, Confined;
    if a.Seed? {
      ClaimShrinks(s.visited, setup.seeds[s.main.next], setup, universe);
    }
  }

  /** How many actions of a run change the state; looking at a link that is known or not crawled changes nothing. */
  function Moves(s: State, actions: seq<Action>, setup: Setup): nat
    decreases actions
  {
    if actions == [] || Do(s, actions[0], setup).None? then 0
    else
      var t := Do(s, actions[0], setup).value;
      (if t == s then 0 else 1) + Moves(t, actions[1..], setup)
  }

  /**
   With finitely many URLs to find, the crawl ends: under every interleaving the
   number of steps that change anything is bounded.
   */
  lemma {:induction false} CrawlEnds(s: State, actions: seq<Action>, setup: Setup, universe: set<Url>)
    requires Confined(setup, universe) && Run(s, actions, setup).Some?
    ensures Moves(s, actions, setup) + Left(Run(s, actions, setup).value, setup, universe) <= Left(s, setup, universe)
    decreases actions
  {
    hide Left, WorkerStep, MainStep, Confined;
    if actions != [] {
      var a := actions[0];
      if a.Get? || a.Discover? || a.Put? || a.End? || a.TaskDone? {
        WorkerMovesOn(s, a, setup, universe);
      } else {
        MainMovesOn(s, a, setup, universe);
      }
      CrawlEnds(Do(s, a, setup).value, actions[1..], setup, universe);
    }
  }
}
