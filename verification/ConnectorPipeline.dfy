/**
 One connector run: discovered changes are deduplicated, deletions are applied,
 and changed items are fetched in batches and written to the index sink
 (`connector/pipeline.py`).
 */
module ConnectorPipeline {
  import opened Prelude

  datatype ChangeType = Created | Updated | Deleted

  datatype Document = Document(id: string, provider: string, isDocument: bool, image: bool)

  datatype Chunk = Chunk(id: string, itemId: string, index: nat, text: string)

  /** A discovered change, with the item when the source sent it along. */
  datatype Change = Change(kind: ChangeType, itemId: string, item: Option<Document>)

  /** What the index holds of every live item. */
  type Sink = map<string, seq<Chunk>>

  /** How a sink call ends.  One that raises may have touched its own item. */
  datatype WriteAnswer = Wrote(count: int) | WriteRaised(left: Option<seq<Chunk>>)
  datatype DeleteAnswer = SoftDeleted | DeleteRaised(gone: bool)

  /** The connector, the chunker and the sink, as this run meets them. */
  datatype World = World(
    source: string,
    fetch: string -> Option<Document>,
    chunks: Document -> Option<seq<Chunk>>,
    write: (Document, seq<Chunk>) -> WriteAnswer,
    delete: string -> DeleteAnswer)

  datatype Operation = Hierarchy | Delete | Fetch | Process

  datatype Failure = Failure(itemId: string, operation: Operation)

  // ----- deduplication

  /** The position of the last change of an item. */
  function LastIndex(changes: seq<Change>, id: string): (r: Option<nat>)
    ensures r.Some? ==> r.value < |changes| && changes[r.value].itemId == id
    ensures forall k :: (if r.Some? then r.value else -1) < k < |changes| ==> changes[k].itemId != id
  {
    if changes == [] then None
    else if changes[|changes| - 1].itemId == id then Some(|changes| - 1)
    else LastIndex(changes[..|changes| - 1], id)
  }

  ghost predicate DistinctItems(changes: seq<Change>) {
    forall i, j :: 0 <= i < j < |changes| ==> changes[i].itemId != changes[j].itemId
  }

  /** `c` is the last change of its item. */
  ghost predicate IsLast(changes: seq<Change>, c: Change) {
    LastIndex(changes, c.itemId).Some? && changes[LastIndex(changes, c.itemId).value] == c
  }

  ghost predicate Earlier(changes: seq<Change>, a: Change, b: Change) {
    IsLast(changes, a) && IsLast(changes, b) && LastIndex(changes, a.itemId).value < LastIndex(changes, b.itemId).value
  }

  /** Last changes, in the order in which they were discovered. */
  ghost predicate InOrder(changes: seq<Change>, d: seq<Change>) {
    && (forall i :: 0 <= i < |d| ==> IsLast(changes, d[i]))
    && (forall i, j :: 0 <= i < j < |d| ==> Earlier(changes, d[i], d[j]))
  }

  ghost predicate Has(d: seq<Change>, id: string) {
    exists i :: 0 <= i < |d| && d[i].itemId == id
  }

  /** `d` is the last change of every item, in the order of those last changes. */
  ghost predicate Deduplicated(changes: seq<Change>, d: seq<Change>) {
    InOrder(changes, d) && forall id :: LastIndex(changes, id).Some? ==> Has(d, id)
  }

  /** `dict.pop`. */
  function Without(d: seq<Change>, id: string): (r: seq<Change>)
    ensures forall c <- r :: c in d && c.itemId != id
  {
    if d == [] then []
    else Without(d[..|d| - 1], id) + if d[|d| - 1].itemId == id then [] else [d[|d| - 1]]
  }

  lemma HasShorter(d: seq<Change>, x: string)
    requires d != []
    ensures Has(d, x) <==> Has(d[..|d| - 1], x) || d[|d| - 1].itemId == x
  {
  }

  lemma HasMore(d: seq<Change>, c: Change, x: string)
    ensures Has(d + [c], x) <==> Has(d, x) || c.itemId == x
  {
    HasShorter(d + [c], x);
    assert (d + [c])[..|d|] == d;
  }

  /** Popping an item keeps every other item, in its order. */
  lemma {:induction false} WithoutKeeps(changes: seq<Change>, d: seq<Change>, id: string)
    requires InOrder(changes, d)
    ensures InOrder(changes, Without(d, id)) && forall x :: x != id && Has(d, x) ==> Has(Without(d, id), x)
    decreases d
  {
    hide LastIndex, Has, Earlier, IsLast;
    if d != [] {
      var shorter, last := d[..|d| - 1], d[|d| - 1];
      WithoutKeeps(changes, shorter, id);
      var rest := Without(shorter, id);
      forall i | 0 <= i < |rest| ensures Earlier(changes, rest[i], last) {
        assert rest[i] in shorter;
        var k :| 0 <= k < |shorter| && shorter[k] == rest[i];
        assert d[k] == rest[i];
      }
      forall x | x != id && Has(d, x) ensures Has(Without(d, id), x) {
        HasShorter(d, x);
        HasMore(rest, last, x);
        assert rest + [] == rest;
      }
    }
  }

  lemma LastIndexSnoc(changes: seq<Change>, c: Change, id: string)
    ensures LastIndex(changes + [c], id) == if c.itemId == id then Some(|changes|) else LastIndex(changes, id)
  {
  }

  lemma DeduplicatedSnoc(changes: seq<Change>, d: seq<Change>, c: Change)
    requires Deduplicated(changes, d)
    ensures Deduplicated(changes + [c], Without(d, c.itemId) + [c])
  {
    hide LastIndex, Without, Has;
    var more, rest := changes + [c], Without(d, c.itemId);
    WithoutKeeps(changes, d, c.itemId);
    forall x ensures LastIndex(more, x) == if c.itemId == x then Some(|changes|) else LastIndex(changes, x) {
      LastIndexSnoc(changes, c, x);
    }
    forall i | 0 <= i < |rest| ensures IsLast(more, rest[i]) && rest[i].itemId != c.itemId {
      assert IsLast(changes, rest[i]) && rest[i] in rest;
    }
    forall x | LastIndex(more, x).Some? ensures Has(rest + [c], x) {
      HasMore(rest, c, x);
    }
  }

  /** `_deduplicate_changes`: popping and reinserting moves an item to the end of the dict. */
  method DeduplicateChanges(changes: seq<Change>) returns (d: seq<Change>)
    ensures Deduplicated(changes, d)
  {
    hide LastIndex, Without, Deduplicated;
    d := [];
    NothingDeduplicated();
    for k := 0 to |changes|
      invariant Deduplicated(changes[..k], d)
    {
      DeduplicatedSnoc(changes[..k], d, changes[k]);
      d := Without(d, changes[k].itemId) + [changes[k]];
      assert changes[..k + 1] == changes[..k] + [changes[k]];
    }
    assert changes[..|changes|] == changes;
  }

  lemma NothingDeduplicated()
    ensures Deduplicated([], [])
  {
  }

  /** One change per item. */
  lemma DeduplicatedIsDistinct(changes: seq<Change>, d: seq<Change>)
    requires Deduplicated(changes, d)
    ensures DistinctItems(d)
  {
  }

  /** There is only one deduplication. */
  lemma {:induction false} DeduplicationIsUnique(changes: seq<Change>, d: seq<Change>, e: seq<Change>)
    requires InOrder(changes, d) && InOrder(changes, e) && forall id :: Has(d, id) <==> Has(e, id)
    ensures d == e
    decreases |d|
  {
    hide LastIndex, Has;
    if d == [] || e == [] {
      BothEmpty(d, e);
    } else {
      SameLast(changes, d, e);
      var a, b, last := d[..|d| - 1], e[..|e| - 1], d[|d| - 1];
      forall id ensures Has(a, id) <==> Has(b, id) {
        HasShorter(d, id);
        HasShorter(e, id);
        LastOnlyOnce(changes, d);
        LastOnlyOnce(changes, e);
      }
      DeduplicationIsUnique(changes, a, b);
      assert d == a + [last] && e == b + [last];
    }
  }

  lemma BothEmpty(d: seq<Change>, e: seq<Change>)
    requires (d == [] || e == []) && forall id :: Has(d, id) <==> Has(e, id)
    ensures d == e
  {
    if d != [] {
      assert Has(d, d[0].itemId);
    }
    if e != [] {
      assert Has(e, e[0].itemId);
    }
  }

  lemma LastOnlyOnce(changes: seq<Change>, d: seq<Change>)
    requires InOrder(changes, d) && d != []
    ensures !Has(d[..|d| - 1], d[|d| - 1].itemId)
  {
  }

  lemma SameLast(changes: seq<Change>, d: seq<Change>, e: seq<Change>)
    requires InOrder(changes, d) && InOrder(changes, e) && d != [] && e != [] && forall id :: Has(d, id) <==> Has(e, id)
    ensures d[|d| - 1] == e[|e| - 1]
  {
    hide LastIndex;
    var x, y := d[|d| - 1], e[|e| - 1];
    assert Has(d, x.itemId) && Has(e, y.itemId);
    var i :| 0 <= i < |e| && e[i].itemId == x.itemId;
    var j :| 0 <= j < |d| && d[j].itemId == y.itemId;
    assert IsLast(changes, x) && IsLast(changes, e[i]) && IsLast(changes, y) && IsLast(changes, d[j]);
  }

  // ----- one item

  /** A document of this connector's source, for this change. */
  predicate Belongs(item: Document, c: Change, w: World) {
    item.id == c.itemId && item.provider == w.source && item.isDocument
  }

  /** `_load_item`. */
  function Load(c: Change, w: World): (r: Option<Document>)
    ensures r.Some? ==> r.value.id == c.itemId && r.value.provider == w.source && r.value.isDocument
    ensures r.None? ==> c.item.Some? || w.fetch(c.itemId) == None || !Belongs(w.fetch(c.itemId).value, c, w)
    ensures c.item.Some? ==> (r.Some? <==> Belongs(c.item.value, c, w))
    ensures r.Some? ==> r == (if c.item.Some? then c.item else w.fetch(c.itemId))
  {
    var item := if c.item.Some? then c.item else w.fetch(c.itemId);
    if item.Some? && Belongs(item.value, c, w) then item else None
  }

  /** What `_chunks_for` accepts: chunks of this item, with distinct ids and indexes. */
  ghost predicate ChunksOk(item: Document, chunks: seq<Chunk>) {
    && (chunks == [] ==> item.image)
    && (forall c <- chunks :: c.itemId == item.id)
    && (forall i, j :: 0 <= i < j < |chunks| ==> chunks[i].id != chunks[j].id && chunks[i].index != chunks[j].index)
  }

  /** The checks of `_chunks_for`. */
  method CheckChunks(item: Document, chunks: seq<Chunk>) returns (ok: bool)
    ensures ok <==> ChunksOk(item, chunks)
  {
    if chunks == [] {
      return item.image;
    }
    var seenIds: set<string>, seenIndexes: set<nat> := {}, {};
    for k := 0 to |chunks|
      invariant forall id :: id in seenIds <==> exists i :: 0 <= i < k && chunks[i].id == id
      invariant forall x :: x in seenIndexes <==> exists i :: 0 <= i < k && chunks[i].index == x
      invariant forall i :: 0 <= i < k ==> chunks[i].itemId == item.id
      invariant forall i, j :: 0 <= i < j < k ==> chunks[i].id != chunks[j].id && chunks[i].index != chunks[j].index
    {
      if chunks[k].itemId != item.id {
        return false;
      }
      if chunks[k].id in seenIds || chunks[k].index in seenIndexes {
        return false;
      }
      seenIds, seenIndexes := seenIds + {chunks[k].id}, seenIndexes + {chunks[k].index};
    }
    return true;
  }

  /** The chunks a change leads to, when loading and chunking succeed. */
  ghost function Content(c: Change, w: World): Option<seq<Chunk>> {
    var item := Load(c, w);
    if item.None? then None
    else
      var chunks := w.chunks(item.value);
      if chunks.Some? && ChunksOk(item.value, chunks.value) then chunks else None
  }

  // ----- the run

  /** The state of a run. */
  datatype Progress = Progress(sink: Sink, failures: seq<Failure>, deleted: nat, replaced: nat, written: int)

  function Put(sink: Sink, id: string, left: Option<seq<Chunk>>): Sink {
    if left.Some? then sink[id := left.value] else sink - {id}
  }

  function Failed(p: Progress, id: string, operation: Operation): Progress {
    p.(failures := p.failures + [Failure(id, operation)])
  }

  /** What one deduplicated change does. */
  ghost function Apply(p: Progress, c: Change, w: World): Progress {
    if c.kind.Deleted? then
      match w.delete(c.itemId)
      case SoftDeleted => p.(sink := p.sink - {c.itemId}, deleted := p.deleted + 1)
      case DeleteRaised(gone) => Failed(p.(sink := if gone then p.sink - {c.itemId} else p.sink), c.itemId, Delete)
    else if Load(c, w).None? then Failed(p, c.itemId, Fetch)
    else if Content(c, w).None? then Failed(p, c.itemId, Process)
    else
      var chunks := Content(c, w).value;
      match w.write(Load(c, w).value, chunks)
      case Wrote(count) =>
        var q := p.(sink := p.sink[c.itemId := chunks]);
        if count < 0 then Failed(q, c.itemId, Process) else q.(replaced := q.replaced + 1, written := q.written + count)
      case WriteRaised(left) => Failed(p.(sink := Put(p.sink, c.itemId, left)), c.itemId, Process)
  }

  ghost function ApplyAll(p: Progress, changes: seq<Change>, w: World): Progress
    decreases changes
  {
    if changes == [] then p else ApplyAll(Apply(p, changes[0], w), changes[1..], w)
  }

  lemma {:induction false} ApplyAllSnoc(p: Progress, changes: seq<Change>, c: Change, w: World)
    ensures ApplyAll(p, changes + [c], w) == Apply(ApplyAll(p, changes, w), c, w)
    decreases changes
  {
    hide Apply;
    if changes == [] {
      assert [c][1..] == [];
    } else {
      assert (changes + [c])[1..] == changes[1..] + [c];
      ApplyAllSnoc(Apply(p, changes[0], w), changes[1..], c, w);
    }
  }

  function Deletions(d: seq<Change>): seq<Change> {
    if d == [] then []
    else Deletions(d[..|d| - 1]) + if d[|d| - 1].kind.Deleted? then [d[|d| - 1]] else []
  }

  function Upserts(d: seq<Change>): seq<Change> {
    if d == [] then []
    else Upserts(d[..|d| - 1]) + if d[|d| - 1].kind.Deleted? then [] else [d[|d| - 1]]
  }

  /** The order in which a run applies the changes: deletions first. */
  function Order(d: seq<Change>): seq<Change> { Deletions(d) + Upserts(d) }

  datatype PipelineResult = PipelineResult(
    checkpoint: nat, advanced: bool, discovered: nat, processed: nat, written: int, deleted: nat, replaced: nat,
    failures: seq<Failure>)

  class ConnectorPipeline {
    const fetchConcurrency: nat
    const continueOnError: bool
    const world: World
    var sink: Sink

    constructor (fetchConcurrency: nat, continueOnError: bool, world: World, sink: Sink)
      requires fetchConcurrency >= 1
      ensures this.fetchConcurrency == fetchConcurrency && this.continueOnError == continueOnError
      ensures this.world == world && this.sink == sink
    {
      this.fetchConcurrency, this.continueOnError := fetchConcurrency, continueOnError;
      this.world, this.sink := world, sink;
    }

    method ApplyDeletion(c: Change, ghost p: Progress) returns (failure: Option<Failure>)
      requires c.kind.Deleted? && p.sink == sink
      modifies this
      ensures var q := Apply(p, c, world);
              && sink == q.sink && q.failures == p.failures + (if failure.Some? then [failure.value] else [])
              && q.deleted == p.deleted + (if failure.Some? then 0 else 1) && q.replaced == p.replaced
              && q.written == p.written
    {
      match world.delete(c.itemId)
      case SoftDeleted =>
        sink := sink - {c.itemId};
        return None;
      case DeleteRaised(gone) =>
        if gone {
          sink := sink - {c.itemId};
        }
        return Some(Failure(c.itemId, Delete));
    }

    /** The inner part of the upsert loop, for one loaded change. */
    method ApplyUpsert(c: Change, loaded: Option<Document>, ghost p: Progress)
      returns (failure: Option<Failure>, count: int)
      requires !c.kind.Deleted? && p.sink == sink && loaded == Load(c, world)
      modifies this
      ensures var q := Apply(p, c, world);
              && sink == q.sink && q.failures == p.failures + (if failure.Some? then [failure.value] else [])
              && q.replaced == p.replaced + (if failure.Some? then 0 else 1) && q.deleted == p.deleted
              && q.written == p.written + count
    {
      count := 0;
      if loaded.None? {
        return Some(Failure(c.itemId, Fetch)), 0;
      }
      var chunks := world.chunks(loaded.value);
      if chunks.None? {
        return Some(Failure(c.itemId, Process)), 0;
      }
      var ok := CheckChunks(loaded.value, chunks.value);
      if !ok {
        return Some(Failure(c.itemId, Process)), 0;
      }
      match world.write(loaded.value, chunks.value)
      case Wrote(n) =>
        sink := sink[c.itemId := chunks.value];
        if n < 0 {
          return Some(Failure(c.itemId, Process)), 0;
        }
        return None, n;
      case WriteRaised(left) =>
        sink := Put(sink, c.itemId, left);
        return Some(Failure(c.itemId, Process)), 0;
    }

    /** The deletion loop. */
    method ApplyDeletions(d: seq<Change>, ghost p: Progress) returns (failures: seq<Failure>, deleted: nat)
      requires p.sink == sink
      modifies this
      ensures var q := ApplyAll(p, Deletions(d), world);
              q == Progress(sink, p.failures + failures, p.deleted + deleted, p.replaced, p.written)
    {
      hide Apply;
      failures, deleted := [], 0;
      assert p.failures + [] == p.failures;
      for k := 0 to |d|
        invariant ApplyAll(p, Deletions(d[..k]), world)
                  == Progress(sink, p.failures + failures, p.deleted + deleted, p.replaced, p.written)
      {
        assert d[..k + 1][..k] == d[..k];
        if d[k].kind.Deleted? {
          ghost var now := ApplyAll(p, Deletions(d[..k]), world);
          ApplyAllSnoc(p, Deletions(d[..k]), d[k], world);
          var failure := ApplyDeletion(d[k], now);
          if failure.Some? {
            assert p.failures + failures + [failure.value] == p.failures + (failures + [failure.value]);
            failures := failures + [failure.value];
          } else {
            assert p.failures + failures + [] == p.failures + failures;
            deleted := deleted + 1;
          }
        } else {
          assert Deletions(d[..k]) + [] == Deletions(d[..k]);
        }
      }
      assert d[..|d|] == d;
    }

    /** The upsert loop: batches are loaded together and then written one by one. */
    method ApplyUpserts(changed: seq<Change>, ghost p: Progress)
      returns (failures: seq<Failure>, replaced: nat, written: int)
      requires p.sink == sink && fetchConcurrency >= 1 && forall c <- changed :: !c.kind.Deleted?
      modifies this
      ensures var q := ApplyAll(p, changed, world);
              q == Progress(sink, p.failures + failures, p.deleted, p.replaced + replaced, p.written + written)
    {
      hide Apply, Load;
      failures, replaced, written := [], 0, 0;
      assert p.failures + [] == p.failures;
      var start := 0;
      while start < |changed|
        invariant 0 <= start <= |changed|
        invariant ApplyAll(p, changed[..start], world)
                  == Progress(sink, p.failures + failures, p.deleted, p.replaced + replaced, p.written + written)
      {
        var stop := if start + fetchConcurrency < |changed| then start + fetchConcurrency else |changed|;
        var loaded := seq(stop - start, k requires 0 <= k < stop - start => Load(changed[start + k], world));
        for k := 0 to stop - start
          invariant ApplyAll(p, changed[..start + k], world)
                    == Progress(sink, p.failures + failures, p.deleted, p.replaced + replaced, p.written + written)
        {
          var c := changed[start + k];
          assert c in changed && changed[..start + k + 1] == changed[..start + k] + [c];
          ghost var now := ApplyAll(p, changed[..start + k], world);
          ApplyAllSnoc(p, changed[..start + k], c, world);
          var failure, count := ApplyUpsert(c, loaded[k], now);
          if failure.Some? {
            assert p.failures + failures + [failure.value] == p.failures + (failures + [failure.value]);
            failures := failures + [failure.value];
          } else {
            assert p.failures + failures + [] == p.failures + failures;
            replaced := replaced + 1;
          }
          written := written + count;
        }
        start := stop;
      }
      assert changed[..|changed|] == changed;
    }

    /** `run_scope`: `hierarchy` says whether the hierarchy was fetched and written,
        `next` is the connector's next checkpoint. */
    method RunScope(changes: seq<Change>, hierarchy: bool, checkpoint: nat, next: nat)
      returns (result: PipelineResult, raised: bool, ghost d: seq<Change>)
      requires fetchConcurrency >= 1
      modifies this
      ensures Deduplicated(changes, d) && result.discovered == |d|
      ensures var scope := if hierarchy then [] else [Failure("<scope>", Hierarchy)];
              var q := ApplyAll(Progress(old(sink), scope, 0, 0, 0), Order(d), world);
              && q == Progress(sink, result.failures, result.deleted, result.replaced, result.written)
              && result.processed == result.replaced
      ensures result.advanced <==> result.failures == []
      ensures result.checkpoint == if result.advanced then next else checkpoint
      ensures raised <==> result.failures != [] && !continueOnError
      ensures Reports(if hierarchy then [] else [Failure("<scope>", Hierarchy)], result.failures, d, world)
      ensures result.deleted == |Succeeded(d, true, world)| && result.replaced == |Succeeded(d, false, world)|
      ensures result.written == Sum(Counts(Upserts(d), world))
    {
      hide ApplyAll, Deduplicated, Apply, Reports, Succeeded, Counts, Order, DistinctItems;
      var deduplicated := DeduplicateChanges(changes);
      d := deduplicated;
      var failures := if hierarchy then [] else [Failure("<scope>", Hierarchy)];
      ghost var p := Progress(sink, failures, 0, 0, 0);
      var deletionFailures, deleted := ApplyDeletions(deduplicated, p);
      failures := failures + deletionFailures;
      var changed := Upserts(deduplicated);
      UpsertsAreNoDeletions(deduplicated);
      ghost var q := ApplyAll(p, Deletions(d), world);
      var upsertFailures, replaced, written := ApplyUpserts(changed, q);
      ApplyAllAppend(p, Deletions(d), changed, world);
      assert Order(d) == Deletions(d) + changed by { OrderIs(d); }
      DeduplicatedIsDistinct(changes, d);
      OrderIsDistinct(d);
      RunReports(p, Order(d), world);
      SameReports(p.failures, ApplyAll(p, Order(d), world).failures, d, world);
      failures := failures + upsertFailures;
      var advanced := failures == [];
      result := PipelineResult(if advanced then next else checkpoint, advanced, |deduplicated|, replaced, written,
                               deleted, replaced, failures);
      raised := failures != [] && !continueOnError;
    }
  }

  lemma {:induction false} ApplyAllAppend(p: Progress, a: seq<Change>, b: seq<Change>, w: World)
    ensures ApplyAll(p, a + b, w) == ApplyAll(ApplyAll(p, a, w), b, w)
    decreases a
  {
    hide Apply;
    if a == [] {
      assert a + b == b;
    } else {
      assert (a + b)[1..] == a[1..] + b;
      ApplyAllAppend(Apply(p, a[0], w), a[1..], b, w);
    }
  }

  lemma {:induction false} UpsertsAreNoDeletions(d: seq<Change>)
    ensures forall c <- Upserts(d) :: !c.kind.Deleted?
    ensures |Deletions(d)| + |Upserts(d)| == |d|
    ensures forall c :: c in Order(d) <==> c in d
  {
    if d != [] {
      UpsertsAreNoDeletions(d[..|d| - 1]);
      assert d == d[..|d| - 1] + [d[|d| - 1]];
    }
  }

  /** The reordered changes still concern every item once. */
  lemma {:induction false} OrderIsDistinct(d: seq<Change>)
    requires DistinctItems(d)
    ensures DistinctItems(Order(d))
  {
    if d != [] {
      var rest, last := d[..|d| - 1], d[|d| - 1];
      OrderIsDistinct(rest);
      UpsertsAreNoDeletions(rest);
      forall c | c in Order(rest) ensures c.itemId != last.itemId {
        assert c in rest;
      }
      LastIsReordered(d, rest, last);
    }
  }

  lemma LastIsReordered(d: seq<Change>, rest: seq<Change>, last: Change)
    requires d != [] && rest == d[..|d| - 1] && last == d[|d| - 1]
    requires DistinctItems(Order(rest)) && forall c <- Order(rest) :: c.itemId != last.itemId
    ensures DistinctItems(Order(d))
  {
    var deletions, upserts := Deletions(rest), Upserts(rest);
    assert Order(d) == if last.kind.Deleted? then deletions + [last] + upserts else deletions + (upserts + [last]);
    hide Deletions, Upserts;
    forall i, j | 0 <= i < j < |Order(d)| ensures Order(d)[i].itemId != Order(d)[j].itemId {
      ReorderedApart(deletions, upserts, last, i, j);
    }
  }

  lemma ReorderedApart(deletions: seq<Change>, upserts: seq<Change>, last: Change, i: nat, j: nat)
    requires DistinctItems(deletions + upserts) && forall c <- deletions + upserts :: c.itemId != last.itemId
    requires i < j <= |deletions| + |upserts|
    ensures (deletions + [last] + upserts)[i].itemId != (deletions + [last] + upserts)[j].itemId
    ensures (deletions + (upserts + [last]))[i].itemId != (deletions + (upserts + [last]))[j].itemId
  {
    var both, n := deletions + upserts, |deletions|;
    var a, b := deletions + [last] + upserts, deletions + (upserts + [last]);
    assert forall k :: 0 <= k < n ==> a[k] == both[k];
    assert forall k :: n < k <= |both| ==> a[k] == both[k - 1];
    assert forall k :: 0 <= k < |both| ==> b[k] == both[k];
    assert forall k :: 0 <= k < |both| ==> both[k] in both;
  }

  // ----- what a run leaves behind

  /** The sink holds what this change asks for. */
  ghost predicate Holds(sink: Sink, c: Change, w: World) {
    if c.kind.Deleted? then c.itemId !in sink
    else Content(c, w).Some? && c.itemId in sink && sink[c.itemId] == Content(c, w).value
  }

  ghost predicate SameItem(a: Sink, b: Sink, id: string) {
    (id in a <==> id in b) && (id in a ==> a[id] == b[id])
  }

  ghost predicate Reported(failures: seq<Failure>, c: Change) {
    exists k :: 0 <= k < |failures| && failures[k].itemId == c.itemId && !failures[k].operation.Hierarchy?
  }

  lemma ApplyIsLocal(p: Progress, c: Change, w: World)
    ensures var q := Apply(p, c, w);
            && (forall id :: id != c.itemId ==> SameItem(p.sink, q.sink, id))
            && p.failures <= q.failures && (Holds(q.sink, c, w) || Reported(q.failures, c))
            && q.deleted + q.replaced + |q.failures| == p.deleted + p.replaced + |p.failures| + 1
            && (q.failures == p.failures ==> Holds(q.sink, c, w))
  {
    hide Load, Content;
    var q := Apply(p, c, w);
    if q.failures != p.failures {
      assert q.failures[|p.failures|].itemId == c.itemId && !q.failures[|p.failures|].operation.Hierarchy?;
    }
  }

  lemma ReportedStays(a: seq<Failure>, b: seq<Failure>, c: Change)
    requires a <= b && Reported(a, c)
    ensures Reported(b, c)
  {
  }

  ghost predicate Outside(changes: seq<Change>, id: string) {
    forall c <- changes :: c.itemId != id
  }

  /**
   Whatever fails, every deduplicated change is either in the sink or reported as
   a failure, other items are untouched, and the counters account for all of them.
   */
  lemma {:induction false} RunAccounts(p: Progress, changes: seq<Change>, w: World)
    requires DistinctItems(changes)
    ensures var q := ApplyAll(p, changes, w);
            && p.failures <= q.failures
            && q.deleted + q.replaced + |q.failures| == p.deleted + p.replaced + |p.failures| + |changes|
            && (forall c <- changes :: Holds(q.sink, c, w) || Reported(q.failures, c))
            && (q.failures == p.failures ==> forall c <- changes :: Holds(q.sink, c, w))
            && (forall id :: Outside(changes, id) ==> SameItem(p.sink, q.sink, id))
    decreases changes
  {
    hide Apply, Content, Reported;
    if changes != [] {
      var c, rest := changes[0], changes[1..];
      var next := Apply(p, c, w);
      ApplyIsLocal(p, c, w);
      RunAccounts(next, rest, w);
      var q := ApplyAll(next, rest, w);
      assert Outside(rest, c.itemId);
      assert Holds(next.sink, c, w) ==> Holds(q.sink, c, w);
      if Reported(next.failures, c) { ReportedStays(next.failures, q.failures, c); }
      forall x | x in changes ensures x == c || x in rest {}
      forall id | Outside(changes, id) ensures SameItem(p.sink, q.sink, id) {
        assert c in changes && Outside(rest, id) && SameItem(p.sink, next.sink, id) && SameItem(next.sink, q.sink, id);
      }
    }
  }

  // ----- what a run reports

  /** The item of a change: the one that was sent along, or the one that is fetched. */
  function ItemOf(c: Change, w: World): Option<Document> {
    if c.item.Some? then c.item else w.fetch(c.itemId)
  }

  /** The deletion of the item raised. */
  predicate DeletionFails(c: Change, w: World) { c.kind.Deleted? && w.delete(c.itemId).DeleteRaised? }

  /** There is no item, or it is not a document of this change and this source. */
  predicate LoadingFails(c: Change, w: World) {
    && !c.kind.Deleted?
    && (ItemOf(c, w).None? || ItemOf(c, w).value.id != c.itemId || ItemOf(c, w).value.provider != w.source
        || !ItemOf(c, w).value.isDocument)
  }

  /** The document is loaded, and its chunking failed, its write raised, or the sink counted below zero. */
  ghost predicate ProcessingFails(c: Change, w: World) {
    && !c.kind.Deleted? && !LoadingFails(c, w)
    && var item := ItemOf(c, w).value;
       || w.chunks(item).None? || !ChunksOk(item, w.chunks(item).value)
       || w.write(item, w.chunks(item).value).WriteRaised?
       || w.write(item, w.chunks(item).value).count < 0
  }

  /** The operation of a change that failed. */
  ghost predicate FailsAt(c: Change, operation: Operation, w: World) {
    match operation
    case Hierarchy => false
    case Delete => DeletionFails(c, w)
    case Fetch => LoadingFails(c, w)
    case Process => ProcessingFails(c, w)
  }

  ghost predicate Fails(c: Change, w: World) {
    DeletionFails(c, w) || LoadingFails(c, w) || ProcessingFails(c, w)
  }

  /** What the sink counted for a change that was written. */
  ghost function CountOf(c: Change, w: World): int
    requires !c.kind.Deleted? && !Fails(c, w)
  {
    var item := ItemOf(c, w).value;
    w.write(item, w.chunks(item).value).count
  }

  ghost function Succeeded(changes: seq<Change>, deletions: bool, w: World): set<Change> {
    set c | c in changes && c.kind.Deleted? == deletions && !Fails(c, w)
  }

  /** The counts of the changes that were written, in order. */
  ghost function Counts(changes: seq<Change>, w: World): seq<int> {
    if changes == [] then []
    else
      (if !changes[0].kind.Deleted? && !Fails(changes[0], w) then [CountOf(changes[0], w)] else [])
      + Counts(changes[1..], w)
  }

  function Sum(counts: seq<int>): int {
    if counts == [] then 0 else counts[0] + Sum(counts[1..])
  }

  lemma SumFirst(x: int, rest: seq<int>)
    ensures Sum([x] + rest) == x + Sum(rest) && Sum([] + rest) == Sum(rest)
  {
    assert ([x] + rest)[1..] == rest && [] + rest == rest;
  }

  /** One change is reported exactly when it fails, by its operation, and counted exactly otherwise. */
  lemma ApplyReports(p: Progress, c: Change, w: World)
    ensures var q, ok := Apply(p, c, w), !Fails(c, w);
            && (ok ==> q.failures == p.failures)
            && (!ok ==> |q.failures| == |p.failures| + 1 && q.failures[..|p.failures|] == p.failures
                        && q.failures[|p.failures|].itemId == c.itemId
                        && FailsAt(c, q.failures[|p.failures|].operation, w))
            && q.deleted == p.deleted + (if c.kind.Deleted? && ok then 1 else 0)
            && q.replaced == p.replaced + (if !c.kind.Deleted? && ok then 1 else 0)
            && q.written == p.written + (if !c.kind.Deleted? && ok then CountOf(c, w) else 0)
  {
    hide ChunksOk;
  }

  /** A change fails at one operation at most. */
  lemma FailsOnce(c: Change, a: Operation, b: Operation, w: World)
    requires FailsAt(c, a, w) && FailsAt(c, b, w)
    ensures a == b
  {
    hide ProcessingFails;
    if a.Process? || b.Process? {
      ProcessingIsLast(c, w);
    }
  }

  lemma ProcessingIsLast(c: Change, w: World)
    ensures ProcessingFails(c, w) ==> !DeletionFails(c, w) && !LoadingFails(c, w)
  {
  }

  /** The new failures are exactly those of the changes. */
  ghost predicate Reports(before: seq<Failure>, failures: seq<Failure>, changes: seq<Change>, w: World) {
    && |failures| >= |before| && failures[..|before|] == before
    && (forall f <- failures[|before|..] ::
          exists c :: c in changes && c.itemId == f.itemId && FailsAt(c, f.operation, w))
    && (forall c, operation :: c in changes && FailsAt(c, operation, w) ==>
          Failure(c.itemId, operation) in failures[|before|..])
  }

  /**
   Whatever goes wrong in a run: a failure is reported for a change exactly when its
   deletion raised, or its loading, chunking or writing failed, with that operation;
   the counters are the numbers of the changes that succeeded, and the written count
   is the sum of what the sink counted for them.
   */
  lemma {:induction false} RunReports(p: Progress, changes: seq<Change>, w: World)
    requires DistinctItems(changes)
    ensures var q := ApplyAll(p, changes, w);
            && Reports(p.failures, q.failures, changes, w)
            && q.deleted == p.deleted + |Succeeded(changes, true, w)|
            && q.replaced == p.replaced + |Succeeded(changes, false, w)|
            && q.written == p.written + Sum(Counts(changes, w))
    decreases changes
  {
    hide Apply, Fails, FailsAt, Reports, Succeeded;
    if changes == [] {
      NothingReported(p.failures, w);
    } else {
      var c, rest := changes[0], changes[1..];
      var next := Apply(p, c, w);
      assert changes == [c] + rest;
      ApplyReports(p, c, w);
      RunReports(next, rest, w);
      var q := ApplyAll(next, rest, w);
      ReportsMore(p.failures, next.failures, q.failures, c, rest, w);
      SucceededMore(c, rest, w);
      if !c.kind.Deleted? && !Fails(c, w) {
        SumFirst(CountOf(c, w), Counts(rest, w));
      } else {
        SumFirst(0, Counts(rest, w));
      }
    }
  }

  /** The sink holds these chunks for the item, or nothing. */
  predicate Stores(sink: Sink, id: string, chunks: Option<seq<Chunk>>) {
    if chunks.Some? then id in sink && sink[id] == chunks.value else id !in sink
  }

  /** What a change leaves of its item: what the sink answered, or what was there when the sink was not asked. */
  ghost predicate Leaves(before: Sink, after: Sink, c: Change, w: World) {
    if c.kind.Deleted? then
      match w.delete(c.itemId)
      case SoftDeleted => Stores(after, c.itemId, None)
      case DeleteRaised(gone) => if gone then Stores(after, c.itemId, None) else SameItem(before, after, c.itemId)
    else if LoadingFails(c, w) || w.chunks(ItemOf(c, w).value).None?
      || !ChunksOk(ItemOf(c, w).value, w.chunks(ItemOf(c, w).value).value) then
      SameItem(before, after, c.itemId)
    else
      match w.write(ItemOf(c, w).value, w.chunks(ItemOf(c, w).value).value)
      case Wrote(_) => Stores(after, c.itemId, w.chunks(ItemOf(c, w).value))
      case WriteRaised(left) => Stores(after, c.itemId, left)
  }

  lemma ApplyLeaves(p: Progress, c: Change, w: World)
    ensures Leaves(p.sink, Apply(p, c, w).sink, c, w)
  {
    hide ChunksOk;
  }

  lemma LeavesThrough(a: Sink, b: Sink, x: Sink, y: Sink, c: Change, w: World)
    requires Leaves(b, x, c, w) && SameItem(a, b, c.itemId) && SameItem(x, y, c.itemId)
    ensures Leaves(a, y, c, w)
  {
    hide ChunksOk, LoadingFails;
  }

  /** A run leaves of every item exactly what its change leaves of it, whatever fails. */
  lemma {:induction false} RunLeaves(p: Progress, changes: seq<Change>, w: World)
    requires DistinctItems(changes)
    ensures forall c <- changes :: Leaves(p.sink, ApplyAll(p, changes, w).sink, c, w)
    decreases changes
  {
    hide Apply, Leaves, SameItem;
    if changes != [] {
      var first, rest := changes[0], changes[1..];
      var next := Apply(p, first, w);
      var q := ApplyAll(next, rest, w);
      RunLeaves(next, rest, w);
      RunAccounts(next, rest, w);
      ApplyLeaves(p, first, w);
      ApplyIsLocal(p, first, w);
      forall c | c in changes ensures Leaves(p.sink, q.sink, c, w) {
        if c in rest {
          var i :| 0 <= i < |rest| && rest[i] == c;
          assert changes[i + 1] == c && changes[0] == first;
          SameItself(q.sink, c.itemId);
          LeavesThrough(p.sink, next.sink, q.sink, q.sink, c, w);
        } else {
          assert c == first && Outside(rest, c.itemId);
          SameItself(p.sink, c.itemId);
          LeavesThrough(p.sink, p.sink, next.sink, q.sink, c, w);
        }
      }
    }
  }

  lemma SameItself(sink: Sink, id: string)
    ensures SameItem(sink, sink, id)
  {
  }

  lemma NothingReported(failures: seq<Failure>, w: World)
    ensures Reports(failures, failures, [], w) && Succeeded([], true, w) == {} == Succeeded([], false, w)
  {
  }

  lemma OrderIs(d: seq<Change>)
    ensures Order(d) == Deletions(d) + Upserts(d)
  {
  }

  /** Deletions first or not: the same changes are reported and counted. */
  lemma SameReports(before: seq<Failure>, failures: seq<Failure>, d: seq<Change>, w: World)
    requires Reports(before, failures, Order(d), w)
    ensures Reports(before, failures, d, w)
    ensures Succeeded(Order(d), true, w) == Succeeded(d, true, w)
    ensures Succeeded(Order(d), false, w) == Succeeded(d, false, w)
    ensures Counts(Order(d), w) == Counts(Upserts(d), w)
  {
    hide Order, Fails, FailsAt;
    UpsertsAreNoDeletions(d);
    OrderIs(d);
    CountsOfDeletions(d, Upserts(d), w);
  }

  lemma {:induction false} CountsAppend(a: seq<Change>, b: seq<Change>, w: World)
    ensures Counts(a + b, w) == Counts(a, w) + Counts(b, w)
    decreases a
  {
    hide Fails;
    if a == [] {
      assert a + b == b;
    } else {
      assert (a + b)[1..] == a[1..] + b;
      CountsAppend(a[1..], b, w);
    }
  }

  lemma CountsOfDeletions(d: seq<Change>, rest: seq<Change>, w: World)
    ensures Counts(Deletions(d) + rest, w) == Counts(rest, w)
  {
    CountsAppend(Deletions(d), rest, w);
    NoCounts(d, w);
  }

  lemma {:induction false} NoCounts(d: seq<Change>, w: World)
    ensures Counts(Deletions(d), w) == []
  {
    hide Fails;
    if d != [] {
      var last := d[|d| - 1];
      NoCounts(d[..|d| - 1], w);
      if last.kind.Deleted? {
        CountsAppend(Deletions(d[..|d| - 1]), [last], w);
        assert [last][1..] == [] && Counts([last], w) == Counts([], w);
      } else {
        assert Deletions(d[..|d| - 1]) + [] == Deletions(d[..|d| - 1]);
      }
    }
  }

  lemma ReportsMore(a: seq<Failure>, b: seq<Failure>, q: seq<Failure>, c: Change, rest: seq<Change>, w: World)
    requires Reports(b, q, rest, w)
    requires !Fails(c, w) ==> b == a
    requires Fails(c, w) ==> |b| == |a| + 1 && b[..|a|] == a && b[|a|].itemId == c.itemId
                             && FailsAt(c, b[|a|].operation, w)
    ensures Reports(a, q, [c] + rest, w)
  {
    hide DeletionFails, LoadingFails, ProcessingFails;
    assert q[..|a|] == a;
    forall f | f in q[|a|..]
      ensures exists x :: x in [c] + rest && x.itemId == f.itemId && FailsAt(x, f.operation, w)
    {
      if f in q[|b|..] {
        var x :| x in rest && x.itemId == f.itemId && FailsAt(x, f.operation, w);
        assert x in [c] + rest;
      } else {
        assert q[|a|..] == b[|a|..] + q[|b|..];
        assert f == b[|a|] && c in [c] + rest;
      }
    }
    forall x, operation | x in [c] + rest && FailsAt(x, operation, w)
      ensures Failure(x.itemId, operation) in q[|a|..]
    {
      assert q[|a|..] == b[|a|..] + q[|b|..];
      if x == c {
        FailsOnce(c, operation, b[|a|].operation, w);
        assert b[|a|] in b[|a|..];
      }
    }
  }

  lemma SucceededMore(c: Change, rest: seq<Change>, w: World)
    requires DistinctItems([c] + rest)
    ensures |Succeeded([c] + rest, true, w)|
         == |Succeeded(rest, true, w)| + if c.kind.Deleted? && !Fails(c, w) then 1 else 0
    ensures |Succeeded([c] + rest, false, w)|
         == |Succeeded(rest, false, w)| + if !c.kind.Deleted? && !Fails(c, w) then 1 else 0
  {
    hide Fails;
    var changes := [c] + rest;
    forall i | 0 <= i < |rest| ensures rest[i] != c {
      assert changes[i + 1] == rest[i] && changes[0] == c;
    }
    forall kind: bool
      ensures Succeeded(changes, kind, w)
           == Succeeded(rest, kind, w) + if c.kind.Deleted? == kind && !Fails(c, w) then {c} else {}
    {
    }
  }

  // ----- in-order replay, last writer wins

  /** The simple semantics: every raw change applied in its order. */
  ghost function Replay(sink: Sink, changes: seq<Change>, w: World): Sink {
    if changes == [] then sink
    else
      var before, c := Replay(sink, changes[..|changes| - 1], w), changes[|changes| - 1];
      if c.kind.Deleted? then before - {c.itemId}
      else if Content(c, w).Some? then before[c.itemId := Content(c, w).value]
      else before
  }

  /** Replay is decided, item by item, by the last change. */
  lemma {:induction false} ReplayIsLatest(sink: Sink, changes: seq<Change>, w: World, id: string)
    ensures var last, after := LastIndex(changes, id), Replay(sink, changes, w);
            && (last.None? ==> SameItem(sink, after, id))
            && (last.Some? && (changes[last.value].kind.Deleted? || Content(changes[last.value], w).Some?)
                ==> Holds(after, changes[last.value], w))
  {
    hide Content;
    if changes != [] {
      ReplayIsLatest(sink, changes[..|changes| - 1], w, id);
    }
  }

  /** One run over a list of changes: how its scope and its world went. */
  datatype Attempt = Attempt(scope: seq<Failure>, world: World)

  ghost function RunOn(sink: Sink, d: seq<Change>, run: Attempt): Progress {
    ApplyAll(Progress(sink, run.scope, 0, 0, 0), Order(d), run.world)
  }

  /** The sink after some runs over the same changes, each with failures of its own. */
  ghost function AfterRuns(sink: Sink, d: seq<Change>, runs: seq<Attempt>): Sink {
    if runs == [] then sink else RunOn(AfterRuns(sink, d, runs[..|runs| - 1]), d, runs[|runs| - 1]).sink
  }

  lemma {:induction false} RunsStayInside(sink: Sink, d: seq<Change>, runs: seq<Attempt>, id: string)
    requires DistinctItems(Order(d)) && Outside(Order(d), id)
    ensures SameItem(sink, AfterRuns(sink, d, runs), id)
  {
    hide Order, ApplyAll, Outside;
    if runs != [] {
      var before, last := AfterRuns(sink, d, runs[..|runs| - 1]), runs[|runs| - 1];
      RunsStayInside(sink, d, runs[..|runs| - 1], id);
      RunAccounts(Progress(before, last.scope, 0, 0, 0), Order(d), last.world);
    }
  }

  /**
   Retry safety: however many runs over some changes failed, and wherever, a rerun
   over them without a failure leaves the sink as replaying the raw changes in
   their order would have left it before the first of those runs.
   */
  lemma RerunRefinesReplay(sink: Sink, changes: seq<Change>, d: seq<Change>, failed: seq<Attempt>, last: Attempt)
    requires Deduplicated(changes, d) && RunOn(AfterRuns(sink, d, failed), d, last).failures == []
    ensures RunOn(AfterRuns(sink, d, failed), d, last).sink == Replay(sink, changes, last.world)
  {
    hide ApplyAll, Order, Deduplicated, Content, Replay, LastIndex, Outside, AfterRuns;
    DeduplicatedIsDistinct(changes, d);
    OrderIsDistinct(d);
    UpsertsAreNoDeletions(d);
    var left := AfterRuns(sink, d, failed);
    RunAccounts(Progress(left, last.scope, 0, 0, 0), Order(d), last.world);
    var after, replay := RunOn(left, d, last).sink, Replay(sink, changes, last.world);
    forall id ensures SameItem(after, replay, id) {
      ReplayIsLatest(sink, changes, last.world, id);
      if Outside(Order(d), id) {
        RunsStayInside(sink, d, failed, id);
        assert SameItem(left, after, id);
      }
      ItemRefines(sink, changes, d, Order(d), last.world, id, after, replay);
    }
    SameSink(after, replay);
  }

  /**
   A run without failures leaves the sink as replaying the raw changes in their
   order would, although it deduplicates them, deletes first and writes in batches.
   */
  lemma RunRefinesReplay(sink: Sink, changes: seq<Change>, d: seq<Change>, scope: seq<Failure>, w: World)
    requires Deduplicated(changes, d)
    requires ApplyAll(Progress(sink, scope, 0, 0, 0), Order(d), w).failures == []
    ensures ApplyAll(Progress(sink, scope, 0, 0, 0), Order(d), w).sink == Replay(sink, changes, w)
  {
    hide ApplyAll, Order, Deduplicated, Replay;
    RerunRefinesReplay(sink, changes, d, [], Attempt(scope, w));
  }

  lemma SameSink(a: Sink, b: Sink)
    requires forall id :: SameItem(a, b, id)
    ensures a == b
  {
    assert forall id :: id in a <==> id in b by {
      forall id ensures id in a <==> id in b { assert SameItem(a, b, id); }
    }
    assert a.Keys == b.Keys;
    forall id | id in a ensures a[id] == b[id] { assert SameItem(a, b, id); }
  }

  lemma ItemRefines(sink: Sink, changes: seq<Change>, d: seq<Change>, order: seq<Change>, w: World, id: string,
      after: Sink, replay: Sink)
    requires Deduplicated(changes, d) && (forall c :: c in order <==> c in d)
    requires (forall c <- order :: Holds(after, c, w)) && (Outside(order, id) ==> SameItem(sink, after, id))
    requires LastIndex(changes, id).None? ==> SameItem(sink, replay, id)
    requires var last := LastIndex(changes, id);
             last.Some? && (changes[last.value].kind.Deleted? || Content(changes[last.value], w).Some?) ==>
                 Holds(replay, changes[last.value], w)
    ensures SameItem(after, replay, id)
  {
    hide Content, LastIndex;
    var last := LastIndex(changes, id);
    if last.None? {
      forall c | c in order ensures c.itemId != id {
        var k :| 0 <= k < |d| && d[k] == c;
        assert IsLast(changes, d[k]);
      }
    } else {
      assert Has(d, id);
      var k :| 0 <= k < |d| && d[k].itemId == id;
      assert IsLast(changes, d[k]) && d[k] in order;
      assert Holds(after, d[k], w);
    }
  }
}
