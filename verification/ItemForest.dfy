/**
 The item hierarchy and the row trigger that guards it
 (`bothesis_validate_item_parent` and the CHECK constraints of `db/models.py`).
 */
module ItemForest {
  import opened Prelude

  type Id = nat

  datatype ItemType = Collection | Document

  /** A row of `items`; `deleted` is a non-null `deleted_at`. */
  datatype Row = Row(tenant: nat, kind: ItemType, parent: Option<Id>, deleted: bool)

  type Table = map<Id, Row>

  /** Every parent exists and has a smaller rank than its children. */
  ghost predicate Ranked(t: Table, rank: map<Id, nat>) {
    && rank.Keys == t.Keys
    && forall x <- t :: t[x].parent.Some? ==> t[x].parent.value in t && rank[t[x].parent.value] < rank[x]
  }

  ghost predicate Forest(t: Table) {
    exists rank :: Ranked(t, rank)
  }

  /** What one parent link has to satisfy. */
  predicate LinkOk(child: Row, parent: Row) {
    parent.tenant == child.tenant && (child.kind.Collection? ==> parent.kind.Collection?)
  }

  /** The invariants of the hierarchy. */
  ghost predicate Hierarchy(t: Table) {
    && Forest(t)
    && forall x <- t :: if t[x].parent.None? then t[x].kind.Collection? else LinkOk(t[x], t[t[x].parent.value])
  }

  /** The rows of the recursive ancestry query: an item and everything above it. */
  ghost function Ancestry(t: Table, rank: map<Id, nat>, x: Id): seq<Id>
    requires Ranked(t, rank) && x in t
    decreases rank[x]
  {
    if t[x].parent.None? then [x] else [x] + Ancestry(t, rank, t[x].parent.value)
  }

  /** The query does not depend on the rank that shows it terminates. */
  lemma {:induction false} AncestryIsUnique(t: Table, a: map<Id, nat>, b: map<Id, nat>, x: Id)
    requires Ranked(t, a) && Ranked(t, b) && x in t
    ensures Ancestry(t, a, x) == Ancestry(t, b, x)
    decreases a[x]
  {
    if t[x].parent.Some? { AncestryIsUnique(t, a, b, t[x].parent.value); }
  }

  /** The trigger function, for a row about to be stored under `id`. */
  ghost predicate Accepts(t: Table, rank: map<Id, nat>, id: Id, row: Row)
    requires Ranked(t, rank)
  {
    if row.parent.None? then row.kind.Collection?
    else
      var p := row.parent.value;
      && p in t && !t[p].deleted && t[p].tenant == row.tenant
      && (row.kind.Collection? ==> t[p].kind.Collection?)
      && id !in Ancestry(t, rank, p)
  }

  /** The children of `id` tolerate the stored row. */
  ghost predicate ChildrenTolerate(t: Table, id: Id, row: Row) {
    forall c <- t :: c != id && t[c].parent == Some(id) ==> LinkOk(t[c], row)
  }

  /** The parent, if any, may take new children. */
  predicate ParentLives(t: Table, row: Row) {
    row.parent.Some? ==> row.parent.value in t && !t[row.parent.value].deleted
  }

  // ----- the trigger keeps a forest

  /** Moving `id` and everything below it below `p`. */
  ghost function Reranked(t: Table, rank: map<Id, nat>, id: Id, row: Row): map<Id, nat>
    requires Ranked(t, rank)
    requires row.parent.Some? ==> row.parent.value in t
  {
    map x | x in t.Keys + {id} ::
      if x !in t then (if row.parent.Some? then rank[row.parent.value] + 1 else 0)
      else if id in Ancestry(t, rank, x) && row.parent.Some? then rank[x] + rank[row.parent.value] + 1
      else rank[x]
  }

  lemma AncestryStep(t: Table, rank: map<Id, nat>, x: Id, id: Id)
    requires Ranked(t, rank) && x in t
    ensures id in Ancestry(t, rank, x) <==> x == id || (t[x].parent.Some? && id in Ancestry(t, rank, t[x].parent.value))
  {
  }

  lemma {:induction false} AncestryInTable(t: Table, rank: map<Id, nat>, x: Id, y: Id)
    requires Ranked(t, rank) && x in t && y in Ancestry(t, rank, x)
    ensures y in t
    decreases rank[x]
  {
    AncestryStep(t, rank, x, y);
    if x != y { AncestryInTable(t, rank, t[x].parent.value, y); }
  }

  lemma AcceptedIsRanked(t: Table, rank: map<Id, nat>, id: Id, row: Row)
    requires Ranked(t, rank) && Accepts(t, rank, id, row)
    ensures Ranked(t[id := row], Reranked(t, rank, id, row))
  {
  }

  /** In a forest nothing is its own ancestor: a rank falls along every ancestry. */
  lemma {:induction false} RankFalls(t: Table, rank: map<Id, nat>, u: Table, rank': map<Id, nat>, id: Id, row: Row,
      x: Id)
    requires Ranked(t, rank) && u == t[id := row] && Ranked(u, rank')
    requires x in t && id in Ancestry(t, rank, x)
    ensures rank'[id] <= rank'[x]
    decreases rank[x]
  {
    AncestryStep(t, rank, x, id);
    if x != id {
      RankFalls(t, rank, u, rank', id, row, t[x].parent.value);
    }
  }

  /**
   The trigger, exactly: in a sound table it accepts a row if and only if the
   parent is not deleted and the hierarchy stays sound, as far as the links of
   the row itself are concerned.  The links of its children are not looked at.
   */
  lemma TriggerIsExact(t: Table, rank: map<Id, nat>, id: Id, row: Row)
    requires Hierarchy(t) && Ranked(t, rank)
    ensures Accepts(t, rank, id, row) ==> (Hierarchy(t[id := row]) <==> ChildrenTolerate(t, id, row))
    ensures Hierarchy(t[id := row]) && ParentLives(t, row) ==> Accepts(t, rank, id, row)
  {
    if Accepts(t, rank, id, row) {
      AcceptedKeepsHierarchy(t, rank, id, row);
    }
    if Hierarchy(t[id := row]) && ParentLives(t, row) {
      SoundIsAccepted(t, rank, id, row);
    }
  }

  lemma AcceptedKeepsHierarchy(t: Table, rank: map<Id, nat>, id: Id, row: Row)
    requires Hierarchy(t) && Ranked(t, rank) && Accepts(t, rank, id, row)
    ensures Hierarchy(t[id := row]) <==> ChildrenTolerate(t, id, row)
  {
    hide Ancestry, Reranked;
    var u := t[id := row];
    AcceptedIsRanked(t, rank, id, row);
    assert Forest(u);
    assert row.parent.Some? ==> row.parent.value != id by { ParentIsNotSelf(t, rank, id, row); }
    forall c <- t ensures c != id ==> u[c] == t[c] {
    }
  }

  lemma ParentIsNotSelf(t: Table, rank: map<Id, nat>, id: Id, row: Row)
    requires Ranked(t, rank) && Accepts(t, rank, id, row)
    ensures row.parent != Some(id)
  {
  }

  lemma SoundIsAccepted(t: Table, rank: map<Id, nat>, id: Id, row: Row)
    requires Ranked(t, rank) && Hierarchy(t[id := row]) && ParentLives(t, row)
    ensures Accepts(t, rank, id, row)
  {
    hide Ancestry;
    var u := t[id := row];
    var rank' :| Ranked(u, rank');
    assert id in u && u[id] == row;
    if row.parent.Some? {
      var p := row.parent.value;
      assert rank'[p] < rank'[id];
      assert p != id && u[p] == t[p];
      if id in Ancestry(t, rank, p) {
        RankFalls(t, rank, u, rank', id, row, p);
      }
    }
  }

  /** Inserting a row, or moving one without changing its tenant or type. */
  predicate Placement(t: Table, id: Id, row: Row) {
    id in t ==> row.tenant == t[id].tenant && row.kind == t[id].kind
  }

  /** For insertions and moves the trigger is the whole truth. */
  lemma PlacementIsExact(t: Table, rank: map<Id, nat>, id: Id, row: Row)
    requires Hierarchy(t) && Ranked(t, rank) && Placement(t, id, row)
    ensures Accepts(t, rank, id, row) <==> Hierarchy(t[id := row]) && ParentLives(t, row)
  {
    hide Ancestry, Reranked;
    TriggerIsExact(t, rank, id, row);
    assert ChildrenTolerate(t, id, row);
    assert Accepts(t, rank, id, row) ==> ParentLives(t, row);
  }

  /** Changing the tenant of a collection that has a child passes the trigger and breaks the child's link. */
  lemma TenantChangeIsNotChecked()
    ensures var t: Table := map[0 := Row(1, Collection, None, false), 1 := Row(1, Document, Some(0), false)];
            var rank := map[0 := 0, 1 := 1];
            var moved := Row(2, Collection, None, false);
            Ranked(t, rank) && Hierarchy(t) && Accepts(t, rank, 0, moved) && !Hierarchy(t[0 := moved])
  {
    var t: Table := map[0 := Row(1, Collection, None, false), 1 := Row(1, Document, Some(0), false)];
    var rank := map[0 := 0, 1 := 1];
    assert Ranked(t, rank);
    assert t[0 := Row(2, Collection, None, false)][1].parent == Some(0);
  }

  // ----- what a sound hierarchy means

  /** Above an item: one tenant, collections only above collections, and a root collection at the end. */
  lemma {:induction false} AncestryIsSound(t: Table, rank: map<Id, nat>, x: Id)
    requires Hierarchy(t) && Ranked(t, rank) && x in t
    ensures var chain := Ancestry(t, rank, x);
            && (forall y <- chain :: y in t && t[y].tenant == t[x].tenant)
            && (t[x].kind.Collection? ==> forall y <- chain :: y in t && t[y].kind.Collection?)
            && chain[|chain| - 1] in t && t[chain[|chain| - 1]].kind.Collection? && t[chain[|chain| - 1]].parent.None?
    decreases rank[x]
  {
    if t[x].parent.Some? {
      AncestryIsSound(t, rank, t[x].parent.value);
      var above := Ancestry(t, rank, t[x].parent.value);
      assert Ancestry(t, rank, x) == [x] + above;
    }
  }

  /** The recursive query visits no item twice, so it ends. */
  lemma {:induction false} AncestryHasNoRepeats(t: Table, rank: map<Id, nat>, x: Id)
    requires Ranked(t, rank) && x in t
    ensures var chain := Ancestry(t, rank, x);
            (forall y <- chain :: y in t && rank[y] <= rank[x])
            && forall i, j :: 0 <= i < j < |chain| ==> chain[i] in t && chain[j] in t && rank[chain[j]] < rank[chain[i]]
    decreases rank[x]
  {
    if t[x].parent.Some? {
      AncestryHasNoRepeats(t, rank, t[x].parent.value);
      var above := Ancestry(t, rank, t[x].parent.value);
      assert forall j :: 0 <= j < |above| ==> above[j] in above;
    }
  }

  // ----- whole runs

  datatype Op = Insert(id: Id, row: Row) | Reparent(id: Id, parent: Option<Id>) | SoftDelete(id: Id)

  function After(t: Table, op: Op): Table {
    match op
    case Insert(id, row) => t[id := row]
    case Reparent(id, parent) => if id in t then t[id := t[id].(parent := parent)] else t
    case SoftDelete(id) => if id in t then t[id := t[id].(deleted := true)] else t
  }

  /** A statement changes at most its own row, and of that only what it is for. */
  lemma StatementMeans(t: Table, op: Op, x: Id)
    ensures x != op.id ==> (x in After(t, op) <==> x in t) && (x in t ==> After(t, op)[x] == t[x])
    ensures op.Insert? ==> op.id in After(t, op) && After(t, op)[op.id] == op.row
    ensures !op.Insert? ==> (op.id in After(t, op) <==> op.id in t)
    ensures !op.Insert? && op.id in t ==>
              && After(t, op)[op.id].tenant == t[op.id].tenant && After(t, op)[op.id].kind == t[op.id].kind
              && After(t, op)[op.id].parent == (if op.Reparent? then op.parent else t[op.id].parent)
              && (After(t, op)[op.id].deleted <==> op.SoftDelete? || t[op.id].deleted)
  {
  }

  /** A statement succeeds exactly when it concerns a suitable row and leaves a sound
      hierarchy below a parent that is not deleted. */
  ghost predicate Succeeds(t: Table, op: Op) {
    match op
    case Insert(id, row) => id !in t && ParentLives(t, row) && Hierarchy(After(t, op))
    case Reparent(id, parent) => id in t && ParentLives(t, t[id].(parent := parent)) && Hierarchy(After(t, op))
    case SoftDelete(id) => id in t
  }

  /** The table after a run of statements; one that fails changes nothing. */
  ghost function Ran(t: Table, ops: seq<Op>): Table {
    if ops == [] then t
    else
      var before, last := Ran(t, ops[..|ops| - 1]), ops[|ops| - 1];
      if Succeeds(before, last) then After(before, last) else before
  }

  class ItemTable {
    var rows: Table

    ghost predicate Valid()
      reads this
    {
      Hierarchy(rows)
    }

    constructor ()
      ensures Valid() && rows == map[]
    {
      rows := map[];
      new;
      assert Ranked(map[], map[]);
    }

    /** The recursive ancestry query of the trigger: is `id` the item `start` or above it? */
    method AncestryHas(start: Id, id: Id, ghost rank: map<Id, nat>) returns (found: bool)
      requires Ranked(rows, rank) && start in rows
      ensures found <==> id in Ancestry(rows, rank, start)
    {
      hide Ancestry;
      var current := start;
      while current != id
        invariant current in rows
        invariant id in Ancestry(rows, rank, start) <==> id in Ancestry(rows, rank, current)
        decreases rank[current]
      {
        AncestryStep(rows, rank, current, id);
        if rows[current].parent.None? {
          return false;
        }
        current := rows[current].parent.value;
      }
      AncestryStep(rows, rank, current, id);
      return true;
    }

    /** The trigger function. */
    method ValidateItemParent(id: Id, row: Row, ghost rank: map<Id, nat>) returns (ok: bool)
      requires Ranked(rows, rank)
      ensures ok <==> Accepts(rows, rank, id, row)
    {
      hide Ancestry;
      if row.parent.None? {
        return row.kind.Collection?;
      }
      var p := row.parent.value;
      if p !in rows || rows[p].deleted || rows[p].tenant != row.tenant {
        return false;
      }
      if row.kind.Collection? && !rows[p].kind.Collection? {
        return false;
      }
      var cycle := AncestryHas(p, id, rank);
      return !cycle;
    }

    /** An insertion or a move, guarded by the trigger: it takes effect exactly
        when the hierarchy stays sound and the parent is not deleted. */
    method Place(id: Id, row: Row) returns (ok: bool)
      requires Valid() && Placement(rows, id, row)
      modifies this
      ensures Valid() && rows == if ok then old(rows)[id := row] else old(rows)
      ensures ok <==> Hierarchy(old(rows)[id := row]) && ParentLives(old(rows), row)
    {
      hide Accepts, Hierarchy;
      ghost var rank := RankOf(rows);
      ok := ValidateItemParent(id, row, rank);
      PlacementIsExact(rows, rank, id, row);
      if ok {
        rows := rows[id := row];
      }
    }

    /** Any statement on the table; soft deletion does not fire the trigger. */
    method Run(op: Op) returns (ok: bool)
      requires Valid()
      modifies this
      ensures Valid()
      ensures ok <==> Succeeds(old(rows), op)
      ensures rows == if ok then After(old(rows), op) else old(rows)
    {
      hide Hierarchy;
      match op
      case Insert(id, row) =>
        if id in rows {
          return false;
        }
        ok := Place(id, row);
      case Reparent(id, parent) =>
        if id !in rows {
          return false;
        }
        ok := Place(id, rows[id].(parent := parent));
      case SoftDelete(id) =>
        if id !in rows {
          return false;
        }
        DeletionKeepsHierarchy(rows, id);
        rows := rows[id := rows[id].(deleted := true)];
        ok := true;
    }

    /** Every run of statements leaves a sound hierarchy. */
    method RunAll(ops: seq<Op>)
      requires Valid()
      modifies this
      ensures Valid() && rows == Ran(old(rows), ops)
    {
      hide Hierarchy, Succeeds, After;
      for k := 0 to |ops|
        invariant Valid() && rows == Ran(old(rows), ops[..k])
      {
        assert ops[..k + 1][..k] == ops[..k];
        var _ := Run(ops[k]);
      }
      assert ops[..|ops|] == ops;
    }
  }

  ghost function RankOf(t: Table): (rank: map<Id, nat>)
    requires Hierarchy(t)
    ensures Ranked(t, rank)
  {
    var rank :| Ranked(t, rank);
    rank
  }

  lemma DeletionKeepsHierarchy(t: Table, id: Id)
    requires Hierarchy(t) && id in t
    ensures Hierarchy(t[id := t[id].(deleted := true)])
  {
    hide Ancestry, LinkOk;
    var rank := RankOf(t);
    var u := t[id := t[id].(deleted := true)];
    DeletionKeepsLinks(t, id, rank);
    assert Forest(u);
  }

  /** A deleted row keeps its links, and its children keep theirs. */
  lemma DeletionKeepsLinks(t: Table, id: Id, rank: map<Id, nat>)
    requires Hierarchy(t) && Ranked(t, rank) && id in t
    ensures var u := t[id := t[id].(deleted := true)];
            Ranked(u, rank) && forall x <- u ::
              if u[x].parent.None? then u[x].kind.Collection? else LinkOk(u[x], u[u[x].parent.value])
  {
    hide Ancestry, Forest;
  }
}
