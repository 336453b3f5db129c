/**
 The revision history of a generated document (`services/artifact.py`): bytes go
 to an object store, rows to the database, and the process may crash in between.
 */
module ArtifactHistory {
  import opened Prelude

  type Bytes = seq<bv8>

  datatype Revision = Revision(number: nat, storageKey: string, mime: string, size: nat)

  /** An artifact item; `current` is `current_revision` of its metadata. */
  datatype Item = Item(
    tenant: string, owner: string, conversation: Option<string>, fileName: string, mime: string,
    storageKey: string, size: nat, current: nat, deleted: bool)

  datatype Artifact = Artifact(item: Item, revisions: seq<Revision>)

  type Database = map<string, Artifact>

  type Objects = map<string, Bytes>

  datatype Document = Document(fileName: string, mime: string, data: Bytes)

  /** The document of every committed revision, as it was when it was committed. */
  type History = map<string, seq<Document>>

  /** What a conversation of one user knows a document by. */
  datatype Name = Name(tenant: string, owner: string, conversation: string, fileName: string)

  /** How far one call gets before the process may stop. */
  datatype Fate = BeforePut | BetweenStores | Completed

  datatype Error = NotFound | EmptyFile | TooLarge | Crashed

  /** What the in-app preview of a revision shows. */
  datatype Preview = Preview(revision: nat, mime: string, content: string, truncated: bool)

  // ----- storage keys

  /** `_revision_key`. */
  function RevisionKey(tenant: string, item: string, revision: nat, fileName: string): string {
    "tenants/" + tenant + "/items/" + item + "/revisions/" + Decimal(revision) + "/" + fileName
  }

  lemma SamePrefix(p: string, x: string, y: string)
    requires p + x == p + y
    ensures x == y
  {
    assert (p + x)[|p|..] == x && (p + y)[|p|..] == y;
  }

  /** A storage key belongs to one tenant, item and revision, whatever the file is called. */
  lemma RevisionKeyInjective(t: string, i: string, m: nat, f: string, u: string, j: string, n: nat, g: string)
    requires '/' !in t && '/' !in u && '/' !in i && '/' !in j
    requires RevisionKey(t, i, m, f) == RevisionKey(u, j, n, g)
    ensures t == u && i == j && m == n && f == g
  {
    var a, b := "revisions/" + (Decimal(m) + "/" + f), "revisions/" + (Decimal(n) + "/" + g);
    KeyShape(t, i, m, f);
    KeyShape(u, j, n, g);
    SamePrefix("tenants/", t + "/" + ("items/" + (i + "/" + a)), u + "/" + ("items/" + (j + "/" + b)));
    FirstSeparatorSplits('/', t, u, "items/" + (i + "/" + a), "items/" + (j + "/" + b));
    SamePrefix("items/", i + "/" + a, j + "/" + b);
    FirstSeparatorSplits('/', i, j, a, b);
    SamePrefix("revisions/", Decimal(m) + "/" + f, Decimal(n) + "/" + g);
    FirstSeparatorSplits('/', Decimal(m), Decimal(n), f, g);
    DecimalInjective(m, n);
  }

  lemma KeyShape(t: string, i: string, m: nat, f: string)
    ensures RevisionKey(t, i, m, f)
            == "tenants/" + (t + "/" + ("items/" + (i + "/" + ("revisions/" + (Decimal(m) + "/" + f)))))
  {
  }

  // ----- sound histories

  /** Revision `k` of an item: numbered, stored under its own key, with the bytes it was committed with. */
  ghost predicate RevisionOk(id: string, tenant: string, revision: Revision, k: nat, objects: Objects,
      document: Document) {
    && revision.number == k + 1
    && revision.storageKey == RevisionKey(tenant, id, k + 1, document.fileName)
    && revision.mime == document.mime && revision.size == |document.data|
    && revision.storageKey in objects && objects[revision.storageKey] == document.data
  }

  /** The committed revisions of an item are 1..n, intact, and the item points at the last. */
  ghost predicate Sound(id: string, artifact: Artifact, objects: Objects, documents: seq<Document>) {
    var item, revisions := artifact.item, artifact.revisions;
    && '/' !in item.tenant && '/' !in id
    && revisions != [] && |documents| == |revisions|
    && (forall k :: 0 <= k < |revisions| ==> RevisionOk(id, item.tenant, revisions[k], k, objects, documents[k]))
    && item.current == |revisions|
    && item.storageKey == revisions[|revisions| - 1].storageKey
    && item.size == revisions[|revisions| - 1].size
    && item.mime == revisions[0].mime
  }

  ghost predicate AllSound(db: Database, objects: Objects, history: History) {
    db.Keys == history.Keys && forall id {:trigger db[id]} :: id in db ==> Sound(id, db[id], objects, history[id])
  }

  /** Every committed document passed the size check. */
  ghost predicate AllFit(history: History, max: nat) {
    forall id, k :: id in history && 0 <= k < |history[id]| ==> 0 < |history[id][k].data| <= max
  }

  /** The item is what a conversation keeps under a name. */
  predicate KeptFor(item: Item, name: Name) {
    && !item.deleted && item.tenant == name.tenant && item.owner == name.owner
    && item.conversation == Some(name.conversation) && item.fileName == name.fileName
  }

  /** No two live documents of a conversation share a file name. */
  ghost predicate OneDocumentPerName(db: Database) {
    forall a, b, n: Name :: a in db && b in db && KeptFor(db[a].item, n) && KeptFor(db[b].item, n) ==> a == b
  }

  /** Writing an object that no committed revision uses leaves every history sound. */
  lemma UnusedKeyKeepsSound(db: Database, objects: Objects, history: History, tenant: string, id: string,
      number: nat, fileName: string, data: Bytes)
    requires AllSound(db, objects, history) && '/' !in tenant && '/' !in id
    requires id in db ==> db[id].item.tenant == tenant && number == |db[id].revisions| + 1
    ensures AllSound(db, objects[RevisionKey(tenant, id, number, fileName) := data], history)
  {
    hide RevisionKey;
    var after := objects[RevisionKey(tenant, id, number, fileName) := data];
    forall other | other in db ensures Sound(other, db[other], after, history[other]) {
      var revisions := db[other].revisions;
      forall k | 0 <= k < |revisions|
        ensures RevisionOk(other, db[other].item.tenant, revisions[k], k, after, history[other][k])
      {
        NewKeyIsNew(other, db[other], k, objects, history[other], tenant, id, number, fileName);
      }
    }
  }

  lemma NewKeyIsNew(other: string, artifact: Artifact, k: nat, objects: Objects, documents: seq<Document>,
      tenant: string, id: string, number: nat, fileName: string)
    requires Sound(other, artifact, objects, documents) && k < |artifact.revisions|
    requires '/' !in tenant && '/' !in id
    requires other == id ==> number == |artifact.revisions| + 1
    ensures artifact.revisions[k].storageKey != RevisionKey(tenant, id, number, fileName)
  {
    hide RevisionKey;
    assert RevisionOk(other, artifact.item.tenant, artifact.revisions[k], k, objects, documents[k]);
    if artifact.revisions[k].storageKey == RevisionKey(tenant, id, number, fileName) {
      RevisionKeyInjective(artifact.item.tenant, other, k + 1, documents[k].fileName, tenant, id, number, fileName);
    }
  }

  function FirstRevision(tenant: string, owner: string, conversation: Option<string>, id: string,
      document: Document): Artifact {
    var key := RevisionKey(tenant, id, 1, document.fileName);
    Artifact(Item(tenant, owner, conversation, document.fileName, document.mime, key, |document.data|, 1, false),
             [Revision(1, key, document.mime, |document.data|)])
  }

  function Revised(artifact: Artifact, id: string, document: Document): Artifact {
    var number := |artifact.revisions| + 1;
    var key := RevisionKey(artifact.item.tenant, id, number, document.fileName);
    Artifact(artifact.item.(storageKey := key, size := |document.data|, current := number),
             artifact.revisions + [Revision(number, key, document.mime, |document.data|)])
  }

  lemma FirstIsSound(tenant: string, owner: string, conversation: Option<string>, id: string, document: Document,
      objects: Objects)
    requires '/' !in tenant && '/' !in id
    ensures var key := RevisionKey(tenant, id, 1, document.fileName);
            Sound(id, FirstRevision(tenant, owner, conversation, id, document), objects[key := document.data],
                  [document])
  {
  }

  lemma RevisedIsSound(artifact: Artifact, id: string, document: Document, objects: Objects,
      documents: seq<Document>)
    requires Sound(id, artifact, objects, documents)
    ensures var key := RevisionKey(artifact.item.tenant, id, |artifact.revisions| + 1, document.fileName);
            Sound(id, Revised(artifact, id, document), objects[key := document.data], documents + [document])
  {
    hide RevisionKey;
    var n, tenant := |artifact.revisions|, artifact.item.tenant;
    var now := objects[RevisionKey(tenant, id, n + 1, document.fileName) := document.data];
    var revisions, committed := Revised(artifact, id, document).revisions, documents + [document];
    forall k | 0 <= k < |revisions| ensures RevisionOk(id, tenant, revisions[k], k, now, committed[k]) {
      if k < n {
        assert RevisionOk(id, tenant, artifact.revisions[k], k, objects, documents[k]);
        NewKeyIsNew(id, artifact, k, objects, documents, tenant, id, n + 1, document.fileName);
      }
    }
  }

  /** The keys of all committed revisions are pairwise distinct. */
  lemma KeysDistinct(db: Database, objects: Objects, history: History, a: string, j: nat, b: string, k: nat)
    requires AllSound(db, objects, history)
    requires a in db && b in db && j < |db[a].revisions| && k < |db[b].revisions|
    requires db[a].revisions[j].storageKey == db[b].revisions[k].storageKey
    ensures a == b && j == k
  {
    hide RevisionKey;
    assert RevisionOk(a, db[a].item.tenant, db[a].revisions[j], j, objects, history[a][j]);
    assert RevisionOk(b, db[b].item.tenant, db[b].revisions[k], k, objects, history[b][k]);
    RevisionKeyInjective(db[a].item.tenant, a, j + 1, history[a][j].fileName,
                         db[b].item.tenant, b, k + 1, history[b][k].fileName);
  }

  /** Every committed history is kept and at most extended. */
  ghost predicate Extends(before: History, after: History) {
    forall id :: id in before ==> id in after && before[id] <= after[id]
  }

  /**
   Reading back any committed revision, after any number of later calls and
   crashes, yields the bytes it was committed with.
   */
  lemma CommittedBytesSurvive(before: History, db: Database, objects: Objects, after: History, id: string, k: nat)
    requires Extends(before, after) && AllSound(db, objects, after) && id in before && k < |before[id]|
    ensures id in db && k < |db[id].revisions| && db[id].revisions[k].storageKey in objects
    ensures objects[db[id].revisions[k].storageKey] == before[id][k].data
  {
    hide RevisionKey;
    assert RevisionOk(id, db[id].item.tenant, db[id].revisions[k], k, objects, after[id][k]);
  }

  // ----- the documents of a conversation over a run

  datatype Op =
    | Record(tenant: string, owner: string, conversation: Option<string>, document: Document, newId: string,
             fate: Fate)
    | Delete(id: string)

  /** A kept document: its item and everything committed to it. */
  datatype Entry = Entry(id: string, documents: seq<Document>)

  /** The call finished, and is a write under this name. */
  predicate Writes(op: Op, name: Name, max: nat) {
    && op.Record? && op.fate.Completed? && 0 < |op.document.data| <= max && op.conversation == Some(name.conversation)
    && op.tenant == name.tenant && op.owner == name.owner && op.document.fileName == name.fileName
  }

  /** What a conversation should keep under a name: what was written to it since it was last deleted. */
  function Kept(ops: seq<Op>, name: Name, max: nat): Option<Entry> {
    if ops == [] then None else
      Next(Kept(ops[..|ops| - 1], name, max), ops[|ops| - 1], name, max)
  }

  function Next(entry: Option<Entry>, op: Op, name: Name, max: nat): Option<Entry> {
    if Writes(op, name, max) then
      Some(if entry.Some? then Entry(entry.value.id, entry.value.documents + [op.document])
           else Entry(op.newId, [op.document]))
    else if op.Delete? && entry.Some? && entry.value.id == op.id then None
    else entry
  }

  /** The database keeps exactly this entry under the name. */
  ghost predicate Keeps(db: Database, history: History, name: Name, entry: Option<Entry>) {
    match entry
    case None => forall id <- db :: !KeptFor(db[id].item, name)
    case Some(e) =>
      && e.id in db && e.id in history && KeptFor(db[e.id].item, name) && history[e.id] == e.documents
      && forall id <- db :: KeptFor(db[id].item, name) ==> id == e.id
  }

  /** The item is the document that a recording adds a revision to. */
  predicate Continues(item: Item, op: Op)
    requires op.Record?
  {
    && op.conversation.Some?
    && KeptFor(item, Name(op.tenant, op.owner, op.conversation.value, op.document.fileName))
  }

  /** What a recording leaves behind: the next revision of its document, a new document, or nothing. */
  ghost predicate Recorded(db: Database, history: History, op: Op, max: nat, after: Database, recorded: History)
    requires op.Record? && db.Keys == history.Keys
  {
    if !op.fate.Completed? || !(0 < |op.document.data| <= max) then
      after == db && recorded == history
    else
      && (forall id <- db :: Continues(db[id].item, op) ==>
            && after == db[id := Revised(db[id], id, op.document)]
            && recorded == history[id := history[id] + [op.document]])
      && ((forall id <- db :: !Continues(db[id].item, op)) ==>
            && after == db[op.newId := FirstRevision(op.tenant, op.owner, op.conversation, op.newId, op.document)]
            && recorded == history[op.newId := [op.document]])
  }

  /** A recording moves what is kept under every name as the ledger says. */
  lemma RecordingKeeps(db: Database, history: History, op: Op, max: nat, after: Database, recorded: History,
      name: Name, entry: Option<Entry>)
    requires op.Record? && db.Keys == history.Keys && op.newId !in db
    requires Recorded(db, history, op, max, after, recorded) && Keeps(db, history, name, entry)
    ensures Keeps(after, recorded, name, Next(entry, op, name, max))
  {
    hide Revised, FirstRevision, KeptFor, Keeps;
    if op.fate.Completed? && 0 < |op.document.data| <= max {
      if id :| id in db && Continues(db[id].item, op) {
        RevisingKeeps(db, history, op, max, id, name, entry);
      } else {
        CreatingKeeps(db, history, op, max, name, entry);
      }
    }
  }

  lemma RevisingKeeps(db: Database, history: History, op: Op, max: nat, id: string, name: Name, entry: Option<Entry>)
    requires op.Record? && op.fate.Completed? && 0 < |op.document.data| <= max
    requires id in db && id in history && Continues(db[id].item, op) && Keeps(db, history, name, entry)
    ensures Keeps(db[id := Revised(db[id], id, op.document)], history[id := history[id] + [op.document]], name,
                  Next(entry, op, name, max))
  {
    hide RevisionKey;
    assert Writes(op, name, max) <==> KeptFor(db[id].item, name);
  }

  lemma CreatingKeeps(db: Database, history: History, op: Op, max: nat, name: Name, entry: Option<Entry>)
    requires op.Record? && op.fate.Completed? && 0 < |op.document.data| <= max && op.newId !in db
    requires (forall id <- db :: !Continues(db[id].item, op)) && Keeps(db, history, name, entry)
    ensures var first := FirstRevision(op.tenant, op.owner, op.conversation, op.newId, op.document);
            Keeps(db[op.newId := first], history[op.newId := [op.document]], name, Next(entry, op, name, max))
  {
    hide RevisionKey;
    var first := FirstRevision(op.tenant, op.owner, op.conversation, op.newId, op.document);
    assert Writes(op, name, max) <==> KeptFor(first.item, name);
  }

  function Deleted(db: Database, id: string): Database {
    if id in db then db[id := db[id].(item := db[id].item.(deleted := true))] else db
  }

  lemma DeletionKeeps(db: Database, history: History, id: string, name: Name, entry: Option<Entry>, max: nat)
    requires Keeps(db, history, name, entry)
    ensures Keeps(Deleted(db, id), history, name, Next(entry, Delete(id), name, max))
  {
  }

  lemma DeletionKeepsSound(db: Database, objects: Objects, history: History, id: string)
    requires AllSound(db, objects, history)
    ensures AllSound(Deleted(db, id), objects, history)
  {
    hide Sound;
    if id in db {
      DeletedIsSound(id, db[id], objects, history[id]);
    }
  }

  lemma DeletedIsSound(id: string, artifact: Artifact, objects: Objects, documents: seq<Document>)
    requires Sound(id, artifact, objects, documents)
    ensures Sound(id, artifact.(item := artifact.item.(deleted := true)), objects, documents)
  {
    hide RevisionOk;
  }

  lemma DeletionKeepsNames(db: Database, id: string)
    requires OneDocumentPerName(db)
    ensures OneDocumentPerName(Deleted(db, id))
  {
    var after := Deleted(db, id);
    forall a, b, n: Name | a in after && b in after && KeptFor(after[a].item, n) && KeptFor(after[b].item, n)
      ensures a == b
    {
      assert KeptFor(db[a].item, n) && KeptFor(db[b].item, n);
    }
  }

  lemma RecordingKeepsNames(db: Database, history: History, op: Op, max: nat, after: Database, recorded: History)
    requires op.Record? && db.Keys == history.Keys && op.newId !in db && OneDocumentPerName(db)
    requires Recorded(db, history, op, max, after, recorded)
    ensures OneDocumentPerName(after)
  {
    hide RevisionKey;
    if op.fate.Completed? && 0 < |op.document.data| <= max {
      if id :| id in db && Continues(db[id].item, op) {
        assert forall n: Name :: KeptFor(after[id].item, n) ==> KeptFor(db[id].item, n);
      }
    }
  }

  /** What the item of a finished recording says. */
  ghost predicate Finished(id: string, db: Database, history: History, op: Op, number: nat)
    requires op.Record?
  {
    && id in db && id in history
    && !db[id].item.deleted && db[id].item.tenant == op.tenant && db[id].item.owner == op.owner
    && db[id].item.conversation == op.conversation && db[id].item.fileName == op.document.fileName
    && db[id].item.current == number == |history[id]| && number >= 1 && history[id][number - 1] == op.document
  }

  // ----- the service

  class ArtifactService {
    const maxContentBytes: nat
    var objects: Objects
    var db: Database
    ghost var history: History

    ghost predicate Valid()
      reads this
    {
      AllSound(db, objects, history) && AllFit(history, maxContentBytes) && OneDocumentPerName(db)
    }

    /** Under every name the database keeps what the calls made so far have written. */
    ghost predicate Reflects(log: seq<Op>)
      reads this
    {
      forall name: Name :: Keeps(db, history, name, Kept(log, name, maxContentBytes))
    }

    constructor (maxContentBytes: nat)
      ensures Valid() && Reflects([]) && db == map[] && history == map[] && this.maxContentBytes == maxContentBytes
    {
      this.maxContentBytes, objects, db, history := maxContentBytes, map[], map[], map[];
    }

    /** `_create`: `id` is a new UUID. */
    method Create(tenant: string, owner: string, conversation: Option<string>, id: string, document: Document,
        fate: Fate) returns (r: Result<nat, Error>)
      requires AllSound(db, objects, history) && '/' !in tenant && '/' !in id && id !in db
      modifies this
      ensures AllSound(db, objects, history) && Extends(old(history), history)
      ensures r == if fate.Completed? then Ok(1) else Err(Crashed)
      ensures r.Ok? ==> db == old(db)[id := FirstRevision(tenant, owner, conversation, id, document)]
      ensures r.Ok? ==> history == old(history)[id := [document]]
      ensures r.Err? ==> db == old(db) && history == old(history)
    {
      hide RevisionKey, Sound;
      if fate.BeforePut? {
        return Err(Crashed);
      }
      var key := RevisionKey(tenant, id, 1, document.fileName);
      UnusedKeyKeepsSound(db, objects, history, tenant, id, 1, document.fileName, document.data);
      FirstIsSound(tenant, owner, conversation, id, document, objects);
      objects := objects[key := document.data];
      if fate.BetweenStores? {
        return Err(Crashed);
      }
      db := db[id := FirstRevision(tenant, owner, conversation, id, document)];
      history := history[id := [document]];
      return Ok(1);
    }

    /** `_add_revision`, under the lock of the item's row. */
    method AddRevision(id: string, document: Document, fate: Fate) returns (r: Result<nat, Error>)
      requires AllSound(db, objects, history)
      modifies this
      ensures AllSound(db, objects, history) && Extends(old(history), history)
      ensures r.Ok? <==> id in old(db) && !old(db)[id].item.deleted && fate.Completed?
      ensures r.Ok? ==> r.value == |old(db)[id].revisions| + 1
      ensures r.Ok? ==> db == old(db)[id := Revised(old(db)[id], id, document)]
      ensures r.Ok? ==> id in old(history) && history == old(history)[id := old(history)[id] + [document]]
      ensures r.Err? ==> db == old(db) && history == old(history)
      ensures r.Err? ==> r.error == if id in db && !db[id].item.deleted then Crashed else NotFound
    {
      hide RevisionKey, Sound;
      if id !in db || db[id].item.deleted {
        return Err(NotFound);
      }
      if fate.BeforePut? {
        return Err(Crashed);
      }
      RevisionsAreNumbered(db, objects, history, id);
      var previous := db[id].revisions;
      var number := previous[|previous| - 1].number + 1;
      var key := RevisionKey(db[id].item.tenant, id, number, document.fileName);
      UnusedKeyKeepsSound(db, objects, history, db[id].item.tenant, id, number, document.fileName, document.data);
      RevisedIsSound(db[id], id, document, objects, history[id]);
      objects := objects[key := document.data];
      if fate.BetweenStores? {
        return Err(Crashed);
      }
      var item := db[id].item.(storageKey := key, size := |document.data|, current := number);
      db := db[id := Artifact(item, previous + [Revision(number, key, document.mime, |document.data|)])];
      history := history[id := history[id] + [document]];
      return Ok(number);
    }

    /** `_conversation_item`. */
    method ConversationItem(name: Name) returns (found: Option<string>)
      ensures found.Some? ==> found.value in db && KeptFor(db[found.value].item, name)
      ensures found.None? ==> forall id <- db :: !KeptFor(db[id].item, name)
    {
      if id :| id in db && KeptFor(db[id].item, name) {
        return Some(id);
      }
      return None;
    }

    /** `record_generated`: a live document of this name gets another revision, otherwise one is created. */
    method RecordGenerated(op: Op) returns (r: Result<nat, Error>)
      requires Valid() && op.Record? && '/' !in op.tenant && '/' !in op.newId && op.newId !in db
      modifies this
      ensures Valid() && Extends(old(history), history)
      ensures r.Ok? <==> 0 < |op.document.data| <= maxContentBytes && op.fate.Completed?
      ensures old(db).Keys == old(history).Keys
      ensures Recorded(old(db), old(history), op, maxContentBytes, db, history)
      ensures r.Ok? ==> exists id :: Finished(id, db, history, op, r.value)
    {
      hide RevisionKey, AllSound, OneDocumentPerName, KeptFor, FirstRevision, Revised;
      var document := op.document;
      SameKeys(db, objects, history);
      if document.data == [] {
        return Err(EmptyFile);
      }
      if |document.data| > maxContentBytes {
        return Err(TooLarge);
      }
      var existing: Option<string> := None;
      if op.conversation.Some? {
        existing := ConversationItem(Name(op.tenant, op.owner, op.conversation.value, document.fileName));
      }
      ghost var was, had := db, history;
      if existing.Some? {
        OnlyOneContinues(db, op, existing.value);
        RevisedFinishes(db, objects, history, op, existing.value);
        r := AddRevision(existing.value, document, op.fate);
      } else {
        FirstFinishes(db, history, op);
        r := Create(op.tenant, op.owner, op.conversation, op.newId, document, op.fate);
      }
      RecordingKeepsNames(was, had, op, maxContentBytes, db, history);
    }

    /** `soft_delete_item`: the revisions and their bytes stay. */
    method SoftDelete(id: string) returns (r: Result<(), Error>)
      requires Valid()
      modifies this`db
      ensures Valid() && db == Deleted(old(db), id)
      ensures r.Ok? <==> id in old(db) && !old(db)[id].item.deleted
    {
      hide AllSound, OneDocumentPerName;
      DeletionKeepsSound(db, objects, history, id);
      DeletionKeepsNames(db, id);
      if id !in db || db[id].item.deleted {
        AlreadyDeleted(db, id);
        return Err(NotFound);
      }
      db := Deleted(db, id);
      return Ok(());
    }

    /**
     Any run of calls, each of which may crash on the way: no committed revision
     is lost, and every conversation keeps under every name exactly the finished
     writes since the last deletion, in order.
     */
    method RunAll(ops: seq<Op>, ghost log: seq<Op>)
      requires Valid() && Reflects(log)
      requires forall op <- ops :: op.Record? ==> '/' !in op.tenant && '/' !in op.newId && op.newId !in db
      requires forall j, k :: 0 <= j < k < |ops| && ops[j].Record? && ops[k].Record? ==> ops[j].newId != ops[k].newId
      modifies this
      ensures Valid() && Reflects(log + ops) && Extends(old(history), history)
    {
      hide AllSound, AllFit, OneDocumentPerName, Keeps, Kept, Next, Deleted, Recorded, Finished;
      assert log + ops[..0] == log;
      for k := 0 to |ops|
        invariant Valid() && Reflects(log + ops[..k]) && Extends(old(history), history)
        invariant forall j :: k <= j < |ops| && ops[j].Record? ==> ops[j].newId !in db
      {
        ghost var was, had, before, now := db, history, log + ops[..k], log + ops[..k + 1];
        assert now == before + [ops[k]];
        match ops[k]
        case Record(_, _, _, _, _, _) =>
          var _ := RecordGenerated(ops[k]);
          RecordingAddsAtMost(was, had, ops[k], maxContentBytes, db, history);
          forall name: Name ensures Keeps(db, history, name, Kept(now, name, maxContentBytes)) {
            KeptAfter(before, ops[k], name, maxContentBytes);
            RecordingKeeps(was, had, ops[k], maxContentBytes, db, history, name, Kept(before, name, maxContentBytes));
          }
        case Delete(id) =>
          var _ := SoftDelete(id);
          DeletionAddsNone(was, id);
          forall name: Name ensures Keeps(db, history, name, Kept(now, name, maxContentBytes)) {
            KeptAfter(before, ops[k], name, maxContentBytes);
            DeletionKeeps(was, history, id, name, Kept(before, name, maxContentBytes), maxContentBytes);
          }
      }
      assert ops[..|ops|] == ops;
    }

    /** `read` of the object storage. */
    method Read(key: string, maxBytes: nat) returns (r: Result<Bytes, Error>)
      ensures r.Ok? <==> key in objects && |objects[key]| <= maxBytes
      ensures r.Err? ==> r.error == if key in objects then TooLarge else NotFound
      ensures r.Ok? ==> r.value == objects[key]
    {
      if key !in objects {
        return Err(NotFound);
      }
      if |objects[key]| > maxBytes {
        return Err(TooLarge);
      }
      return Ok(objects[key]);
    }

    /** A stored text, cut behind `limit` characters if it is longer (`_text`). */
    method Text(key: string, limit: nat, decode: Bytes -> string) returns (r: Result<(string, bool), Error>)
      ensures r.Ok? <==> key in objects && |objects[key]| <= maxContentBytes
      ensures r.Err? ==> r.error == if key in objects then TooLarge else NotFound
      ensures r.Ok? ==> (r.value.1 <==> |decode(objects[key])| > limit)
      ensures r.Ok? && !r.value.1 ==> r.value.0 == decode(objects[key])
      ensures r.Ok? && r.value.1 ==> |r.value.0| > limit && r.value.0[..limit] == decode(objects[key])[..limit]
    {
      var bytes := Read(key, maxContentBytes);
      if bytes.Err? {
        return Err(bytes.error);
      }
      var text := decode(bytes.value);
      if |text| <= limit {
        return Ok((text, false));
      }
      return Ok((text[..limit] + "\n…[content truncated]…\n", true));
    }

    /** What a preview shows of a revision: its text, or only the type of anything else (`_model_text`). */
    method ModelText(row: Revision, limit: nat, decode: Bytes -> string) returns (r: Result<(string, bool), Error>)
      ensures r.Err? <==> "text/" <= row.mime && row.storageKey in objects
                          && |objects[row.storageKey]| > maxContentBytes
      ensures r.Ok? && !("text/" <= row.mime && row.storageKey in objects) ==> !r.value.1
      ensures r.Ok? && "text/" <= row.mime && row.storageKey in objects ==>
                var text := decode(objects[row.storageKey]);
                (r.value.1 <==> |text| > limit) && (|text| <= limit ==> r.value.0 == text)
    {
      if !("text/" <= row.mime) {
        return Ok(("(binary document: " + row.mime + "; no text preview)", false));
      }
      r := Text(row.storageKey, limit, decode);
      if r.Err? && r.error == NotFound {
        return Ok(("(document content is unavailable)", false));
      }
    }

    /**
     The preview of one revision, the current one unless another is asked for
     (`content`); `decode` is the replacing UTF-8 decoder. A text is always there
     and never cut: the size it passed when it was written is the preview's limit.
     */
    method Content(id: string, revision: Option<nat>, decode: Bytes -> string) returns (r: Result<Preview, Error>)
      requires Valid()
      requires forall b :: |decode(b)| <= |b|
      ensures r.Ok? <==> id in db && !db[id].item.deleted && (revision.Some? ==> 1 <= revision.value <= |history[id]|)
      ensures r.Err? ==> r.error == NotFound
      ensures r.Ok? ==> r.value.revision == if revision.Some? then revision.value else |history[id]|
      ensures r.Ok? ==> var document := history[id][r.value.revision - 1];
                        && !r.value.truncated && r.value.mime == document.mime
                        && ("text/" <= document.mime ==> r.value.content == decode(document.data))
    {
      hide RevisionKey, OneDocumentPerName;
      if id !in db || db[id].item.deleted {
        return Err(NotFound);
      }
      assert Sound(id, db[id], objects, history[id]);
      var revisions := db[id].revisions;
      var selected := |revisions| - 1;
      if revision.Some? {
        if revision.value < 1 || revision.value > |revisions| {
          return Err(NotFound);
        }
        selected := revision.value - 1;
      }
      var row := revisions[selected];
      assert RevisionOk(id, db[id].item.tenant, row, selected, objects, history[id][selected]);
      var shown := ModelText(row, maxContentBytes, decode);
      match shown
      case Ok(text) =>
        return Ok(Preview(row.number, row.mime, text.0, text.1));
      case Err(error) =>
        return Err(error);
    }
  }

  lemma SameKeys(db: Database, objects: Objects, history: History)
    requires AllSound(db, objects, history)
    ensures db.Keys == history.Keys
  {
  }

  lemma KeptAfter(log: seq<Op>, op: Op, name: Name, max: nat)
    ensures Kept(log + [op], name, max) == Next(Kept(log, name, max), op, name, max)
  {
    assert (log + [op])[..|log|] == log;
  }

  lemma AlreadyDeleted(db: Database, id: string)
    requires id in db ==> db[id].item.deleted
    ensures Deleted(db, id) == db
  {
    if id in db {
      assert db[id].(item := db[id].item.(deleted := true)) == db[id];
    }
  }

  lemma DeletionAddsNone(db: Database, id: string)
    ensures Deleted(db, id).Keys == db.Keys
  {
  }

  lemma RecordingAddsAtMost(db: Database, history: History, op: Op, max: nat, after: Database, recorded: History)
    requires op.Record? && db.Keys == history.Keys && Recorded(db, history, op, max, after, recorded)
    ensures after.Keys <= db.Keys + {op.newId}
  {
    hide RevisionKey;
    if op.fate.Completed? && 0 < |op.document.data| <= max {
      if id :| id in db && Continues(db[id].item, op) {
        assert after.Keys == db.Keys;
      }
    }
  }

  lemma OnlyOneContinues(db: Database, op: Op, id: string)
    requires op.Record? && OneDocumentPerName(db) && id in db && Continues(db[id].item, op)
    ensures forall other <- db :: Continues(db[other].item, op) ==> other == id
  {
  }

  lemma FirstFinishes(db: Database, history: History, op: Op)
    requires op.Record?
    ensures Finished(op.newId,
                     db[op.newId := FirstRevision(op.tenant, op.owner, op.conversation, op.newId, op.document)],
                     history[op.newId := [op.document]], op, 1)
  {
  }

  lemma RevisedFinishes(db: Database, objects: Objects, history: History, op: Op, id: string)
    requires AllSound(db, objects, history) && op.Record? && id in db && Continues(db[id].item, op)
    ensures Finished(id, db[id := Revised(db[id], id, op.document)],
                     history[id := history[id] + [op.document]], op, |db[id].revisions| + 1)
    ensures !db[id].item.deleted
  {
  }

  lemma RevisionsAreNumbered(db: Database, objects: Objects, history: History, id: string)
    requires AllSound(db, objects, history) && id in db
    ensures var revisions := db[id].revisions; revisions != [] && revisions[|revisions| - 1].number == |revisions|
    ensures '/' !in db[id].item.tenant && '/' !in id && Sound(id, db[id], objects, history[id])
  {
    hide RevisionKey;
    var n := |db[id].revisions|;
    assert Sound(id, db[id], objects, history[id]);
    assert RevisionOk(id, db[id].item.tenant, db[id].revisions[n - 1], n - 1, objects, history[id][n - 1]);
  }
}
