/**
 The derived vector index of item content (`document_index/index.py`,
 `_qdrant.py`, `payload.py`).

 The store is a map from deterministic point ids to points.  Replacing an item
 tombstones its points and upserts the new ones; reading filters the live ones.
 `uuid5` is taken to be injective, so a point id is the text it is made from.
 */
module ItemIndex {
  import opened Prelude
  import Pipeline = ConnectorPipeline

  type Vector = seq<int>

  datatype Payload = Payload(
    tenant: string, collection: string, item: string, chunkId: string, index: nat,
    chunkText: string, contextualText: string, connectorKey: string, externalId: string, deleted: bool)

  datatype Point = Point(vector: Vector, payload: Payload)

  type Points = map<string, Point>

  /** The name a point id is derived from: tenant, item and chunk index. */
  function PointName(tenant: string, item: string, index: nat): string {
    tenant + ":" + item + ":" + Decimal(index)
  }

  function NameOf(p: Payload): string { PointName(p.tenant, p.item, p.index) }

  // ----- point ids

  /** Two texts that agree after their last colon agree before it. */
  lemma {:induction false} LastColonSplits(a: string, b: string, x: string, y: string)
    requires a + ":" + x == b + ":" + y && ':' !in x && ':' !in y
    ensures a == b && x == y
    decreases |x| + |y|
  {
    var s, t := a + ":" + x, b + ":" + y;
    assert x != "" ==> s[|s| - 1] == x[|x| - 1] && x[|x| - 1] in x;
    assert y != "" ==> t[|t| - 1] == y[|y| - 1] && y[|y| - 1] in y;
    if x != "" && y != "" {
      var x', y' := x[..|x| - 1], y[..|y| - 1];
      assert s[..|s| - 1] == a + ":" + x' && t[..|t| - 1] == b + ":" + y';
      LastColonSplits(a, b, x', y');
      assert x == x' + [x[|x| - 1]] && y == y' + [y[|y| - 1]];
    } else {
      assert x == "" ==> s[|s| - 1] == ':';
      assert y == "" ==> t[|t| - 1] == ':';
      assert s == a + ":" && t == b + ":";
      assert s[..|s| - 1] == a && t[..|t| - 1] == b;
    }
  }

  /** Two addresses share a point id exactly when their indexes agree and tenant and item join to the same text. */
  lemma PointNamesCollideIff(t: string, i: string, m: nat, u: string, j: string, n: nat)
    ensures PointName(t, i, m) == PointName(u, j, n) <==> m == n && t + ":" + i == u + ":" + j
  {
    if PointName(t, i, m) == PointName(u, j, n) {
      LastColonSplits(t + ":" + i, u + ":" + j, Decimal(m), Decimal(n));
      DecimalInjective(m, n);
    }
  }

  /** Among tenants without a colon, a point id belongs to one tenant, item and chunk index. */
  lemma PointNamesInjective(t: string, i: string, m: nat, u: string, j: string, n: nat)
    requires ':' !in t && ':' !in u && PointName(t, i, m) == PointName(u, j, n)
    ensures t == u && i == j && m == n
  {
    PointNamesCollideIff(t, i, m, u, j, n);
    FirstSeparatorSplits(':', t, u, i, j);
  }

  /** A colon in a tenant would let two items of two tenants share a point. */
  lemma ColonInTenantCollides()
    ensures PointName("a:b", "c", 0) == PointName("a", "b:c", 0)
  {
  }

  // ----- the store

  function Tombstoned(points: Points, tenant: string, item: string): Points {
    map k | k in points :: Mark(points[k], tenant, item)
  }

  function Mark(p: Point, tenant: string, item: string): Point {
    if p.payload.tenant == tenant && p.payload.item == item then p.(payload := p.payload.(deleted := true)) else p
  }

  function Upserted(points: Points, records: seq<Point>): Points {
    if records == [] then points
    else
      var last := records[|records| - 1];
      Upserted(points, records[..|records| - 1])[NameOf(last.payload) := last]
  }

  /** The simple index: the latest content of every tenant's item. */
  type Latest = map<(string, string), seq<Point>>

  ghost predicate WellKeyed(points: Points) {
    forall k {:trigger points[k]} :: k in points ==> k == NameOf(points[k].payload) && ':' !in points[k].payload.tenant
  }

  predicate LiveAt(points: Points, p: Point) {
    NameOf(p.payload) in points && points[NameOf(p.payload)] == p && !p.payload.deleted
  }

  predicate InLatest(m: Latest, p: Point) {
    (p.payload.tenant, p.payload.item) in m && p in m[(p.payload.tenant, p.payload.item)]
  }

  ghost predicate Owned(m: Latest) {
    forall key <- m :: forall p <- m[key] :: (p.payload.tenant, p.payload.item) == key
  }

  /** The live points are exactly the latest content of every item. */
  ghost predicate Represents(points: Points, m: Latest) {
    && WellKeyed(points) && Owned(m)
    && forall p {:trigger LiveAt(points, p)} {:trigger InLatest(m, p)} :: LiveAt(points, p) <==> InLatest(m, p)
  }

  /** The records of one item: its tenant and item, live, with distinct indexes. */
  ghost predicate RecordsOf(records: seq<Point>, tenant: string, item: string) {
    && (forall k :: 0 <= k < |records| ==>
          records[k].payload.tenant == tenant && records[k].payload.item == item && !records[k].payload.deleted)
    && (forall j, k :: 0 <= j < k < |records| ==> records[j].payload.index != records[k].payload.index)
  }

  lemma TombstoneRepresents(points: Points, m: Latest, tenant: string, item: string)
    requires Represents(points, m)
    ensures Represents(Tombstoned(points, tenant, item), m - {(tenant, item)})
  {
    hide NameOf, PointName;
    var after := Tombstoned(points, tenant, item);
    assert WellKeyed(after) by { MarkKeepsName(points, tenant, item); }
    forall p ensures LiveAt(after, p) <==> InLatest(m - {(tenant, item)}, p) {
      MarkedIsNotLive(points, tenant, item, p);
      assert LiveAt(points, p) <==> InLatest(m, p);
    }
  }

  lemma MarkKeepsName(points: Points, tenant: string, item: string)
    requires WellKeyed(points)
    ensures WellKeyed(Tombstoned(points, tenant, item))
  {
  }

  lemma MarkedIsNotLive(points: Points, tenant: string, item: string, p: Point)
    requires WellKeyed(points)
    ensures LiveAt(Tombstoned(points, tenant, item), p) <==>
              LiveAt(points, p) && !(p.payload.tenant == tenant && p.payload.item == item)
  {
  }

  /** After an upsert, a record's id holds that record, and other ids are untouched. */
  lemma {:induction false} UpsertHolds(points: Points, records: seq<Point>, tenant: string, item: string)
    requires RecordsOf(records, tenant, item) && ':' !in tenant
    ensures forall k :: 0 <= k < |records| ==>
              NameOf(records[k].payload) in Upserted(points, records)
                  && Upserted(points, records)[NameOf(records[k].payload)] == records[k]
    ensures forall name :: (forall k :: 0 <= k < |records| ==> NameOf(records[k].payload) != name) ==>
              ((name in Upserted(points, records) <==> name in points)
               && (name in points ==> Upserted(points, records)[name] == points[name]))
    decreases |records|
  {
    hide PointName;
    if records != [] {
      var fewer, last := records[..|records| - 1], records[|records| - 1];
      UpsertHolds(points, fewer, tenant, item);
      forall k | 0 <= k < |fewer| ensures NameOf(records[k].payload) != NameOf(last.payload) && fewer[k] == records[k] {
        if NameOf(records[k].payload) == NameOf(last.payload) {
          PointNamesInjective(tenant, item, records[k].payload.index, tenant, item, last.payload.index);
        }
      }
    }
  }

  lemma UpsertKeepsWellKeyed(points: Points, records: seq<Point>, tenant: string, item: string)
    requires WellKeyed(points) && RecordsOf(records, tenant, item) && ':' !in tenant
    ensures WellKeyed(Upserted(points, records))
    decreases |records|
  {
  }

  /** Replacing an item's points makes the new records, and only them, its live content. */
  lemma ReplaceRepresents(points: Points, m: Latest, tenant: string, item: string, records: seq<Point>)
    requires Represents(points, m) && ':' !in tenant && RecordsOf(records, tenant, item)
    ensures Represents(Upserted(Tombstoned(points, tenant, item), records), m[(tenant, item) := records])
  {
    hide NameOf, Upserted, Tombstoned;
    var marked := Tombstoned(points, tenant, item);
    var after, m' := Upserted(marked, records), m[(tenant, item) := records];
    TombstoneRepresents(points, m, tenant, item);
    UpsertKeepsWellKeyed(marked, records, tenant, item);
    UpsertHolds(marked, records, tenant, item);
    forall p ensures LiveAt(after, p) <==> InLatest(m', p) {
      ReplacedPoint(marked, m - {(tenant, item)}, records, tenant, item, p);
    }
  }

  lemma ReplacedPoint(marked: Points, rest: Latest, records: seq<Point>, tenant: string, item: string, p: Point)
    requires Represents(marked, rest) && (tenant, item) !in rest && ':' !in tenant && RecordsOf(records, tenant, item)
    ensures LiveAt(Upserted(marked, records), p) <==>
              if p.payload.tenant == tenant && p.payload.item == item then p in records else InLatest(rest, p)
  {
    hide Upserted, PointName;
    UpsertHolds(marked, records, tenant, item);
    var name := NameOf(p.payload);
    if k :| 0 <= k < |records| && NameOf(records[k].payload) == name {
      SameNameOfRecord(marked, records[k], p, tenant);
    } else {
      assert LiveAt(marked, p) <==> InLatest(rest, p);
    }
  }

  /** A point that shares its name with a record is the record, or is not stored, or belongs to the same address. */
  lemma SameNameOfRecord(marked: Points, record: Point, p: Point, tenant: string)
    requires NameOf(record.payload) == NameOf(p.payload) && record.payload.tenant == tenant && ':' !in tenant
    ensures ':' !in p.payload.tenant ==>
              p.payload.tenant == tenant && p.payload.item == record.payload.item
                  && p.payload.index == record.payload.index
  {
    if ':' !in p.payload.tenant {
      PointNamesInjective(record.payload.tenant, record.payload.item, record.payload.index, p.payload.tenant,
                          p.payload.item, p.payload.index);
    }
  }

  datatype Op = Replace(tenant: string, item: string, records: seq<Point>) | Remove(tenant: string, item: string)

  ghost predicate OpOk(op: Op) {
    op.Replace? ==> ':' !in op.tenant && RecordsOf(op.records, op.tenant, op.item)
  }

  function OnPoints(points: Points, op: Op): Points {
    match op
    case Replace(tenant, item, records) => Upserted(Tombstoned(points, tenant, item), records)
    case Remove(tenant, item) => Tombstoned(points, tenant, item)
  }

  function OnLatest(m: Latest, op: Op): Latest {
    match op
    case Replace(tenant, item, records) => m[(tenant, item) := records]
    case Remove(tenant, item) => m - {(tenant, item)}
  }

  function RunOnPoints(points: Points, ops: seq<Op>): Points
    decreases ops
  {
    if ops == [] then points else RunOnPoints(OnPoints(points, ops[0]), ops[1..])
  }

  function RunOnLatest(m: Latest, ops: seq<Op>): Latest
    decreases ops
  {
    if ops == [] then m else RunOnLatest(OnLatest(m, ops[0]), ops[1..])
  }

  /** After any run of replacements and removals the live points are the latest content of every item. */
  lemma {:induction false} RunRefines(points: Points, m: Latest, ops: seq<Op>)
    requires Represents(points, m) && forall op <- ops :: OpOk(op)
    ensures Represents(RunOnPoints(points, ops), RunOnLatest(m, ops))
    decreases ops
  {
    hide Represents, Tombstoned, Upserted, RecordsOf;
    if ops != [] {
      assert OpOk(ops[0]);
      match ops[0] {
        case Replace(tenant, item, records) => ReplaceRepresents(points, m, tenant, item, records);
        case Remove(tenant, item) => TombstoneRepresents(points, m, tenant, item);
      }
      RunRefines(OnPoints(points, ops[0]), OnLatest(m, ops[0]), ops[1..]);
    }
  }

  // ----- building the records of an item

  /** What the index is told about an item besides its chunks. */
  datatype Context = Context(tenant: string, collection: string, connectorKey: string, externalId: string)

  /** `ContextualChunkBuilder.contextualize`: retrieval context in front, evidence unchanged behind it. */
  function Contextual(prefix: string, text: string): (r: string)
    ensures |text| <= |r| && r[|r| - |text|..] == text
    ensures if prefix == "" then |r| == |text| else prefix + "\n\n" <= r && |r| == |prefix| + 2 + |text|
  {
    if prefix == "" then text else prefix + "\n\n" + text
  }

  function PayloadOf(c: Pipeline.Chunk, prefix: string, context: Context): Payload {
    Payload(context.tenant, context.collection, c.itemId, c.id, c.index, c.text, Contextual(prefix, c.text),
            context.connectorKey, context.externalId, false)
  }

  /** The record of each chunk; `prefix` and `embed` are the contextualizer and the embedder. */
  function RecordOf(c: Pipeline.Chunk, context: Context, prefix: Pipeline.Chunk -> string,
      embed: string -> Vector): Point {
    Point(embed(Contextual(prefix(c), c.text)), PayloadOf(c, prefix(c), context))
  }

  function RecordsFor(chunks: seq<Pipeline.Chunk>, context: Context, prefix: Pipeline.Chunk -> string,
      embed: string -> Vector): (r: seq<Point>)
    ensures |r| == |chunks| && forall k :: 0 <= k < |r| ==> r[k] == RecordOf(chunks[k], context, prefix, embed)
    ensures forall k :: 0 <= k < |r| ==> r[k].vector == embed(r[k].payload.contextualText)
  {
    seq(|chunks|, k requires 0 <= k < |chunks| => RecordOf(chunks[k], context, prefix, embed))
  }

  /** What `_validate_chunks` accepts: as the pipeline does, but never an item without chunks. */
  ghost predicate Indexable(item: Pipeline.Document, chunks: seq<Pipeline.Chunk>) {
    chunks != [] && Pipeline.ChunksOk(item, chunks)
  }

  lemma RecordsBelongTogether(item: Pipeline.Document, chunks: seq<Pipeline.Chunk>, context: Context,
      prefix: Pipeline.Chunk -> string, embed: string -> Vector)
    requires Indexable(item, chunks)
    ensures RecordsOf(RecordsFor(chunks, context, prefix, embed), context.tenant, item.id)
  {
  }

  function Texts(chunks: seq<Pipeline.Chunk>, prefix: Pipeline.Chunk -> string): (r: seq<string>)
    ensures |r| == |chunks| && forall k :: 0 <= k < |r| ==> r[k] == Contextual(prefix(chunks[k]), chunks[k].text)
  {
    seq(|chunks|, k requires 0 <= k < |chunks| => Contextual(prefix(chunks[k]), chunks[k].text))
  }

  function Embedded(texts: seq<string>, embed: string -> Vector): (r: seq<Vector>)
    ensures |r| == |texts| && forall k :: 0 <= k < |r| ==> r[k] == embed(texts[k])
  {
    seq(|texts|, k requires 0 <= k < |texts| => embed(texts[k]))
  }

  // ----- reading back

  datatype ContextualChunk = ContextualChunk(id: string, item: string, index: nat, chunkText: string,
                                             contextualText: string)

  /** White space, and the connector keys that name a provider. */
  datatype Reader = Reader(space: set<char>, providers: set<string>)

  predicate Blank(text: string, reader: Reader) { Strip(text, reader.space) == "" }

  /** `_contextual_chunk_from_point`: ids are stripped, evidence text is not. */
  function FromPayload(p: Payload, reader: Reader): Option<ContextualChunk> {
    if Blank(p.item, reader) || Blank(p.chunkId, reader) || Blank(p.chunkText, reader)
       || Blank(p.contextualText, reader)
       || Blank(p.connectorKey, reader) || Blank(p.externalId, reader)
       || Strip(p.connectorKey, reader.space) !in reader.providers
    then None
    else Some(ContextualChunk(Strip(p.chunkId, reader.space), Strip(p.item, reader.space), p.index, p.chunkText,
                              p.contextualText))
  }

  /** The canonical chunk of a payload. */
  function Canonical(p: Payload): ContextualChunk {
    ContextualChunk(p.chunkId, p.item, p.index, p.chunkText, p.contextualText)
  }

  /** Read-back recovers id, item, position and exact evidence. */
  predicate Readable(p: Payload, reader: Reader) {
    && p.item != "" && Strip(p.item, reader.space) == p.item
    && p.chunkId != "" && Strip(p.chunkId, reader.space) == p.chunkId
    && !Blank(p.chunkText, reader) && !Blank(p.contextualText, reader)
    && Strip(p.connectorKey, reader.space) in reader.providers && !Blank(p.connectorKey, reader)
    && !Blank(p.externalId, reader)
  }

  /** A payload reads back as its own chunk exactly when its ids carry no outer white
      space, its text is not blank, and its source is complete and known. */
  lemma ReadsBackIff(p: Payload, reader: Reader)
    ensures FromPayload(p, reader) == Some(Canonical(p)) <==> Readable(p, reader)
  {
  }

  /** Context never makes evidence blank. */
  lemma ContextKeepsEvidence(prefix: string, text: string, reader: Reader)
    requires !Blank(text, reader)
    ensures !Blank(Contextual(prefix, text), reader)
  {
  }

  function Ids(chunks: seq<ContextualChunk>): set<string> {
    set c | c in chunks :: c.id
  }

  /** What `_normalise_points` keeps: readable points, without repeated chunk ids. */
  function Normal(page: seq<Payload>, reader: Reader): seq<ContextualChunk> {
    if page == [] then []
    else
      var before, chunk := Normal(page[..|page| - 1], reader), FromPayload(page[|page| - 1], reader);
      if chunk.None? || chunk.value.id in Ids(before) then before else before + [chunk.value]
  }

  method NormalisePoints(page: seq<Payload>, reader: Reader) returns (chunks: seq<ContextualChunk>)
    ensures chunks == Normal(page, reader)
  {
    hide FromPayload;
    chunks := [];
    var seenIds: set<string> := {};
    for n := 0 to |page|
      invariant chunks == Normal(page[..n], reader) && seenIds == Ids(chunks)
    {
      assert page[..n + 1][..n] == page[..n];
      var chunk := FromPayload(page[n], reader);
      if chunk.Some? && chunk.value.id !in seenIds {
        seenIds := seenIds + {chunk.value.id};
        chunks := chunks + [chunk.value];
      }
    }
    assert page[..|page|] == page;
  }

  function Canonicals(page: seq<Payload>): (r: seq<ContextualChunk>)
    ensures |r| == |page| && forall k :: 0 <= k < |r| ==> r[k] == Canonical(page[k])
  {
    seq(|page|, k requires 0 <= k < |page| => Canonical(page[k]))
  }

  /** Readable payloads with distinct chunk ids all survive, unchanged. */
  lemma {:induction false} NormalKeepsAll(page: seq<Payload>, reader: Reader)
    requires forall k :: 0 <= k < |page| ==> Readable(page[k], reader)
    requires forall j, k :: 0 <= j < k < |page| ==> page[j].chunkId != page[k].chunkId
    ensures Normal(page, reader) == Canonicals(page)
    decreases |page|
  {
    hide FromPayload, Readable;
    if page != [] {
      var fewer, last := page[..|page| - 1], page[|page| - 1];
      NormalKeepsAll(fewer, reader);
      ReadsBackIff(last, reader);
      forall c | c in Canonicals(fewer) ensures c.id != last.chunkId {
        var k :| 0 <= k < |fewer| && Canonicals(fewer)[k] == c;
        assert fewer[k] == page[k];
      }
    }
  }

  predicate Ascends(chunks: seq<ContextualChunk>) {
    forall i, j :: 0 <= i < j < |chunks| ==> chunks[i].index <= chunks[j].index
  }

  /** `sorted(chunks, key=chunk_index)`. */
  function SortedByIndex(chunks: seq<ContextualChunk>): (r: seq<ContextualChunk>)
    ensures multiset(r) == multiset(chunks)
  {
    if chunks == [] then []
    else
      assert chunks == chunks[..|chunks| - 1] + [chunks[|chunks| - 1]];
      Inserted(SortedByIndex(chunks[..|chunks| - 1]), chunks[|chunks| - 1])
  }

  function Inserted(sorted: seq<ContextualChunk>, c: ContextualChunk): (r: seq<ContextualChunk>)
    ensures multiset(r) == multiset(sorted) + multiset{c}
  {
    if sorted == [] || sorted[|sorted| - 1].index <= c.index then sorted + [c]
    else
      assert sorted == sorted[..|sorted| - 1] + [sorted[|sorted| - 1]];
      Inserted(sorted[..|sorted| - 1], c) + [sorted[|sorted| - 1]]
  }

  lemma {:induction false} InsertedAscends(sorted: seq<ContextualChunk>, c: ContextualChunk)
    requires Ascends(sorted)
    ensures Ascends(Inserted(sorted, c))
    decreases sorted
  {
    if sorted != [] && sorted[|sorted| - 1].index > c.index {
      var shorter, last := sorted[..|sorted| - 1], sorted[|sorted| - 1];
      assert sorted == shorter + [last];
      InsertedAscends(shorter, c);
      InsertedBelow(shorter, last, c, Inserted(shorter, c));
    }
  }

  lemma InsertedBelow(shorter: seq<ContextualChunk>, last: ContextualChunk, c: ContextualChunk, r: seq<ContextualChunk>)
    requires Ascends(shorter + [last]) && c.index < last.index && multiset(r) == multiset(shorter) + multiset{c}
    ensures forall k :: 0 <= k < |r| ==> r[k].index <= last.index
  {
    forall k | 0 <= k < |r| ensures r[k].index <= last.index {
      assert r[k] in multiset(r);
      if r[k] != c {
        assert r[k] in shorter;
        var i :| 0 <= i < |shorter| && shorter[i] == r[k];
        assert (shorter + [last])[i] == r[k] && (shorter + [last])[|shorter|] == last;
      }
    }
  }

  lemma {:induction false} SortedAscends(chunks: seq<ContextualChunk>)
    ensures Ascends(SortedByIndex(chunks))
  {
    hide Inserted;
    if chunks != [] {
      SortedAscends(chunks[..|chunks| - 1]);
      InsertedAscends(SortedByIndex(chunks[..|chunks| - 1]), chunks[|chunks| - 1]);
    }
  }

  /** What a read asks the store for; an empty chunk id asks for all chunks. */
  datatype Query = Query(tenant: string, item: string, collection: string, chunkId: string, limit: int)

  /** The query takes a payload of its item. */
  predicate Selects(q: Query, p: Payload) {
    p.collection == q.collection && (q.chunkId == "" || p.chunkId == q.chunkId)
  }

  /** What `get_item_content` asks the store for, or nothing when an argument is refused. */
  function QueryOf(itemId: string, tenant: string, collection: string, chunkId: Option<string>, limit: int,
      reader: Reader): Option<Query> {
    if Blank(itemId, reader) || Blank(tenant, reader) || Blank(collection, reader) || limit < 1 then None
    else
      Some(Query(Strip(tenant, reader.space), Strip(itemId, reader.space), Strip(collection, reader.space),
                 if chunkId.Some? then chunkId.value else "", limit))
  }

  /** Blank arguments and limits below one ask for nothing; otherwise each argument is stripped. */
  lemma QueryOfMeans(itemId: string, tenant: string, collection: string, chunkId: Option<string>, limit: int,
      reader: Reader)
    ensures var q := QueryOf(itemId, tenant, collection, chunkId, limit, reader);
            && (q == None <==>
                  || (forall c <- itemId :: c in reader.space) || (forall c <- tenant :: c in reader.space)
                  || (forall c <- collection :: c in reader.space) || limit < 1)
            && (q.Some? ==>
                  && IsStripped(itemId, q.value.item, reader.space) && IsStripped(tenant, q.value.tenant, reader.space)
                  && IsStripped(collection, q.value.collection, reader.space) && q.value.limit == limit
                  && q.value.chunkId == match chunkId { case None => "" case Some(id) => id })
  {
    hide IsStripped;
    StripIsStripped(itemId, reader.space);
    StripIsStripped(tenant, reader.space);
    StripIsStripped(collection, reader.space);
  }

  /** A stored point that a query asks for. */
  predicate Asked(points: Points, name: string, q: Query) {
    && name in points && !points[name].payload.deleted && points[name].payload.tenant == q.tenant
    && points[name].payload.item == q.item && Selects(q, points[name].payload)
  }

  /** One page of the store's answer: matching points, in any order, and all of them unless the limit cut it. */
  ghost predicate Scrolled(points: Points, q: Query, names: seq<string>, page: seq<Payload>) {
    && |names| == |page| <= q.limit
    && (forall k :: 0 <= k < |names| ==> Asked(points, names[k], q) && page[k] == points[names[k]].payload)
    && (forall j, k :: 0 <= j < k < |names| ==> names[j] != names[k])
    && (|page| < q.limit ==> forall name :: Asked(points, name, q) ==> name in names)
  }

  /** The records of an item can be read back one by one. */
  ghost predicate AllReadable(records: seq<Point>, reader: Reader) {
    && (forall k :: 0 <= k < |records| ==> Readable(records[k].payload, reader))
    && (forall j, k :: 0 <= j < k < |records| ==> records[j].payload.chunkId != records[k].payload.chunkId
                                                  && records[j].payload.index != records[k].payload.index)
  }

  /** The result holds every selected record once, as its own chunk, in order of position. */
  ghost predicate IsContent(result: seq<ContextualChunk>, records: seq<Point>, q: Query) {
    && (forall i, j :: 0 <= i < j < |result| ==> result[i].index < result[j].index)
    && (forall r <- records ::
          r.payload.collection == q.collection && (q.chunkId == "" || r.payload.chunkId == q.chunkId) ==>
            Canonical(r.payload) in result)
    && (forall c <- result :: exists r ::
          && r in records && r.payload.collection == q.collection
          && (q.chunkId == "" || r.payload.chunkId == q.chunkId) && c == Canonical(r.payload))
  }

  lemma PageIsRecords(points: Points, m: Latest, q: Query, names: seq<string>, page: seq<Payload>)
    requires Represents(points, m) && (q.tenant, q.item) in m && Scrolled(points, q, names, page)
    ensures forall k :: 0 <= k < |names| ==> names[k] in points && points[names[k]] in m[(q.tenant, q.item)]
    ensures |page| < q.limit ==> forall r <- m[(q.tenant, q.item)] :: Selects(q, r.payload) ==> r.payload in page
  {
    hide NameOf, PointName;
    forall k | 0 <= k < |names| ensures names[k] in points && points[names[k]] in m[(q.tenant, q.item)] {
      assert LiveAt(points, points[names[k]]);
    }
    if |page| < q.limit {
      forall r | r in m[(q.tenant, q.item)] && Selects(q, r.payload) ensures r.payload in page {
        assert InLatest(m, r);
        assert LiveAt(points, r);
        var name := NameOf(r.payload);
        assert Asked(points, name, q);
        var k :| 0 <= k < |names| && names[k] == name;
        assert page[k] == r.payload;
      }
    }
  }

  lemma PageIsReadable(points: Points, m: Latest, q: Query, names: seq<string>, page: seq<Payload>, reader: Reader)
    requires Represents(points, m) && (q.tenant, q.item) in m && AllReadable(m[(q.tenant, q.item)], reader)
    requires Scrolled(points, q, names, page)
    ensures Normal(page, reader) == Canonicals(page)
    ensures forall j, k :: 0 <= j < k < |page| ==> page[j].index != page[k].index
  {
    hide Readable, FromPayload, PointName;
    var records := m[(q.tenant, q.item)];
    PageIsRecords(points, m, q, names, page);
    forall k | 0 <= k < |page| ensures Readable(page[k], reader) {
      assert points[names[k]] in records;
      var i :| 0 <= i < |records| && records[i] == points[names[k]];
    }
    forall j, k | 0 <= j < k < |page| ensures page[j].chunkId != page[k].chunkId && page[j].index != page[k].index {
      var a :| 0 <= a < |records| && records[a] == points[names[j]];
      var b :| 0 <= b < |records| && records[b] == points[names[k]];
      assert names[j] == NameOf(points[names[j]].payload) && names[k] == NameOf(points[names[k]].payload);
      assert a != b;
    }
    NormalKeepsAll(page, reader);
  }

  /**
   Reading an item back returns the latest content of the collection asked for:
   every chunk with its own id, position and exact evidence text, once, in order
   of position, whatever order the store answers in.
   */
  lemma ReadReturnsLatest(points: Points, m: Latest, q: Query, names: seq<string>, page: seq<Payload>, reader: Reader)
    requires Represents(points, m) && (q.tenant, q.item) in m && AllReadable(m[(q.tenant, q.item)], reader)
    requires Scrolled(points, q, names, page) && |page| < q.limit
    ensures IsContent(SortedByIndex(Normal(page, reader)), m[(q.tenant, q.item)], q)
  {
    hide Readable, FromPayload, NameOf, Normal, Represents, Scrolled, AllReadable;
    var records, chunks := m[(q.tenant, q.item)], Canonicals(page);
    var result := SortedByIndex(chunks);
    PageIsReadable(points, m, q, names, page, reader);
    PageIsRecords(points, m, q, names, page);
    PageComesFromNames(points, q, names, page);
    SortedKeeps(chunks);
    forall r | r in records && Selects(q, r.payload) ensures Canonical(r.payload) in result {
      var k :| 0 <= k < |page| && page[k] == r.payload;
      assert chunks[k] == Canonical(r.payload) && chunks[k] in chunks;
    }
    forall c | c in result ensures exists r :: r in records && Selects(q, r.payload) && c == Canonical(r.payload) {
      assert c in chunks;
      var k :| 0 <= k < |chunks| && chunks[k] == c;
      assert points[names[k]] in records;
    }
  }

  lemma PageComesFromNames(points: Points, q: Query, names: seq<string>, page: seq<Payload>)
    requires Scrolled(points, q, names, page)
    ensures |names| == |page|
    ensures forall k :: 0 <= k < |names| ==>
              names[k] in points && page[k] == points[names[k]].payload && Selects(q, page[k])
  {
  }

  /** Only an item with content answers a query with a point. */
  lemma AnswersHaveContent(points: Points, m: Latest, q: Query, names: seq<string>, page: seq<Payload>)
    requires Represents(points, m) && Scrolled(points, q, names, page)
    ensures page != [] ==> (q.tenant, q.item) in m
  {
    hide PointName;
    if page != [] {
      assert LiveAt(points, points[names[0]]);
    }
  }

  // ----- from indexing to reading

  /** An id that reading does not alter. */
  predicate Plain(id: string, reader: Reader) { id != "" && Strip(id, reader.space) == id }

  /** The context names a known connector and an external object. */
  predicate SourceKnown(context: Context, reader: Reader) {
    && !Blank(context.connectorKey, reader) && Strip(context.connectorKey, reader.space) in reader.providers
    && !Blank(context.externalId, reader)
  }

  /**
   The records of an item can all be read back exactly when its id and its chunks'
   ids carry no outer white space, no chunk is blank, and its source is known.
   */
  lemma RecordsReadBackIff(item: Pipeline.Document, chunks: seq<Pipeline.Chunk>, context: Context,
      prefix: Pipeline.Chunk -> string, embed: string -> Vector, reader: Reader)
    requires Indexable(item, chunks)
    ensures AllReadable(RecordsFor(chunks, context, prefix, embed), reader) <==>
              && Plain(item.id, reader) && SourceKnown(context, reader)
              && forall c <- chunks :: Plain(c.id, reader) && !Blank(c.text, reader)
  {
    hide Strip, Contextual;
    var records := RecordsFor(chunks, context, prefix, embed);
    forall k | 0 <= k < |chunks|
      ensures chunks[k].itemId == item.id
      ensures Readable(records[k].payload, reader) <==>
                && Plain(item.id, reader) && SourceKnown(context, reader)
                && Plain(chunks[k].id, reader) && !Blank(chunks[k].text, reader)
    {
      assert chunks[k] in chunks;
      if !Blank(chunks[k].text, reader) {
        ContextKeepsEvidence(prefix(chunks[k]), chunks[k].text, reader);
      }
    }
    assert Readable(records[0].payload, reader) || !AllReadable(records, reader);
  }

  /** What reading makes of an indexed chunk. */
  function ReadChunk(c: Pipeline.Chunk, prefix: Pipeline.Chunk -> string): ContextualChunk {
    ContextualChunk(c.id, c.itemId, c.index, c.text, Contextual(prefix(c), c.text))
  }

  lemma {:induction false} OthersKeepContent(m: Latest, ops: seq<Op>, tenant: string, item: string)
    requires (tenant, item) in m && forall op <- ops :: (op.tenant, op.item) != (tenant, item)
    ensures (tenant, item) in RunOnLatest(m, ops) && RunOnLatest(m, ops)[(tenant, item)] == m[(tenant, item)]
    decreases ops
  {
    if ops != [] {
      assert ops[0] in ops;
      OthersKeepContent(OnLatest(m, ops[0]), ops[1..], tenant, item);
    }
  }

  /**
   The round trip: after an item's chunks were indexed, and whatever was then done
   to other items, reading the item returns exactly those chunks in order of position.
   */
  lemma IndexedContentReadsBack(points: Points, m: Latest, item: Pipeline.Document, chunks: seq<Pipeline.Chunk>,
      context: Context, prefix: Pipeline.Chunk -> string, embed: string -> Vector, ops: seq<Op>, limit: int,
      names: seq<string>, page: seq<Payload>, reader: Reader)
    requires Represents(points, m) && ':' !in context.tenant && Indexable(item, chunks)
    requires Plain(item.id, reader) && SourceKnown(context, reader)
    requires forall c <- chunks :: Plain(c.id, reader) && !Blank(c.text, reader)
    requires forall op <- ops :: OpOk(op) && (op.tenant, op.item) != (context.tenant, item.id)
    requires var write := Replace(context.tenant, item.id, RecordsFor(chunks, context, prefix, embed));
             var query := Query(context.tenant, item.id, context.collection, "", limit);
             Scrolled(RunOnPoints(OnPoints(points, write), ops), query, names, page) && |page| < limit
    ensures var result := SortedByIndex(Normal(page, reader));
            && (forall i, j :: 0 <= i < j < |result| ==> result[i].index < result[j].index)
            && forall c :: c in result <==> exists k :: 0 <= k < |chunks| && c == ReadChunk(chunks[k], prefix)
  {
    hide Represents, Scrolled, AllReadable, Plain, SourceKnown, Blank, RecordsOf, Tombstoned, Upserted, Normal;
    var records := RecordsFor(chunks, context, prefix, embed);
    var write := Replace(context.tenant, item.id, records);
    var query := Query(context.tenant, item.id, context.collection, "", limit);
    RecordsBelongTogether(item, chunks, context, prefix, embed);
    RecordsReadBackIff(item, chunks, context, prefix, embed, reader);
    ReplaceRepresents(points, m, context.tenant, item.id, records);
    var after, latest := OnPoints(points, write), OnLatest(m, write);
    RunRefines(after, latest, ops);
    OthersKeepContent(latest, ops, context.tenant, item.id);
    ReadReturnsLatest(RunOnPoints(after, ops), RunOnLatest(latest, ops), query, names, page, reader);
    ContentIsChunks(SortedByIndex(Normal(page, reader)), chunks, context, prefix, embed, query);
  }

  lemma ContentIsChunks(result: seq<ContextualChunk>, chunks: seq<Pipeline.Chunk>, context: Context,
      prefix: Pipeline.Chunk -> string, embed: string -> Vector, q: Query)
    requires IsContent(result, RecordsFor(chunks, context, prefix, embed), q)
    requires q.collection == context.collection && q.chunkId == ""
    ensures forall c :: c in result <==> exists k :: 0 <= k < |chunks| && c == ReadChunk(chunks[k], prefix)
  {
    hide Contextual;
    var records := RecordsFor(chunks, context, prefix, embed);
    forall k | 0 <= k < |chunks| ensures ReadChunk(chunks[k], prefix) in result {
      assert records[k] in records && Selects(q, records[k].payload);
    }
    forall c | c in result ensures exists k :: 0 <= k < |chunks| && c == ReadChunk(chunks[k], prefix) {
      var r :| r in records && Selects(q, r.payload) && c == Canonical(r.payload);
      var k :| 0 <= k < |records| && records[k] == r;
      assert c == ReadChunk(chunks[k], prefix);
    }
  }

  /** Sorting keeps the chunks; with distinct positions it orders them strictly. */
  lemma SortedKeeps(chunks: seq<ContextualChunk>)
    requires forall i, j :: 0 <= i < j < |chunks| ==> chunks[i].index != chunks[j].index
    ensures forall c :: c in SortedByIndex(chunks) <==> c in chunks
    ensures var r := SortedByIndex(chunks); forall i, j :: 0 <= i < j < |r| ==> r[i].index < r[j].index
  {
    var r := SortedByIndex(chunks);
    SortedAscends(chunks);
    forall c ensures c in r <==> c in chunks {
      assert c in multiset(r) <==> c in multiset(chunks);
    }
    forall i, j | 0 <= i < j < |r| ensures r[i].index != r[j].index {
      DistinctStaysDistinct(chunks, r, i, j);
    }
  }

  lemma DistinctStaysDistinct(chunks: seq<ContextualChunk>, r: seq<ContextualChunk>, i: nat, j: nat)
    requires multiset(r) == multiset(chunks) && i < j < |r|
    requires forall a, b :: 0 <= a < b < |chunks| ==> chunks[a].index != chunks[b].index
    ensures r[i].index != r[j].index
  {
    assert r[i] in multiset(chunks) && r[j] in multiset(chunks);
    var a :| 0 <= a < |chunks| && chunks[a] == r[i];
    var b :| 0 <= b < |chunks| && chunks[b] == r[j];
    Occurrences(r, i, j);
    OccursOnce(chunks, a);
  }

  lemma Occurrences(r: seq<ContextualChunk>, i: nat, j: nat)
    requires i < j < |r|
    ensures r[i] == r[j] ==> multiset(r)[r[i]] >= 2
  {
    assert r == r[..i] + [r[i]] + r[i + 1..j] + [r[j]] + r[j + 1..];
  }

  lemma OccursOnce(chunks: seq<ContextualChunk>, a: nat)
    requires a < |chunks| && forall i, j :: 0 <= i < j < |chunks| ==> chunks[i].index != chunks[j].index
    ensures multiset(chunks)[chunks[a]] == 1
  {
    assert chunks == chunks[..a] + [chunks[a]] + chunks[a + 1..];
    assert chunks[a] !in chunks[..a] && chunks[a] !in chunks[a + 1..];
  }

  // ----- the index

  /** What an embedder promises: one vector per text, in order, however the texts are batched. */
  ghost predicate EmbedsEach(embedDocuments: seq<string> -> seq<Vector>, embed: string -> Vector) {
    forall texts :: embedDocuments(texts) == Embedded(texts, embed)
  }

  datatype IndexError = InvalidChunks | MissingEmbedding | EmptyArgument

  class ItemIndex {
    const batchSize: nat
    var points: Points
    /** The simple index this one refines. */
    ghost var latest: Latest

    ghost predicate Valid()
      reads this
    {
      batchSize >= 1 && Represents(points, latest)
    }

    constructor (batchSize: nat)
      requires batchSize >= 1
      ensures Valid() && points == map[] && latest == map[]
    {
      this.batchSize, points, latest := batchSize, map[], map[];
    }

    /** The batching loop of `index_item_content`. */
    method EmbedAll(texts: seq<string>, embedDocuments: seq<string> -> seq<Vector>,
        ghost embed: string -> Vector) returns (vectors: seq<Vector>)
      requires batchSize >= 1 && EmbedsEach(embedDocuments, embed)
      ensures vectors == Embedded(texts, embed)
    {
      vectors := [];
      var start := 0;
      while start < |texts|
        invariant 0 <= start <= |texts| && vectors == Embedded(texts[..start], embed)
      {
        var stop := if start + batchSize < |texts| then start + batchSize else |texts|;
        vectors := vectors + embedDocuments(texts[start..stop]);
        start := stop;
      }
      assert texts[..|texts|] == texts;
    }

    method ReplaceItemPoints(tenant: string, item: string, records: seq<Point>)
      requires Valid() && ':' !in tenant && RecordsOf(records, tenant, item)
      modifies this
      ensures Valid() && latest == old(latest)[(tenant, item) := records]
    {
      hide Represents, RecordsOf;
      ReplaceRepresents(points, latest, tenant, item, records);
      points := Tombstoned(points, tenant, item);
      points := Upserted(points, records);
      latest := latest[(tenant, item) := records];
    }

    /** `index_item_content`: the item's content becomes exactly these chunks, or nothing changes. */
    method IndexItemContent(item: Pipeline.Document, chunks: seq<Pipeline.Chunk>, context: Context,
        prefix: Pipeline.Chunk -> string,
                            embedDocuments: seq<string> -> seq<Vector>, ghost embed: string -> Vector)
      returns (r: Result<nat, IndexError>)
      requires Valid() && ':' !in context.tenant && EmbedsEach(embedDocuments, embed)
      modifies this
      ensures Valid()
      ensures r.Ok? <==> Indexable(item, chunks) && forall v <- Embedded(Texts(chunks, prefix), embed) :: v != []
      ensures r.Ok? ==> r.value == |chunks|
      ensures r.Ok? ==> var records := RecordsFor(chunks, context, prefix, embed);
                        latest == old(latest)[(context.tenant, item.id) := records]
      ensures r.Err? ==> latest == old(latest) && points == old(points)
    {
      hide Represents, EmbedsEach, RecordsOf;
      var ok := Pipeline.CheckChunks(item, chunks);
      if chunks == [] || !ok {
        return Err(InvalidChunks);
      }
      RecordsBelongTogether(item, chunks, context, prefix, embed);
      var vectors := EmbedAll(Texts(chunks, prefix), embedDocuments, embed);
      if |vectors| != |chunks| || exists v :: v in vectors && v == [] {
        return Err(MissingEmbedding);
      }
      var records := seq(|chunks|, k requires 0 <= k < |chunks| && k < |vectors| =>
                                     Point(vectors[k], PayloadOf(chunks[k], prefix(chunks[k]), context)));
      assert records == RecordsFor(chunks, context, prefix, embed);
      ReplaceItemPoints(context.tenant, item.id, records);
      return Ok(|chunks|);
    }

    /** `remove_item_content`. */
    method RemoveItemContent(item: string, tenant: string, reader: Reader) returns (r: Result<(), IndexError>)
      requires Valid()
      modifies this
      ensures Valid()
      ensures r.Err? <==> Blank(item, reader) || Blank(tenant, reader)
      ensures r.Ok? ==> latest == old(latest) - {(Strip(tenant, reader.space), Strip(item, reader.space))}
      ensures r.Err? ==> latest == old(latest)
    {
      hide Represents;
      if Blank(item, reader) || Blank(tenant, reader) {
        return Err(EmptyArgument);
      }
      var t, i := Strip(tenant, reader.space), Strip(item, reader.space);
      TombstoneRepresents(points, latest, t, i);
      points, latest := Tombstoned(points, t, i), latest - {(t, i)};
      return Ok(());
    }

    /** `get_item_content`, given the page the store answers with. */
    method GetItemContent(itemId: string, tenant: string, collection: string, chunkId: Option<string>, limit: int,
        page: seq<Payload>, ghost names: seq<string>, reader: Reader)
      returns (r: Result<seq<ContextualChunk>, IndexError>)
      requires Valid()
      requires var q := QueryOf(itemId, tenant, collection, chunkId, limit, reader);
               q.Some? ==> Scrolled(points, q.value, names, page)
      ensures var q := QueryOf(itemId, tenant, collection, chunkId, limit, reader);
              && (r.Ok? <==> q.Some?)
              && (q.Some? && (q.value.tenant, q.value.item) !in latest ==> r == Ok([]))
              && (q.Some? && (q.value.tenant, q.value.item) in latest && |page| < limit
                  && AllReadable(latest[(q.value.tenant, q.value.item)], reader) ==>
                    IsContent(r.value, latest[(q.value.tenant, q.value.item)], q.value))
      ensures r.Err? ==> r.error == EmptyArgument
      ensures r.Ok? ==> r.value == SortedByIndex(Normal(page, reader))
    {
      hide Represents, Scrolled, AllReadable, IsContent;
      if Blank(itemId, reader) || Blank(tenant, reader) || Blank(collection, reader) || limit < 1 {
        return Err(EmptyArgument);
      }
      ghost var q := QueryOf(itemId, tenant, collection, chunkId, limit, reader).value;
      var chunks := NormalisePoints(page, reader);
      AnswersHaveContent(points, latest, q, names, page);
      if (q.tenant, q.item) in latest && |page| < limit && AllReadable(latest[(q.tenant, q.item)], reader) {
        ReadReturnsLatest(points, latest, q, names, page, reader);
      }
      return Ok(SortedByIndex(chunks));
    }
  }
}
