/**
 `ResponseReducer` of `agent/reducer.py`: flat tables keyed by
 `(output_index, content_index)`, updated in place, with every item rebuilt
 after each event that touches its index.
 */
module Reducer {
  import opened Prelude
  import opened Protocol
  import opened ReducerModel

  /** The entries of a flat table that belong to one output index. */
  function Row<V>(table: map<Key, V>, i: nat): map<nat, V> {
    map k | k in table && k.0 == i :: k.1 := table[k]
  }

  function JoinRow(row: map<nat, seq<string>>): map<nat, string> {
    map c | c in row :: Join(row[c])
  }

  function GetKey<V>(table: map<Key, V>, k: Key, default: V): V {
    if k in table then table[k] else default
  }

  lemma RowHas<V>(table: map<Key, V>, i: nat, c: nat)
    ensures c in Row(table, i) <==> (i, c) in table
    ensures (i, c) in table ==> Row(table, i)[c] == table[(i, c)]
  {
  }

  lemma RowUpdate<V>(table: map<Key, V>, o: nat, c: nat, v: V)
    ensures Row(table[(o, c) := v], o) == Row(table, o)[c := v]
  {
  }

  /** `dict.setdefault` on a flat table is `setdefault` on the row. */
  lemma RowSetDefault<V>(table: map<Key, V>, o: nat, c: nat, v: V)
    ensures Row(SetDefault(table, (o, c), v), o) == SetDefault(Row(table, o), c, v)
  {
  }

  lemma TextUpdate(table: map<Key, seq<string>>, o: nat, c: nat, v: seq<string>)
    ensures JoinRow(Row(table[(o, c) := v], o)) == JoinRow(Row(table, o))[c := Join(v)]
  {
    RowUpdate(table, o, c, v);
  }

  lemma TextLookup(table: map<Key, seq<string>>, o: nat, c: nat)
    ensures Join(GetKey(table, (o, c), [])) == Get(JoinRow(Row(table, o)), c, "")
  {
  }

  lemma TextSetDefault(table: map<Key, seq<string>>, o: nat, c: nat)
    ensures JoinRow(Row(SetDefault(table, (o, c), []), o)) == SetDefault(JoinRow(Row(table, o)), c, "")
  {
    RowHas(table, o, c);
    TextUpdate(table, o, c, []);
  }

  /** The two tables agree on every key outside row `o`. */
  ghost predicate AgreeOff<V>(a: map<Key, V>, b: map<Key, V>, o: nat) {
    forall k: Key :: k.0 != o ==> (k in a <==> k in b) && (k in a ==> a[k] == b[k])
  }

  lemma RowAgrees<V>(a: map<Key, V>, b: map<Key, V>, o: nat, i: nat)
    requires AgreeOff(a, b, o) && i != o
    ensures Row(a, i) == Row(b, i)
  {
  }

  /** The reducer's tables as one value. */
  datatype Tables = Tables(
    shells: map<nat, Item>,
    parts: map<Key, Part>, text: map<Key, seq<string>>, annotations: map<Key, seq<Annotation>>,
    summaryParts: map<Key, Part>, summaryText: map<Key, seq<string>>, arguments: map<nat, seq<string>>)

  /** Everything the tables hold for one output index. */
  function SlotOf(t: Tables, i: nat): Slot {
    Slot(if i in t.shells then Some(t.shells[i]) else None,
         Row(t.parts, i), JoinRow(Row(t.text, i)), Row(t.annotations, i),
         Row(t.summaryParts, i), JoinRow(Row(t.summaryText, i)),
         if i in t.arguments then Some(Join(t.arguments[i])) else None)
  }

  function SlotsOf(t: Tables): Slots {
    (i: nat) => SlotOf(t, i)
  }

  /** Nothing outside output index `o` was touched. */
  ghost predicate Local(t: Tables, t': Tables, o: nat) {
    && AgreeOff(t.parts, t'.parts, o) && AgreeOff(t.text, t'.text, o) && AgreeOff(t.annotations, t'.annotations, o)
    && AgreeOff(t.summaryParts, t'.summaryParts, o) && AgreeOff(t.summaryText, t'.summaryText, o)
    && AgreeBut(t.shells, t'.shells, o) && AgreeBut(t.arguments, t'.arguments, o)
  }

  ghost predicate AgreeBut<V>(a: map<nat, V>, b: map<nat, V>, o: nat) {
    forall i: nat :: i != o ==> (i in a <==> i in b) && (i in a ==> a[i] == b[i])
  }

  /** A local update leaves every other slot alone. */
  lemma Elsewhere(t: Tables, t': Tables, o: nat)
    requires Local(t, t', o)
    ensures Became(SlotsOf(t), SlotsOf(t'), o, SlotOf(t', o))
  {
    forall i: nat | i != o ensures SlotsOf(t')(i) == SlotsOf(t)(i) {
      ElsewhereSlot(t, t', o, i);
    }
  }

  lemma ElsewhereSlot(t: Tables, t': Tables, o: nat, i: nat)
    requires Local(t, t', o) && i != o
    ensures SlotOf(t', i) == SlotOf(t, i)
  {
    hide JoinRow, Row, AgreeOff;
    RowAgrees(t.parts, t'.parts, o, i);
    RowAgrees(t.text, t'.text, o, i);
    RowAgrees(t.annotations, t'.annotations, o, i);
    RowAgrees(t.summaryParts, t'.summaryParts, o, i);
    RowAgrees(t.summaryText, t'.summaryText, o, i);
  }

  // The table updates of the reducer, and what each does to its slot.

  function TablesAppend(t: Tables, key: Key, delta: string, kind: Part): Tables {
    t.(parts := SetDefault(t.parts, key, kind), text := t.text[key := GetKey(t.text, key, []) + [delta]])
  }

  lemma AppendHere(t: Tables, o: nat, c: nat, delta: string, kind: Part)
    ensures SlotOf(TablesAppend(t, (o, c), delta, kind), o) == Appended(SlotOf(t, o), c, delta, kind)
  {
    hide Row, JoinRow, Join;
    TextLookup(t.text, o, c);
    JoinSnoc(GetKey(t.text, (o, c), []), delta);
    RowSetDefault(t.parts, o, c, kind);
    TextUpdate(t.text, o, c, GetKey(t.text, (o, c), []) + [delta]);
  }

  lemma AppendIsLocal(t: Tables, o: nat, c: nat, delta: string, kind: Part)
    ensures Became(SlotsOf(t), SlotsOf(TablesAppend(t, (o, c), delta, kind)), o, Appended(SlotOf(t, o), c, delta, kind))
  {
    hide SlotOf;
    AppendHere(t, o, c, delta, kind);
    Elsewhere(t, TablesAppend(t, (o, c), delta, kind), o);
  }

  function TablesSetText(t: Tables, key: Key, value: string, kind: Part): Tables {
    t.(parts := SetDefault(t.parts, key, kind), text := t.text[key := [value]])
  }

  lemma SetTextHere(t: Tables, o: nat, c: nat, value: string, kind: Part)
    ensures SlotOf(TablesSetText(t, (o, c), value, kind), o) == Replaced(SlotOf(t, o), c, value, kind)
  {
    hide Row, JoinRow, Join;
    JoinOne(value);
    RowSetDefault(t.parts, o, c, kind);
    TextUpdate(t.text, o, c, [value]);
  }

  lemma SetTextIsLocal(t: Tables, o: nat, c: nat, value: string, kind: Part)
    ensures Became(SlotsOf(t), SlotsOf(TablesSetText(t, (o, c), value, kind)), o,
                   Replaced(SlotOf(t, o), c, value, kind))
  {
    hide SlotOf;
    SetTextHere(t, o, c, value, kind);
    Elsewhere(t, TablesSetText(t, (o, c), value, kind), o);
  }

  function TablesAnnotate(t: Tables, key: Key, index: nat, a: Annotation): Tables {
    t.(parts := SetDefault(t.parts, key, OutputText("", [])),
       annotations := t.annotations[key := InsertAt(GetKey(t.annotations, key, []), index, a)])
  }

  lemma AnnotateHere(t: Tables, o: nat, c: nat, index: nat, a: Annotation)
    ensures SlotOf(TablesAnnotate(t, (o, c), index, a), o) == Annotated(SlotOf(t, o), c, index, a)
  {
    hide Row, JoinRow, Join;
    RowHas(t.annotations, o, c);
    RowSetDefault(t.parts, o, c, OutputText("", []));
    RowUpdate(t.annotations, o, c, InsertAt(GetKey(t.annotations, (o, c), []), index, a));
  }

  lemma AnnotateIsLocal(t: Tables, o: nat, c: nat, index: nat, a: Annotation)
    ensures Became(SlotsOf(t), SlotsOf(TablesAnnotate(t, (o, c), index, a)), o, Annotated(SlotOf(t, o), c, index, a))
  {
    hide SlotOf;
    AnnotateHere(t, o, c, index, a);
    Elsewhere(t, TablesAnnotate(t, (o, c), index, a), o);
  }

  function PlacedText(table: map<Key, seq<string>>, key: Key, value: string): map<Key, seq<string>> {
    if value != "" then table[key := [value]] else SetDefault(table, key, [])
  }

  lemma PlacedTextRow(table: map<Key, seq<string>>, o: nat, c: nat, value: string)
    ensures JoinRow(Row(PlacedText(table, (o, c), value), o))
         == if value != "" then JoinRow(Row(table, o))[c := value] else SetDefault(JoinRow(Row(table, o)), c, "")
  {
    JoinOne(value);
    if value != "" {
      TextUpdate(table, o, c, [value]);
    } else {
      TextSetDefault(table, o, c);
    }
  }

  function TablesPlacePart(t: Tables, key: Key, part: Part): Tables {
    t.(parts := t.parts[key := part],
       text := PlacedText(t.text, key, PartValue(part)),
       annotations := if PartAnnotations(part) == [] then t.annotations
                      else t.annotations[key := Merge(GetKey(t.annotations, key, []), PartAnnotations(part))])
  }

  lemma PlacePartHere(t: Tables, o: nat, c: nat, part: Part)
    ensures SlotOf(TablesPlacePart(t, (o, c), part), o) == WithPart(SlotOf(t, o), c, part)
  {
    hide Row, JoinRow, Join, Merge;
    RowUpdate(t.parts, o, c, part);
    PlacedTextRow(t.text, o, c, PartValue(part));
    RowHas(t.annotations, o, c);
    RowUpdate(t.annotations, o, c, Merge(GetKey(t.annotations, (o, c), []), PartAnnotations(part)));
  }

  lemma PlacePartIsLocal(t: Tables, o: nat, c: nat, part: Part)
    ensures Became(SlotsOf(t), SlotsOf(TablesPlacePart(t, (o, c), part)), o, WithPart(SlotOf(t, o), c, part))
  {
    hide SlotOf;
    PlacePartHere(t, o, c, part);
    Elsewhere(t, TablesPlacePart(t, (o, c), part), o);
  }

  function TablesPlaceSummary(t: Tables, key: Key, part: Part): Tables {
    t.(summaryParts := t.summaryParts[key := part], summaryText := PlacedText(t.summaryText, key, SummaryValue(part)))
  }

  lemma PlaceSummaryHere(t: Tables, o: nat, c: nat, part: Part)
    ensures SlotOf(TablesPlaceSummary(t, (o, c), part), o) == WithSummaryPart(SlotOf(t, o), c, part)
  {
    hide Row, JoinRow, Join;
    RowUpdate(t.summaryParts, o, c, part);
    PlacedTextRow(t.summaryText, o, c, SummaryValue(part));
  }

  lemma PlaceSummaryIsLocal(t: Tables, o: nat, c: nat, part: Part)
    ensures Became(SlotsOf(t), SlotsOf(TablesPlaceSummary(t, (o, c), part)), o, WithSummaryPart(SlotOf(t, o), c, part))
  {
    hide SlotOf;
    PlaceSummaryHere(t, o, c, part);
    Elsewhere(t, TablesPlaceSummary(t, (o, c), part), o);
  }

  function TablesSetSummary(t: Tables, key: Key, value: seq<string>): Tables {
    t.(summaryParts := SetDefault(t.summaryParts, key, SummaryText("")), summaryText := t.summaryText[key := value])
  }

  lemma SetSummaryHere(t: Tables, o: nat, c: nat, value: seq<string>)
    ensures SlotOf(TablesSetSummary(t, (o, c), value), o) == SummaryReplaced(SlotOf(t, o), c, Join(value))
  {
    hide Row, JoinRow, Join;
    RowSetDefault(t.summaryParts, o, c, SummaryText(""));
    TextUpdate(t.summaryText, o, c, value);
  }

  lemma SetSummaryIsLocal(t: Tables, o: nat, c: nat, value: seq<string>)
    ensures Became(SlotsOf(t), SlotsOf(TablesSetSummary(t, (o, c), value)), o,
                   SummaryReplaced(SlotOf(t, o), c, Join(value)))
  {
    hide SlotOf;
    SetSummaryHere(t, o, c, value);
    Elsewhere(t, TablesSetSummary(t, (o, c), value), o);
  }

  function TablesSetArguments(t: Tables, o: nat, value: seq<string>): Tables {
    t.(arguments := t.arguments[o := value])
  }

  lemma SetArgumentsIsLocal(t: Tables, o: nat, value: seq<string>)
    ensures Became(SlotsOf(t), SlotsOf(TablesSetArguments(t, o, value)), o,
                   SlotOf(t, o).(arguments := Some(Join(value))))
  {
    hide Row, JoinRow, Join;
    Elsewhere(t, TablesSetArguments(t, o, value), o);
  }

  lemma ShellIsLocal(t: Tables, o: nat, shell: Item)
    ensures Became(SlotsOf(t), SlotsOf(t.(shells := t.shells[o := shell])), o, SlotOf(t, o).(shell := Some(shell)))
  {
    Elsewhere(t, t.(shells := t.shells[o := shell]), o);
  }

  function OrElse(a: Option<string>, b: Option<string>): Option<string> {
    if a.Some? && a.value != "" then a else b
  }

  /** The envelope of a settled response: the snapshot, completed from what started. */
  function SettledEnvelope(open: Option<Response>, terminal: ResponseStatus, snapshot: Response): Response {
    var base := if open.Some? then open.value else snapshot;
    snapshot.(output := [],
              status := terminal,
              id := if snapshot.id != "" then snapshot.id else base.id,
              model := OrElse(snapshot.model, base.model),
              createdAt := if snapshot.createdAt != 0 then snapshot.createdAt else base.createdAt,
              previousResponseId := OrElse(snapshot.previousResponseId, base.previousResponseId))
  }

  const FAILED_RESPONSE := Response(Failed, "", 0, None, None, [], None)

  function EnvelopeStep(open: Option<Response>, e: Event): Option<Response> {
    match e
    case Opened(r) => Some(r.(output := []))
    case Settled(terminal, r) => Some(SettledEnvelope(open, terminal, r))
    case StreamError(code, message) =>
      var response := if open.Some? then open.value else FAILED_RESPONSE;
      Some(response.(status := Failed, error := Some(ResponseError(code, message))))
    case _ => open
  }

  function InOrder(items: map<nat, Item>, indices: seq<nat>): (r: seq<Item>)
    requires forall i <- indices :: i in items
    ensures |r| == |indices| && forall k :: 0 <= k < |r| ==> indices[k] in items && r[k] == items[indices[k]]
  {
    if indices == [] then [] else [items[indices[0]]] + InOrder(items, indices[1..])
  }

  class ResponseReducer {
    var envelope: Option<Response>
    var shells: map<nat, Item>
    var items: map<nat, Item>
    var parts: map<Key, Part>
    var text: map<Key, seq<string>>
    var annotations: map<Key, seq<Annotation>>
    var summaryParts: map<Key, Part>
    var summaryText: map<Key, seq<string>>
    var arguments: map<nat, seq<string>>

    function Model(): Tables
      reads this
    {
      Tables(shells, parts, text, annotations, summaryParts, summaryText, arguments)
    }

    function AllSlots(): Slots
      reads this
    {
      SlotsOf(Model())
    }

    /** The incremental view: every item, and only those, is its slot's view. */
    ghost predicate Valid()
      reads this
    {
      IsView(items, AllSlots())
    }

    /** `output`: the items by ascending index. */
    function Output(): seq<Item>
      reads this
    {
      InOrder(items, Ascending(items.Keys))
    }

    function CurrentResponse(): Option<Response>
      reads this
    {
      if envelope.None? then None else Some(envelope.value.(output := Output()))
    }

    constructor ()
      ensures Valid() && envelope == None && forall i: nat :: AllSlots()(i) == EMPTY_SLOT
    {
      envelope := None;
      shells, items, parts, text, annotations := map[], map[], map[], map[], map[];
      summaryParts, summaryText, arguments := map[], map[], map[];
    }

    method AppendText(o: nat, c: nat, delta: string, kind: Part)
      modifies this`parts, this`text
      ensures Model() == TablesAppend(old(Model()), (o, c), delta, kind)
      ensures Became(old(AllSlots()), AllSlots(), o, Appended(old(AllSlots())(o), c, delta, kind))
    {
      hide SlotOf, Became, Appended, SetDefault, GetKey, Row, JoinRow;
      AppendIsLocal(Model(), o, c, delta, kind);
      var key := (o, c);
      parts := SetDefault(parts, key, kind);
      text := text[key := GetKey(text, key, []) + [delta]];
    }

    method SetText(o: nat, c: nat, value: string, kind: Part)
      modifies this`parts, this`text
      ensures Model() == TablesSetText(old(Model()), (o, c), value, kind)
      ensures Became(old(AllSlots()), AllSlots(), o, Replaced(old(AllSlots())(o), c, value, kind))
    {
      hide SlotOf, Became, Replaced, SetDefault, Row, JoinRow;
      SetTextIsLocal(Model(), o, c, value, kind);
      parts := SetDefault(parts, (o, c), kind);
      text := text[(o, c) := [value]];
    }

    method AddAnnotation(o: nat, c: nat, index: nat, annotation: Annotation)
      modifies this`parts, this`annotations
      ensures Model() == TablesAnnotate(old(Model()), (o, c), index, annotation)
      ensures Became(old(AllSlots()), AllSlots(), o, Annotated(old(AllSlots())(o), c, index, annotation))
    {
      hide SlotOf, Became, Annotated, SetDefault, GetKey, InsertAt, Row, JoinRow;
      AnnotateIsLocal(Model(), o, c, index, annotation);
      var key := (o, c);
      parts := SetDefault(parts, key, OutputText("", []));
      annotations := annotations[key := InsertAt(GetKey(annotations, key, []), index, annotation)];
    }

    method PlacePart(o: nat, c: nat, part: Part)
      modifies this`parts, this`text, this`annotations
      ensures Model() == TablesPlacePart(old(Model()), (o, c), part)
      ensures Became(old(AllSlots()), AllSlots(), o, WithPart(old(AllSlots())(o), c, part))
    {
      hide SlotOf, Became, WithPart, PlacedText, PartValue, PartAnnotations, Row, JoinRow;
      PlacePartIsLocal(Model(), o, c, part);
      var key := (o, c);
      parts := parts[key := part];
      text := PlacedText(text, key, PartValue(part));
      var incoming := PartAnnotations(part);
      if incoming != [] {
        var existing := GetKey(annotations, key, []);
        for k := 0 to |incoming|
          invariant Merge(GetKey(annotations, key, []), incoming) == Merge(existing, incoming[k..])
        {
          if incoming[k] !in existing {
            existing := existing + [incoming[k]];
          }
        }
        annotations := annotations[key := existing];
      }
    }

    method PlaceSummaryPart(o: nat, c: nat, part: Part)
      modifies this`summaryParts, this`summaryText
      ensures Model() == TablesPlaceSummary(old(Model()), (o, c), part)
      ensures Became(old(AllSlots()), AllSlots(), o, WithSummaryPart(old(AllSlots())(o), c, part))
    {
      hide SlotOf, Became, WithSummaryPart, PlacedText, Row, JoinRow;
      PlaceSummaryIsLocal(Model(), o, c, part);
      summaryParts := summaryParts[(o, c) := part];
      summaryText := PlacedText(summaryText, (o, c), SummaryValue(part));
    }

    method SetSummary(o: nat, c: nat, value: seq<string>)
      modifies this`summaryParts, this`summaryText
      ensures Became(old(AllSlots()), AllSlots(), o, SummaryReplaced(old(AllSlots())(o), c, Join(value)))
    {
      hide SlotOf, Became, SummaryReplaced, SetDefault, Row, JoinRow, Join;
      SetSummaryIsLocal(Model(), o, c, value);
      summaryParts := SetDefault(summaryParts, (o, c), SummaryText(""));
      summaryText := summaryText[(o, c) := value];
    }

    method SetArguments(o: nat, value: seq<string>)
      modifies this`arguments
      ensures Became(old(AllSlots()), AllSlots(), o, old(AllSlots())(o).(arguments := Some(Join(value))))
    {
      hide SlotOf, Became, Row, JoinRow, Join;
      SetArgumentsIsLocal(Model(), o, value);
      arguments := arguments[o := value];
    }

    /** `_seed`: an item's own parts, summaries and arguments count where they are not empty. */
    method Seed(o: nat, item: Item)
      modifies this`parts, this`text, this`annotations, this`summaryParts, this`summaryText, this`arguments
      ensures Became(old(AllSlots()), AllSlots(), o, Seeded(old(AllSlots())(o), item))
    {
      match item
      case Message(_, _, _, _, content) => PlaceParts(o, content);
      case Reasoning(_, _, content, summary, _) =>
        PlaceParts(o, content);
        PlaceSummaryParts(o, summary);
      case FunctionCall(_, _, _, _, value) =>
        if value != "" {
          JoinOne(value);
          SetArguments(o, [value]);
        } else if o !in arguments {
          SetArguments(o, []);
        }
      case OtherItem(_, _, _, _) =>
    }

    method PlaceParts(o: nat, content: seq<Part>)
      modifies this`parts, this`text, this`annotations
      ensures Became(old(AllSlots()), AllSlots(), o, WithParts(old(AllSlots())(o), content, |content|))
    {
      for k := 0 to |content|
        invariant Became(old(AllSlots()), AllSlots(), o, WithParts(old(AllSlots())(o), content, k))
      {
        PlacePart(o, k, content[k]);
      }
    }

    method PlaceSummaryParts(o: nat, summary: seq<Part>)
      modifies this`summaryParts, this`summaryText
      ensures Became(old(AllSlots()), AllSlots(), o, WithSummaryParts(old(AllSlots())(o), summary, |summary|))
    {
      for k := 0 to |summary|
        invariant Became(old(AllSlots()), AllSlots(), o, WithSummaryParts(old(AllSlots())(o), summary, k))
      {
        PlaceSummaryPart(o, k, summary[k]);
      }
    }

    method Rebuild(o: nat)
      requires IsViewBut(items, AllSlots(), o)
      modifies this`items
      ensures Valid()
    {
      hide Row, JoinRow, View, Join;
      ViewRebuilt(items, AllSlots(), o);
      if o in shells {
        items := items[o := View(AllSlots()(o))];
      }
    }

    method PlaceItem(o: nat, item: Item, done: bool)
      requires Valid()
      modifies this`shells, this`items, this`parts, this`text, this`annotations,
               this`summaryParts, this`summaryText, this`arguments
      ensures Valid() && Became(old(AllSlots()), AllSlots(), o, Placed(old(AllSlots())(o), item, done))
    {
      hide Row, JoinRow, Join, Seeded, View, IsView, IsViewBut;
      var shell := ShellOf(item, done);
      ShellIsLocal(Model(), o, shell);
      shells := shells[o := shell];
      ghost var started := AllSlots();
      Seed(o, shell);
      ghost var placed := Placed(old(AllSlots())(o), item, done);
      BecameTransitive(old(AllSlots()), started, AllSlots(), o, started(o), placed);
      SeededKeepsShell(started(o), shell);
      ViewElsewhere(items, old(AllSlots()), AllSlots(), o, placed);
      Rebuild(o);
    }

    method Open(response: Response)
      requires Valid()
      modifies this
      ensures Valid() && envelope == Some(response.(output := []))
      ensures PlacedUpTo(old(AllSlots()), AllSlots(), response.output, |response.output|, false)
    {
      hide SlotOf, Placed, View;
      envelope := Some(response.(output := []));
      for k := 0 to |response.output|
        invariant Valid() && envelope == Some(response.(output := []))
        invariant PlacedUpTo(old(AllSlots()), AllSlots(), response.output, k, false)
      {
        ghost var before := AllSlots();
        assert before(k) == old(AllSlots())(k);
        PlaceItem(k, response.output[k], true);
        PlacedNext(old(AllSlots()), before, AllSlots(), response.output, k, false);
      }
    }

    /** Adopt what the terminal snapshot adds, and never what was streamed. */
    method PlaceMissing(output: seq<Item>)
      requires Valid()
      modifies this`shells, this`items, this`parts, this`text, this`annotations,
               this`summaryParts, this`summaryText, this`arguments
      ensures Valid() && PlacedUpTo(old(AllSlots()), AllSlots(), output, |output|, true)
    {
      hide Row, JoinRow, Join, Placed, View;
      for k := 0 to |output|
        invariant Valid() && PlacedUpTo(old(AllSlots()), AllSlots(), output, k, true)
      {
        ghost var before := AllSlots();
        assert before(k) == old(AllSlots())(k);
        assert k in shells <==> before(k).shell.Some?;
        if k !in shells {
          PlaceItem(k, output[k], true);
        }
        PlacedNext(old(AllSlots()), before, AllSlots(), output, k, true);
      }
    }

    method HasFunctionCall() returns (r: bool)
      ensures r <==> HasCall(items)
    {
      r := exists i :: i in items && items[i].FunctionCall?;
    }

    /** Fill the phase of assistant messages that declare none. */
    method ResolvePhases()
      requires Valid()
      modifies this`shells, this`items
      ensures Valid() && PhasedIn(old(AllSlots()), AllSlots(), old(items).Keys, HasCall(old(items)))
      ensures HasCall(items) == HasCall(old(items))
    {
      hide View, Row, JoinRow, Join, Phased, PhasedIn, SlotOf, IsView;
      var calls := HasFunctionCall();
      var pending := items.Keys;
      ghost var done: set<nat> := {};
      PhasedNone(AllSlots(), calls);
      while pending != {}
        invariant items.Keys == old(items).Keys == pending + done && pending !! done
        invariant Valid() && PhasedIn(old(AllSlots()), AllSlots(), done, calls)
        invariant forall i :: i in items ==> items[i].FunctionCall? == old(items)[i].FunctionCall?
        decreases pending
      {
        var o :| o in pending;
        ghost var before := AllSlots();
        FillPhase(o, calls);
        PhasedNext(old(AllSlots()), before, AllSlots(), done, o, calls);
        pending, done := pending - {o}, done + {o};
      }
    }

    method FillPhase(o: nat, calls: bool)
      requires Valid() && o in items
      modifies this`shells, this`items
      ensures Valid() && Became(old(AllSlots()), AllSlots(), o, Phased(old(AllSlots())(o), calls))
      ensures items.Keys == old(items).Keys
      ensures forall i :: i in items ==> items[i].FunctionCall? == old(items)[i].FunctionCall?
    {
      hide View, Row, JoinRow, Join, Phased;
      ghost var slot := AllSlots()(o);
      assert slot.shell == Some(shells[o]) && items[o] == View(slot);
      PhasedOnlyWhenMissing(slot, calls);
      var item := items[o];
      if item.Message? && item.role == Assistant && item.phase.None? {
        var phase := if calls then Commentary else FinalAnswer;
        var shell := shells[o].(phase := Some(phase));
        ShellIsLocal(Model(), o, shell);
        PhasedView(items, AllSlots(), SlotsOf(Model().(shells := shells[o := shell])), o, calls);
        items := items[o := item.(phase := Some(phase))];
        shells := shells[o := shell];
      }
    }

    /** The events that address a part, a summary or the arguments of one item. */
    method ApplyAddressed(e: Event)
      requires Valid() && !e.Lifecycle() && !e.ItemAdded? && !e.ItemDone?
      modifies this`items, this`parts, this`text, this`annotations, this`summaryParts, this`summaryText, this`arguments
      ensures Valid() && Became(old(AllSlots()), AllSlots(), e.output, Addressed(old(AllSlots())(e.output), e))
    {
      hide Row, JoinRow, IsView, IsViewBut, View, TablesAppend, TablesSetText, TablesAnnotate, TablesPlacePart,
           TablesPlaceSummary, WithPart, Appended, Replaced, Annotated, WithSummaryPart, SetDefault;
      var o := e.output;
      match e {
        case PartAdded(_, c, part) => PlacePart(o, c, part);
        case PartDone(_, c, part) => PlacePart(o, c, part);
        case TextDelta(_, c, delta) => AppendText(o, c, delta, OutputText("", []));
        case TextDone(_, c, value) => SetText(o, c, value, OutputText("", []));
        case AnnotationAdded(_, c, index, annotation) => AddAnnotation(o, c, index, annotation);
        case RefusalDelta(_, c, delta) => AppendText(o, c, delta, Refusal(""));
        case RefusalDone(_, c, value) => SetText(o, c, value, Refusal(""));
        case ReasoningDelta(_, c, delta) => AppendText(o, c, delta, ReasoningText(""));
        case ReasoningDone(_, c, value) => SetText(o, c, value, ReasoningText(""));
        case SummaryPartAdded(_, c, part) => PlaceSummaryPart(o, c, part);
        case SummaryPartDone(_, c, part) => PlaceSummaryPart(o, c, part);
        case SummaryDelta(_, c, delta) =>
          TextLookup(summaryText, o, c);
          JoinSnoc(GetKey(summaryText, (o, c), []), delta);
          SetSummary(o, c, GetKey(summaryText, (o, c), []) + [delta]);
        case SummaryDone(_, c, value) =>
          JoinOne(value);
          SetSummary(o, c, [value]);
        case ArgumentsDelta(_, delta) =>
          JoinSnoc(if o in arguments then arguments[o] else [], delta);
          SetArguments(o, (if o in arguments then arguments[o] else []) + [delta]);
        case ArgumentsDone(_, value) =>
          JoinOne(value);
          SetArguments(o, [value]);
      }
      ghost var slot := Addressed(old(AllSlots())(o), e);
      AddressedKeepsShell(old(AllSlots())(o), e);
      ViewElsewhere(items, old(AllSlots()), AllSlots(), o, slot);
      Rebuild(o);
    }

    method Settle(terminal: ResponseStatus, snapshot: Response)
      requires Valid()
      modifies this
      ensures Valid() && envelope == Some(SettledEnvelope(old(envelope), terminal, snapshot))
      ensures Stepped(old(AllSlots()), AllSlots(), Settled(terminal, snapshot), HasCall(items))
    {
      PlaceMissing(snapshot.output);
      ghost var placed := AllSlots();
      envelope := Some(SettledEnvelope(envelope, terminal, snapshot));
      assert forall i: nat {:trigger placed(i)} :: i in items <==> placed(i).shell.Some?;
      ghost var done, calls := items.Keys, HasCall(items);
      ResolvePhases();
      SettleStepped(old(AllSlots()), placed, AllSlots(), terminal, snapshot, done, calls);
    }

    /** `apply`: one step of the response; only a settling event is answered with something else. */
    method Apply(e: Event) returns (forwarded: Event)
      requires Valid()
      modifies this
      ensures Valid()
      ensures Stepped(old(AllSlots()), AllSlots(), e, HasCall(items))
      ensures envelope == EnvelopeStep(old(envelope), e)
      ensures forwarded == if e.Settled? then Settled(e.terminal, CurrentResponse().value) else e
    {
      hide Stepped, SlotOf, IsView, Placed, Row, JoinRow, View, Became;
      forwarded := e;
      match e
      case Opened(response) =>
        Open(response);
        OpenStepped(old(AllSlots()), AllSlots(), response, HasCall(items));
      case Settled(terminal, response) =>
        Settle(terminal, response);
        forwarded := Settled(terminal, CurrentResponse().value);
      case StreamError(code, message) =>
        envelope := EnvelopeStep(envelope, e);
        ErrorStepped(AllSlots(), code, message, HasCall(items));
      case ItemAdded(o, item) =>
        PlaceItem(o, item, false);
        AddressedStepped(old(AllSlots()), AllSlots(), e, HasCall(items));
      case ItemDone(o, item) =>
        PlaceItem(o, item, true);
        AddressedStepped(old(AllSlots()), AllSlots(), e, HasCall(items));
      case _ =>
        ApplyAddressed(e);
        AddressedStepped(old(AllSlots()), AllSlots(), e, HasCall(items));
    }
  }
}
