/**
 `CitationProjection` of `agent/citation_stream.py` and the numbering of
 `CitationReferences`: one response stream rewritten so that citation markers
 become `[n]` plus an annotation that locates it.
 */
module CitationProjection {
  import opened Prelude
  import opened Protocol
  import opened CitationParser
  import opened ReducerModel

  /** The projection's tables, with the text of a part joined. */
  datatype Pages = Pages(
    buffers: map<Key, string>, text: map<Key, string>, annotations: map<Key, seq<Annotation>>,
    numbers: map<string, nat>)

  const NO_PAGES := Pages(map[], map[], map[], map[])

  function Lookup<V>(table: map<Key, V>, k: Key, default: V): V {
    if k in table then table[k] else default
  }

  function Value(p: Pages, k: Key): string { Lookup(p.text, k, "") }

  /** A new reference takes the next free number; a known one keeps its own. */
  function Numbered(numbers: map<string, nat>, reference: string): (r: map<string, nat>)
    ensures reference in r
  {
    if reference in numbers then numbers else numbers[reference := |numbers| + 1]
  }

  /** The reader-facing numbers are 1..n, one per reference. */
  ghost predicate NumbersOk(numbers: map<string, nat>) {
    && (forall r <- numbers :: 1 <= numbers[r] <= |numbers|)
    && (forall r, s :: r in numbers && s in numbers && numbers[r] == numbers[s] ==> r == s)
  }

  lemma NumberedOk(numbers: map<string, nat>, r: string)
    requires NumbersOk(numbers)
    ensures NumbersOk(Numbered(numbers, r)) && r in Numbered(numbers, r)
    ensures forall s <- numbers :: s in Numbered(numbers, r) && Numbered(numbers, r)[s] == numbers[s]
  {
  }

  function MarkerOf(n: nat): string { "[" + Decimal(n) + "]" }

  function AppendText(p: Pages, k: Key, s: string): Pages {
    p.(text := p.text[k := Value(p, k) + s])
  }

  /** Append `[n]` for a reference to a page, with an annotation over it. */
  function Cite(p: Pages, k: Key, reference: string): (Pages, seq<Event>) {
    var numbers := Numbered(p.numbers, reference);
    var n := numbers[reference];
    var start, existing := |Value(p, k)|, Lookup(p.annotations, k, []);
    var a := DocumentCitation(start, start + |MarkerOf(n)|, reference, n);
    (AppendText(p, k, MarkerOf(n)).(annotations := p.annotations[k := existing + [a]], numbers := numbers),
     [TextDelta(k.0, k.1, MarkerOf(n)), AnnotationAdded(k.0, k.1, |existing|, a)])
  }

  function ShowFragment(p: Pages, k: Key, f: Fragment): (Pages, seq<Event>) {
    var (q, shown) := if f.text == "" then (p, []) else (AppendText(p, k, f.text), [TextDelta(k.0, k.1, f.text)]);
    if f.reference.None? || f.reference.value == "" then (q, shown)
    else
      var (r, cited) := Cite(q, k, f.reference.value);
      (r, shown + cited)
  }

  function ShowFragments(p: Pages, k: Key, fs: seq<Fragment>): (Pages, seq<Event>)
    decreases fs
  {
    if fs == [] then (p, [])
    else
      var (q, first) := ShowFragment(p, k, fs[0]);
      var (r, rest) := ShowFragments(q, k, fs[1..]);
      (r, first + rest)
  }

  /** One delta: parse what is buffered with it, show the fragments, hold the rest. */
  function ShowDelta(p: Pages, k: Key, delta: string, ev: Evidence): (Pages, seq<Event>) {
    var parsed := Parse(Lookup(p.buffers, k, "") + delta, ev);
    var (q, events) := ShowFragments(p.(buffers := p.buffers[k := parsed.1]), k, parsed.0);
    (q.(text := SetDefault(q.text, k, "")), events)
  }

  /** The end of a part's text: whatever is still held is shown as it is. */
  function Flush(p: Pages, k: Key): (Pages, seq<Event>) {
    var trailing := Lookup(p.buffers, k, "");
    var q := p.(buffers := p.buffers - {k});
    if trailing == "" then (q, []) else (AppendText(q, k, trailing), [TextDelta(k.0, k.1, trailing)])
  }

  function RewrittenPart(p: Pages, k: Key, part: Part): Part {
    if part.OutputText? && k in p.text
    then OutputText(p.text[k], Merge(part.annotations, Lookup(p.annotations, k, [])))
    else part
  }

  function RewrittenParts(p: Pages, o: nat, parts: seq<Part>): (r: seq<Part>)
    ensures |r| == |parts| && forall c: nat :: c < |r| ==> r[c] == RewrittenPart(p, (o, c), parts[c])
  {
    seq(|parts|, c requires 0 <= c < |parts| => RewrittenPart(p, (o, c), parts[c]))
  }

  /** One provider event: the pages after it, and what the client and the reducer get for it. */
  function Project(p: Pages, e: Event, ev: Evidence): (Pages, seq<Event>) {
    if ev.ids == {} then (p, [e])
    else match e
      case TextDelta(o, c, delta) => ShowDelta(p, (o, c), delta, ev)
      case TextDone(o, c, _) =>
        var (q, flushed) := Flush(p, (o, c));
        (q, flushed + [TextDone(o, c, Value(q, (o, c)))])
      case PartDone(o, c, part) => (p, [PartDone(o, c, RewrittenPart(p, (o, c), part))])
      case ItemDone(o, Message(id, status, role, phase, content)) =>
        (p, [ItemDone(o, Message(id, status, role, phase, RewrittenParts(p, o, content)))])
      case _ => (p, [e])
  }

  /** The references a list of fragments grounds. */
  function Cites(fs: seq<Fragment>): set<string> {
    set f | f in fs && f.reference.Some? && f.reference.value != "" :: f.reference.value
  }

  /** The events carry an annotation for the reference. */
  ghost predicate Annotates(events: seq<Event>, r: string) {
    exists e :: e in events && IsAnnotationOf(e, r)
  }

  predicate IsAnnotationOf(e: Event, r: string) {
    e.AnnotationAdded? && e.annotation.DocumentCitation? && e.annotation.reference == r
  }

  lemma AnnotatesAppend(a: seq<Event>, b: seq<Event>, r: string)
    ensures Annotates(a + b, r) <==> Annotates(a, r) || Annotates(b, r)
  {
    if Annotates(a, r) {
      var e :| e in a && IsAnnotationOf(e, r);
      assert e in a + b;
    }
    if Annotates(b, r) {
      var e :| e in b && IsAnnotationOf(e, r);
      assert e in a + b;
    }
  }

  lemma CitesMore(f: Fragment, rest: seq<Fragment>, r: string)
    ensures r in Cites([f] + rest) <==> (f.reference == Some(r) && r != "") || r in Cites(rest)
  {
    if f.reference == Some(r) && r != "" {
      assert f in [f] + rest;
    }
    if r in Cites(rest) {
      var g :| g in rest && g.reference.Some? && g.reference.value != "" && g.reference.value == r;
      assert g in [f] + rest;
    }
  }

  /** What counts as used is what is shown as a citation. */
  lemma {:induction false} CitesAreShown(fs: seq<Fragment>, r: string)
    ensures r in Cites(fs) <==> Cited(r) in Symbols(fs)
  {
    hide Cites;
    if fs == [] {
      NothingCited();
    } else {
      CitesAreShown(fs[1..], r);
      CitesMore(fs[0], fs[1..], r);
      assert fs == [fs[0]] + fs[1..];
      assert Cited(r) !in Text(fs[0].text);
    }
  }

  lemma NothingCited()
    ensures Cites([]) == {}
  {
  }

  /** It is also what an annotation is emitted for. */
  lemma {:induction false} CitesAreAnnotated(p: Pages, k: Key, fs: seq<Fragment>, r: string)
    ensures r in Cites(fs) <==> Annotates(ShowFragments(p, k, fs).1, r)
    decreases fs
  {
    hide Cites, ShowFragment, Annotates;
    if fs == [] {
      NothingCited();
      NothingAnnotated(r);
    } else {
      var (q, first) := ShowFragment(p, k, fs[0]);
      CitesAreAnnotated(q, k, fs[1..], r);
      CitesMore(fs[0], fs[1..], r);
      assert fs == [fs[0]] + fs[1..];
      AnnotatesAppend(first, ShowFragments(q, k, fs[1..]).1, r);
      FragmentAnnotates(p, k, fs[0], r);
    }
  }

  lemma NothingAnnotated(r: string)
    ensures !Annotates([], r)
  {
  }

  lemma FragmentAnnotates(p: Pages, k: Key, f: Fragment, r: string)
    ensures Annotates(ShowFragment(p, k, f).1, r) <==> f.reference == Some(r) && r != ""
  {
    hide Decimal, Numbered, MarkerOf, AppendText;
    var events := ShowFragment(p, k, f).1;
    if f.reference.Some? && f.reference.value != "" {
      assert events[|events| - 1] in events && IsAnnotationOf(events[|events| - 1], f.reference.value);
    }
  }

  /** Run-scoped numbering, shared by every projection of one turn. */
  class CitationReferences {
    var numbers: map<string, nat>

    constructor ()
      ensures numbers == map[]
    {
      numbers := map[];
    }

    method Number(reference: string) returns (n: nat)
      modifies this
      ensures numbers == Numbered(old(numbers), reference) && n == numbers[reference]
      ensures old(NumbersOk(numbers)) ==> NumbersOk(numbers) && 1 <= n <= |numbers|
      ensures old(NumbersOk(numbers)) ==> forall r :: r in numbers && numbers[r] == n ==> r == reference
      ensures forall r <- old(numbers) :: r in numbers && numbers[r] == old(numbers)[r]
    {
      if NumbersOk(numbers) {
        NumberedOk(numbers, reference);
      }
      if reference in numbers {
        return numbers[reference];
      }
      n := |numbers| + 1;
      numbers := numbers[reference := n];
    }
  }

  class CitationProjection {
    const evidence: Evidence
    const references: CitationReferences
    var buffers: map<Key, string>
    var text: map<Key, seq<string>>
    var annotations: map<Key, seq<Annotation>>
    var used: set<string>

    constructor (evidence: Evidence, references: CitationReferences)
      ensures this.evidence == evidence && this.references == references && used == {}
      ensures Model() == NO_PAGES.(numbers := references.numbers)
    {
      this.evidence, this.references := evidence, references;
      buffers, text, annotations, used := map[], map[], map[], {};
    }

    ghost function Model(): Pages
      reads this, references
    {
      Pages(buffers, map k | k in text :: Join(text[k]), annotations, references.numbers)
    }

    function PartText(k: Key): string
      reads this
    {
      Join(Lookup(text, k, []))
    }

    method Append(k: Key, s: string)
      modifies this`text
      ensures Model() == AppendText(old(Model()), k, s)
    {
      JoinSnoc(Lookup(text, k, []), s);
      text := text[k := Lookup(text, k, []) + [s]];
    }

    /** `_citation_events`. */
    method CitationEvents(k: Key, reference: string) returns (events: seq<Event>)
      modifies this`text, this`annotations, references
      ensures (Model(), events) == Cite(old(Model()), k, reference)
    {
      var n := references.Number(reference);
      var start := |PartText(k)|;
      Append(k, MarkerOf(n));
      var existing := Lookup(annotations, k, []);
      var a := DocumentCitation(start, start + |MarkerOf(n)|, reference, n);
      annotations := annotations[k := existing + [a]];
      events := [TextDelta(k.0, k.1, MarkerOf(n)), AnnotationAdded(k.0, k.1, |existing|, a)];
    }

    /** `_push`: parse the buffer with the delta, keep the held suffix, remember what was cited. */
    method Push(k: Key, delta: string) returns (fragments: seq<Fragment>)
      modifies this`buffers, this`used
      ensures var parsed := Parse(Lookup(old(buffers), k, "") + delta, evidence);
              fragments == parsed.0 && buffers == old(buffers)[k := parsed.1]
      ensures used == old(used) + Cites(fragments)
    {
      var held;
      fragments, held := ProcessCitationBuffer(Lookup(buffers, k, "") + delta, evidence);
      buffers := buffers[k := held];
      used := used + Cites(fragments);
    }

    /** `_delta`. */
    method Delta(k: Key, delta: string) returns (events: seq<Event>)
      modifies this, references
      ensures (Model(), events) == ShowDelta(old(Model()), k, delta, evidence)
      ensures used == old(used) + Cites(Parse(Lookup(old(buffers), k, "") + delta, evidence).0)
      ensures forall r :: r in used <==>
                r in old(used) || Cited(r) in Shown(Lookup(old(buffers), k, "") + delta, evidence)
      ensures forall r :: r in used <==> r in old(used) || Annotates(events, r)
    {
      hide ShowFragment, Parse, Cites, Annotates, Symbols;
      var fragments := Push(k, delta);
      ghost var start := old(Model()).(buffers := buffers);
      forall r
        ensures r in Cites(fragments) <==> Cited(r) in Shown(Lookup(old(buffers), k, "") + delta, evidence)
        ensures r in Cites(fragments) <==> Annotates(ShowFragments(start, k, fragments).1, r)
      {
        CitesAreShown(fragments, r);
        CitesAreAnnotated(start, k, fragments, r);
      }
      events := [];
      for i := 0 to |fragments|
        invariant buffers == start.buffers && used == old(used) + Cites(fragments)
        invariant ShowFragments(start, k, fragments).0 == ShowFragments(Model(), k, fragments[i..]).0
        invariant ShowFragments(start, k, fragments).1 == events + ShowFragments(Model(), k, fragments[i..]).1
      {
        var more := Show(k, fragments[i]);
        assert fragments[i..][1..] == fragments[i + 1..];
        events := events + more;
      }
      assert fragments[|fragments|..] == [] && events + [] == events;
      ghost var shown := Model();
      text := SetDefault(text, k, []);
      assert Model().text == SetDefault(shown.text, k, "");
    }

    /** The body of the loop of `_delta`: the visible text, then the citation. */
    method Show(k: Key, f: Fragment) returns (events: seq<Event>)
      modifies this`text, this`annotations, references
      ensures (Model(), events) == ShowFragment(old(Model()), k, f)
    {
      events := [];
      if f.text != "" {
        Append(k, f.text);
        events := [TextDelta(k.0, k.1, f.text)];
      }
      if f.reference.Some? && f.reference.value != "" {
        var cited := CitationEvents(k, f.reference.value);
        events := events + cited;
      }
    }

    /** `_flush`. */
    method FlushText(k: Key) returns (events: seq<Event>)
      modifies this`buffers, this`text
      ensures (Model(), events) == Flush(old(Model()), k)
    {
      var trailing := Lookup(buffers, k, "");
      buffers := buffers - {k};
      if trailing == "" {
        return [];
      }
      Append(k, trailing);
      return [TextDelta(k.0, k.1, trailing)];
    }

    /** `_merged`: the provider's annotations, then ours that it does not repeat. */
    method Merged(k: Key, existing: seq<Annotation>) returns (merged: seq<Annotation>)
      ensures merged == Merge(existing, Lookup(annotations, k, []))
    {
      var mine := Lookup(annotations, k, []);
      merged := existing;
      for i := 0 to |mine|
        invariant Merge(existing, mine) == Merge(merged, mine[i..])
      {
        if mine[i] !in merged {
          merged := merged + [mine[i]];
        }
      }
    }

    method Rewrite(k: Key, part: Part) returns (r: Part)
      ensures r == RewrittenPart(Model(), k, part)
    {
      if !part.OutputText? || k !in text {
        return part;
      }
      var merged := Merged(k, part.annotations);
      return OutputText(PartText(k), merged);
    }

    /** `_message`: every part of a finished message that was streamed. */
    method RewriteContent(o: nat, content: seq<Part>) returns (r: seq<Part>)
      ensures r == RewrittenParts(Model(), o, content)
    {
      r := [];
      for c := 0 to |content|
        invariant r == RewrittenParts(Model(), o, content)[..c]
      {
        var part := Rewrite((o, c), content[c]);
        r := r + [part];
      }
    }

    /** `project`, on the tables. */
    method ProjectEvent(e: Event) returns (events: seq<Event>)
      modifies this, references
      ensures (Model(), events) == Project(old(Model()), e, evidence)
      ensures e.TextDelta? && evidence.ids != {} ==> forall r :: r in used <==> r in old(used) || Annotates(events, r)
      ensures !e.TextDelta? || evidence.ids == {} ==> used == old(used)
    {
      hide ShowDelta, Flush, Merge, Parse, ShowFragments, Cites, Annotates;
      if evidence.ids == {} {
        return [e];
      }
      match e {
        case TextDelta(o, c, delta) => events := Delta((o, c), delta);
        case TextDone(o, c, _) =>
          var flushed := FlushText((o, c));
          events := flushed + [TextDone(o, c, PartText((o, c)))];
        case PartDone(o, c, part) =>
          var rewritten := Rewrite((o, c), part);
          events := [PartDone(o, c, rewritten)];
        case ItemDone(o, Message(id, status, role, phase, content)) =>
          var rewritten := RewriteContent(o, content);
          events := [ItemDone(o, Message(id, status, role, phase, rewritten))];
        case _ => events := [e];
      }
    }
  }
}
