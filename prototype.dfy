/** The prototype document of the dataset tests: a dataclass with a required `text`, an optional
    `id` and annotation layers. Every layer is an `AnnotationList` that knows its document and the
    name of its target; `append` sets the annotation's `_target` to that attribute of the document,
    `clear` resets it. `_target` takes no part in annotation equality or hashing. `fromdict` walks the
    reverse target map depth-first from the text. */
module Prototype {
  import opened Wrappers
  import opened PyLists
  import opened PyDicts
  import opened Annotations
  import opened FieldValues
  import opened CoreModel
  import opened Traversal
  import opened RecordLayers
  import CoreDocument

  const ID := "id"

  /** The fields of a prototype document class: `text` without a default, `id` defaulting to None,
      every other field a layer. */
  predicate ProtoShape(t: DocTypeDecl) {
    TEXT in t.decls && ID in t.decls && t.decls[TEXT] == Plain(None) && t.decls[ID] == Plain(Some(NoneV)) &&
    forall n :: n in t.decls && n != TEXT && n != ID ==> t.decls[n].Layer?
  }

  type ProtoType = t: DocType | ProtoShape(t) witness Minimal()

  /** The smallest prototype class: `text` and `id` only. */
  function Minimal(): (t: DocTypeDecl)
    ensures t.Valid() && ProtoShape(t) && LayerSet(t) == {}
  {
    var t := DocTypeDecl([TEXT, ID], map[TEXT := Plain(None), ID := Plain(Some(NoneV))]);
    assert [TEXT, ID][1..] == [ID] && [ID][1..] == [];
    assert Distinct(t.order);
    assert (set n | n in [TEXT, ID]) == {TEXT, ID};
    assert t.Valid();
    assert LayerSet(t) == {};
    t
  }

  /** `getattr(document, target)`: the name must be a string and an attribute of the document. */
  function ListTarget(t: DocType, plain: map<string, Value>, target: Option<string>): (r: Result<TargetValue>)
    ensures target.None? ==> r == Failure(TypeError("attribute name must be string"))
    ensures target.Some? ==> r == ResolveTarget(t, plain, target)
    ensures r.Success? ==> !r.value.NoTarget?
  {
    if target.None? then Failure(TypeError("attribute name must be string")) else ResolveTarget(t, plain, target)
  }

  /** The annotations of a list of entries, without their targets. */
  function Held(es: seq<Entry>): (r: seq<Annotation>)
    ensures |r| == |es| && forall i :: 0 <= i < |r| ==> r[i] == es[i].annotation
  {
    seq(|es|, i requires 0 <= i < |es| => es[i].annotation)
  }

  /** The annotations of every layer, without their targets. */
  function HeldLayers(lists: map<string, seq<Entry>>): (r: Layers)
    ensures r.Keys == lists.Keys && forall n :: n in r ==> r[n] == Held(lists[n])
  {
    map n | n in lists :: Held(lists[n])
  }

  class AnnotationList {
    const document: Document
    const target: Option<string>
    var entries: seq<Entry>
    /** The layer this list belongs to. */
    ghost const name: string

    constructor (document: Document, target: Option<string>, ghost name: string)
      ensures this.document == document && this.target == target && this.name == name && entries == []
    {
      this.document := document;
      this.target := target;
      this.name := name;
      entries := [];
    }

    /** What `append` stores as each annotation's target. */
    function ResolvedTarget(): Result<TargetValue> {
      ListTarget(document.docType, document.plain, target)
    }

    /** `append`: set the annotation's target to `getattr(document, target)`, then add it at the end. */
    method Append(a: Annotation) returns (r: Outcome)
      modifies this
      ensures r.Pass? <==> ResolvedTarget().Success?
      ensures r.Pass? ==> entries == old(entries) + [Entry(a, ResolvedTarget().value)]
      ensures r.Fail? ==> entries == old(entries) && r.error == ResolvedTarget().error
    {
      var tv := ListTarget(document.docType, document.plain, target);
      if tv.Failure? {
        return Fail(tv.error);
      }
      entries := entries + [Entry(a, tv.value)];
      return Pass;
    }

    /** `clear`: reset the target of every held annotation, then empty the list. */
    method Clear() returns (released: seq<Entry>)
      modifies this
      ensures entries == []
      ensures Held(released) == Held(old(entries))
      ensures forall i :: 0 <= i < |released| ==> released[i].target == NoTarget
    {
      released := [];
      for i := 0 to |entries|
        invariant |released| == i
        invariant forall j :: 0 <= j < i ==> released[j] == Entry(entries[j].annotation, NoTarget)
      {
        released := released + [Entry(entries[i].annotation, NoTarget)];
      }
      entries := [];
    }

    /** `list[idx]` */
    function GetItem(index: int): (r: Result<Annotation>)
      reads this
      ensures r.Success? <==> -|entries| <= index < |entries|
      ensures 0 <= index < |entries| ==> r == Success(entries[index].annotation)
      ensures r.Failure? ==> r.error == IndexError
    {
      GetIndex(Held(entries), index)
    }

    function Len(): (n: nat)
      reads this
      ensures n == |entries|
    {
      |entries|
    }

    /** `__eq__`: the same target name and the same annotations; their targets do not count. */
    predicate Equals(other: AnnotationList)
      reads this, other
    {
      target == other.target && Held(entries) == Held(other.entries)
    }

    /** Two lists are equal exactly when their target names agree and they hold equal annotations at
        every position, whatever targets those annotations carry. */
    lemma EqualsPositionwise(other: AnnotationList)
      ensures Equals(other) <==> target == other.target && |entries| == |other.entries| &&
                                 forall i :: 0 <= i < |entries| ==> entries[i].annotation == other.entries[i].annotation
    {
      if target == other.target && |entries| == |other.entries| &&
         forall i :: 0 <= i < |entries| ==> entries[i].annotation == other.entries[i].annotation {
        assert Held(entries) == Held(other.entries);
      }
    }
  }

  /** A prototype document: `text` and `id` are fixed at construction, `_targets` and the layers are
      filled by `__post_init__`. `Repr` is the set of lists the document owns. */
  class Document {
    const docType: ProtoType
    const plain: map<string, Value>
    var targets: Graph
    var layers: map<string, AnnotationList>
    ghost var Repr: set<AnnotationList>

    /** Layer `n` has its own list, owned by this document and carrying the declared target. */
    ghost predicate LayerOk(n: string)
      reads this`layers, this`Repr
      requires n in layers
    {
      n in LayerSet(docType) && layers[n] in Repr && layers[n].name == n && layers[n].document == this &&
      layers[n].target == TargetOf(docType, n)
    }

    ghost predicate Linked()
      reads this`layers, this`Repr
    {
      forall n :: n in layers ==> LayerOk(n)
    }

    ghost predicate Valid()
      reads this
    {
      plain.Keys == PlainSet(docType) && layers.Keys == LayerSet(docType) && ReverseOf(docType, targets) &&
      Linked()
    }

    /** The entries of every layer. */
    function Lists(): (m: map<string, seq<Entry>>)
      reads this`layers, this`Repr, Repr
      requires Linked()
      ensures m.Keys == layers.Keys
    {
      map n | n in layers :: assert LayerOk(n); layers[n].entries
    }

    /** What document equality compares: the plain fields and the annotations of each layer. */
    function Value(): (v: DataValue)
      reads this, Repr
      requires Valid()
      ensures Fits(docType, v)
    {
      DataValue(plain, HeldLayers(Lists()))
    }

    /** The dataclass `__eq__`: the same class, equal `text` and `id`, and equal layer lists. */
    predicate Equals(other: Document)
      reads this, Repr, other, other.Repr
      requires Valid() && other.Valid()
    {
      docType == other.docType && plain == other.plain &&
      forall n :: n in layers ==> assert LayerOk(n) && other.LayerOk(n); layers[n].Equals(other.layers[n])
    }

    /** Equal documents are those of the same class whose compared values agree. */
    lemma EqualsByValue(other: Document)
      requires Valid() && other.Valid()
      ensures Equals(other) <==> docType == other.docType && Value() == other.Value()
    {
      if docType == other.docType {
        forall n | n in layers ensures layers[n].Equals(other.layers[n]) <==> Value().layers[n] == other.Value().layers[n] {
          assert LayerOk(n) && other.LayerOk(n);
        }
      }
    }

    constructor (docType: ProtoType, plain: map<string, Value>)
      ensures this.docType == docType && this.plain == plain
      ensures targets == map[] && layers == map[] && Repr == {}
    {
      this.docType := docType;
      this.plain := plain;
      targets := map[];
      layers := map[];
      Repr := {};
    }

    /** `setattr(self, name, AnnotationList(self, target))` */
    method NewLayer(name: string)
      requires name in LayerSet(docType) && Linked()
      requires forall n :: n in layers ==> layers[n].entries == []
      modifies this`layers, this`Repr
      ensures layers.Keys == old(layers.Keys) + {name} && Linked()
      ensures forall n :: n in layers ==> layers[n].entries == []
      ensures fresh(Repr - old(Repr))
    {
      var list := new AnnotationList(this, TargetOf(docType, name), name);
      layers := layers[name := list];
      Repr := Repr + {list};
    }

    /** `__post_init__`: an edge and an empty list for every field but `text` and `id`; then the
        reverse target map of the edges. */
    method PostInit()
      requires targets == map[] && layers == map[] && Repr == {}
      requires plain.Keys == PlainSet(docType)
      modifies this
      ensures Valid() && fresh(Repr)
      ensures Lists() == EmptyLayers(docType)
    {
      var edges := MakeLayers();
      EmptyLists();
      targets := ReverseTargets(edges);
      EdgesReversed(docType, edges, targets);
    }

    /** The loop of `__post_init__` over the fields: `text` and `id` are skipped, every other field
        gets an edge to its target and an empty list. */
    method MakeLayers() returns (edges: set<(string, Option<string>)>)
      requires layers == map[] && Repr == {}
      modifies this`layers, this`Repr
      ensures layers.Keys == LayerSet(docType) && Linked() && fresh(Repr)
      ensures forall n :: n in layers ==> layers[n].entries == []
      ensures forall e :: e in edges <==> e.0 in LayerSet(docType) && e.1 == TargetOf(docType, e.0)
    {
      edges := {};
      for i := 0 to |docType.order|
        invariant forall n :: n in layers <==> n in docType.order[..i] && n in LayerSet(docType)
        invariant forall n :: n in layers ==> layers[n].entries == []
        invariant Linked() && fresh(Repr)
        invariant forall e :: e in edges <==> e.0 in layers && e.1 == TargetOf(docType, e.0)
      {
        var name := docType.order[i];
        assert docType.order[..i + 1] == docType.order[..i] + [name];
        assert name in (set n | n in docType.order);
        if name == TEXT || name == ID {
          continue;
        }
        edges := edges + {(name, docType.decls[name].target)};
        NewLayer(name);
      }
      assert docType.order[..|docType.order|] == docType.order;
      assert forall n :: n in LayerSet(docType) ==> n in (set m | m in docType.order);
    }

    /** Lists that hold nothing are the empty layers. */
    lemma EmptyLists()
      requires Linked() && layers.Keys == LayerSet(docType)
      requires forall n :: n in layers ==> layers[n].entries == []
      ensures Lists() == EmptyLayers(docType)
    {
    }

    /** Changing only the list of layer `n` changes only that entry of `Lists()`. */
    twostate lemma OneChanged(n: string)
      requires old(Linked()) && unchanged(this) && n in old(layers)
      requires forall l :: l in old(Repr) && l != old(layers[n]) ==> l.entries == old(l.entries)
      ensures Linked() && Lists() == old(Lists())[n := layers[n].entries]
    {
      forall m | m in layers && m != n ensures layers[m].entries == old(layers[m].entries) {
        assert old(LayerOk(m)) && old(LayerOk(n));
      }
    }

    /** One `getattr(doc, field_name).append(annotation)` of `fromdict`. */
    method AppendTo(name: string, a: Annotation) returns (r: Outcome)
      requires name in layers && Linked()
      modifies layers[name]
      ensures var tv := ListTarget(docType, plain, TargetOf(docType, name));
              (r.Pass? <==> tv.Success?) && (r.Fail? ==> r.error == tv.error) &&
              (r.Pass? ==> Lists() == old(Lists())[name := old(Lists())[name] + [Entry(a, tv.value)]])
      ensures r.Fail? ==> Lists() == old(Lists())
      ensures Linked()
    {
      assert LayerOk(name);
      r := layers[name].Append(a);
      OneChanged(name);
    }

    /** The final loop of `fromdict`: append each accumulated annotation to the layer it names. */
    method AppendAll(items: seq<(string, Annotation)>, ghost start: map<string, seq<Entry>>) returns (r: Outcome)
      requires Linked() && layers.Keys == LayerSet(docType) && start == Lists()
      requires forall i :: 0 <= i < |items| ==> items[i].0 in LayerSet(docType)
      modifies Repr
      ensures var spec := AppendedEntries(docType, plain, items, start);
              (r.Pass? <==> spec.Success?) && (r.Fail? ==> r.error == spec.error) &&
              (r.Pass? ==> Lists() == spec.value)
      ensures Linked()
    {
      ghost var spec := AppendedEntries(docType, plain, items, Lists());
      for i := 0 to |items|
        invariant Linked()
        invariant spec == AppendedEntries(docType, plain, items[i..], Lists())
      {
        assert items[i..][0] == items[i] && items[i..][1..] == items[i + 1..];
        assert LayerOk(items[i].0);
        r := AppendTo(items[i].0, items[i].1);
        if r.Fail? {
          return;
        }
      }
      r := Pass;
    }

    /** `doc.asdict()`: `text` and `id` as they are, each layer as the list of its annotation dicts. */
    function AsDict(hash: Annotation -> int): (d: PyDict<string, Value>)
      reads this, Repr
      requires Valid()
      ensures Keys(d) == docType.order
    {
      Serialised(docType, Value(), hash)
    }
  }

  /** The final loop of `fromdict` on the entries of each layer: in item order, each annotation is
      appended to its layer with that layer's target, until a target cannot be resolved. */
  function AppendedEntries(t: DocType, plain: map<string, Value>, items: seq<(string, Annotation)>,
                           lists: map<string, seq<Entry>>): (r: Result<map<string, seq<Entry>>>)
    requires forall i :: 0 <= i < |items| ==> items[i].0 in LayerSet(t) && items[i].0 in lists
    ensures r.Success? ==> r.value.Keys == lists.Keys
    ensures r.Success? ==> HeldLayers(r.value) == Appended(items, HeldLayers(lists))
    decreases |items|
  {
    if items == [] then Success(lists)
    else
      var n := items[0].0;
      var tv :- ListTarget(t, plain, TargetOf(t, n));
      var next := lists[n := lists[n] + [Entry(items[0].1, tv)]];
      HeldAppend(lists, n, Entry(items[0].1, tv));
      AppendedEntries(t, plain, items[1..], next)
  }

  /** Appending an entry to one layer appends its annotation to that layer's annotations. */
  lemma HeldAppend(lists: map<string, seq<Entry>>, n: string, e: Entry)
    requires n in lists
    ensures HeldLayers(lists[n := lists[n] + [e]]) == HeldLayers(lists)[n := HeldLayers(lists)[n] + [e.annotation]]
  {
    assert Held(lists[n] + [e]) == Held(lists[n]) + [e.annotation];
  }

  /** `cls(text=dct["text"], id=dct.get("id"))` */
  function ProtoPlain(d: PyDict<string, Value>): (r: Result<map<string, Value>>)
    ensures r.Failure? <==> Get(d, TEXT).None?
    ensures r.Failure? ==> r.error == KeyError(TEXT)
    ensures r.Success? ==> r.value == map[TEXT := Get(d, TEXT).value, ID := Get(d, ID).GetOr(NoneV)]
  {
    match Get(d, TEXT)
    case None => Failure(KeyError(TEXT))
    case Some(text) => Success(map[TEXT := text, ID := Get(d, ID).GetOr(NoneV)])
  }

  /** One iteration of the loop over the names the search listed: a name that is not a layer, and a
      layer whose value is None or empty, leave the accumulator alone; a value that is not a list is
      refused; a list whose items are not annotation dicts cannot be converted to dicts. */
  function AddProto(t: DocType, d: PyDict<string, Value>, n: string, store: Store): Result<Store> {
    if n !in LayerSet(t) then Success(store)
    else
      var value := Get(d, n).GetOr(NoneV);
      if !Truthy(value) then Success(store)
      else if value.ListV? then Failure(TypeError("cannot convert dictionary update sequence element"))
      else if !value.RecordsV? then Failure(Exception("Error"))
      else AddGold(n, t.decls[n].cls, value.records, store)
  }

  function AccumulateProto(t: DocType, d: PyDict<string, Value>, order: seq<string>, store: Store)
    : Result<Store>
    decreases |order|
  {
    if order == [] then Success(store)
    else
      var s :- AddProto(t, d, order[0], store);
      AccumulateProto(t, d, order[1..], s)
  }

  lemma {:induction false} AccumulateProtoNames(t: DocType, d: PyDict<string, Value>, order: seq<string>,
                                                store: Store, names: set<string>)
    requires NamesIn(store, names)
    requires forall n :: n in order && n in LayerSet(t) ==> n in names
    requires AccumulateProto(t, d, order, store).Success?
    ensures NamesIn(AccumulateProto(t, d, order, store).value, names)
    decreases |order|
  {
    if order != [] {
      var n := order[0];
      var s := AddProto(t, d, n, store).value;
      if n in LayerSet(t) && Truthy(Get(d, n).GetOr(NoneV)) {
        AddGoldNames(n, t.decls[n].cls, Get(d, n).GetOr(NoneV).records, store, names);
      }
      assert forall m :: m in order[1..] ==> m in order;
      AccumulateProtoNames(t, d, order[1..], s, names);
    }
  }

  /** The document state `fromdict` builds: its plain values and the entries of each layer. */
  datatype ProtoState = ProtoState(plain: map<string, Value>, lists: map<string, seq<Entry>>)

  /** Every item names a layer. */
  predicate InLayers(t: DocType, items: seq<(string, Annotation)>) {
    forall i :: 0 <= i < |items| ==> items[i].0 in LayerSet(t)
  }

  /** `Document.fromdict(dct)` once the search from the text has listed `order`: a missing text is a
      KeyError; otherwise the layers hold, in accumulator order, the annotations the accumulator
      rebuilt. */
  function ProtoRebuilt(t: DocType, d: PyDict<string, Value>, order: seq<string>): (r: Result<ProtoState>)
    ensures Get(d, TEXT).None? ==> r == Failure(KeyError(TEXT))
    ensures r.Success? ==> r.value.plain.Keys == {TEXT, ID} && r.value.lists.Keys == LayerSet(t)
    ensures r.Success? ==> r.value.plain[TEXT] == Get(d, TEXT).value && r.value.plain[ID] == Get(d, ID).GetOr(NoneV)
  {
    var plain :- ProtoPlain(d);
    var store :- AccumulateProto(t, d, order, []);
    AccumulateProtoNames(t, d, order, [], LayerSet(t));
    ValuesNames(store, LayerSet(t));
    var lists :- AppendedEntries(t, plain, Values(store), EmptyLayers(t));
    Success(ProtoState(plain, lists))
  }

  /** The layers `fromdict` fills hold, in accumulator order, the annotations the accumulator
      rebuilt, each in the layer it names. */
  lemma ProtoRebuiltHeld(t: DocType, d: PyDict<string, Value>, order: seq<string>)
    requires ProtoRebuilt(t, d, order).Success?
    ensures var s := AccumulateProto(t, d, order, []);
            s.Success? && InLayers(t, Values(s.value)) &&
            HeldLayers(ProtoRebuilt(t, d, order).value.lists) == Appended(Values(s.value), NoAnnotations(t))
  {
    var plain := ProtoPlain(d).value;
    var store := AccumulateProto(t, d, order, []).value;
    AccumulateProtoNames(t, d, order, [], LayerSet(t));
    ValuesNames(store, LayerSet(t));
    ProtoRebuiltSteps(t, d, order, plain, store);
    assert HeldLayers(EmptyLayers(t)) == NoAnnotations(t);
  }

  /** `ProtoRebuilt` once the text is present and the accumulator succeeded: the outcome of the
      append loop on empty layers. */
  lemma ProtoRebuiltSteps(t: DocType, d: PyDict<string, Value>, order: seq<string>, plain: map<string, Value>,
                          store: Store)
    requires ProtoPlain(d) == Success(plain) && AccumulateProto(t, d, order, []) == Success(store)
    requires InLayers(t, Values(store))
    ensures var lists := AppendedEntries(t, plain, Values(store), EmptyLayers(t));
            ProtoRebuilt(t, d, order) == if lists.Success? then Success(ProtoState(plain, lists.value))
                                         else Failure(lists.error)
  {
  }

  /** The plain fields of a prototype class are `text` and `id`. */
  lemma ProtoPlainSet(t: ProtoType)
    ensures PlainSet(t) == {TEXT, ID}
  {
  }

  /** The outcome of `fromdict` is the one `ProtoRebuilt` describes for the search order. */
  ghost predicate Matches(t: ProtoType, d: PyDict<string, Value>, order: seq<string>, r: Result<Document>)
    reads if r.Success? then {r.value} else {}, if r.Success? then r.value.Repr else {}
  {
    (r.Success? <==> ProtoRebuilt(t, d, order).Success?) &&
    (r.Success? ==> r.value.docType == t && r.value.Valid() &&
                    ProtoState(r.value.plain, r.value.Lists()) == ProtoRebuilt(t, d, order).value) &&
    (r.Failure? ==> r.error == ProtoRebuilt(t, d, order).error)
  }

  /** The loop of `fromdict` over the names the search listed. */
  method Accumulated(t: DocType, d: PyDict<string, Value>, order: seq<string>) returns (r: Result<Store>)
    ensures r == AccumulateProto(t, d, order, [])
  {
    var store: Store := [];
    for i := 0 to |order|
      invariant AccumulateProto(t, d, order, []) == AccumulateProto(t, d, order[i..], store)
    {
      var name := order[i];
      assert order[i..][0] == name && order[i..][1..] == order[i + 1..];
      if name !in LayerSet(t) {
        continue;
      }
      var value := Get(d, name).GetOr(NoneV);
      if !Truthy(value) {
        continue;
      }
      if value.ListV? {
        return Failure(TypeError("cannot convert dictionary update sequence element"));
      }
      if !value.RecordsV? {
        return Failure(Exception("Error"));
      }
      var s := CoreDocument.RebuildGold(name, t.decls[name].cls, value.records, store);
      if s.Failure? {
        return Failure(s.error);
      }
      store := s.value;
    }
    return Success(store);
  }

  /** The loops of `fromdict` once the document is initialised: rebuild the annotations the search
      listed, then append them in accumulator order. */
  method Populate(doc: Document, d: PyDict<string, Value>, order: seq<string>) returns (r: Result<Document>)
    requires doc.Linked() && doc.layers.Keys == LayerSet(doc.docType)
    requires ProtoPlain(d) == Success(doc.plain) && doc.Lists() == EmptyLayers(doc.docType)
    modifies doc.Repr
    ensures r.Success? <==> ProtoRebuilt(doc.docType, d, order).Success?
    ensures r.Failure? ==> r.error == ProtoRebuilt(doc.docType, d, order).error
    ensures r.Success? ==> r.value == doc && doc.Linked() &&
                           ProtoState(doc.plain, doc.Lists()) == ProtoRebuilt(doc.docType, d, order).value
  {
    var t := doc.docType;
    var store := Accumulated(t, d, order);
    if store.Failure? {
      return Failure(store.error);
    }
    AccumulateProtoNames(t, d, order, [], LayerSet(t));
    ValuesNames(store.value, LayerSet(t));
    ProtoRebuiltSteps(t, d, order, doc.plain, store.value);
    var o := doc.AppendAll(Values(store.value), EmptyLayers(t));
    if o.Fail? {
      return Failure(o.error);
    }
    return Success(doc);
  }

  /** `MyDocument.fromdict(dct)`: `graph` is the reverse target map of the new document and `order`
      the list its depth-first search from the text produced. */
  method FromDict(t: ProtoType, d: PyDict<string, Value>)
      returns (r: Result<Document>, ghost graph: Graph, ghost order: seq<string>)
    ensures Get(d, TEXT).None? ==> r == Failure(KeyError(TEXT))
    ensures Get(d, TEXT).Some? ==> ReverseOf(t, graph) && Visits(graph, order) && Matches(t, d, order, r)
    ensures r.Success? ==> fresh(r.value) && fresh(r.value.Repr)
  {
    var plain := ProtoPlain(d);
    if plain.Failure? {
      return Failure(plain.error), map[], [];
    }
    ProtoPlainSet(t);
    var doc := new Document(t, plain.value);
    doc.PostInit();
    graph := doc.targets;
    var visitOrder := Search(doc.targets, TEXT);
    order := visitOrder;
    r := Populate(doc, d, visitOrder);
  }
}
