/** The earlier `pytorch_ie.data` document: a dataclass whose annotation layers are ordered lists of
    annotations. `__post_init__` gives every layer an empty list constructed with the layer's own
    name as target, and records the reverse target map (a target to the layers that annotate it).
    `fromdict` walks that map depth-first from the `"text"` field, so it rebuilds only the layers
    whose target chain ends at the text. */
module DataDocument {
  import opened Wrappers
  import opened PyLists
  import opened PyDicts
  import opened Annotations
  import opened FieldValues
  import opened CoreModel
  import opened Traversal
  import opened RecordLayers
  import CoreDocument

  /** The internal field `_annotation_targets` (declared with `init=False`). */
  const TARGETS_FIELD := "_annotation_targets"

  /** A document class: its declared fields, which cannot include the internal field. */
  type DataDocType = t: DocType | TARGETS_FIELD !in t.decls witness DocTypeDecl([], map[])

  /** The loop of `__post_init__` over the fields: for each layer, its `(name, target)` edge, its empty
      list and the target that list was constructed with. */
  method LayerLists(t: DocType)
      returns (edges: set<(string, Option<string>)>, layers: Layers, listTargets: map<string, string>)
    ensures layers == NoAnnotations(t)
    ensures listTargets.Keys == LayerSet(t) && forall n :: n in listTargets ==> listTargets[n] == n
    ensures forall e :: e in edges <==> e.0 in LayerSet(t) && e.1 == TargetOf(t, e.0)
  {
    edges, layers, listTargets := {}, map[], map[];
    for i := 0 to |t.order|
      invariant forall n :: n in layers <==> n in t.order[..i] && n in LayerSet(t)
      invariant forall n :: n in layers ==> layers[n] == []
      invariant listTargets.Keys == layers.Keys && forall n :: n in listTargets ==> listTargets[n] == n
      invariant forall e :: e in edges <==> e.0 in layers && e.1 == TargetOf(t, e.0)
    {
      var name := t.order[i];
      assert t.order[..i + 1] == t.order[..i] + [name];
      assert name in (set n | n in t.order);
      if t.decls[name].Layer? {
        edges := edges + {(name, t.decls[name].target)};
        layers := layers[name := []];
        listTargets := listTargets[name := name];
      }
    }
    assert t.order[..|t.order|] == t.order;
    assert forall n :: n in LayerSet(t) ==> n in (set m | m in t.order);
  }

  class Document {
    const docType: DataDocType
    const plain: map<string, Value>
    var annotationTargets: Graph
    var layers: Layers
    /** The `target` each layer's list was constructed with. */
    var listTargets: map<string, string>

    ghost predicate Valid()
      reads this
    {
      plain.Keys == PlainSet(docType) && layers.Keys == LayerSet(docType) &&
      listTargets.Keys == LayerSet(docType) && ReverseOf(docType, annotationTargets)
    }

    function Value(): (v: DataValue)
      reads this
    {
      DataValue(plain, layers)
    }

    /** The dataclass `__init__`: plain fields set, `_annotation_targets` an empty dict. */
    constructor (docType: DataDocType, plain: map<string, Value>)
      ensures this.docType == docType && this.plain == plain
      ensures annotationTargets == map[] && layers == map[] && listTargets == map[]
    {
      this.docType := docType;
      this.plain := plain;
      annotationTargets := map[];
      layers := map[];
      listTargets := map[];
    }

    /** `__post_init__`: an edge and an empty list for every layer, each list constructed with the
        layer's own name as target; then the reverse target map of the edges. */
    method PostInit()
      requires layers == map[] && listTargets == map[]
      modifies this
      ensures layers == NoAnnotations(docType)
      ensures listTargets.Keys == LayerSet(docType) && forall n :: n in listTargets ==> listTargets[n] == n
      ensures ReverseOf(docType, annotationTargets)
    {
      var edges;
      edges, layers, listTargets := LayerLists(docType);
      annotationTargets := ReverseTargets(edges);
      EdgesReversed(docType, edges, annotationTargets);
    }

    /** The final loop of `fromdict`: append each accumulated annotation to the layer it names. */
    method AppendAll(items: seq<(string, Annotation)>)
      requires forall i :: 0 <= i < |items| ==> items[i].0 in layers
      modifies this`layers
      ensures layers == Appended(items, old(layers))
    {
      for i := 0 to |items|
        invariant layers.Keys == old(layers).Keys
        invariant Appended(items, old(layers)) == Appended(items[i..], layers)
      {
        assert items[i..][0] == items[i] && items[i..][1..] == items[i + 1..];
        var n := items[i].0;
        layers := layers[n := layers[n] + [items[i].1]];
      }
    }

    /** `doc.asdict()`: `_annotation_targets` is left out. */
    function AsDict(hash: Annotation -> int): (d: PyDict<string, Value>)
      reads this
      requires Valid()
      ensures Keys(d) == docType.order && Get(d, TARGETS_FIELD).None?
    {
      Serialised(docType, Value(), hash)
    }
  }

  /** `cls_kwargs`: the non-None values the serialised document holds for the fields that are not
      layers, `_annotation_targets` among them. */
  function DataKwargs(t: DataDocType, d: PyDict<string, Value>): (kw: map<string, Value>)
    ensures forall n :: n in kw <==> (n in PlainSet(t) || n == TARGETS_FIELD) && Get(d, n).Some? && Get(d, n).value != NoneV
    ensures forall n :: n in kw ==> kw[n] == Get(d, n).value
  {
    FieldKwargs(t, d, [TARGETS_FIELD])
  }

  /** The loop over the layer names the search listed: a name that is not a layer, and a layer whose
      value is None or empty, leave the accumulator alone; otherwise each annotation dict is rebuilt
      against the accumulator and stored under its id. */
  function AddStored(t: DataDocType, d: PyDict<string, Value>, n: string, store: Store): Result<Store> {
    if n !in LayerSet(t) then Success(store)
    else
      var value := Get(d, n).GetOr(NoneV);
      if !Truthy(value) then Success(store)
      else if !value.RecordsV? then Failure(TypeError("layer value is not a list of annotation dicts"))
      else AddGold(n, t.decls[n].cls, value.records, store)
  }

  function AccumulateStored(t: DataDocType, d: PyDict<string, Value>, order: seq<string>, store: Store)
    : Result<Store>
    decreases |order|
  {
    if order == [] then Success(store)
    else
      var s :- AddStored(t, d, order[0], store);
      AccumulateStored(t, d, order[1..], s)
  }

  /** Every accumulated annotation names a layer of `names` once the ones the store held did and
      every layer of `order` is in `names`. */
  lemma {:induction false} AccumulateStoredNames(t: DataDocType, d: PyDict<string, Value>, order: seq<string>,
                                                 store: Store, names: set<string>)
    requires NamesIn(store, names)
    requires forall n :: n in order && n in LayerSet(t) ==> n in names
    requires AccumulateStored(t, d, order, store).Success?
    ensures NamesIn(AccumulateStored(t, d, order, store).value, names)
    decreases |order|
  {
    if order != [] {
      var n := order[0];
      var s := AddStored(t, d, n, store).value;
      if n in LayerSet(t) && Truthy(Get(d, n).GetOr(NoneV)) {
        AddGoldNames(n, t.decls[n].cls, Get(d, n).GetOr(NoneV).records, store, names);
      }
      assert forall m :: m in order[1..] ==> m in order;
      AccumulateStoredNames(t, d, order[1..], s, names);
    }
  }

  /** The layers the search listed. */
  function LayersIn(t: DocType, order: seq<string>): set<string> {
    set n | n in order && n in LayerSet(t)
  }

  /** `Document.fromdict(dct)` once the search from the text has listed `order`. */
  function Rebuilt(t: DataDocType, d: PyDict<string, Value>, order: seq<string>): (r: Result<DataValue>)
    ensures r.Success? ==> Fits(t, r.value)
  {
    var plain :- InitPlain(t, DataKwargs(t, d));
    var store :- AccumulateStored(t, d, order, []);
    AccumulateStoredNames(t, d, order, [], LayersIn(t, order));
    Success(DataValue(plain, Appended(Values(store), NoAnnotations(t))))
  }

  /** `Rebuilt` on constructible fields, one outcome per stage. */
  lemma RebuiltSteps(t: DataDocType, d: PyDict<string, Value>, order: seq<string>)
    requires InitPlain(t, DataKwargs(t, d)).Success?
    ensures var a := AccumulateStored(t, d, order, []);
            a.Success? ==> NamesIn(a.value, LayersIn(t, order))
    ensures var a := AccumulateStored(t, d, order, []);
            Rebuilt(t, d, order) ==
              if a.Failure? then Failure(a.error)
              else Success(DataValue(InitPlain(t, DataKwargs(t, d)).value, Appended(Values(a.value), NoAnnotations(t))))
  {
    if AccumulateStored(t, d, order, []).Success? {
      AccumulateStoredNames(t, d, order, [], LayersIn(t, order));
    }
  }

  /** A layer the search did not list stays empty. */
  lemma UnvisitedEmpty(t: DataDocType, d: PyDict<string, Value>, order: seq<string>, n: string)
    requires Rebuilt(t, d, order).Success?
    requires n in LayerSet(t) && n !in order
    ensures Rebuilt(t, d, order).value.layers[n] == []
  {
    var store := AccumulateStored(t, d, order, []).value;
    AccumulateStoredNames(t, d, order, [], LayersIn(t, order));
    forall i | 0 <= i < |Values(store)| ensures Values(store)[i].0 != n {
      assert store[i].1.0 in LayersIn(t, order);
    }
    ItemsOfUnnamed(Values(store), n);
  }

  /** The outcome of `fromdict` is the one `Rebuilt` describes for the search order. */
  ghost predicate Matches(t: DataDocType, d: PyDict<string, Value>, order: seq<string>, r: Result<Document>)
    reads if r.Success? then {r.value} else {}
  {
    (r.Success? <==> Rebuilt(t, d, order).Success?) &&
    (r.Success? ==> r.value.docType == t && r.value.Valid() && r.value.Value() == Rebuilt(t, d, order).value) &&
    (r.Failure? ==> r.error == Rebuilt(t, d, order).error)
  }

  /** The loop of `fromdict` over the layer names the search listed. */
  method Accumulated(t: DataDocType, d: PyDict<string, Value>, order: seq<string>) returns (r: Result<Store>)
    ensures r == AccumulateStored(t, d, order, [])
  {
    var store: Store := [];
    for i := 0 to |order|
      invariant AccumulateStored(t, d, order, []) == AccumulateStored(t, d, order[i..], store)
    {
      var name := order[i];
      assert order[i..][0] == name && order[i..][1..] == order[i + 1..];
      if name !in LayerSet(t) {
        continue;
      }
      var value := Get(d, name).GetOr(NoneV);
      if !Truthy(value) {
        continue;
      }
      if !value.RecordsV? {
        return Failure(TypeError("layer value is not a list of annotation dicts"));
      }
      var s := CoreDocument.RebuildGold(name, t.decls[name].cls, value.records, store);
      if s.Failure? {
        return Failure(s.error);
      }
      store := s.value;
    }
    return Success(store);
  }

  /** `Document.fromdict(dct)`. `graph` is the reverse target map of the new document and `order` the
      list its depth-first search from the text produced. */
  method FromDict(t: DataDocType, d: PyDict<string, Value>)
      returns (r: Result<Document>, ghost graph: Graph, ghost order: seq<string>)
    ensures InitPlain(t, DataKwargs(t, d)).Failure? ==> r.Failure? && r.error == InitPlain(t, DataKwargs(t, d)).error
    ensures InitPlain(t, DataKwargs(t, d)).Success? ==> ReverseOf(t, graph) && Visits(graph, order) && Matches(t, d, order, r)
    ensures r.Success? ==> fresh(r.value)
  {
    var kwargs := CoreDocument.CollectKwargs(t, d, [TARGETS_FIELD]);
    var plain := InitPlain(t, kwargs);
    if plain.Failure? {
      return Failure(plain.error), map[], [];
    }
    var doc := new Document(t, plain.value);
    doc.PostInit();
    graph := doc.annotationTargets;
    var visitOrder := Search(doc.annotationTargets, TEXT);
    order := visitOrder;
    r := Rebuild(t, d, doc, visitOrder);
  }

  /** The rest of `fromdict` once the document is initialised and the search has listed `order`:
      rebuild the annotations layer by layer and append them to the new document. */
  method Rebuild(t: DataDocType, d: PyDict<string, Value>, doc: Document, order: seq<string>)
      returns (r: Result<Document>)
    requires InitPlain(t, DataKwargs(t, d)).Success?
    requires doc.docType == t && doc.plain == InitPlain(t, DataKwargs(t, d)).value
    requires doc.Valid() && doc.layers == NoAnnotations(t)
    modifies doc`layers
    ensures Matches(t, d, order, r)
    ensures r.Success? ==> r.value == doc
  {
    RebuiltSteps(t, d, order);
    var store := Accumulated(t, d, order);
    if store.Failure? {
      return Failure(store.error);
    }
    doc.AppendAll(Values(store.value));
    assert doc.Value() == Rebuilt(t, d, order).value;
    return Success(doc);
  }
}
