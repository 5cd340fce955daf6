/** The value-level part of the current document design: document types (their plain fields and
    annotation layers, each layer with an optional target), the value a document holds, what `asdict`
    produces from it, and what `fromdict` rebuilds from a serialised document once the layers have been
    put in dependency order. */
module CoreModel {
  import opened Wrappers
  import opened PyLists
  import opened PyDicts
  import opened Annotations
  import opened FieldValues
  import DependencyGraph

  /** The node that `__post_init__` adds above every layer no other layer targets. */
  const ROOT := "_artificial_root"

  /** The annotation class a layer declares (`AnnotationList[Span]`, ...). */
  datatype AnnotationClass = SpanClass | LabeledSpanClass | RelationClass | LabelClass | MultiLabelClass

  predicate OfClass(a: Annotation, c: AnnotationClass) {
    match c
    case SpanClass => a.Span?
    case LabeledSpanClass => a.LabeledSpan?
    case RelationClass => a.BinaryRelation?
    case LabelClass => a.Label?
    case MultiLabelClass => a.MultiLabel?
  }

  predicate RecordOfClass(r: Record, c: AnnotationClass) {
    match c
    case SpanClass => r.SpanRecord?
    case LabeledSpanClass => r.LabeledSpanRecord?
    case RelationClass => r.RelationRecord?
    case LabelClass => r.LabelRecord?
    case MultiLabelClass => r.MultiLabelRecord?
  }

  /** `annotation_class.fromdict(annotation_dict, store)`: the fields of another class do not fit the
      constructor's keyword arguments, which is a TypeError. */
  function BuildAs(c: AnnotationClass, r: Record, store: Store): (a: Result<Annotation>)
    ensures a.Success? ==> OfClass(a.value, c)
    ensures !RecordOfClass(r, c) ==> a == Failure(TypeError("unexpected keyword arguments"))
    ensures RecordOfClass(r, c) ==> a == FromDict(r, store)
  {
    if !RecordOfClass(r, c) then Failure(TypeError("unexpected keyword arguments"))
    else FromDict(r, store)
  }

  /** A dataclass field: a plain field with an optional default, or an annotation layer declared by
      `annotation_field(target=...)`. */
  datatype FieldKind =
    | Plain(default: Option<Value>)
    | Layer(target: Option<string>, cls: AnnotationClass)

  /** The fields of a document class, in declaration order. */
  datatype DocTypeDecl = DocTypeDecl(order: seq<string>, decls: map<string, FieldKind>) {
    predicate Valid() {
      Distinct(order) && (set n | n in order) == decls.Keys
    }
  }

  type DocType = t: DocTypeDecl | t.Valid() witness DocTypeDecl([], map[])

  /** `_annotation_fields`: the names of the layers. */
  function LayerSet(t: DocType): set<string> {
    set n | n in t.decls && t.decls[n].Layer?
  }

  function PlainSet(t: DocType): set<string> {
    set n | n in t.decls && t.decls[n].Plain?
  }

  function TargetOf(t: DocType, n: string): Option<string>
    requires n in LayerSet(t)
  {
    t.decls[n].target
  }

  /** The names some layer targets. */
  function Targeted(t: DocType): set<string> {
    set n | n in LayerSet(t) && TargetOf(t, n).Some? :: TargetOf(t, n).value
  }

  /** The edges `__post_init__` records: each layer with a target depends on it. */
  function LayerGraph(t: DocType): (g: DependencyGraph.Graph)
    ensures forall n :: n in g <==> n in LayerSet(t) && TargetOf(t, n).Some?
    ensures forall n :: n in g ==> g[n] == [TargetOf(t, n).value]
  {
    map n | n in LayerSet(t) && TargetOf(t, n).Some? :: [TargetOf(t, n).value]
  }

  /** A list `__post_init__` may store under the root: every untargeted layer, once, in some order. */
  ghost predicate IsRootList(t: DocType, root: seq<string>) {
    NoDuplicates(root) && forall n :: n in root <==> n in LayerSet(t) && n !in Targeted(t)
  }

  /** The ValueError of `__post_init__`: a layer called `_artificial_root` that has a target. */
  predicate RootClash(t: DocType) {
    ROOT in LayerSet(t) && TargetOf(t, ROOT).Some?
  }

  lemma RootClashIsGraphNode(t: DocType)
    ensures RootClash(t) <==> ROOT in LayerGraph(t)
  {
  }

  /** What `getattr(document, target) if target is not None else None` yields: nothing, the value of
      a plain field, or another layer of the same document. */
  datatype TargetValue = NoTarget | FieldValue(value: Value) | LayerRef(name: string)

  /** An annotation as a layer holds it: the frozen value and its mutable `_target`. */
  datatype Entry = Entry(annotation: Annotation, target: TargetValue)

  /** The target `append` gives an annotation of a layer with that target. */
  function ResolveTarget(t: DocType, plain: map<string, Value>, target: Option<string>)
    : (r: Result<TargetValue>)
    ensures target.None? ==> r == Success(NoTarget)
    ensures r.Failure? <==> target.Some? && target.value !in LayerSet(t) && target.value !in plain
    ensures r.Failure? ==> r.error == AttributeError(target.value)
    ensures target.Some? && target.value in LayerSet(t) ==> r == Success(LayerRef(target.value))
    ensures target.Some? && target.value !in LayerSet(t) && target.value in plain ==>
              r == Success(FieldValue(plain[target.value]))
  {
    match target
    case None => Success(NoTarget)
    case Some(n) =>
      if n in LayerSet(t) then Success(LayerRef(n))
      else if n in plain then Success(FieldValue(plain[n]))
      else Failure(AttributeError(n))
  }

  /** The dataclass `__init__`: every keyword must name a plain field, and every plain field without
      a default must be given. */
  function InitPlain(t: DocType, kwargs: map<string, Value>): (r: Result<map<string, Value>>)
    ensures r.Success? <==>
              (forall k :: k in kwargs ==> k in PlainSet(t)) &&
              (forall n :: n in PlainSet(t) && n !in kwargs ==> t.decls[n].default.Some?)
    ensures r.Failure? ==> r.error.TypeError?
    ensures r.Success? ==> r.value.Keys == PlainSet(t)
    ensures r.Success? ==> forall n :: n in kwargs ==> r.value[n] == kwargs[n]
    ensures r.Success? ==> forall n :: n in PlainSet(t) && n !in kwargs ==>
              r.value[n] == t.decls[n].default.value
  {
    if exists k :: k in kwargs && k !in PlainSet(t) then
      Failure(TypeError("got an unexpected keyword argument"))
    else if exists n :: n in PlainSet(t) && n !in kwargs && t.decls[n].default.None? then
      Failure(TypeError("missing a required argument"))
    else
      Success(map n | n in PlainSet(t) :: if n in kwargs then kwargs[n] else t.decls[n].default.value)
  }

  /** `cls(**kwargs)`: the dataclass `__init__` followed by the ValueError check of `__post_init__`. */
  function Construct(t: DocType, kwargs: map<string, Value>): (r: Result<map<string, Value>>)
    ensures r.Success? <==> InitPlain(t, kwargs).Success? && !RootClash(t)
    ensures r.Success? ==> r == InitPlain(t, kwargs)
    ensures InitPlain(t, kwargs).Success? && RootClash(t) ==> r == Failure(ValueError(ClashMessage))
  {
    var plain :- InitPlain(t, kwargs);
    if RootClash(t) then Failure(ValueError(ClashMessage)) else Success(plain)
  }

  const ClashMessage := "the annotation graph already contains a node _artificial_root, this is not allowed"

  /** The layers of one document with their gold annotations and `predictions`. */
  datatype LayerValue = LayerValue(gold: seq<Entry>, predictions: seq<Entry>)

  /** The state of a document: its plain field values and its layers. */
  datatype DocValue = DocValue(plain: map<string, Value>, layers: map<string, LayerValue>)

  predicate Conforms(t: DocType, v: DocValue) {
    v.plain.Keys == PlainSet(t) && v.layers.Keys == LayerSet(t)
  }

  function EmptyLayers(t: DocType): (m: map<string, seq<Entry>>)
    ensures m.Keys == LayerSet(t) && forall n :: n in m ==> m[n] == []
  {
    map n | n in LayerSet(t) :: []
  }

  /** `asdict` of a non-layer field: an empty dict becomes None, anything else is kept. */
  function Serialise(v: Value): (r: Value)
    ensures r != v ==> v == DictV(map[]) && r == NoneV
    ensures v == DictV(map[]) ==> r == NoneV
  {
    if v == DictV(map[]) then NoneV else v
  }

  /** `[v.asdict() for v in layer]` */
  function Records(es: seq<Entry>, hash: Annotation -> int): (r: seq<AnnotationDict>)
    ensures |r| == |es|
    ensures forall i :: 0 <= i < |es| ==> r[i] == AsDict(es[i].annotation, hash)
  {
    seq(|es|, i requires 0 <= i < |es| => AsDict(es[i].annotation, hash))
  }

  /** What `asdict` stores under one field name. */
  function FieldData(t: DocType, v: DocValue, n: string, hash: Annotation -> int): Value
    requires Conforms(t, v) && n in t.decls
  {
    match t.decls[n]
    case Plain(_) => Serialise(v.plain[n])
    case Layer(_, _) =>
      LayerV(Records(v.layers[n].gold, hash), Records(v.layers[n].predictions, hash))
  }

  /** `Document.asdict()`: one item per field, in declaration order. */
  function AsDictOf(t: DocType, v: DocValue, hash: Annotation -> int): (d: PyDict<string, Value>)
    requires Conforms(t, v)
    ensures Keys(d) == t.order && Valid(d)
  {
    var d := seq(|t.order|, i requires 0 <= i < |t.order| => (t.order[i], FieldData(t, v, t.order[i], hash)));
    assert Keys(d) == t.order;
    DistinctNoDuplicates(t.order);
    d
  }

  /** The fields `fromdict` hands to the constructor, as its loop over `dataclasses.fields(cls)` sees
      them: the `init=False` fields `internal` the class inherits, and the plain fields. */
  predicate KwargName(t: DocType, internal: seq<string>, n: string) {
    n in internal || (n in t.decls && t.decls[n].Plain?)
  }

  /** The non-None values that the serialised document holds for those fields. */
  function FieldKwargs(t: DocType, d: PyDict<string, Value>, internal: seq<string>): (kw: map<string, Value>)
    ensures forall n :: n in kw <==> KwargName(t, internal, n) && Get(d, n).Some? && Get(d, n).value != NoneV
    ensures forall n :: n in kw ==> kw[n] == Get(d, n).value
  {
    map n | n in (set m | m in internal) + PlainSet(t) && Get(d, n).Some? && Get(d, n).value != NoneV
      :: Get(d, n).value
  }

  /** `_annotation_graph` and `_annotation_fields`, the `init=False` fields every document class
      inherits; `dataclasses.fields(cls)` lists them, `Document.fields()` leaves them out. */
  const INTERNAL_FIELDS := ["_annotation_graph", "_annotation_fields"]

  /** No declared field reuses the name of an inherited internal field. */
  predicate OwnNames(t: DocType) {
    forall n :: n in INTERNAL_FIELDS ==> n !in t.decls
  }

  /** `cls_kwargs`: the non-None values that the serialised document holds for plain fields and for
      the two internal fields, which the constructor then refuses as unexpected keywords. */
  function Kwargs(t: DocType, d: PyDict<string, Value>): (kw: map<string, Value>)
    ensures forall n :: n in kw <==> (n in INTERNAL_FIELDS || n in PlainSet(t)) && Get(d, n).Some? && Get(d, n).value != NoneV
    ensures forall n :: n in kw ==> kw[n] == Get(d, n).value
  {
    FieldKwargs(t, d, INTERNAL_FIELDS)
  }

  /** A serialised document that gives an internal field a value other than None cannot be
      deserialised into a class that does not declare that name: the constructor raises TypeError. */
  lemma InternalFieldRefused(t: DocType, d: PyDict<string, Value>, n: string)
    requires n in INTERNAL_FIELDS && n !in t.decls && Get(d, n).Some? && Get(d, n).value != NoneV
    ensures Construct(t, Kwargs(t, d)).Failure? && Construct(t, Kwargs(t, d)).error.TypeError?
  {
    assert n in Kwargs(t, d) && n !in PlainSet(t);
  }

  /** Every accumulated annotation belongs to one of `names`. */
  predicate NamesIn(s: Store, names: set<string>) {
    forall i :: 0 <= i < |s| ==> s[i].1.0 in names
  }

  lemma PutNamesIn(s: Store, id: int, item: (string, Annotation), names: set<string>)
    requires NamesIn(s, names) && item.0 in names
    ensures NamesIn(Put(s, id, item), names)
  {
  }

  /** The loop over `value["annotations"]`: each gold annotation is rebuilt against the gold store
      and stored under its id. */
  function AddGold(name: string, c: AnnotationClass, recs: seq<AnnotationDict>, gold: Store)
    : (r: Result<Store>)
    decreases |recs|
  {
    if recs == [] then Success(gold)
    else
      var a :- BuildAs(c, recs[0].fields, gold);
      AddGold(name, c, recs[1..], Put(gold, recs[0].id, (name, a)))
  }

  /** The loop over `value["predictions"]`: each prediction is rebuilt against `{**annotations,
      **predictions}` and stored under its id. */
  function AddPredictions(name: string, c: AnnotationClass, recs: seq<AnnotationDict>, gold: Store,
                          preds: Store): (r: Result<Store>)
    decreases |recs|
  {
    if recs == [] then Success(preds)
    else
      var a :- BuildAs(c, recs[0].fields, Merge(gold, preds));
      AddPredictions(name, c, recs[1..], gold, Put(preds, recs[0].id, (name, a)))
  }

  /** One iteration of the loop over the dependency-ordered names: a name that is not a layer, and a
      layer whose serialised value is None or empty, leave both stores alone. */
  function AddLayer(t: DocType, d: PyDict<string, Value>, n: string, gold: Store, preds: Store)
    : (r: Result<(Store, Store)>)
  {
    if n !in LayerSet(t) then Success((gold, preds))
    else
      var value := Get(d, n).GetOr(NoneV);
      if !Truthy(value) then Success((gold, preds))
      else if !value.LayerV? then Failure(TypeError("layer value is not an annotations mapping"))
      else
        var g :- AddGold(n, t.decls[n].cls, value.annotations, gold);
        var p :- AddPredictions(n, t.decls[n].cls, value.predictions, g, preds);
        Success((g, p))
  }

  /** The whole loop over the dependency-ordered names. */
  function Accumulate(t: DocType, d: PyDict<string, Value>, order: seq<string>, gold: Store,
                      preds: Store): (r: Result<(Store, Store)>)
    decreases |order|
  {
    if order == [] then Success((gold, preds))
    else
      var stores :- AddLayer(t, d, order[0], gold, preds);
      Accumulate(t, d, order[1..], stores.0, stores.1)
  }

  /** The final loops `getattr(doc, field_name).append(annotation)`, over the accumulated items. */
  function AppendEntries(t: DocType, plain: map<string, Value>, items: seq<(string, Annotation)>,
                         layers: map<string, seq<Entry>>): (r: Result<map<string, seq<Entry>>>)
    requires forall i :: 0 <= i < |items| ==> items[i].0 in LayerSet(t) && items[i].0 in layers
    ensures r.Success? ==> r.value.Keys == layers.Keys
    decreases |items|
  {
    if items == [] then Success(layers)
    else
      var n := items[0].0;
      var target :- ResolveTarget(t, plain, TargetOf(t, n));
      AppendEntries(t, plain, items[1..], layers[n := layers[n] + [Entry(items[0].1, target)]])
  }

  /** The names in the stores built from an empty start are all layer names. */
  lemma {:induction false} AccumulateNames(t: DocType, d: PyDict<string, Value>, order: seq<string>,
                                           gold: Store, preds: Store)
    requires NamesIn(gold, LayerSet(t)) && NamesIn(preds, LayerSet(t))
    requires Accumulate(t, d, order, gold, preds).Success?
    ensures NamesIn(Accumulate(t, d, order, gold, preds).value.0, LayerSet(t))
    ensures NamesIn(Accumulate(t, d, order, gold, preds).value.1, LayerSet(t))
    decreases |order|
  {
    if order != [] {
      var n := order[0];
      var stores := AddLayer(t, d, n, gold, preds).value;
      if n in LayerSet(t) && Truthy(Get(d, n).GetOr(NoneV)) {
        var value := Get(d, n).GetOr(NoneV);
        AddGoldNames(n, t.decls[n].cls, value.annotations, gold, LayerSet(t));
        var g := AddGold(n, t.decls[n].cls, value.annotations, gold).value;
        AddPredictionsNames(n, t.decls[n].cls, value.predictions, g, preds, LayerSet(t));
      }
      AccumulateNames(t, d, order[1..], stores.0, stores.1);
    }
  }

  lemma {:induction false} AddGoldNames(name: string, c: AnnotationClass, recs: seq<AnnotationDict>,
                                        gold: Store, names: set<string>)
    requires NamesIn(gold, names) && name in names
    requires AddGold(name, c, recs, gold).Success?
    ensures NamesIn(AddGold(name, c, recs, gold).value, names)
    decreases |recs|
  {
    if recs != [] {
      var a := BuildAs(c, recs[0].fields, gold).value;
      PutNamesIn(gold, recs[0].id, (name, a), names);
      AddGoldNames(name, c, recs[1..], Put(gold, recs[0].id, (name, a)), names);
    }
  }

  lemma {:induction false} AddPredictionsNames(name: string, c: AnnotationClass,
                                               recs: seq<AnnotationDict>, gold: Store, preds: Store,
                                               names: set<string>)
    requires NamesIn(preds, names) && name in names
    requires AddPredictions(name, c, recs, gold, preds).Success?
    ensures NamesIn(AddPredictions(name, c, recs, gold, preds).value, names)
    decreases |recs|
  {
    if recs != [] {
      var a := BuildAs(c, recs[0].fields, Merge(gold, preds)).value;
      PutNamesIn(preds, recs[0].id, (name, a), names);
      AddPredictionsNames(name, c, recs[1..], gold, Put(preds, recs[0].id, (name, a)), names);
    }
  }

  lemma ValuesNames(s: Store, names: set<string>)
    requires NamesIn(s, names)
    ensures forall i :: 0 <= i < |Values(s)| ==> Values(s)[i].0 in names
  {
  }

  /** The final loops of `fromdict`: append the rebuilt gold annotations, then the rebuilt
      predictions, to the empty layers of a freshly constructed document. */
  function AppendStores(t: DocType, plain: map<string, Value>, gold: Store, preds: Store)
    : (r: Result<DocValue>)
    requires NamesIn(gold, LayerSet(t)) && NamesIn(preds, LayerSet(t))
    ensures r.Success? ==> r.value.plain == plain && r.value.layers.Keys == LayerSet(t)
  {
    ValuesNames(gold, LayerSet(t));
    ValuesNames(preds, LayerSet(t));
    var g :- AppendEntries(t, plain, Values(gold), EmptyLayers(t));
    var p :- AppendEntries(t, plain, Values(preds), EmptyLayers(t));
    Success(Assemble(plain, g, p))
  }

  /** A document state from its plain values and the gold and prediction entries of each layer. */
  function Assemble(plain: map<string, Value>, gold: map<string, seq<Entry>>, preds: map<string, seq<Entry>>)
    : (v: DocValue)
    requires gold.Keys == preds.Keys
    ensures v.plain == plain && v.layers.Keys == gold.Keys
    ensures forall n :: n in v.layers ==> v.layers[n] == LayerValue(gold[n], preds[n])
  {
    DocValue(plain, map n | n in gold :: LayerValue(gold[n], preds[n]))
  }

  /** `Document.fromdict(dct)` once the dependency order of the layers is known: construct the
      document, rebuild gold annotations and predictions layer by layer, then append them. */
  function FromDictSpec(t: DocType, d: PyDict<string, Value>, order: seq<string>)
    : (r: Result<DocValue>)
    ensures r.Success? ==> Conforms(t, r.value)
    ensures Construct(t, Kwargs(t, d)).Failure? ==> r == Construct(t, Kwargs(t, d)).PropagateFailure()
  {
    var plain :- Construct(t, Kwargs(t, d));
    var stores :- Accumulate(t, d, order, [], []);
    AccumulateNames(t, d, order, [], []);
    AppendStores(t, plain, stores.0, stores.1)
  }

  /** `{field_mapping.get(k, k): v for k, v in self.asdict().items()}` */
  function Renamed(d: PyDict<string, Value>, mapping: map<string, string>): PyDict<string, Value> {
    RenameKeys(d, k => if k in mapping then mapping[k] else k)
  }
}
