/** The current document design as objects: a document owns one `AnnotationList` per layer, each
    holding the gold annotations and a parallel `predictions` list; appending to a list sets each
    annotation's `_target`, clearing resets it. `fromdict` rebuilds a whole document from its
    serialised form. */
module CoreDocument {
  import opened Wrappers
  import opened PyLists
  import opened PyDicts
  import opened Annotations
  import opened FieldValues
  import opened CoreModel
  import DependencyGraph

  /** The annotations appended with target `tv`. */
  function Stamped(annotations: seq<Annotation>, tv: TargetValue): (r: seq<Entry>)
    ensures |r| == |annotations|
    ensures forall i :: 0 <= i < |r| ==> r[i] == Entry(annotations[i], tv)
  {
    seq(|annotations|, i requires 0 <= i < |annotations| => Entry(annotations[i], tv))
  }

  /** The entries of a cleared list, each with its target reset to None. */
  function Released(es: seq<Entry>): (r: seq<Entry>)
    ensures |r| == |es|
    ensures forall i :: 0 <= i < |r| ==> r[i] == Entry(es[i].annotation, NoTarget)
  {
    seq(|es|, i requires 0 <= i < |es| => Entry(es[i].annotation, NoTarget))
  }

  /** `BaseAnnotationList`: an ordered list of annotations of one layer of `document`. */
  class BaseAnnotationList {
    const document: Document
    const target: Option<string>
    var entries: seq<Entry>
    /** The layer this list belongs to, and whether it holds its predictions. */
    ghost const slot: (string, bool)

    constructor (document: Document, target: Option<string>, ghost slot: (string, bool))
      ensures this.document == document && this.target == target && entries == []
      ensures this.slot == slot
    {
      this.document := document;
      this.target := target;
      entries := [];
      this.slot := slot;
    }

    /** What `append` stores as each annotation's target. */
    function ResolvedTarget(): Result<TargetValue> {
      ResolveTarget(document.docType, document.plain, target)
    }

    /** `append`: set the annotation's target, then add it at the end. */
    method Append(a: Annotation) returns (r: Outcome)
      modifies this
      ensures r.Pass? <==> ResolvedTarget().Success?
      ensures r.Pass? ==> entries == old(entries) + [Entry(a, ResolvedTarget().value)]
      ensures r.Fail? ==> entries == old(entries) && r.error == ResolvedTarget().error
    {
      var tv := ResolvedTarget();
      if tv.Failure? {
        return Fail(tv.error);
      }
      entries := entries + [Entry(a, tv.value)];
      return Pass;
    }

    /** `extend`: `append` each annotation in turn. */
    method Extend(annotations: seq<Annotation>) returns (r: Outcome)
      modifies this
      ensures ResolvedTarget().Success? ==>
                r.Pass? && entries == old(entries) + Stamped(annotations, ResolvedTarget().value)
      ensures ResolvedTarget().Failure? && annotations != [] ==>
                r == Fail(ResolvedTarget().error) && entries == old(entries)
      ensures annotations == [] ==> r.Pass? && entries == old(entries)
    {
      r := Pass;
      for i := 0 to |annotations|
        invariant r.Pass?
        invariant ResolvedTarget().Success? ==>
                    entries == old(entries) + Stamped(annotations[..i], ResolvedTarget().value)
        invariant ResolvedTarget().Failure? ==> i == 0 && entries == old(entries)
      {
        r := Append(annotations[i]);
        if r.Fail? {
          return;
        }
        assert Stamped(annotations[..i + 1], ResolvedTarget().value)
            == Stamped(annotations[..i], ResolvedTarget().value) + [Entry(annotations[i], ResolvedTarget().value)];
      }
      assert annotations[..|annotations|] == annotations;
    }

    /** `clear`: reset the target of every held annotation, then empty the list. */
    method Clear() returns (released: seq<Entry>)
      modifies this
      ensures entries == []
      ensures released == Released(old(entries))
    {
      released := [];
      for i := 0 to |entries|
        invariant released == Released(entries[..i])
      {
        released := released + [Entry(entries[i].annotation, NoTarget)];
      }
      assert entries[..|entries|] == entries;
      entries := [];
    }

    /** `list[index]` */
    function GetItem(index: int): (r: Result<Entry>)
      reads this
      ensures r.Success? <==> -|entries| <= index < |entries|
      ensures 0 <= index < |entries| ==> r == Success(entries[index])
      ensures -|entries| <= index < 0 ==> r == Success(entries[|entries| + index])
      ensures r.Failure? ==> r.error == IndexError
    {
      GetIndex(entries, index)
    }

    /** `list[start:stop]`: the entries between the two bounds once each is made non-negative and
        clamped to the list, or none when the bounds cross. */
    function GetSlice(start: int, stop: int): (r: seq<Entry>)
      reads this
      ensures ClampBound(start, |entries|) <= ClampBound(stop, |entries|) ==>
                r == entries[ClampBound(start, |entries|)..ClampBound(stop, |entries|)]
      ensures ClampBound(start, |entries|) > ClampBound(stop, |entries|) ==> r == []
      ensures |r| <= |entries|
      ensures forall e :: e in r ==> e in entries
    {
      Slice(entries, start, stop)
    }

    function Len(): nat
      reads this
    {
      |entries|
    }

    /** `__eq__`: the same target name and the same entries in the same order; the entries compare
        their targets too, since `_target` takes part in annotation equality. */
    predicate Equals(other: BaseAnnotationList)
      reads this, other
    {
      target == other.target && entries == other.entries
    }
  }

  /** `AnnotationList`: a layer's gold list together with its parallel `predictions` list. */
  class AnnotationList {
    const gold: BaseAnnotationList
    const predictions: BaseAnnotationList

    constructor (document: Document, target: Option<string>, ghost name: string)
      ensures fresh(gold) && fresh(predictions)
      ensures gold.slot == (name, false) && predictions.slot == (name, true)
      ensures gold.document == document && gold.target == target && gold.entries == []
      ensures predictions.document == document && predictions.target == target
      ensures predictions.entries == []
    {
      gold := new BaseAnnotationList(document, target, (name, false));
      predictions := new BaseAnnotationList(document, target, (name, true));
    }

    /** `__eq__`: the gold lists are equal and the prediction lists are equal. */
    predicate Equals(other: AnnotationList)
      reads gold, predictions, other.gold, other.predictions
    {
      gold.Equals(other.gold) && predictions.Equals(other.predictions)
    }
  }

  /** `list(s)` for a set: its elements once each, in an order the set chooses. */
  method ListOf(s: set<string>) returns (r: seq<string>)
    ensures NoDuplicates(r)
    ensures forall x :: x in r <==> x in s
  {
    r := [];
    var rest := s;
    while rest != {}
      invariant NoDuplicates(r)
      invariant forall x :: x in r <==> x in s && x !in rest
      invariant rest <= s
      decreases rest
    {
      var x :| x in rest;
      r := r + [x];
      rest := rest - {x};
    }
  }

  /** What `__post_init__` has recorded after the field `n`: the layer names, the targets and the
      dependency graph, given what it had recorded before. */
  function Register(t: DocType, s: Registration, n: string): (s': Registration)
    requires n in t.decls
  {
    var decl := t.decls[n];
    if decl.Plain? then s
    else if decl.target.None? then (s.0 + {n}, s.1, s.2)
    else (s.0 + {n}, s.1 + {decl.target.value}, AddEdge(s.2, n, decl.target.value))
  }

  /** Layer names, targets and dependency graph. */
  type Registration = (set<string>, set<string>, DependencyGraph.Graph)

  /** What `__post_init__` has recorded after the first `i` fields of the declaration. */
  function Registered(t: DocType, i: nat): Registration
    requires i <= |t.order|
  {
    if i == 0 then ({}, {}, map[])
    else
      assert t.order[i - 1] in (set n | n in t.order);
      Register(t, Registered(t, i - 1), t.order[i - 1])
  }

  /** After the first `i` fields, the recorded layers are the layers among them. */
  lemma {:induction false} RegisteredLayers(t: DocType, i: nat)
    requires i <= |t.order|
    ensures forall n :: n in Registered(t, i).0 <==> n in t.order[..i] && n in LayerSet(t)
  {
    if i > 0 {
      RegisteredLayers(t, i - 1);
      assert t.order[..i] == t.order[..i - 1] + [t.order[i - 1]];
    }
  }

  /** The next field is declared and has not been recorded yet. */
  lemma RegisteredNext(t: DocType, i: nat)
    requires i < |t.order|
    ensures t.order[i] in t.decls
    ensures t.order[i] !in Registered(t, i).0
  {
    assert t.order[i] in (set n | n in t.order);
    RegisteredLayers(t, i);
    DistinctNoDuplicates(t.order);
    assert t.order[i] !in t.order[..i] by {
      forall j | 0 <= j < i ensures t.order[j] != t.order[i] { }
    }
  }

  /** The targets of the layers among `names`. */
  function TargetsIn(t: DocType, names: set<string>): set<string>
    requires names <= LayerSet(t)
  {
    set n | n in names && TargetOf(t, n).Some? :: TargetOf(t, n).value
  }

  /** After the first `i` fields, the recorded targets are those of the recorded layers. */
  lemma {:induction false} RegisteredTargets(t: DocType, i: nat)
    requires i <= |t.order|
    ensures Registered(t, i).0 <= LayerSet(t)
    ensures Registered(t, i).1 == TargetsIn(t, Registered(t, i).0)
  {
    if i > 0 {
      RegisteredTargets(t, i - 1);
      var n := t.order[i - 1];
      assert n in (set m | m in t.order);
      var s := Registered(t, i - 1);
      if t.decls[n].Layer? {
        assert TargetsIn(t, s.0 + {n})
            == TargetsIn(t, s.0) + (if TargetOf(t, n).Some? then {TargetOf(t, n).value} else {});
      }
    }
  }

  /** After the first `i` fields, the graph holds an edge from each recorded layer that has a
      target, to that target. */
  lemma {:induction false} RegisteredGraph(t: DocType, i: nat)
    requires i <= |t.order|
    ensures Registered(t, i).0 <= LayerSet(t)
    ensures forall n :: n in Registered(t, i).2 <==> n in Registered(t, i).0 && TargetOf(t, n).Some?
    ensures forall n :: n in Registered(t, i).2 ==> Registered(t, i).2[n] == [TargetOf(t, n).value]
  {
    if i > 0 {
      RegisteredGraph(t, i - 1);
      RegisteredNext(t, i - 1);
    }
  }

  /** After all fields: the layer set, the targeted names and the layer graph. */
  lemma AllRegistered(t: DocType)
    ensures Registered(t, |t.order|) == (LayerSet(t), Targeted(t), LayerGraph(t))
  {
    var s := Registered(t, |t.order|);
    RegisteredLayers(t, |t.order|);
    RegisteredTargets(t, |t.order|);
    RegisteredGraph(t, |t.order|);
    assert t.order[..|t.order|] == t.order;
    forall n | n in LayerSet(t) ensures n in t.order {
      assert n in (set m | m in t.order);
    }
    assert s.0 == LayerSet(t);
    assert s.2 == LayerGraph(t);
  }

  /** A document of type `docType`: its plain field values are fixed at construction; its layers,
      the set of layer names and the dependency graph are filled by `__post_init__`. `Golds` and
      `Preds` are the gold lists and the prediction lists the document owns. */
  class Document {
    const docType: DocType
    const plain: map<string, Value>
    var annotationGraph: DependencyGraph.Graph
    var annotationFields: set<string>
    var layers: map<string, AnnotationList>
    ghost var Golds: set<BaseAnnotationList>
    ghost var Preds: set<BaseAnnotationList>

    /** All the lists the document owns. */
    ghost function Repr(): set<BaseAnnotationList>
      reads this`Golds, this`Preds
    {
      Golds + Preds
    }

    /** Layer `n` is declared as a layer, and its two lists are owned, belong to this document, carry
        the declared target and are told apart by their slots. */
    ghost predicate LayerOk(n: string)
      reads this`layers, this`Golds, this`Preds
      requires n in layers
    {
      n in docType.decls && docType.decls[n].Layer? &&
      layers[n].gold in Golds && layers[n].predictions in Preds &&
      layers[n].gold.slot == (n, false) && layers[n].predictions.slot == (n, true) &&
      layers[n].gold.document == this && layers[n].predictions.document == this &&
      layers[n].gold.target == docType.decls[n].target && layers[n].predictions.target == docType.decls[n].target
    }

    /** Every layer is in order, and no list is both a gold list and a prediction list. */
    ghost predicate Linked()
      reads this`layers, this`Golds, this`Preds
    {
      Golds !! Preds && forall n :: n in layers ==> LayerOk(n)
    }

    /** Every layer registered so far is in order and its lists are still empty. */
    ghost predicate Owned()
      reads this`layers, this`Golds, this`Preds, Golds, Preds
    {
      Linked() && forall n :: n in layers ==> LayerOk(n) && layers[n].gold.entries == [] && layers[n].predictions.entries == []
    }

    ghost predicate Valid()
      reads this
    {
      plain.Keys == PlainSet(docType) &&
      annotationFields == LayerSet(docType) &&
      layers.Keys == LayerSet(docType) &&
      ROOT in annotationGraph &&
      annotationGraph == LayerGraph(docType)[ROOT := annotationGraph[ROOT]] &&
      Linked()
    }

    /** The gold list of layer `n`, or its prediction list. */
    function Side(n: string, predictions: bool): BaseAnnotationList
      reads this`layers
      requires n in layers
    {
      if predictions then layers[n].predictions else layers[n].gold
    }

    /** The lists of one side: the gold lists or the prediction lists. */
    ghost function Sides(predictions: bool): set<BaseAnnotationList>
      reads this`Golds, this`Preds
    {
      if predictions then Preds else Golds
    }

    /** The entries of each layer's gold lists, or of its prediction lists. */
    function Lists(predictions: bool): (m: map<string, seq<Entry>>)
      reads this`layers, this`Golds, this`Preds, Sides(predictions)
      requires Linked()
      ensures m.Keys == layers.Keys
    {
      map n | n in layers :: assert LayerOk(n) && Side(n, predictions) in Sides(predictions); Side(n, predictions).entries
    }

    function Value(): (v: DocValue)
      reads this, Golds, Preds
      requires Valid()
      ensures Conforms(docType, v)
    {
      Assemble(plain, Lists(false), Lists(true))
    }

    /** The dataclass `__init__`: plain fields set, the internal fields at their empty defaults. */
    constructor (docType: DocType, plain: map<string, Value>)
      ensures this.docType == docType && this.plain == plain
      ensures annotationGraph == map[] && annotationFields == {} && layers == map[] && Golds == {} && Preds == {}
    {
      this.docType := docType;
      this.plain := plain;
      annotationGraph := map[];
      annotationFields := {};
      layers := map[];
      Golds, Preds := {}, {};
    }

    /** `setattr(self, name, AnnotationList(document=self, target=...))` for the layer `name`. */
    method NewLayer(name: string)
      requires name in docType.decls && docType.decls[name].Layer? && name !in layers
      requires Owned()
      modifies this`layers, this`Golds, this`Preds
      ensures layers.Keys == old(layers.Keys) + {name} && Owned()
      ensures fresh(Repr() - old(Repr()))
    {
      var list := new AnnotationList(this, docType.decls[name].target, name);
      layers := layers[name := list];
      Golds, Preds := Golds + {list.gold}, Preds + {list.predictions};
    }

    /** The body of the loop of `__post_init__` for the field `name`: a layer is recorded in
        `_annotation_fields`, its target in `targeted` and in the dependency graph, and it receives a
        fresh `AnnotationList`; any other field is left alone. */
    method RegisterField(name: string, targeted: set<string>) returns (targeted': set<string>)
      requires name in docType.decls && name !in annotationFields
      requires layers.Keys == annotationFields && Owned()
      modifies this
      ensures (annotationFields, targeted', annotationGraph)
           == Register(docType, (old(annotationFields), targeted, old(annotationGraph)), name)
      ensures layers.Keys == annotationFields && Owned()
      ensures fresh(Repr() - old(Repr()))
    {
      targeted' := targeted;
      if docType.decls[name].Layer? {
        var target := docType.decls[name].target;
        annotationFields := annotationFields + {name};
        if target.Some? {
          targeted' := targeted' + {target.value};
          annotationGraph := AddEdge(annotationGraph, name, target.value);
        }
        NewLayer(name);
      }
    }

    /** The loop of `__post_init__` over the fields. */
    method RegisterLayers() returns (targeted: set<string>)
      requires annotationGraph == map[] && annotationFields == {} && layers == map[] && Golds == {} && Preds == {}
      modifies this
      ensures annotationFields == LayerSet(docType) && layers.Keys == LayerSet(docType)
      ensures targeted == Targeted(docType) && annotationGraph == LayerGraph(docType)
      ensures Owned() && fresh(Repr())
    {
      targeted := {};
      for i := 0 to |docType.order|
        invariant (annotationFields, targeted, annotationGraph) == Registered(docType, i)
        invariant layers.Keys == annotationFields
        invariant Owned() && fresh(Repr())
      {
        RegisteredNext(docType, i);
        targeted := RegisterField(docType.order[i], targeted);
      }
      AllRegistered(docType);
    }

    /** `__post_init__`: register the layers, then add the artificial root above every untargeted
        layer. */
    method PostInit() returns (r: Outcome)
      requires annotationGraph == map[] && annotationFields == {} && layers == map[] && Golds == {} && Preds == {}
      requires plain.Keys == PlainSet(docType)
      modifies this
      ensures r.Fail? <==> RootClash(docType)
      ensures r.Fail? ==> r.error == ValueError(ClashMessage)
      ensures r.Pass? ==> Valid() && Owned() && fresh(Repr()) && IsRootList(docType, annotationGraph[ROOT])
    {
      var targeted := RegisterLayers();
      RootClashIsGraphNode(docType);
      if ROOT in annotationGraph {
        return Fail(ValueError(ClashMessage));
      }
      var root := ListOf(annotationFields - targeted);
      annotationGraph := annotationGraph[ROOT := root];
      return Pass;
    }

    /** `cls(**kwargs)`: the dataclass `__init__` and then `__post_init__`. */
    static method Create(t: DocType, kwargs: map<string, Value>) returns (r: Result<Document>)
      ensures r.Success? <==> Construct(t, kwargs).Success?
      ensures r.Failure? ==> r.error == Construct(t, kwargs).error
      ensures r.Success? ==> fresh(r.value) && fresh(r.value.Repr()) && r.value.Valid() && r.value.Owned()
      ensures r.Success? ==> IsRootList(t, r.value.annotationGraph[ROOT])
      ensures r.Success? ==> r.value.docType == t && r.value.plain == Construct(t, kwargs).value
    {
      var plain := InitPlain(t, kwargs);
      if plain.Failure? {
        return Failure(plain.error);
      }
      var doc := new Document(t, plain.value);
      var o := doc.PostInit();
      if o.Fail? {
        return Failure(o.error);
      }
      return Success(doc);
    }

    /** `doc[key]` */
    function GetItem(key: string): (r: Result<AnnotationList>)
      reads this
      requires Valid()
      ensures r.Failure? <==> key !in LayerSet(docType)
      ensures r.Failure? ==> r.error == KeyError("Document has no attribute '" + key + "'.")
      ensures r.Success? ==> r.value == layers[key]
    {
      if key !in annotationFields then Failure(KeyError("Document has no attribute '" + key + "'."))
      else Success(layers[key])
    }

    /** `iter(doc)`: the layer names. */
    function Iter(): (names: set<string>)
      reads this
      requires Valid()
      ensures names == LayerSet(docType)
    {
      annotationFields
    }

    /** `len(doc)`: the number of layers. */
    function Len(): (n: nat)
      reads this
      requires Valid()
      ensures n == |LayerSet(docType)| == |Iter()|
    {
      |annotationFields|
    }

    /** `doc.asdict()` */
    function AsDict(hash: Annotation -> int): PyDict<string, Value>
      reads this, Golds, Preds
      requires Valid()
    {
      AsDictOf(docType, Value(), hash)
    }

    /** One `getattr(doc, name).append(annotation)` of `fromdict`, on the gold list or on the
        prediction list of layer `name`: it appends to that list alone, or raises when the layer's
        target cannot be resolved. */
    method AppendTo(name: string, a: Annotation, predictions: bool) returns (r: Outcome)
      requires name in layers && name in LayerSet(docType) && Linked()
      modifies Side(name, predictions)
      ensures var tv := ResolveTarget(docType, plain, TargetOf(docType, name));
              (r.Pass? <==> tv.Success?) && (r.Fail? ==> r.error == tv.error) &&
              (r.Pass? ==> Lists(predictions) == old(Lists(predictions))[name := old(Lists(predictions))[name] + [Entry(a, tv.value)]])
      ensures r.Fail? ==> Lists(predictions) == old(Lists(predictions))
    {
      r := Side(name, predictions).Append(a);
      OneChanged((name, predictions));
    }

    /** The append loops of `fromdict`: append each item to the gold list (or the prediction list)
        of the layer it names. */
    method AppendAll(items: seq<(string, Annotation)>, predictions: bool) returns (r: Outcome)
      requires Linked() && layers.Keys == LayerSet(docType)
      requires forall i :: 0 <= i < |items| ==> items[i].0 in LayerSet(docType)
      modifies Sides(predictions)
      ensures var spec := AppendEntries(docType, plain, items, old(Lists(predictions)));
              (r.Pass? <==> spec.Success?) && (r.Fail? ==> r.error == spec.error) &&
              (r.Pass? ==> Lists(predictions) == spec.value)
      ensures Linked()
    {
      ghost var spec := AppendEntries(docType, plain, items, Lists(predictions));
      for i := 0 to |items|
        invariant spec == AppendEntries(docType, plain, items[i..], Lists(predictions))
      {
        assert items[i..][0] == items[i] && items[i..][1..] == items[i + 1..];
        assert LayerOk(items[i].0);
        r := AppendTo(items[i].0, items[i].1, predictions);
        if r.Fail? {
          return;
        }
      }
      r := Pass;
    }

    /** A freshly created document has empty lists on both sides. */
    lemma EmptyLists(predictions: bool)
      requires Valid() && Owned()
      ensures Lists(predictions) == EmptyLayers(docType)
    {
      forall n | n in layers ensures Lists(predictions)[n] == [] {
        assert LayerOk(n);
      }
    }

    /** Changing only the list of layer `s.0` on side `s.1` changes only that entry of that side. */
    twostate lemma OneChanged(s: (string, bool))
      requires old(Linked()) && unchanged(this) && s.0 in old(layers)
      requires forall l :: l in old(Sides(s.1)) && l != old(Side(s.0, s.1)) ==> l.entries == old(l.entries)
      ensures Linked() && Lists(s.1) == old(Lists(s.1))[s.0 := Side(s.0, s.1).entries]
    {
      forall n | n in layers && n != s.0 ensures Side(n, s.1).entries == old(Side(n, s.1).entries) {
        assert old(LayerOk(n)) && old(LayerOk(s.0));
        var l := old(Side(n, s.1));
        assert l in old(Sides(s.1)) && l.slot != old(Side(s.0, s.1)).slot;
        assert Side(n, s.1) == l;
      }
    }

    /** Changing only the lists of one side leaves the entries of the other side as they were. */
    twostate lemma OtherSide(predictions: bool)
      requires old(Linked()) && unchanged(this)
      requires forall l :: l in old(Sides(!predictions)) ==> l.entries == old(l.entries)
      ensures Linked() && Lists(!predictions) == old(Lists(!predictions))
    {
    }

    /** The final loops of `fromdict`, appending the rebuilt gold annotations and then the rebuilt
        predictions. */
    method Populate(gold: Store, preds: Store) returns (r: Outcome)
      requires Valid() && Owned()
      requires NamesIn(gold, LayerSet(docType)) && NamesIn(preds, LayerSet(docType))
      modifies Golds, Preds
      ensures var spec := AppendStores(docType, plain, gold, preds);
              (r.Pass? <==> spec.Success?) && (r.Fail? ==> r.error == spec.error) &&
              (r.Pass? ==> Value() == spec.value)
    {
      EmptyLists(false);
      EmptyLists(true);
      ValuesNames(gold, LayerSet(docType));
      ValuesNames(preds, LayerSet(docType));
      r := AppendAll(Values(gold), false);
      if r.Fail? {
        return;
      }
      OtherSide(false);
      label Between:
      r := AppendAll(Values(preds), true);
      OtherSide@Between(true);
    }

    /** `Document.fromdict(dct)`. `root` is the list `__post_init__` stored under the artificial root
        and `order` the dependency order of the layers. */
    static method FromDict(t: DocType, d: PyDict<string, Value>)
        returns (r: Result<Document>, ghost root: seq<string>, ghost order: seq<string>)
      ensures Construct(t, Kwargs(t, d)).Failure? ==> r.Failure? && r.error == Construct(t, Kwargs(t, d)).error
      ensures Construct(t, Kwargs(t, d)).Success? ==> IsRootList(t, root)
      ensures Construct(t, Kwargs(t, d)).Success? && (exists w :: Cycle(t, root, w)) ==>
                r.Failure? && exists n :: r.error == ValueError(DependencyGraph.CycleMessage(n))
      ensures Construct(t, Kwargs(t, d)).Success? && (forall w :: !Cycle(t, root, w)) ==>
                Ordered(t, root, order) && Matches(t, d, order, r)
      ensures r.Success? ==> fresh(r.value) && fresh(r.value.Repr()) && r.value.Valid()
    {
      var kwargs := CollectKwargs(t, d, INTERNAL_FIELDS);
      var created := Create(t, kwargs);
      if created.Failure? {
        return Failure(created.error), [], [];
      }
      var doc := created.value;
      var rootList := doc.annotationGraph[ROOT];
      root := rootList;
      assert doc.annotationGraph == RootedGraph(t, root);
      var enumerated := DependencyGraph.Enumerate(doc.annotationGraph, rootList);
      if enumerated.Failure? {
        ghost var w :| DependencyGraph.Revisits(doc.annotationGraph, rootList, {}, w);
        assert Cycle(t, root, w);
        return Failure(enumerated.error), root, [];
      }
      var layerOrder := enumerated.value;
      order := layerOrder;
      r := Rebuild(t, d, doc, layerOrder);
    }

    /** The rest of `fromdict` once the document is constructed and the order is known: rebuild the
        annotations layer by layer and append them to the new document. */
    static method Rebuild(t: DocType, d: PyDict<string, Value>, doc: Document, order: seq<string>)
        returns (r: Result<Document>)
      requires doc.Valid() && doc.Owned() && doc.docType == t
      requires Construct(t, Kwargs(t, d)).Success? && doc.plain == Construct(t, Kwargs(t, d)).value
      modifies doc.Golds, doc.Preds
      ensures Matches(t, d, order, r)
      ensures r.Success? ==> r.value == doc
    {
      FromDictSteps(t, d, order);
      var stores := Accumulated(t, d, order);
      if stores.Failure? {
        return Failure(stores.error);
      }
      AccumulateNames(t, d, order, [], []);
      var o := doc.Populate(stores.value.0, stores.value.1);
      if o.Fail? {
        return Failure(o.error);
      }
      return Success(doc);
    }

    /** `doc.as_type(new_type, field_mapping)`: rename the serialised fields and deserialise them under
        the new type. */
    method AsType(newType: DocType, mapping: map<string, string>, hash: Annotation -> int)
        returns (r: Result<Document>, ghost renamed: PyDict<string, Value>, ghost root: seq<string>,
                 ghost order: seq<string>)
      requires Valid()
      ensures renamed == Renamed(old(AsDict(hash)), mapping)
      ensures Construct(newType, Kwargs(newType, renamed)).Failure? ==>
                r.Failure? && r.error == Construct(newType, Kwargs(newType, renamed)).error
      ensures Construct(newType, Kwargs(newType, renamed)).Success? ==> IsRootList(newType, root)
      ensures Construct(newType, Kwargs(newType, renamed)).Success? && (exists w :: Cycle(newType, root, w)) ==>
                r.Failure? && exists n :: r.error == ValueError(DependencyGraph.CycleMessage(n))
      ensures Construct(newType, Kwargs(newType, renamed)).Success? && (forall w :: !Cycle(newType, root, w)) ==>
                Ordered(newType, root, order) && Matches(newType, renamed, order, r)
      ensures r.Success? ==> fresh(r.value) && fresh(r.value.Repr()) && r.value.Valid()
    {
      var d := Renamed(AsDict(hash), mapping);
      renamed := d;
      r, root, order := FromDict(newType, d);
    }
  }

  /** `graph.setdefault(node, []).append(target)`, as `__post_init__` spells it out. */
  function AddEdge(graph: DependencyGraph.Graph, node: string, target: string): (g: DependencyGraph.Graph)
    ensures node in graph ==> g == graph[node := graph[node] + [target]]
    ensures node !in graph ==> g == graph[node := [target]]
  {
    var g := if node !in graph then graph[node := []] else graph;
    assert g[node] + [target] == if node in graph then graph[node] + [target] else [target];
    g[node := g[node] + [target]]
  }

  /** The graph `__post_init__` leaves: the layer edges and the root list under the artificial root. */
  function RootedGraph(t: DocType, root: seq<string>): DependencyGraph.Graph {
    LayerGraph(t)[ROOT := root]
  }

  /** `w` is a walk from the root list that runs into a cycle. */
  ghost predicate Cycle(t: DocType, root: seq<string>, w: seq<string>) {
    DependencyGraph.Revisits(RootedGraph(t, root), root, {}, w)
  }

  /** The order `_enumerate_dependencies` produced from the root list: every layer after its
      dependencies, each once, and the root layers among them. */
  ghost predicate Ordered(t: DocType, root: seq<string>, order: seq<string>) {
    DependencyGraph.Sorted(RootedGraph(t, root), order) && NoDuplicates(order) &&
    forall n :: n in root ==> n in order
  }

  /** `FromDictSpec` on a constructible document, one outcome per stage. */
  lemma FromDictSteps(t: DocType, d: PyDict<string, Value>, order: seq<string>)
    requires Construct(t, Kwargs(t, d)).Success?
    ensures var a := Accumulate(t, d, order, [], []);
            a.Success? ==> NamesIn(a.value.0, LayerSet(t)) && NamesIn(a.value.1, LayerSet(t))
    ensures var a := Accumulate(t, d, order, [], []);
            FromDictSpec(t, d, order) ==
              if a.Failure? then Failure(a.error)
              else AppendStores(t, Construct(t, Kwargs(t, d)).value, a.value.0, a.value.1)
  {
    if Accumulate(t, d, order, [], []).Success? {
      AccumulateNames(t, d, order, [], []);
    }
  }

  /** The outcome of `fromdict` is the one `FromDictSpec` describes for that order. */
  ghost predicate Matches(t: DocType, d: PyDict<string, Value>, order: seq<string>, r: Result<Document>)
    reads if r.Success? then {r.value} else {}, if r.Success? then r.value.Golds + r.value.Preds else {}
  {
    (r.Success? <==> FromDictSpec(t, d, order).Success?) &&
    (r.Success? ==> r.value.Valid() && r.value.docType == t &&
                    r.value.Value() == FromDictSpec(t, d, order).value) &&
    (r.Failure? ==> r.error == FromDictSpec(t, d, order).error)
  }

  /** The loop that collects `cls_kwargs` over `dataclasses.fields(cls)`: the inherited `init=False`
      fields `internal` first, then the declared ones; the layers are skipped. */
  method CollectKwargs(t: DocType, d: PyDict<string, Value>, internal: seq<string>)
      returns (kwargs: map<string, Value>)
    ensures kwargs == FieldKwargs(t, d, internal)
  {
    kwargs := map[];
    var fields := internal + t.order;
    for i := 0 to |fields|
      invariant forall n :: n in kwargs <==>
                  n in fields[..i] && KwargName(t, internal, n) && Get(d, n).Some? && Get(d, n).value != NoneV
      invariant forall n :: n in kwargs ==> kwargs[n] == Get(d, n).value
    {
      var name := fields[i];
      assert fields[..i + 1] == fields[..i] + [name];
      assert i >= |internal| ==> name == t.order[i - |internal|] && name in t.decls;
      if name in internal || (name in t.decls && t.decls[name].Plain?) {
        var value := Get(d, name).GetOr(NoneV);
        if value != NoneV {
          kwargs := kwargs[name := value];
        }
      }
    }
    assert fields[..|fields|] == fields;
    assert forall n :: KwargName(t, internal, n) ==> n in fields;
    assert kwargs.Keys == FieldKwargs(t, d, internal).Keys;
  }

  /** The loop over one layer's `annotations`. */
  method RebuildGold(name: string, c: AnnotationClass, recs: seq<AnnotationDict>, gold: Store)
      returns (r: Result<Store>)
    ensures r == AddGold(name, c, recs, gold)
  {
    var acc := gold;
    for j := 0 to |recs|
      invariant AddGold(name, c, recs, gold) == AddGold(name, c, recs[j..], acc)
    {
      assert recs[j..][0] == recs[j] && recs[j..][1..] == recs[j + 1..];
      var a := BuildAs(c, recs[j].fields, acc);
      if a.Failure? {
        return Failure(a.error);
      }
      acc := Put(acc, recs[j].id, (name, a.value));
    }
    return Success(acc);
  }

  /** The loop over one layer's `predictions`. */
  method RebuildPredictions(name: string, c: AnnotationClass, recs: seq<AnnotationDict>, gold: Store,
                            preds: Store) returns (r: Result<Store>)
    ensures r == AddPredictions(name, c, recs, gold, preds)
  {
    var acc := preds;
    for j := 0 to |recs|
      invariant AddPredictions(name, c, recs, gold, preds) == AddPredictions(name, c, recs[j..], gold, acc)
    {
      assert recs[j..][0] == recs[j] && recs[j..][1..] == recs[j + 1..];
      var a := BuildAs(c, recs[j].fields, Merge(gold, acc));
      if a.Failure? {
        return Failure(a.error);
      }
      acc := Put(acc, recs[j].id, (name, a.value));
    }
    return Success(acc);
  }

  /** The loop over the dependency-ordered layer names that fills `annotations` and `predictions`. */
  method Accumulated(t: DocType, d: PyDict<string, Value>, order: seq<string>)
      returns (r: Result<(Store, Store)>)
    ensures r == Accumulate(t, d, order, [], [])
  {
    var gold: Store := [];
    var preds: Store := [];
    for i := 0 to |order|
      invariant Accumulate(t, d, order, [], []) == Accumulate(t, d, order[i..], gold, preds)
    {
      var name := order[i];
      assert order[i..][0] == name && order[i..][1..] == order[i + 1..];
      if name !in LayerSet(t) {
        continue;
      }
      var value := Get(d, name).GetOr(NoneV);
      if !Truthy(value) {
        continue;
      }
      if !value.LayerV? {
        return Failure(TypeError("layer value is not an annotations mapping"));
      }
      var g := RebuildGold(name, t.decls[name].cls, value.annotations, gold);
      if g.Failure? {
        return Failure(g.error);
      }
      var p := RebuildPredictions(name, t.decls[name].cls, value.predictions, g.value, preds);
      if p.Failure? {
        return Failure(p.error);
      }
      gold, preds := g.value, p.value;
    }
    return Success((gold, preds));
  }
}
