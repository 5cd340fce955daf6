/** `Document.fromdict(document.asdict())` gives the document back. This is the round trip the current
    document design promises. It is proved on document values, for a dependency order of the layers
    that lists every layer. `fromdict` keeps the annotations it rebuilt in two dicts keyed by id, in
    the order it met them. Here those dicts are the annotations of the layers in that order, each
    tagged with its layer's name and indexed by its hash. */
module CoreRoundTrip {
  import opened Wrappers
  import opened PyLists
  import opened PyDicts
  import opened Annotations
  import opened FieldValues
  import opened CoreModel
  import DependencyGraph
  import CoreDocument

  /** An accumulated annotation with the name of the layer it belongs to. */
  type Item = (string, Annotation)

  /** A layer's gold annotations, or its predictions. */
  function Entries(v: DocValue, n: string, predictions: bool): seq<Entry>
    requires n in v.layers
  {
    if predictions then v.layers[n].predictions else v.layers[n].gold
  }

  /** `a` is one of the annotations of `es`. */
  predicate In(es: seq<Entry>, a: Annotation) {
    exists j :: 0 <= j < |es| && es[j].annotation == a
  }

  // ---------------------------------------------------------------------------------------------
  // What the round trip needs of a document

  /** A plain field whose value `asdict` writes as None (None itself, or an empty dict) has that value
      as its default, so the constructor gives it back. */
  predicate PlainRestorable(t: DocType, v: DocValue)
    requires Conforms(t, v)
  {
    forall n :: n in PlainSet(t) && (v.plain[n] == NoneV || v.plain[n] == DictV(map[])) ==>
      t.decls[n].default == Some(v.plain[n])
  }

  /** Every annotation holds the target that `append` gives annotations of its layer. */
  predicate TargetsResolved(t: DocType, v: DocValue)
    requires Conforms(t, v)
  {
    forall n, p, i :: n in LayerSet(t) && 0 <= i < |Entries(v, n, p)| ==>
      ResolveTarget(t, v.plain, TargetOf(t, n)) == Success(Entries(v, n, p)[i].target)
  }

  /** Every annotation is of the class its layer declares. */
  predicate LayersOfClass(t: DocType, v: DocValue)
    requires Conforms(t, v)
  {
    forall n, p, i :: n in LayerSet(t) && 0 <= i < |Entries(v, n, p)| ==>
      OfClass(Entries(v, n, p)[i].annotation, t.decls[n].cls)
  }

  /** A relation of layer `n` refers to annotations of the layer `n` targets: a gold relation to its
      gold annotations, a predicted relation to its gold annotations or its predictions. */
  predicate RefersToTarget(t: DocType, v: DocValue, n: string, a: Annotation, predictions: bool)
    requires Conforms(t, v) && n in LayerSet(t) && a.BinaryRelation?
  {
    TargetOf(t, n).Some? && TargetOf(t, n).value in LayerSet(t) &&
    var m := TargetOf(t, n).value;
    (In(v.layers[m].gold, a.head) || (predictions && In(v.layers[m].predictions, a.head))) &&
    (In(v.layers[m].gold, a.tail) || (predictions && In(v.layers[m].predictions, a.tail)))
  }

  predicate RelationsTargeted(t: DocType, v: DocValue)
    requires Conforms(t, v)
  {
    forall n, p, i :: n in LayerSet(t) && 0 <= i < |Entries(v, n, p)| &&
                      Entries(v, n, p)[i].annotation.BinaryRelation? ==>
      RefersToTarget(t, v, n, Entries(v, n, p)[i].annotation, p)
  }

  /** On one side (gold or predictions), two annotations have the same id (hash) only if they are
      the same entry of the same layer. */
  predicate DistinctIds(t: DocType, v: DocValue, hash: Annotation -> int, predictions: bool)
    requires Conforms(t, v)
  {
    forall n, m, i, j ::
      n in LayerSet(t) && m in LayerSet(t) &&
      0 <= i < |Entries(v, n, predictions)| && 0 <= j < |Entries(v, m, predictions)| &&
      hash(Entries(v, n, predictions)[i].annotation) == hash(Entries(v, m, predictions)[j].annotation)
      ==> n == m && i == j
  }

  /** A gold annotation and a prediction have the same id only if they are equal. */
  predicate IdsAcrossSides(t: DocType, v: DocValue, hash: Annotation -> int)
    requires Conforms(t, v)
  {
    forall n, m, i, j ::
      n in LayerSet(t) && m in LayerSet(t) &&
      0 <= i < |v.layers[n].gold| && 0 <= j < |v.layers[m].predictions| &&
      hash(v.layers[n].gold[i].annotation) == hash(v.layers[m].predictions[j].annotation)
      ==> v.layers[n].gold[i].annotation == v.layers[m].predictions[j].annotation
  }

  // ---------------------------------------------------------------------------------------------
  // The accumulated items

  /** The items of one layer. */
  function Tag(n: string, es: seq<Entry>): seq<Item> {
    seq(|es|, i requires 0 <= i < |es| => (n, es[i].annotation))
  }

  /** What one name of the order contributes: nothing for a plain field. */
  function Block(t: DocType, v: DocValue, n: string, predictions: bool): seq<Item>
    requires Conforms(t, v)
  {
    if n in LayerSet(t) then Tag(n, Entries(v, n, predictions)) else []
  }

  /** The items of the layers among `names`, in that order. */
  function Items(t: DocType, v: DocValue, names: seq<string>, predictions: bool): seq<Item>
    requires Conforms(t, v)
    decreases |names|
  {
    if names == [] then []
    else Items(t, v, names[..|names| - 1], predictions) + Block(t, v, names[|names| - 1], predictions)
  }

  /** The store holding `items` under their ids. */
  function Indexed(items: seq<Item>, hash: Annotation -> int): Store {
    seq(|items|, i requires 0 <= i < |items| => (hash(items[i].1), items[i]))
  }

  /** No two items have the same id. */
  predicate Keyed(items: seq<Item>, hash: Annotation -> int) {
    forall i, j :: 0 <= i < j < |items| ==> hash(items[i].1) != hash(items[j].1)
  }

  /** Items with the same id hold the same annotation. */
  predicate Injective(items: seq<Item>, hash: Annotation -> int) {
    forall i, j :: 0 <= i < |items| && 0 <= j < |items| && hash(items[i].1) == hash(items[j].1) ==>
      items[i].1 == items[j].1
  }

  /** `a` is the annotation of one of the items. */
  predicate Holds(items: seq<Item>, a: Annotation) {
    exists i :: 0 <= i < |items| && items[i].1 == a
  }

  lemma {:induction false} HoldsGrow(x: seq<Item>, y: seq<Item>, a: Annotation)
    requires Holds(x, a) || Holds(y, a)
    ensures Holds(x + y, a)
  {
    if Holds(x, a) {
      var i :| 0 <= i < |x| && x[i].1 == a;
      assert (x + y)[i] == x[i];
    } else {
      var i :| 0 <= i < |y| && y[i].1 == a;
      assert (x + y)[|x| + i] == y[i];
    }
  }

  lemma {:induction false} KeyedPrefix(x: seq<Item>, y: seq<Item>, hash: Annotation -> int)
    requires x <= y && Keyed(y, hash)
    ensures Keyed(x, hash)
  {
    forall i, j | 0 <= i < j < |x| ensures hash(x[i].1) != hash(x[j].1) {
      assert x[i] == y[i] && x[j] == y[j];
    }
  }

  /** Injectivity carries over to prefixes of both parts. */
  lemma {:induction false} InjectivePrefixes(a: seq<Item>, b: seq<Item>, a': seq<Item>, b': seq<Item>, hash: Annotation -> int)
    requires a <= a' && b <= b' && Injective(a' + b', hash)
    ensures Injective(a + b, hash)
  {
    var all, all' := a + b, a' + b';
    forall i | 0 <= i < |all| ensures all[i] == all'[if i < |a| then i else |a'| + i - |a|] {
      if i >= |a| {
        assert all[i] == b[i - |a|] == b'[i - |a|];
      }
    }
  }

  /** The ids of a store built from distinct ids are distinct, and it holds each item under its id. */
  lemma {:induction false} IndexedStores(items: seq<Item>, hash: Annotation -> int, a: Annotation)
    requires Keyed(items, hash) && Holds(items, a)
    ensures Valid(Indexed(items, hash)) && Stores(Indexed(items, hash), a, hash)
  {
    IndexedValid(items, hash);
    var i :| 0 <= i < |items| && items[i].1 == a;
    GetAt(Indexed(items, hash), i);
  }

  lemma {:induction false} IndexedValid(items: seq<Item>, hash: Annotation -> int)
    requires Keyed(items, hash)
    ensures Valid(Indexed(items, hash))
  {
    var s := Indexed(items, hash);
    assert forall i :: 0 <= i < |s| ==> Keys(s)[i] == hash(items[i].1);
  }

  lemma {:induction false} ValuesIndexed(items: seq<Item>, hash: Annotation -> int)
    ensures Values(Indexed(items, hash)) == items
  {
  }

  /** `{**annotations, **predictions}` holds every annotation of either store under its id. */
  lemma {:induction false} MergeStores(gs: seq<Item>, ps: seq<Item>, hash: Annotation -> int, a: Annotation)
    requires Keyed(gs, hash) && Keyed(ps, hash) && Injective(gs + ps, hash) && Holds(gs + ps, a)
    ensures Stores(Merge(Indexed(gs, hash), Indexed(ps, hash)), a, hash)
  {
    var pi := Indexed(ps, hash);
    IndexedValid(ps, hash);
    MergeGet(Indexed(gs, hash), pi, hash(a));
    var all := gs + ps;
    var k :| 0 <= k < |all| && all[k].1 == a;
    if hash(a) in Keys(pi) {
      var i :| 0 <= i < |pi| && Keys(pi)[i] == hash(a);
      assert all[|gs| + i] == ps[i];
      IndexedStores(ps, hash, a);
    } else {
      forall i | 0 <= i < |ps| ensures ps[i].1 != a {
        assert Keys(pi)[i] == hash(ps[i].1);
      }
      assert k < |gs|;
      assert gs[k] == all[k];
      IndexedStores(gs, hash, a);
    }
  }

  /** A record built by `asdict` from an annotation of a class is rebuilt by that class's
      `fromdict`, once a relation's head and tail are stored. */
  lemma {:induction false} Rebuild(a: Annotation, c: AnnotationClass, store: Store, hash: Annotation -> int)
    requires OfClass(a, c)
    requires a.BinaryRelation? ==> Stores(store, a.head, hash) && Stores(store, a.tail, hash)
    ensures BuildAs(c, Fields(a, hash), store) == Success(a)
  {
    assert RecordOfClass(Fields(a, hash), c);
    AnnotationRoundTrip(a, store, hash);
  }

  /** Each relation among `es` refers to annotations the items hold. */
  predicate RefsIn(es: seq<Entry>, items: seq<Item>) {
    forall j :: 0 <= j < |es| && es[j].annotation.BinaryRelation? ==>
      Holds(items, es[j].annotation.head) && Holds(items, es[j].annotation.tail)
  }

  lemma {:induction false} RefsGrow(es: seq<Entry>, items: seq<Item>, more: seq<Item>)
    requires es != [] && RefsIn(es, items)
    ensures RefsIn(es[1..], items + more)
  {
    forall j | 0 <= j < |es[1..]| && es[1..][j].annotation.BinaryRelation?
      ensures Holds(items + more, es[1..][j].annotation.head) && Holds(items + more, es[1..][j].annotation.tail)
    {
      assert es[1..][j] == es[j + 1];
      HoldsGrow(items, more, es[j + 1].annotation.head);
      HoldsGrow(items, more, es[j + 1].annotation.tail);
    }
  }

  /** Adding `(n, a)` under a new id appends it. */
  lemma {:induction false} PutItem(base: seq<Item>, item: Item, rest: seq<Item>, hash: Annotation -> int)
    requires Keyed(base + [item] + rest, hash)
    ensures Put(Indexed(base, hash), hash(item.1), item) == Indexed(base + [item], hash)
  {
    var all := base + [item] + rest;
    assert hash(item.1) !in Keys(Indexed(base, hash)) by {
      forall i | 0 <= i < |base| ensures Keys(Indexed(base, hash))[i] != hash(item.1) {
        assert all[i] == base[i] && all[|base|] == item;
      }
    }
    PutNew(Indexed(base, hash), hash(item.1), item);
  }

  lemma {:induction false} TailOfClass(es: seq<Entry>, c: AnnotationClass)
    requires es != [] && forall j :: 0 <= j < |es| ==> OfClass(es[j].annotation, c)
    ensures OfClass(es[0].annotation, c) && forall j :: 0 <= j < |es[1..]| ==> OfClass(es[1..][j].annotation, c)
  {
    forall j | 0 <= j < |es[1..]| ensures OfClass(es[1..][j].annotation, c) {
      assert es[1..][j] == es[j + 1];
    }
  }

  /** One iteration of the gold loop, once its annotation is rebuilt. */
  lemma {:induction false} AddGoldUnfold(n: string, c: AnnotationClass, recs: seq<AnnotationDict>,
                                         gold: Store, a: Annotation)
    requires recs != [] && BuildAs(c, recs[0].fields, gold) == Success(a)
    ensures AddGold(n, c, recs, gold) == AddGold(n, c, recs[1..], Put(gold, recs[0].id, (n, a)))
  {
  }

  /** One iteration of the prediction loop, once its annotation is rebuilt. */
  lemma {:induction false} AddPredictionsUnfold(n: string, c: AnnotationClass, recs: seq<AnnotationDict>,
                                                gold: Store, preds: Store, a: Annotation)
    requires recs != [] && BuildAs(c, recs[0].fields, Merge(gold, preds)) == Success(a)
    ensures AddPredictions(n, c, recs, gold, preds) ==
            AddPredictions(n, c, recs[1..], gold, Put(preds, recs[0].id, (n, a)))
  {
  }

  /** The first iteration of the gold loop stores the first annotation under its id. */
  lemma {:induction false} GoldStep(n: string, c: AnnotationClass, es: seq<Entry>, base: seq<Item>,
                                    hash: Annotation -> int)
    requires es != [] && OfClass(es[0].annotation, c)
    requires Keyed(base + Tag(n, es), hash) && RefsIn(es, base)
    ensures AddGold(n, c, Records(es, hash), Indexed(base, hash)) ==
            AddGold(n, c, Records(es[1..], hash), Indexed(base + [(n, es[0].annotation)], hash))
  {
    var a := es[0].annotation;
    GoldRebuilt(n, c, es, base, hash);
    AddGoldUnfold(n, c, Records(es, hash), Indexed(base, hash), a);
    TagStep(n, es, base);
    PutItem(base, (n, a), Tag(n, es[1..]), hash);
    assert Records(es, hash)[1..] == Records(es[1..], hash);
  }

  /** The first gold record rebuilds its annotation against the store of the items before it. */
  lemma {:induction false} GoldRebuilt(n: string, c: AnnotationClass, es: seq<Entry>, base: seq<Item>,
                                       hash: Annotation -> int)
    requires es != [] && OfClass(es[0].annotation, c)
    requires Keyed(base + Tag(n, es), hash) && RefsIn(es, base)
    ensures BuildAs(c, Records(es, hash)[0].fields, Indexed(base, hash)) == Success(es[0].annotation)
  {
    var a := es[0].annotation;
    TagStep(n, es, base);
    KeyedPrefix(base, base + Tag(n, es), hash);
    if a.BinaryRelation? {
      IndexedStores(base, hash, a.head);
      IndexedStores(base, hash, a.tail);
    }
    Rebuild(a, c, Indexed(base, hash), hash);
  }

  /** The gold loop of one layer rebuilds its annotations and stores each under its id. */
  lemma {:induction false} AddGoldIndexed(n: string, c: AnnotationClass, es: seq<Entry>, base: seq<Item>,
                                          hash: Annotation -> int)
    requires forall j :: 0 <= j < |es| ==> OfClass(es[j].annotation, c)
    requires Keyed(base + Tag(n, es), hash) && RefsIn(es, base)
    ensures AddGold(n, c, Records(es, hash), Indexed(base, hash)) == Success(Indexed(base + Tag(n, es), hash))
    decreases |es|
  {
    if es == [] {
      assert base + Tag(n, es) == base;
    } else {
      var base' := base + [(n, es[0].annotation)];
      GoldStep(n, c, es, base, hash);
      TailOfClass(es, c);
      TagStep(n, es, base);
      RefsGrow(es, base, [(n, es[0].annotation)]);
      AddGoldIndexed(n, c, es[1..], base', hash);
    }
  }

  /** The first iteration of the prediction loop stores the first prediction under its id. */
  lemma {:induction false} PredictionStep(n: string, c: AnnotationClass, es: seq<Entry>,
                                          gs: seq<Item>, base: seq<Item>, hash: Annotation -> int)
    requires es != [] && OfClass(es[0].annotation, c)
    requires Keyed(gs, hash) && Keyed(base + Tag(n, es), hash)
    requires Injective(gs + (base + Tag(n, es)), hash) && RefsIn(es, gs + base)
    ensures AddPredictions(n, c, Records(es, hash), Indexed(gs, hash), Indexed(base, hash)) ==
            AddPredictions(n, c, Records(es[1..], hash), Indexed(gs, hash),
                           Indexed(base + [(n, es[0].annotation)], hash))
  {
    var a := es[0].annotation;
    PredictionRebuilt(n, c, es, gs, base, hash);
    AddPredictionsUnfold(n, c, Records(es, hash), Indexed(gs, hash), Indexed(base, hash), a);
    TagStep(n, es, base);
    PutItem(base, (n, a), Tag(n, es[1..]), hash);
    assert Records(es, hash)[1..] == Records(es[1..], hash);
  }

  /** The first prediction record rebuilds its annotation against the gold store merged with the
      store of the predictions before it. */
  lemma {:induction false} PredictionRebuilt(n: string, c: AnnotationClass, es: seq<Entry>,
                                             gs: seq<Item>, base: seq<Item>, hash: Annotation -> int)
    requires es != [] && OfClass(es[0].annotation, c)
    requires Keyed(gs, hash) && Keyed(base + Tag(n, es), hash)
    requires Injective(gs + (base + Tag(n, es)), hash) && RefsIn(es, gs + base)
    ensures BuildAs(c, Records(es, hash)[0].fields, Merge(Indexed(gs, hash), Indexed(base, hash))) ==
            Success(es[0].annotation)
  {
    var a := es[0].annotation;
    TagStep(n, es, base);
    KeyedPrefix(base, base + Tag(n, es), hash);
    if a.BinaryRelation? {
      assert Holds(gs + base, a.head) && Holds(gs + base, a.tail);
      MergedReferences(gs, base, base + Tag(n, es), hash, a);
    }
    Rebuild(a, c, Merge(Indexed(gs, hash), Indexed(base, hash)), hash);
  }

  /** The merged store holds the head and tail of a relation that the gold items and the
      predictions so far hold. */
  lemma {:induction false} MergedReferences(gs: seq<Item>, base: seq<Item>, whole: seq<Item>,
                                            hash: Annotation -> int, a: Annotation)
    requires a.BinaryRelation? && base <= whole
    requires Keyed(gs, hash) && Keyed(base, hash) && Injective(gs + whole, hash)
    requires Holds(gs + base, a.head) && Holds(gs + base, a.tail)
    ensures Stores(Merge(Indexed(gs, hash), Indexed(base, hash)), a.head, hash)
    ensures Stores(Merge(Indexed(gs, hash), Indexed(base, hash)), a.tail, hash)
  {
    InjectivePrefixes(gs, base, gs, whole, hash);
    MergeStores(gs, base, hash, a.head);
    MergeStores(gs, base, hash, a.tail);
  }

  lemma {:induction false} TagStep(n: string, es: seq<Entry>, base: seq<Item>)
    requires es != []
    ensures base + Tag(n, es) == (base + [(n, es[0].annotation)]) + Tag(n, es[1..])
  {
  }

  lemma {:induction false} PredictionRefsGrow(es: seq<Entry>, gs: seq<Item>, base: seq<Item>, item: Item)
    requires es != [] && RefsIn(es, gs + base)
    ensures RefsIn(es[1..], gs + (base + [item]))
  {
    RefsGrow(es, gs + base, [item]);
    assert gs + base + [item] == gs + (base + [item]);
  }

  /** The prediction loop of one layer rebuilds its predictions against the gold annotations and
      the predictions so far, and stores each under its id. */
  lemma {:induction false} AddPredictionsIndexed(n: string, c: AnnotationClass, es: seq<Entry>,
                                                 gs: seq<Item>, base: seq<Item>, hash: Annotation -> int)
    requires forall j :: 0 <= j < |es| ==> OfClass(es[j].annotation, c)
    requires Keyed(gs, hash) && Keyed(base + Tag(n, es), hash)
    requires Injective(gs + (base + Tag(n, es)), hash) && RefsIn(es, gs + base)
    ensures AddPredictions(n, c, Records(es, hash), Indexed(gs, hash), Indexed(base, hash)) ==
            Success(Indexed(base + Tag(n, es), hash))
    decreases |es|
  {
    if es == [] {
      assert base + Tag(n, es) == base;
    } else {
      var base' := base + [(n, es[0].annotation)];
      PredictionStep(n, c, es, gs, base, hash);
      TagStep(n, es, base);
      PredictionRefsGrow(es, gs, base, (n, es[0].annotation));
      TailOfClass(es, c);
      AddPredictionsIndexed(n, c, es[1..], gs, base', hash);
    }
  }

  // ---------------------------------------------------------------------------------------------
  // Facts about the items of a document

  lemma {:induction false} ItemsPrefix(t: DocType, v: DocValue, names: seq<string>, k: nat, p: bool)
    requires Conforms(t, v) && k <= |names|
    ensures Items(t, v, names[..k], p) <= Items(t, v, names, p)
    decreases |names|
  {
    if k < |names| {
      var init := names[..|names| - 1];
      assert names[..k] == init[..k];
      ItemsPrefix(t, v, init, k, p);
    } else {
      assert names[..k] == names;
    }
  }

  /** Each item is an annotation of its layer, and that layer is one of `names`. */
  lemma {:induction false} ItemsOrigin(t: DocType, v: DocValue, names: seq<string>, p: bool, i: nat)
      returns (j: nat)
    requires Conforms(t, v) && i < |Items(t, v, names, p)|
    ensures Items(t, v, names, p)[i].0 in names && Items(t, v, names, p)[i].0 in LayerSet(t)
    ensures j < |Entries(v, Items(t, v, names, p)[i].0, p)|
    ensures Items(t, v, names, p)[i].1 == Entries(v, Items(t, v, names, p)[i].0, p)[j].annotation
    decreases |names|
  {
    var init := names[..|names| - 1];
    var prev := Items(t, v, init, p);
    if i < |prev| {
      j := ItemsOrigin(t, v, init, p, i);
    } else {
      j := i - |prev|;
    }
  }

  /** Every annotation of a layer among `names` is held by the items. */
  lemma {:induction false} ItemsHold(t: DocType, v: DocValue, names: seq<string>, m: string,
                                     a: Annotation, p: bool)
    requires Conforms(t, v) && m in names && m in LayerSet(t) && In(Entries(v, m, p), a)
    ensures Holds(Items(t, v, names, p), a)
    decreases |names|
  {
    var init := names[..|names| - 1];
    var last := names[|names| - 1];
    if last == m {
      var j :| 0 <= j < |Entries(v, m, p)| && Entries(v, m, p)[j].annotation == a;
      assert Block(t, v, last, p)[j].1 == a;
      HoldsGrow(Items(t, v, init, p), Block(t, v, last, p), a);
    } else {
      assert m in init by {
        var k :| 0 <= k < |names| && names[k] == m;
        assert init[k] == m;
      }
      ItemsHold(t, v, init, m, a, p);
      HoldsGrow(Items(t, v, init, p), Block(t, v, last, p), a);
    }
  }

  lemma {:induction false} NoDuplicatesInit(names: seq<string>)
    requires NoDuplicates(names) && names != []
    ensures NoDuplicates(names[..|names| - 1]) && names[|names| - 1] !in names[..|names| - 1]
  {
    var init := names[..|names| - 1];
    forall k | 0 <= k < |init| ensures init[k] != names[|names| - 1] {
      assert init[k] == names[k];
    }
  }

  /** With distinct ids on a side and each layer once in `names`, the items have distinct ids. */
  lemma {:induction false} KeyedItems(t: DocType, v: DocValue, hash: Annotation -> int,
                                      names: seq<string>, p: bool)
    requires Conforms(t, v) && DistinctIds(t, v, hash, p) && NoDuplicates(names)
    ensures Keyed(Items(t, v, names, p), hash)
    decreases |names|
  {
    if names != [] {
      var init := names[..|names| - 1];
      var last := names[|names| - 1];
      NoDuplicatesInit(names);
      KeyedItems(t, v, hash, init, p);
      var a, b := Items(t, v, init, p), Block(t, v, last, p);
      var all := a + b;
      forall i, j | 0 <= i < j < |all| ensures hash(all[i].1) != hash(all[j].1) {
        if j < |a| {
          assert all[i] == a[i] && all[j] == a[j];
        } else if i >= |a| {
          assert all[i] == b[i - |a|] && all[j] == b[j - |a|];
        } else {
          var ji := ItemsOrigin(t, v, init, p, i);
          assert all[i] == a[i] && all[j] == b[j - |a|];
        }
      }
    }
  }

  /** Two annotations of a document with the same id are equal. */
  lemma {:induction false} SameId(t: DocType, v: DocValue, hash: Annotation -> int, x: (string, bool, nat), y: (string, bool, nat))
    requires Conforms(t, v) && DistinctIds(t, v, hash, false) && DistinctIds(t, v, hash, true)
    requires IdsAcrossSides(t, v, hash)
    requires x.0 in LayerSet(t) && x.2 < |Entries(v, x.0, x.1)|
    requires y.0 in LayerSet(t) && y.2 < |Entries(v, y.0, y.1)|
    requires hash(Entries(v, x.0, x.1)[x.2].annotation) == hash(Entries(v, y.0, y.1)[y.2].annotation)
    ensures Entries(v, x.0, x.1)[x.2].annotation == Entries(v, y.0, y.1)[y.2].annotation
  {
    if x.1 == y.1 {
    } else if !x.1 {
      assert v.layers[x.0].gold[x.2] == Entries(v, x.0, x.1)[x.2];
      assert v.layers[y.0].predictions[y.2] == Entries(v, y.0, y.1)[y.2];
    } else {
      assert v.layers[y.0].gold[y.2] == Entries(v, y.0, y.1)[y.2];
      assert v.layers[x.0].predictions[x.2] == Entries(v, x.0, x.1)[x.2];
    }
  }

  /** Where an item of both sides' items comes from: a layer, a side and a position. */
  lemma {:induction false} BothOrigin(t: DocType, v: DocValue, names: seq<string>, i: nat) returns (x: (string, bool, nat))
    requires Conforms(t, v) && i < |Items(t, v, names, false) + Items(t, v, names, true)|
    ensures x.0 in LayerSet(t) && x.2 < |Entries(v, x.0, x.1)|
    ensures (Items(t, v, names, false) + Items(t, v, names, true))[i].1 == Entries(v, x.0, x.1)[x.2].annotation
  {
    var gs, ps := Items(t, v, names, false), Items(t, v, names, true);
    if i < |gs| {
      var j := ItemsOrigin(t, v, names, false, i);
      assert (gs + ps)[i] == gs[i];
      x := (gs[i].0, false, j);
    } else {
      var j := ItemsOrigin(t, v, names, true, i - |gs|);
      assert (gs + ps)[i] == ps[i - |gs|];
      x := (ps[i - |gs|].0, true, j);
    }
  }

  /** With injective ids, items that share an id hold the same annotation. */
  lemma {:induction false} InjectiveItems(t: DocType, v: DocValue, hash: Annotation -> int, names: seq<string>)
    requires Conforms(t, v) && DistinctIds(t, v, hash, false) && DistinctIds(t, v, hash, true)
    requires IdsAcrossSides(t, v, hash)
    ensures Injective(Items(t, v, names, false) + Items(t, v, names, true), hash)
  {
    var all := Items(t, v, names, false) + Items(t, v, names, true);
    forall i, j | 0 <= i < |all| && 0 <= j < |all| && hash(all[i].1) == hash(all[j].1)
      ensures all[i].1 == all[j].1
    {
      var x := BothOrigin(t, v, names, i);
      var y := BothOrigin(t, v, names, j);
      SameId(t, v, hash, x, y);
    }
  }

  // ---------------------------------------------------------------------------------------------
  // The round trip, step by step

  /** `asdict` stores each field's data under its name. */
  lemma {:induction false} GetAsDict(t: DocType, v: DocValue, hash: Annotation -> int, n: string)
    requires Conforms(t, v) && n in t.decls
    ensures Get(AsDictOf(t, v, hash), n) == Some(FieldData(t, v, n, hash))
  {
    assert n in t.order;
    var i := FirstIndex(t.order, n);
    GetAt(AsDictOf(t, v, hash), i);
  }

  /** The constructor called with the serialised plain fields gives back their values. */
  lemma {:induction false} ConstructRestores(t: DocType, v: DocValue, hash: Annotation -> int)
    requires Conforms(t, v) && !RootClash(t) && PlainRestorable(t, v) && OwnNames(t)
    ensures Construct(t, Kwargs(t, AsDictOf(t, v, hash))) == Success(v.plain)
  {
    forall n | n in PlainSet(t) ensures Get(AsDictOf(t, v, hash), n) == Some(Serialise(v.plain[n])) {
      GetAsDict(t, v, hash, n);
    }
    assert Keys(AsDictOf(t, v, hash)) == t.order;
    KwargsRestore(t, v.plain, AsDictOf(t, v, hash));
  }

  /** Keyword arguments taken from a dict holding each plain field serialised give the constructor
      back the fields' values, when a field serialised to None has that value as its default. */
  lemma KwargsRestore(t: DocType, plain: map<string, Value>, d: PyDict<string, Value>)
    requires plain.Keys == PlainSet(t)
    requires forall n :: n in PlainSet(t) ==> Get(d, n) == Some(Serialise(plain[n]))
    requires forall n :: n in PlainSet(t) && (plain[n] == NoneV || plain[n] == DictV(map[])) ==>
               t.decls[n].default == Some(plain[n])
    requires forall n :: n in INTERNAL_FIELDS && n !in PlainSet(t) ==> Get(d, n).None?
    ensures InitPlain(t, Kwargs(t, d)) == Success(plain)
  {
    var kw := Kwargs(t, d);
    var r := InitPlain(t, kw);
    assert r.Success?;
    forall n | n in PlainSet(t) ensures r.value[n] == plain[n] {
      if n !in kw {
        assert Serialise(plain[n]) == NoneV;
      }
    }
    assert r.value == plain;
  }

  /** The relations among the gold annotations of `order[k]` refer to annotations of earlier layers. */
  lemma {:induction false} GoldReferencesHeld(t: DocType, v: DocValue, order: seq<string>, k: nat)
    requires Conforms(t, v) && RelationsTargeted(t, v)
    requires DependencyGraph.Sorted(LayerGraph(t), order) && k < |order| && order[k] in LayerSet(t)
    ensures RefsIn(Entries(v, order[k], false), Items(t, v, order[..k], false))
  {
    var n := order[k];
    var es := Entries(v, n, false);
    forall j | 0 <= j < |es| && es[j].annotation.BinaryRelation?
      ensures Holds(Items(t, v, order[..k], false), es[j].annotation.head)
      ensures Holds(Items(t, v, order[..k], false), es[j].annotation.tail)
    {
      var a := es[j].annotation;
      assert RefersToTarget(t, v, n, a, false);
      var m := TargetOf(t, n).value;
      assert DependencyGraph.DepsBefore(LayerGraph(t), order, k);
      assert m in order[..k];
      ItemsHold(t, v, order[..k], m, a.head, false);
      ItemsHold(t, v, order[..k], m, a.tail, false);
    }
  }

  /** The relations among the predictions of `order[k]` refer to gold annotations up to that layer
      or to predictions of earlier layers. */
  lemma {:induction false} PredictionReferencesHeld(t: DocType, v: DocValue, order: seq<string>, k: nat)
    requires Conforms(t, v) && RelationsTargeted(t, v)
    requires DependencyGraph.Sorted(LayerGraph(t), order) && k < |order| && order[k] in LayerSet(t)
    ensures RefsIn(Entries(v, order[k], true),
                   Items(t, v, order[..k + 1], false) + Items(t, v, order[..k], true))
  {
    var n := order[k];
    var es := Entries(v, n, true);
    ItemsStep(t, v, order, k, false);
    var gs, ps := Items(t, v, order[..k], false), Items(t, v, order[..k], true);
    var gs' := Items(t, v, order[..k + 1], false);
    forall j | 0 <= j < |es| && es[j].annotation.BinaryRelation?
      ensures Holds(gs' + ps, es[j].annotation.head) && Holds(gs' + ps, es[j].annotation.tail)
    {
      var a := es[j].annotation;
      assert RefersToTarget(t, v, n, a, true);
      var m := TargetOf(t, n).value;
      assert DependencyGraph.DepsBefore(LayerGraph(t), order, k);
      assert m in order[..k];
      TargetHeld(t, v, order[..k], m, n, a.head);
      TargetHeld(t, v, order[..k], m, n, a.tail);
    }
  }

  /** An annotation of layer `m`, among the first names of the order, is held by the gold items
      up to `n` or by the earlier prediction items. */
  lemma {:induction false} TargetHeld(t: DocType, v: DocValue, names: seq<string>, m: string, n: string,
                                      a: Annotation)
    requires Conforms(t, v) && m in names && m in LayerSet(t)
    requires In(v.layers[m].gold, a) || In(v.layers[m].predictions, a)
    ensures Holds(Items(t, v, names, false) + Block(t, v, n, false) + Items(t, v, names, true), a)
  {
    var gs, b, ps := Items(t, v, names, false), Block(t, v, n, false), Items(t, v, names, true);
    if In(v.layers[m].gold, a) {
      ItemsHold(t, v, names, m, a, false);
      HoldsGrow(gs, b, a);
      HoldsGrow(gs + b, ps, a);
    } else {
      ItemsHold(t, v, names, m, a, true);
      HoldsGrow(gs + b, ps, a);
    }
  }

  /** The items of a prefix of the order grow by one name at a time. */
  lemma {:induction false} ItemsStep(t: DocType, v: DocValue, order: seq<string>, k: nat, p: bool)
    requires Conforms(t, v) && k < |order|
    ensures Items(t, v, order[..k + 1], p) == Items(t, v, order[..k], p) + Block(t, v, order[k], p)
  {
    var pre := order[..k + 1];
    assert pre[..|pre| - 1] == order[..k] && pre[|pre| - 1] == order[k];
  }

  /** Distinct and injective ids of all items carry over to the items of a prefix of the order. */
  lemma {:induction false} PrefixIds(t: DocType, v: DocValue, hash: Annotation -> int, order: seq<string>, k: nat)
    requires Conforms(t, v) && k <= |order|
    requires Keyed(Items(t, v, order, false), hash) && Keyed(Items(t, v, order, true), hash)
    requires Injective(Items(t, v, order, false) + Items(t, v, order, true), hash)
    ensures Keyed(Items(t, v, order[..k], false), hash) && Keyed(Items(t, v, order[..k], true), hash)
    ensures Injective(Items(t, v, order[..k], false) + Items(t, v, order[..k], true), hash)
  {
    ItemsPrefix(t, v, order, k, false);
    ItemsPrefix(t, v, order, k, true);
    KeyedPrefix(Items(t, v, order[..k], false), Items(t, v, order, false), hash);
    KeyedPrefix(Items(t, v, order[..k], true), Items(t, v, order, true), hash);
    InjectivePrefixes(Items(t, v, order[..k], false), Items(t, v, order[..k], true),
                      Items(t, v, order, false), Items(t, v, order, true), hash);
  }

  /** Every annotation of layer `n` on one side is of the layer's class. */
  lemma {:induction false} SideOfClass(t: DocType, v: DocValue, n: string, p: bool)
    requires Conforms(t, v) && LayersOfClass(t, v) && n in LayerSet(t)
    ensures forall j :: 0 <= j < |Entries(v, n, p)| ==> OfClass(Entries(v, n, p)[j].annotation, t.decls[n].cls)
  {
  }

  /** For a layer, the loop body runs the gold loop and then the prediction loop on `asdict`'s
      records of that layer. */
  lemma {:induction false} AddLayerOfValue(t: DocType, v: DocValue, hash: Annotation -> int, n: string,
                        stores: (Store, Store), stores': (Store, Store))
    requires Conforms(t, v) && n in LayerSet(t)
    requires AddGold(n, t.decls[n].cls, Records(v.layers[n].gold, hash), stores.0) == Success(stores'.0)
    requires AddPredictions(n, t.decls[n].cls, Records(v.layers[n].predictions, hash), stores'.0, stores.1)
             == Success(stores'.1)
    ensures AddLayer(t, AsDictOf(t, v, hash), n, stores.0, stores.1) == Success(stores')
  {
    var d := AsDictOf(t, v, hash);
    GetAsDict(t, v, hash, n);
    AddLayerValue(t, d, n, Records(v.layers[n].gold, hash), Records(v.layers[n].predictions, hash), stores, stores');
  }

  /** The loop body on a layer whose value is an annotations mapping. */
  lemma AddLayerValue(t: DocType, d: PyDict<string, Value>, n: string, gold: seq<AnnotationDict>,
                      predictions: seq<AnnotationDict>, stores: (Store, Store), stores': (Store, Store))
    requires n in LayerSet(t) && Get(d, n) == Some(LayerV(gold, predictions))
    requires AddGold(n, t.decls[n].cls, gold, stores.0) == Success(stores'.0)
    requires AddPredictions(n, t.decls[n].cls, predictions, stores'.0, stores.1) == Success(stores'.1)
    ensures AddLayer(t, d, n, stores.0, stores.1) == Success(stores')
  {
    assert Truthy(LayerV(gold, predictions));
  }

  /** One name of the order adds that layer's items to both stores. */
  lemma {:induction false} AddLayerIndexed(t: DocType, v: DocValue, hash: Annotation -> int, order: seq<string>, k: nat)
    requires Conforms(t, v) && LayersOfClass(t, v) && RelationsTargeted(t, v)
    requires DependencyGraph.Sorted(LayerGraph(t), order) && k < |order|
    requires Keyed(Items(t, v, order, false), hash) && Keyed(Items(t, v, order, true), hash)
    requires Injective(Items(t, v, order, false) + Items(t, v, order, true), hash)
    ensures AddLayer(t, AsDictOf(t, v, hash), order[k], Indexed(Items(t, v, order[..k], false), hash),
                     Indexed(Items(t, v, order[..k], true), hash)) ==
            Success((Indexed(Items(t, v, order[..k + 1], false), hash),
                     Indexed(Items(t, v, order[..k + 1], true), hash)))
  {
    var n := order[k];
    ItemsStep(t, v, order, k, false);
    ItemsStep(t, v, order, k, true);
    var gs, ps := Items(t, v, order[..k], false), Items(t, v, order[..k], true);
    var gs', ps' := Items(t, v, order[..k + 1], false), Items(t, v, order[..k + 1], true);
    if n in LayerSet(t) {
      var c := t.decls[n].cls;
      PrefixIds(t, v, hash, order, k + 1);
      SideOfClass(t, v, n, false);
      SideOfClass(t, v, n, true);
      GoldReferencesHeld(t, v, order, k);
      AddGoldIndexed(n, c, Entries(v, n, false), gs, hash);
      PredictionReferencesHeld(t, v, order, k);
      AddPredictionsIndexed(n, c, Entries(v, n, true), gs', ps, hash);
      AddLayerOfValue(t, v, hash, n, (Indexed(gs, hash), Indexed(ps, hash)),
                      (Indexed(gs', hash), Indexed(ps', hash)));
    } else {
      assert Block(t, v, n, false) == [] && Block(t, v, n, true) == [];
      assert gs' == gs && ps' == ps;
    }
  }

  /** The loop over the order, from position `k` on, completes both stores. */
  lemma {:induction false} AccumulateFrom(t: DocType, v: DocValue, hash: Annotation -> int,
                                          order: seq<string>, k: nat)
    requires Conforms(t, v) && LayersOfClass(t, v) && RelationsTargeted(t, v)
    requires DependencyGraph.Sorted(LayerGraph(t), order) && k <= |order|
    requires Keyed(Items(t, v, order, false), hash) && Keyed(Items(t, v, order, true), hash)
    requires Injective(Items(t, v, order, false) + Items(t, v, order, true), hash)
    ensures Accumulate(t, AsDictOf(t, v, hash), order[k..], Indexed(Items(t, v, order[..k], false), hash),
                       Indexed(Items(t, v, order[..k], true), hash)) ==
            Success((Indexed(Items(t, v, order, false), hash), Indexed(Items(t, v, order, true), hash)))
    decreases |order| - k
  {
    if k == |order| {
      assert order[..k] == order;
    } else {
      assert order[k..][0] == order[k] && order[k..][1..] == order[k + 1..];
      AddLayerIndexed(t, v, hash, order, k);
      AccumulateFrom(t, v, hash, order, k + 1);
    }
  }

  /** The target `append` gives annotations of layer `n` (none when it cannot be resolved). */
  function TargetFor(t: DocType, plain: map<string, Value>, n: string): TargetValue
    requires n in LayerSet(t)
  {
    var r := ResolveTarget(t, plain, TargetOf(t, n));
    if r.Success? then r.value else NoTarget
  }

  /** The entries the append loop adds to layer `n`: its items, in order. */
  function Named(items: seq<Item>, n: string, target: TargetValue): seq<Entry> {
    if items == [] then []
    else (if items[0].0 == n then [Entry(items[0].1, target)] else []) + Named(items[1..], n, target)
  }

  lemma {:induction false} NamedConcat(a: seq<Item>, b: seq<Item>, n: string, target: TargetValue)
    ensures Named(a + b, n, target) == Named(a, n, target) + Named(b, n, target)
  {
    if a == [] {
      assert a + b == b;
    } else {
      var head := if a[0].0 == n then [Entry(a[0].1, target)] else [];
      assert (a + b)[0] == a[0] && (a + b)[1..] == a[1..] + b;
      assert Named(a + b, n, target) == head + Named(a[1..] + b, n, target);
      NamedConcat(a[1..], b, n, target);
      assert Named(a, n, target) == head + Named(a[1..], n, target);
    }
  }

  /** The items of one layer give back that layer's entries, when they hold the target. */
  lemma {:induction false} NamedTag(m: string, es: seq<Entry>, n: string, target: TargetValue)
    requires forall i :: 0 <= i < |es| ==> es[i].target == target
    ensures Named(Tag(m, es), n, target) == if m == n then es else []
    decreases |es|
  {
    if es != [] {
      assert Tag(m, es)[1..] == Tag(m, es[1..]);
      NamedTag(m, es[1..], n, target);
      if m == n {
        assert es == [Entry(es[0].annotation, target)] + es[1..];
      }
    }
  }

  /** The append loop adds to layer `m` the items named after it. */
  lemma {:induction false} AppendEntriesNamed(t: DocType, plain: map<string, Value>, items: seq<Item>,
                                              layers: map<string, seq<Entry>>, m: string)
    requires layers.Keys <= LayerSet(t)
    requires forall i :: 0 <= i < |items| ==> items[i].0 in layers
    requires forall i :: 0 <= i < |items| ==> ResolveTarget(t, plain, TargetOf(t, items[i].0)).Success?
    ensures AppendEntries(t, plain, items, layers).Success?
    ensures m in layers ==>
              AppendEntries(t, plain, items, layers).value[m] == layers[m] + Named(items, m, TargetFor(t, plain, m))
    decreases |items|
  {
    if items != [] {
      var n := items[0].0;
      var e := Entry(items[0].1, TargetFor(t, plain, n));
      var layers' := layers[n := layers[n] + [e]];
      assert AppendEntries(t, plain, items, layers) == AppendEntries(t, plain, items[1..], layers');
      AppendEntriesNamed(t, plain, items[1..], layers', m);
      if m in layers {
        NamedCons(items, m, TargetFor(t, plain, m), layers, e, AppendEntries(t, plain, items[1..], layers').value[m]);
      }
    }
  }

  /** Appending the first item's entry to its layer and then the later items' entries to layer `m`
      gives layer `m` the entries of all items named after it. */
  lemma NamedCons(items: seq<Item>, m: string, target: TargetValue, layers: map<string, seq<Entry>>, e: Entry,
                  entries: seq<Entry>)
    requires items != [] && m in layers && items[0].0 in layers
    requires items[0].0 == m ==> e == Entry(items[0].1, target)
    requires entries == layers[items[0].0 := layers[items[0].0] + [e]][m] + Named(items[1..], m, target)
    ensures entries == layers[m] + Named(items, m, target)
  {
    var tail := Named(items[1..], m, target);
    var updated := layers[items[0].0 := layers[items[0].0] + [e]];
    if items[0].0 == m {
      assert Named(items, m, target) == [e] + tail;
      assert updated[m] == layers[m] + [e];
      assert (layers[m] + [e]) + tail == layers[m] + ([e] + tail);
    } else {
      assert updated[m] == layers[m];
      assert [] + tail == tail;
      assert Named(items, m, target) == tail;
    }
  }

  /** Layer `n`'s items among `names` hold exactly its entries when it is one of `names`. */
  lemma {:induction false} NamedItems(t: DocType, v: DocValue, names: seq<string>, n: string, p: bool)
    requires Conforms(t, v) && TargetsResolved(t, v) && NoDuplicates(names) && n in LayerSet(t)
    ensures Named(Items(t, v, names, p), n, TargetFor(t, v.plain, n)) ==
            if n in names then Entries(v, n, p) else []
    decreases |names|
  {
    if names != [] {
      var init := names[..|names| - 1];
      var last := names[|names| - 1];
      var tv := TargetFor(t, v.plain, n);
      NoDuplicatesInit(names);
      NamedItems(t, v, init, n, p);
      NamedConcat(Items(t, v, init, p), Block(t, v, last, p), n, tv);
      NamedBlock(t, v, last, n, p);
      assert n in names <==> n in init || n == last;
    }
  }

  /** One layer's block holds layer `n`'s entries when it is that layer, and nothing of it otherwise. */
  lemma {:induction false} NamedBlock(t: DocType, v: DocValue, m: string, n: string, p: bool)
    requires Conforms(t, v) && TargetsResolved(t, v) && n in LayerSet(t)
    ensures Named(Block(t, v, m, p), n, TargetFor(t, v.plain, n)) == if m == n then Entries(v, n, p) else []
  {
    var tv := TargetFor(t, v.plain, n);
    if m in LayerSet(t) {
      if m == n {
        forall i | 0 <= i < |Entries(v, n, p)| ensures Entries(v, n, p)[i].target == tv {
        }
        NamedTag(m, Entries(v, m, p), n, tv);
      } else {
        NamedTagOther(m, Entries(v, m, p), n, tv);
      }
    }
  }

  /** The items of another layer add nothing to layer `n`. */
  lemma {:induction false} NamedTagOther(m: string, es: seq<Entry>, n: string, target: TargetValue)
    requires m != n
    ensures Named(Tag(m, es), n, target) == []
    decreases |es|
  {
    if es != [] {
      assert Tag(m, es)[1..] == Tag(m, es[1..]);
      NamedTagOther(m, es[1..], n, target);
    }
  }

  /** The append loop over the items of all layers restores every layer on that side. */
  lemma {:induction false} LayersRestored(t: DocType, v: DocValue, order: seq<string>, p: bool)
    requires Conforms(t, v) && TargetsResolved(t, v) && NoDuplicates(order)
    requires forall n :: n in LayerSet(t) ==> n in order
    ensures forall i :: 0 <= i < |Items(t, v, order, p)| ==> Items(t, v, order, p)[i].0 in LayerSet(t)
    ensures AppendEntries(t, v.plain, Items(t, v, order, p), EmptyLayers(t)) ==
            Success(map n | n in LayerSet(t) :: Entries(v, n, p))
  {
    var items := Items(t, v, order, p);
    forall i | 0 <= i < |items|
      ensures items[i].0 in LayerSet(t) && ResolveTarget(t, v.plain, TargetOf(t, items[i].0)).Success?
    {
      var j := ItemsOrigin(t, v, order, p, i);
    }
    AppendEntriesNamed(t, v.plain, items, EmptyLayers(t), "");
    var r := AppendEntries(t, v.plain, items, EmptyLayers(t)).value;
    var want := map n | n in LayerSet(t) :: Entries(v, n, p);
    forall n | n in LayerSet(t) ensures r[n] == want[n] {
      AppendEntriesNamed(t, v.plain, items, EmptyLayers(t), n);
      NamedItems(t, v, order, n, p);
      assert r[n] == [] + Named(items, n, TargetFor(t, v.plain, n));
    }
    assert r == want;
  }

  /** The loop over the whole order stores every gold annotation and every prediction under its id,
      in the order of the layers. */
  lemma {:induction false} AccumulateAsDict(t: DocType, v: DocValue, hash: Annotation -> int, order: seq<string>)
    requires Conforms(t, v) && LayersOfClass(t, v) && RelationsTargeted(t, v)
    requires DistinctIds(t, v, hash, false) && DistinctIds(t, v, hash, true) && IdsAcrossSides(t, v, hash)
    requires NoDuplicates(order) && DependencyGraph.Sorted(LayerGraph(t), order)
    ensures Accumulate(t, AsDictOf(t, v, hash), order, [], []) ==
            Success((Indexed(Items(t, v, order, false), hash), Indexed(Items(t, v, order, true), hash)))
  {
    KeyedItems(t, v, hash, order, false);
    KeyedItems(t, v, hash, order, true);
    InjectiveItems(t, v, hash, order);
    assert order[0..] == order && order[..0] == [];
    AccumulateFrom(t, v, hash, order, 0);
  }

  /** The final append loops, over the two stores, restore the layers. */
  lemma {:induction false} AppendStoresRestores(t: DocType, v: DocValue, hash: Annotation -> int,
                                                order: seq<string>)
    requires Conforms(t, v) && TargetsResolved(t, v) && NoDuplicates(order)
    requires forall n :: n in LayerSet(t) ==> n in order
    requires NamesIn(Indexed(Items(t, v, order, false), hash), LayerSet(t))
    requires NamesIn(Indexed(Items(t, v, order, true), hash), LayerSet(t))
    ensures AppendStores(t, v.plain, Indexed(Items(t, v, order, false), hash),
                         Indexed(Items(t, v, order, true), hash)) == Success(v)
  {
    var gold, preds := Indexed(Items(t, v, order, false), hash), Indexed(Items(t, v, order, true), hash);
    ValuesIndexed(Items(t, v, order, false), hash);
    ValuesIndexed(Items(t, v, order, true), hash);
    LayersRestored(t, v, order, false);
    LayersRestored(t, v, order, true);
    var g := map n | n in LayerSet(t) :: Entries(v, n, false);
    var p := map n | n in LayerSet(t) :: Entries(v, n, true);
    assert AppendStores(t, v.plain, gold, preds) == Success(Assemble(v.plain, g, p));
    AssembleLayers(t, v);
  }

  /** Putting each layer's gold annotations and predictions back together gives the document. */
  lemma {:induction false} AssembleLayers(t: DocType, v: DocValue)
    requires Conforms(t, v)
    ensures Assemble(v.plain, map n | n in LayerSet(t) :: Entries(v, n, false),
                     map n | n in LayerSet(t) :: Entries(v, n, true)) == v
  {
    var g := map n | n in LayerSet(t) :: Entries(v, n, false);
    var p := map n | n in LayerSet(t) :: Entries(v, n, true);
    var a := Assemble(v.plain, g, p);
    forall n | n in LayerSet(t) ensures a.layers[n] == v.layers[n] {
      assert a.layers[n] == LayerValue(g[n], p[n]);
    }
    assert a.layers == v.layers;
  }

  /** `fromdict(asdict(doc)) == doc`, for an order that lists each layer once, after the layer it
      targets, and a document whose ids are unambiguous and whose relations refer to the layer
      their own layer targets. */
  lemma {:induction false} FromDictAsDict(t: DocType, v: DocValue, hash: Annotation -> int, order: seq<string>)
    requires Conforms(t, v) && !RootClash(t) && PlainRestorable(t, v) && OwnNames(t)
    requires TargetsResolved(t, v) && LayersOfClass(t, v) && RelationsTargeted(t, v)
    requires DistinctIds(t, v, hash, false) && DistinctIds(t, v, hash, true) && IdsAcrossSides(t, v, hash)
    requires NoDuplicates(order) && DependencyGraph.Sorted(LayerGraph(t), order)
    requires forall n :: n in LayerSet(t) ==> n in order
    ensures FromDictSpec(t, AsDictOf(t, v, hash), order) == Success(v)
  {
    var d := AsDictOf(t, v, hash);
    ConstructRestores(t, v, hash);
    AccumulateAsDict(t, v, hash, order);
    AccumulateNames(t, d, order, [], []);
    AppendStoresRestores(t, v, hash, order);
  }

  /** The order `fromdict` computes lists each layer once, after the layer it targets. */
  lemma {:induction false} OrderedIsSorted(t: DocType, root: seq<string>, order: seq<string>)
    requires CoreDocument.Ordered(t, root, order) && !RootClash(t)
    ensures NoDuplicates(order) && DependencyGraph.Sorted(LayerGraph(t), order)
  {
    RootClashIsGraphNode(t);
    forall i | 0 <= i < |order| ensures DependencyGraph.DepsBefore(LayerGraph(t), order, i) {
      assert DependencyGraph.DepsBefore(CoreDocument.RootedGraph(t, root), order, i);
      if order[i] in LayerGraph(t) {
        assert order[i] != ROOT;
        assert CoreDocument.RootedGraph(t, root)[order[i]] == LayerGraph(t)[order[i]];
      }
    }
  }

  /** No chain of layers, each targeting the next, passes one layer twice. */
  ghost predicate Acyclic(t: DocType) {
    forall w :: DependencyGraph.IsWalk(LayerGraph(t), w) ==> NoDuplicates(w)
  }

  /** A chain of targets that starts at a layer of the order stays in the order. */
  lemma {:induction false} WalkStaysOrdered(t: DocType, root: seq<string>, order: seq<string>, w: seq<string>)
    requires CoreDocument.Ordered(t, root, order) && !RootClash(t)
    requires DependencyGraph.IsWalk(LayerGraph(t), w) && w[0] in order
    ensures w[|w| - 1] in order
  {
    if |w| > 1 {
      var init := w[..|w| - 1];
      assert DependencyGraph.IsWalk(LayerGraph(t), init) by {
        forall k | 0 <= k < |init| - 1 ensures init[k] in LayerGraph(t) && init[k + 1] in LayerGraph(t)[init[k]] {
          assert init[k] == w[k] && init[k + 1] == w[k + 1];
        }
      }
      WalkStaysOrdered(t, root, order, init);
      var m := w[|w| - 2];
      RootClashIsGraphNode(t);
      assert m in LayerGraph(t) && m != ROOT;
      var i :| 0 <= i < |order| && order[i] == m;
      assert DependencyGraph.DepsBefore(CoreDocument.RootedGraph(t, root), order, i);
      assert w[|w| - 1] in CoreDocument.RootedGraph(t, root)[m];
      assert w[|w| - 1] in order[..i];
    }
  }

  /** Following the layers that target the start of a chain of layers backwards, an acyclic type
      runs into a root layer, so the chain's last layer is in the order. */
  lemma {:induction false} ChainOrdered(t: DocType, root: seq<string>, order: seq<string>, w: seq<string>)
    requires CoreDocument.Ordered(t, root, order) && CoreModel.IsRootList(t, root) && !RootClash(t) && Acyclic(t)
    requires DependencyGraph.IsWalk(LayerGraph(t), w) && forall k :: 0 <= k < |w| ==> w[k] in LayerSet(t)
    ensures w[|w| - 1] in order
    decreases |LayerSet(t)| - |w|
  {
    NoDuplicatesWithin(w, LayerSet(t));
    if w[0] in order {
      WalkStaysOrdered(t, root, order, w);
    } else {
      assert w[0] in Targeted(t);
      var m :| m in LayerSet(t) && TargetOf(t, m) == Some(w[0]);
      var longer := [m] + w;
      assert DependencyGraph.IsWalk(LayerGraph(t), longer) by {
        forall k | 0 <= k < |longer| - 1 ensures longer[k] in LayerGraph(t) && longer[k + 1] in LayerGraph(t)[longer[k]] {
          if k > 0 {
            assert longer[k] == w[k - 1] && longer[k + 1] == w[k];
          }
        }
      }
      assert NoDuplicates(longer);
      assert forall k :: 0 <= k < |longer| ==> longer[k] in LayerSet(t);
      NoDuplicatesWithin(longer, LayerSet(t));
      ChainOrdered(t, root, order, longer);
      assert longer[|longer| - 1] == w[|w| - 1];
    }
  }

  /** For an acyclic type, the order `fromdict` computes from the root list reaches every layer. */
  lemma {:induction false} OrderedReachesAll(t: DocType, root: seq<string>, order: seq<string>)
    requires CoreDocument.Ordered(t, root, order) && CoreModel.IsRootList(t, root) && !RootClash(t) && Acyclic(t)
    ensures forall n :: n in LayerSet(t) ==> n in order
  {
    forall n | n in LayerSet(t) ensures n in order {
      ChainOrdered(t, root, order, [n]);
    }
  }

  /** `fromdict(asdict(doc)) == doc` for the order `fromdict` computes, on an acyclic document type. */
  lemma {:induction false} FromDictOrderRestores(t: DocType, v: DocValue, hash: Annotation -> int,
                                                 root: seq<string>, order: seq<string>)
    requires Conforms(t, v) && !RootClash(t) && PlainRestorable(t, v) && OwnNames(t)
    requires TargetsResolved(t, v) && LayersOfClass(t, v) && RelationsTargeted(t, v)
    requires DistinctIds(t, v, hash, false) && DistinctIds(t, v, hash, true) && IdsAcrossSides(t, v, hash)
    requires CoreDocument.Ordered(t, root, order) && CoreModel.IsRootList(t, root) && Acyclic(t)
    ensures FromDictSpec(t, AsDictOf(t, v, hash), order) == Success(v)
  {
    OrderedIsSorted(t, root, order);
    OrderedReachesAll(t, root, order);
    FromDictAsDict(t, v, hash, order);
  }
}
