/** `MyDocument.fromdict(doc.asdict())` gives the prototype document back, and serialising the
    result again gives the same dict. The search from the text must reach every layer. The
    prototype's `fromdict` keeps every rebuilt annotation in one dict keyed by id, in the order it
    met them. Here that dict is the annotations of the layers in search order, each tagged with its
    layer's name and indexed by its hash, as for the current document design. */
module PrototypeRoundTrip {
  import opened Wrappers
  import opened PyLists
  import opened PyDicts
  import opened Annotations
  import opened FieldValues
  import opened CoreModel
  import opened Traversal
  import opened RecordLayers
  import opened Prototype
  import CoreRoundTrip

  type Item = (string, Annotation)

  // ---------------------------------------------------------------------------------------------
  // What the document must satisfy

  /** Every annotation of a layer is of the layer's annotation class. */
  predicate LayersOfClass(t: DocType, v: DataValue)
    requires Fits(t, v)
  {
    forall n, j :: n in LayerSet(t) && 0 <= j < |v.layers[n]| ==> OfClass(v.layers[n][j], t.decls[n].cls)
  }

  /** A relation's head and tail are annotations of the layer its own layer targets. */
  predicate RelationsTargeted(t: DocType, v: DataValue)
    requires Fits(t, v)
  {
    forall n, j :: n in LayerSet(t) && 0 <= j < |v.layers[n]| && v.layers[n][j].BinaryRelation? ==>
      TargetOf(t, n).Some? && TargetOf(t, n).value in LayerSet(t) &&
      v.layers[n][j].head in v.layers[TargetOf(t, n).value] && v.layers[n][j].tail in v.layers[TargetOf(t, n).value]
  }

  /** No two annotation positions of the document share an id: an annotation is held once. */
  predicate DistinctIds(t: DocType, v: DataValue, hash: Annotation -> int)
    requires Fits(t, v)
  {
    forall n, i, m, j :: n in LayerSet(t) && m in LayerSet(t) && 0 <= i < |v.layers[n]| && 0 <= j < |v.layers[m]| &&
                         (n, i) != (m, j) ==>
      hash(v.layers[n][i]) != hash(v.layers[m][j])
  }

  /** Each layer of the order targets a declared field, listed before it when that field is a layer. */
  predicate TargetsFirst(t: DocType, order: seq<string>) {
    forall i :: 0 <= i < |order| && order[i] in LayerSet(t) ==>
      TargetOf(t, order[i]).Some? && TargetOf(t, order[i]).value in t.decls &&
      (TargetOf(t, order[i]).value in LayerSet(t) ==> TargetOf(t, order[i]).value in order[..i])
  }

  /** The order of the search from the text over the reverse target map lists every layer after
      the field it targets. */
  lemma VisitsTargetsFirst(t: ProtoType, g: Graph, order: seq<string>)
    requires ReverseOf(t, g) && Visits(g, order)
    ensures TargetsFirst(t, order)
  {
    forall i | 0 <= i < |order| && order[i] in LayerSet(t)
      ensures TargetOf(t, order[i]).Some? && TargetOf(t, order[i]).value in t.decls &&
              TargetOf(t, order[i]).value in order[..i]
    {
      assert i != 0;
      assert HasParent(g, order, 0, i);
      var j :| 0 <= j < i && order[i] in Neighbours(g, order[j]);
      assert TargetOf(t, order[i]) == Some(order[j]);
      assert order[..i][j] == order[j];
      if j > 0 {
        assert HasParent(g, order, 0, j);
        var k :| 0 <= k < j && order[j] in Neighbours(g, order[k]);
        assert order[j] in LayerSet(t);
      }
    }
  }

  // ---------------------------------------------------------------------------------------------
  // The accumulated items

  /** A layer's annotations as the entries the core rebuilding lemmas take; the target is unused. */
  function Wrapped(annotations: seq<Annotation>): (es: seq<Entry>)
    ensures |es| == |annotations| && forall i :: 0 <= i < |es| ==> es[i].annotation == annotations[i]
  {
    seq(|annotations|, i requires 0 <= i < |annotations| => Entry(annotations[i], NoTarget))
  }

  /** What one name of the order contributes: nothing for a plain field. */
  function Block(t: DocType, v: DataValue, n: string): seq<Item>
    requires Fits(t, v)
  {
    if n in LayerSet(t) then CoreRoundTrip.Tag(n, Wrapped(v.layers[n])) else []
  }

  /** The items of the layers among `names`, in that order. */
  function Items(t: DocType, v: DataValue, names: seq<string>): seq<Item>
    requires Fits(t, v)
    decreases |names|
  {
    if names == [] then []
    else Items(t, v, names[..|names| - 1]) + Block(t, v, names[|names| - 1])
  }

  /** The items of the order up to position `k` grow by the block of the `k`-th name. */
  lemma ItemsStep(t: DocType, v: DataValue, names: seq<string>, k: nat)
    requires Fits(t, v) && k < |names|
    ensures Items(t, v, names[..k + 1]) == Items(t, v, names[..k]) + Block(t, v, names[k])
  {
    assert names[..k + 1][..k] == names[..k];
  }

  /** Where an item comes from: a name among `names` and a position in that layer. */
  lemma {:induction false} ItemsOrigin(t: DocType, v: DataValue, names: seq<string>, i: nat) returns (j: nat)
    requires Fits(t, v) && i < |Items(t, v, names)|
    ensures Items(t, v, names)[i].0 in names && Items(t, v, names)[i].0 in LayerSet(t)
    ensures j < |v.layers[Items(t, v, names)[i].0]| &&
            Items(t, v, names)[i].1 == v.layers[Items(t, v, names)[i].0][j]
    decreases |names|
  {
    var init, last := names[..|names| - 1], names[|names| - 1];
    var prev := Items(t, v, init);
    assert Items(t, v, names) == prev + Block(t, v, last);
    if i < |prev| {
      j := ItemsOrigin(t, v, init, i);
      assert Items(t, v, names)[i] == prev[i];
      var k :| 0 <= k < |init| && init[k] == prev[i].0;
      assert names[k] == init[k];
    } else {
      j := i - |prev|;
      assert last in LayerSet(t);
      assert Items(t, v, names)[i] == Block(t, v, last)[j] == (last, v.layers[last][j]);
    }
  }

  /** Every annotation of a layer among `names` is held by the items. */
  lemma {:induction false} ItemsHold(t: DocType, v: DataValue, names: seq<string>, m: string, a: Annotation)
    requires Fits(t, v) && m in names && m in LayerSet(t) && a in v.layers[m]
    ensures CoreRoundTrip.Holds(Items(t, v, names), a)
    decreases |names|
  {
    var init := names[..|names| - 1];
    var last := names[|names| - 1];
    if last == m {
      var j :| 0 <= j < |v.layers[m]| && v.layers[m][j] == a;
      assert Block(t, v, last)[j].1 == a;
      CoreRoundTrip.HoldsGrow(Items(t, v, init), Block(t, v, last), a);
    } else {
      assert m in init by {
        var k :| 0 <= k < |names| && names[k] == m;
        assert init[k] == m;
      }
      ItemsHold(t, v, init, m, a);
      CoreRoundTrip.HoldsGrow(Items(t, v, init), Block(t, v, last), a);
    }
  }

  /** Two positions of the document hold annotations with different ids. */
  lemma IdsDiffer(t: DocType, v: DataValue, hash: Annotation -> int, x: (string, nat), y: (string, nat))
    requires Fits(t, v) && DistinctIds(t, v, hash) && x != y
    requires x.0 in LayerSet(t) && x.1 < |v.layers[x.0]| && y.0 in LayerSet(t) && y.1 < |v.layers[y.0]|
    ensures hash(v.layers[x.0][x.1]) != hash(v.layers[y.0][y.1])
  {
  }

  /** Two items of one layer's block have different ids. */
  lemma BlockIds(t: DocType, v: DataValue, hash: Annotation -> int, n: string, p: nat, q: nat)
    requires Fits(t, v) && DistinctIds(t, v, hash) && p < q < |Block(t, v, n)|
    ensures hash(Block(t, v, n)[p].1) != hash(Block(t, v, n)[q].1)
  {
    IdsDiffer(t, v, hash, (n, p), (n, q));
  }

  /** An item of the layers before and an item of a later layer have different ids. */
  lemma CrossIds(t: DocType, v: DataValue, hash: Annotation -> int, init: seq<string>, n: string, i: nat, q: nat)
    requires Fits(t, v) && DistinctIds(t, v, hash) && n !in init
    requires i < |Items(t, v, init)| && q < |Block(t, v, n)|
    ensures hash(Items(t, v, init)[i].1) != hash(Block(t, v, n)[q].1)
  {
    var j := ItemsOrigin(t, v, init, i);
    IdsDiffer(t, v, hash, (Items(t, v, init)[i].0, j), (n, q));
  }

  /** With distinct ids and each layer once in `names`, the items have distinct ids. */
  lemma {:induction false} KeyedItems(t: DocType, v: DataValue, hash: Annotation -> int, names: seq<string>)
    requires Fits(t, v) && DistinctIds(t, v, hash) && NoDuplicates(names)
    ensures CoreRoundTrip.Keyed(Items(t, v, names), hash)
    decreases |names|
  {
    if names != [] {
      var init := names[..|names| - 1];
      var last := names[|names| - 1];
      CoreRoundTrip.NoDuplicatesInit(names);
      KeyedItems(t, v, hash, init);
      KeyedBlockAdded(t, v, hash, init, last);
    }
  }

  /** Adding the block of a layer not yet seen to items with distinct ids keeps the ids distinct. */
  lemma KeyedBlockAdded(t: DocType, v: DataValue, hash: Annotation -> int, init: seq<string>, last: string)
    requires Fits(t, v) && DistinctIds(t, v, hash) && last !in init
    requires CoreRoundTrip.Keyed(Items(t, v, init), hash)
    ensures CoreRoundTrip.Keyed(Items(t, v, init) + Block(t, v, last), hash)
  {
    var a, b := Items(t, v, init), Block(t, v, last);
    forall p, q | 0 <= p < q < |b| ensures hash(b[p].1) != hash(b[q].1) {
      BlockIds(t, v, hash, last, p, q);
    }
    forall i, q | 0 <= i < |a| && 0 <= q < |b| ensures hash(a[i].1) != hash(b[q].1) {
      CrossIds(t, v, hash, init, last, i, q);
    }
    KeyedConcat(a, b, hash);
  }

  /** Two sequences of items with distinct ids, no id shared between them, concatenate to items
      with distinct ids. */
  lemma KeyedConcat(a: seq<Item>, b: seq<Item>, hash: Annotation -> int)
    requires CoreRoundTrip.Keyed(a, hash) && CoreRoundTrip.Keyed(b, hash)
    requires forall i, q :: 0 <= i < |a| && 0 <= q < |b| ==> hash(a[i].1) != hash(b[q].1)
    ensures CoreRoundTrip.Keyed(a + b, hash)
  {
    var all := a + b;
    forall i, j | 0 <= i < j < |all| ensures hash(all[i].1) != hash(all[j].1) {
      if j < |a| {
        assert all[i] == a[i] && all[j] == a[j];
      } else if i >= |a| {
        assert all[i] == b[i - |a|] && all[j] == b[j - |a|];
      } else {
        assert all[i] == a[i] && all[j] == b[j - |a|];
      }
    }
  }

  /** The items of a prefix of the order are a prefix of the items of the whole order. */
  lemma {:induction false} ItemsPrefix(t: DocType, v: DataValue, names: seq<string>, k: nat)
    requires Fits(t, v) && k <= |names|
    ensures Items(t, v, names[..k]) <= Items(t, v, names)
    decreases |names|
  {
    if k < |names| {
      var init := names[..|names| - 1];
      assert init[..k] == names[..k];
      ItemsPrefix(t, v, init, k);
    } else {
      assert names[..k] == names;
    }
  }

  // ---------------------------------------------------------------------------------------------
  // The accumulation loop

  /** The records of the wrapped annotations are those `asdict` gives the layer. */
  lemma WrappedRecords(annotations: seq<Annotation>, hash: Annotation -> int)
    ensures Records(Wrapped(annotations), hash) == AnnotationRecords(annotations, hash)
  {
  }

  /** The relations of the layer at position `k` refer to annotations of the layers before it. */
  lemma RefsBefore(t: DocType, v: DataValue, order: seq<string>, k: nat)
    requires Fits(t, v) && RelationsTargeted(t, v) && TargetsFirst(t, order)
    requires k < |order| && order[k] in LayerSet(t)
    ensures CoreRoundTrip.RefsIn(Wrapped(v.layers[order[k]]), Items(t, v, order[..k]))
  {
    var n := order[k];
    var es := Wrapped(v.layers[n]);
    forall j | 0 <= j < |es| && es[j].annotation.BinaryRelation?
      ensures CoreRoundTrip.Holds(Items(t, v, order[..k]), es[j].annotation.head) &&
              CoreRoundTrip.Holds(Items(t, v, order[..k]), es[j].annotation.tail)
    {
      assert es[j].annotation == v.layers[n][j];
      var target := TargetOf(t, n).value;
      ItemsHold(t, v, order[..k], target, es[j].annotation.head);
      ItemsHold(t, v, order[..k], target, es[j].annotation.tail);
    }
  }

  /** One name of the order: a layer stores each of its annotations under its id, a plain field
      and an empty layer leave the accumulator alone. */
  lemma AddLayer(t: DocType, v: DataValue, hash: Annotation -> int, order: seq<string>, k: nat)
    requires Fits(t, v) && LayersOfClass(t, v) && RelationsTargeted(t, v) && DistinctIds(t, v, hash)
    requires NoDuplicates(order) && TargetsFirst(t, order) && k < |order|
    ensures AddProto(t, Serialised(t, v, hash), order[k], CoreRoundTrip.Indexed(Items(t, v, order[..k]), hash)) ==
            Success(CoreRoundTrip.Indexed(Items(t, v, order[..k + 1]), hash))
  {
    var n := order[k];
    var base := Items(t, v, order[..k]);
    ItemsStep(t, v, order, k);
    if n in LayerSet(t) && v.layers[n] != [] {
      KeyedItems(t, v, hash, order);
      ItemsPrefix(t, v, order, k + 1);
      CoreRoundTrip.KeyedPrefix(Items(t, v, order[..k + 1]), Items(t, v, order), hash);
      RefsBefore(t, v, order, k);
      AddFilledLayer(t, v, hash, n, base);
    } else {
      assert base + Block(t, v, n) == base;
      assert Get(Serialised(t, v, hash), n) == if n in LayerSet(t) then Some(RecordsV([])) else Get(Serialised(t, v, hash), n);
    }
  }

  /** A layer with annotations stores each of them under its id, after the items before it. */
  lemma AddFilledLayer(t: DocType, v: DataValue, hash: Annotation -> int, n: string, base: seq<Item>)
    requires Fits(t, v) && LayersOfClass(t, v) && n in LayerSet(t) && v.layers[n] != []
    requires CoreRoundTrip.Keyed(base + Block(t, v, n), hash)
    requires CoreRoundTrip.RefsIn(Wrapped(v.layers[n]), base)
    ensures AddProto(t, Serialised(t, v, hash), n, CoreRoundTrip.Indexed(base, hash)) ==
            Success(CoreRoundTrip.Indexed(base + Block(t, v, n), hash))
  {
    var es := Wrapped(v.layers[n]);
    WrappedRecords(v.layers[n], hash);
    var value := Get(Serialised(t, v, hash), n).GetOr(NoneV);
    assert value == RecordsV(Records(es, hash));
    assert Truthy(value);
    CoreRoundTrip.AddGoldIndexed(n, t.decls[n].cls, es, base, hash);
  }

  /** The loop over the order, from position `k` on, completes the accumulator. */
  lemma {:induction false} AccumulateFrom(t: DocType, v: DataValue, hash: Annotation -> int, order: seq<string>,
                                          k: nat)
    requires Fits(t, v) && LayersOfClass(t, v) && RelationsTargeted(t, v) && DistinctIds(t, v, hash)
    requires NoDuplicates(order) && TargetsFirst(t, order) && k <= |order|
    ensures AccumulateProto(t, Serialised(t, v, hash), order[k..], CoreRoundTrip.Indexed(Items(t, v, order[..k]), hash)) ==
            Success(CoreRoundTrip.Indexed(Items(t, v, order), hash))
    decreases |order| - k
  {
    if k == |order| {
      assert order[..k] == order;
    } else {
      AddLayer(t, v, hash, order, k);
      assert order[k..][0] == order[k] && order[k..][1..] == order[k + 1..];
      AccumulateFrom(t, v, hash, order, k + 1);
    }
  }

  // ---------------------------------------------------------------------------------------------
  // The append loop

  /** The annotations the items give one layer: its own annotations when it is among `names`
      (once), nothing otherwise. */
  lemma {:induction false} ItemsOfItems(t: DocType, v: DataValue, names: seq<string>, n: string)
    requires Fits(t, v) && NoDuplicates(names) && n in LayerSet(t)
    ensures ItemsOf(Items(t, v, names), n) == if n in names then v.layers[n] else []
    decreases |names|
  {
    if names != [] {
      var init := names[..|names| - 1];
      var last := names[|names| - 1];
      CoreRoundTrip.NoDuplicatesInit(names);
      ItemsOfItems(t, v, init, n);
      ItemsOfConcat(Items(t, v, init), Block(t, v, last), n);
      ItemsOfBlock(t, v, last, n);
      assert n in names <==> n in init || n == last;
    }
  }

  /** The annotations two runs of items give a layer follow each other. */
  lemma {:induction false} ItemsOfConcat(x: seq<Item>, y: seq<Item>, n: string)
    ensures ItemsOf(x + y, n) == ItemsOf(x, n) + ItemsOf(y, n)
    decreases |x|
  {
    if x != [] {
      assert (x + y)[0] == x[0] && (x + y)[1..] == x[1..] + y;
      ItemsOfConcat(x[1..], y, n);
      if x[0].0 == n {
        calc {
          ItemsOf(x + y, n);
          [x[0].1] + ItemsOf(x[1..] + y, n);
          [x[0].1] + (ItemsOf(x[1..], n) + ItemsOf(y, n));
          ([x[0].1] + ItemsOf(x[1..], n)) + ItemsOf(y, n);
        }
      } else {
        assert ItemsOf(x + y, n) == ItemsOf(x[1..] + y, n);
      }
    } else {
      assert x + y == y;
    }
  }

  /** One layer's block gives that layer its annotations and another layer nothing. */
  lemma ItemsOfBlock(t: DocType, v: DataValue, m: string, n: string)
    requires Fits(t, v)
    ensures ItemsOf(Block(t, v, m), n) == if m == n && m in LayerSet(t) then v.layers[n] else []
  {
    if m in LayerSet(t) {
      ItemsOfTag(m, v.layers[m], n);
    }
  }

  lemma {:induction false} ItemsOfTag(m: string, annotations: seq<Annotation>, n: string)
    ensures ItemsOf(CoreRoundTrip.Tag(m, Wrapped(annotations)), n) == if m == n then annotations else []
    decreases |annotations|
  {
    if annotations != [] {
      var items := CoreRoundTrip.Tag(m, Wrapped(annotations));
      assert items[1..] == CoreRoundTrip.Tag(m, Wrapped(annotations[1..]));
      ItemsOfTag(m, annotations[1..], n);
      assert annotations == [annotations[0]] + annotations[1..];
    }
  }

  /** The append loop succeeds when every item's layer has a target `getattr` finds. */
  lemma {:induction false} AppendedSucceeds(t: DocType, plain: map<string, Value>, items: seq<Item>,
                                            lists: map<string, seq<Entry>>)
    requires forall i :: 0 <= i < |items| ==> items[i].0 in LayerSet(t) && items[i].0 in lists
    requires forall i :: 0 <= i < |items| ==> ListTarget(t, plain, TargetOf(t, items[i].0)).Success?
    ensures AppendedEntries(t, plain, items, lists).Success?
    decreases |items|
  {
    if items != [] {
      var n := items[0].0;
      var tv := ListTarget(t, plain, TargetOf(t, n)).value;
      var next := lists[n := lists[n] + [Entry(items[0].1, tv)]];
      assert forall i :: 0 <= i < |items[1..]| ==> items[1..][i] == items[i + 1];
      AppendedSucceeds(t, plain, items[1..], next);
    }
  }

  /** Every item names a layer of the order whose target `getattr` finds on the rebuilt document. */
  lemma ItemsResolvable(t: ProtoType, v: DataValue, order: seq<string>, plain: map<string, Value>)
    requires Fits(t, v) && TargetsFirst(t, order) && plain.Keys == {TEXT, ID}
    ensures forall i :: 0 <= i < |Items(t, v, order)| ==>
              Items(t, v, order)[i].0 in LayerSet(t) && ListTarget(t, plain, TargetOf(t, Items(t, v, order)[i].0)).Success?
  {
    forall i | 0 <= i < |Items(t, v, order)|
      ensures Items(t, v, order)[i].0 in LayerSet(t) && ListTarget(t, plain, TargetOf(t, Items(t, v, order)[i].0)).Success?
    {
      var _ := ItemsOrigin(t, v, order, i);
      var n := Items(t, v, order)[i].0;
      var p :| 0 <= p < |order| && order[p] == n;
      var target := TargetOf(t, n).value;
      assert target in LayerSet(t) || target == TEXT || target == ID;
    }
  }

  // ---------------------------------------------------------------------------------------------
  // The round trip

  /** `MyDocument.fromdict(doc.asdict()) == doc` and `fromdict(doc.asdict()).asdict() == doc.asdict()`
      (`tests/data/test_new_document_and_datasets.py`'s `test_create_static_document`), for any
      prototype document whose layers the search from the text all reaches, whose relations refer
      to the layer they target, and whose annotations have distinct ids. */
  lemma FromDictAsDict(t: ProtoType, v: DataValue, hash: Annotation -> int, g: Graph, order: seq<string>)
    requires Fits(t, v) && LayersOfClass(t, v) && RelationsTargeted(t, v) && DistinctIds(t, v, hash)
    requires ReverseOf(t, g) && Visits(g, order) && forall n :: n in LayerSet(t) ==> n in order
    ensures var r := ProtoRebuilt(t, Serialised(t, v, hash), order);
            r.Success? && r.value.plain == v.plain && HeldLayers(r.value.lists) == v.layers &&
            Serialised(t, DataValue(r.value.plain, HeldLayers(r.value.lists)), hash) == Serialised(t, v, hash)
  {
    VisitsTargetsFirst(t, g, order);
    Rebuilt(t, v, hash, order);
    var r := ProtoRebuilt(t, Serialised(t, v, hash), order);
    assert DataValue(r.value.plain, HeldLayers(r.value.lists)) == v;
  }

  /** With the targets of the order before their layers, `fromdict` on the serialised document
      succeeds with the document's plain fields and the annotations of each of its layers. */
  lemma Rebuilt(t: ProtoType, v: DataValue, hash: Annotation -> int, order: seq<string>)
    requires Fits(t, v) && LayersOfClass(t, v) && RelationsTargeted(t, v) && DistinctIds(t, v, hash)
    requires NoDuplicates(order) && TargetsFirst(t, order) && forall n :: n in LayerSet(t) ==> n in order
    ensures var r := ProtoRebuilt(t, Serialised(t, v, hash), order);
            r.Success? && r.value.plain == v.plain && HeldLayers(r.value.lists) == v.layers
  {
    var d := Serialised(t, v, hash);
    PlainRestored(t, v, hash);
    Accumulated(t, v, hash, order);
    var items := Items(t, v, order);
    CoreRoundTrip.ValuesIndexed(items, hash);
    ItemsResolvable(t, v, order, v.plain);
    ProtoRebuiltSteps(t, d, order, v.plain, CoreRoundTrip.Indexed(items, hash));
    LayersRestored(t, v, order, items);
  }

  /** `cls(text=dct["text"], id=dct.get("id"))` on the serialised document gives its plain fields back. */
  lemma PlainRestored(t: ProtoType, v: DataValue, hash: Annotation -> int)
    requires Fits(t, v)
    ensures ProtoPlain(Serialised(t, v, hash)) == Success(v.plain)
  {
    ProtoPlainSet(t);
    assert map[TEXT := v.plain[TEXT], ID := v.plain[ID]] == v.plain;
  }

  /** The accumulation loop over the whole order, on the serialised document. */
  lemma Accumulated(t: DocType, v: DataValue, hash: Annotation -> int, order: seq<string>)
    requires Fits(t, v) && LayersOfClass(t, v) && RelationsTargeted(t, v) && DistinctIds(t, v, hash)
    requires NoDuplicates(order) && TargetsFirst(t, order)
    ensures AccumulateProto(t, Serialised(t, v, hash), order, []) == Success(CoreRoundTrip.Indexed(Items(t, v, order), hash))
  {
    AccumulateFrom(t, v, hash, order, 0);
    assert order[0..] == order && order[..0] == [];
    assert CoreRoundTrip.Indexed([], hash) == [];
  }

  /** Appending the items to empty layers restores every layer. */
  lemma LayersRestored(t: DocType, v: DataValue, order: seq<string>, items: seq<Item>)
    requires Fits(t, v) && NoDuplicates(order) && items == Items(t, v, order)
    requires forall n :: n in LayerSet(t) ==> n in order
    requires forall i :: 0 <= i < |items| ==> items[i].0 in LayerSet(t) && ListTarget(t, v.plain, TargetOf(t, items[i].0)).Success?
    ensures AppendedEntries(t, v.plain, items, EmptyLayers(t)).Success?
    ensures HeldLayers(AppendedEntries(t, v.plain, items, EmptyLayers(t)).value) == v.layers
  {
    AppendedFromEmpty(t, v.plain, items);
    AppendedRestores(t, v, order);
  }

  /** From layers without entries, the append loop succeeds and holds the appended annotations. */
  lemma AppendedFromEmpty(t: DocType, plain: map<string, Value>, items: seq<Item>)
    requires forall i :: 0 <= i < |items| ==> items[i].0 in LayerSet(t) && ListTarget(t, plain, TargetOf(t, items[i].0)).Success?
    ensures AppendedEntries(t, plain, items, EmptyLayers(t)).Success?
    ensures HeldLayers(AppendedEntries(t, plain, items, EmptyLayers(t)).value) == Appended(items, NoAnnotations(t))
  {
    AppendedSucceeds(t, plain, items, EmptyLayers(t));
    EmptyHeld(t);
  }

  /** Layers without entries hold no annotations. */
  lemma EmptyHeld(t: DocType)
    ensures HeldLayers(EmptyLayers(t)) == NoAnnotations(t)
  {
    forall n | n in LayerSet(t) ensures HeldLayers(EmptyLayers(t))[n] == NoAnnotations(t)[n] {
      assert Held([]) == [];
    }
  }

  /** Appending the items of the order to layers without annotations gives the document's layers. */
  lemma AppendedRestores(t: DocType, v: DataValue, order: seq<string>)
    requires Fits(t, v) && NoDuplicates(order) && forall n :: n in LayerSet(t) ==> n in order
    requires forall i :: 0 <= i < |Items(t, v, order)| ==> Items(t, v, order)[i].0 in LayerSet(t)
    ensures Appended(Items(t, v, order), NoAnnotations(t)) == v.layers
  {
    var r := Appended(Items(t, v, order), NoAnnotations(t));
    forall n | n in LayerSet(t) ensures r[n] == v.layers[n] {
      ItemsOfItems(t, v, order, n);
    }
  }
}
