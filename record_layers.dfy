/** What the two earlier document variants (`pytorch_ie.data.document` and the prototype) share: a
    layer is an ordered list of annotations, serialised as a list of annotation dicts; `__post_init__`
    records the reverse target map; `fromdict` walks it depth-first from the text, gathers every
    rebuilt annotation in one id-keyed accumulator and only at the end appends each to the layer it
    came from. */
module RecordLayers {
  import opened Wrappers
  import opened PyLists
  import opened PyDicts
  import opened Annotations
  import opened FieldValues
  import opened CoreModel
  import opened Traversal

  /** The field the depth-first search of `fromdict` starts from. */
  const TEXT := "text"

  /** The annotations each layer holds. */
  type Layers = map<string, seq<Annotation>>

  /** The state of a document: its plain field values and the annotations of each layer. */
  datatype DataValue = DataValue(plain: map<string, Value>, layers: Layers)

  predicate Fits(t: DocType, v: DataValue) {
    v.plain.Keys == PlainSet(t) && v.layers.Keys == LayerSet(t)
  }

  function NoAnnotations(t: DocType): (m: Layers)
    ensures m.Keys == LayerSet(t) && forall n :: n in m ==> m[n] == []
  {
    map n | n in LayerSet(t) :: []
  }

  /** `[v.asdict() for v in layer]` */
  function AnnotationRecords(annotations: seq<Annotation>, hash: Annotation -> int): (r: seq<AnnotationDict>)
    ensures |r| == |annotations|
    ensures forall i :: 0 <= i < |r| ==> r[i] == AsDict(annotations[i], hash)
  {
    seq(|annotations|, i requires 0 <= i < |annotations| => AsDict(annotations[i], hash))
  }

  /** The annotations of the items that name layer `n`, in item order. */
  function ItemsOf(items: seq<(string, Annotation)>, n: string): (r: seq<Annotation>)
    ensures |r| <= |items|
    decreases |items|
  {
    if items == [] then []
    else if items[0].0 == n then [items[0].1] + ItemsOf(items[1..], n) else ItemsOf(items[1..], n)
  }

  /** `for field_name, annotation in annotations.values(): getattr(doc, field_name).append(annotation)`,
      on the annotations each layer holds: every layer receives, at its end and in item order, exactly
      the annotations of the items that name it. */
  function Appended(items: seq<(string, Annotation)>, layers: Layers): (r: Layers)
    requires forall i :: 0 <= i < |items| ==> items[i].0 in layers
    ensures r.Keys == layers.Keys
    ensures forall n :: n in r ==> r[n] == layers[n] + ItemsOf(items, n)
    decreases |items|
  {
    if items == [] then layers
    else
      var n := items[0].0;
      var next := layers[n := layers[n] + [items[0].1]];
      var r := Appended(items[1..], next);
      AppendedHead(items, layers, r);
      r
  }

  /** The first item's annotation goes to the end of its layer, before those of the later items. */
  lemma AppendedHead(items: seq<(string, Annotation)>, layers: Layers, r: Layers)
    requires items != [] && items[0].0 in layers && r.Keys == layers.Keys
    requires var n := items[0].0;
             forall m :: m in r ==> r[m] == layers[n := layers[n] + [items[0].1]][m] + ItemsOf(items[1..], m)
    ensures forall m :: m in r ==> r[m] == layers[m] + ItemsOf(items, m)
  {
    var n := items[0].0;
    var updated := layers[n := layers[n] + [items[0].1]];
    forall m | m in r ensures r[m] == layers[m] + ItemsOf(items, m) {
      var rest := ItemsOf(items[1..], m);
      assert r[m] == updated[m] + rest;
      if m == n {
        assert ItemsOf(items, n) == [items[0].1] + rest;
        assert (layers[n] + [items[0].1]) + rest == layers[n] + ([items[0].1] + rest);
      } else {
        assert updated[m] == layers[m];
        assert ItemsOf(items, m) == rest;
      }
    }
  }

  /** The annotations a layer receives are exactly those of the items that name it. */
  lemma {:induction false} ItemsOfMembers(items: seq<(string, Annotation)>, n: string)
    ensures forall a :: a in ItemsOf(items, n) <==> (n, a) in items
    decreases |items|
  {
    if items != [] {
      ItemsOfMembers(items[1..], n);
      assert forall a :: (n, a) in items <==> (n, a) == items[0] || (n, a) in items[1..];
    }
  }

  /** No annotation comes to a layer that no item names. */
  lemma {:induction false} ItemsOfUnnamed(items: seq<(string, Annotation)>, n: string)
    requires forall i :: 0 <= i < |items| ==> items[i].0 != n
    ensures ItemsOf(items, n) == []
    decreases |items|
  {
    if items != [] {
      ItemsOfUnnamed(items[1..], n);
    }
  }

  /** A reverse target map of the document class, for either order the edge set may yield: each
      layer is listed once, under its target. */
  ghost predicate ReverseOf(t: DocType, g: Graph) {
    (forall dst :: dst in g <==> exists n :: n in LayerSet(t) && TargetOf(t, n) == dst) &&
    (forall dst :: dst in g ==> NoDuplicates(g[dst])) &&
    (forall dst :: dst in g ==> forall n :: n in g[dst] <==> n in LayerSet(t) && TargetOf(t, n) == dst)
  }

  /** Reversing the `(field.name, target)` edges of all layers gives a reverse target map of the class. */
  lemma EdgesReversed(t: DocType, edges: set<(string, Option<string>)>, g: Graph)
    requires forall e :: e in edges <==> e.0 in LayerSet(t) && e.1 == TargetOf(t, e.0)
    requires ReverseMap(edges, g)
    ensures ReverseOf(t, g)
  {
    forall dst | dst in g ensures exists n :: n in LayerSet(t) && TargetOf(t, n) == dst {
      var src :| (src, dst) in edges;
    }
    forall n | n in LayerSet(t) ensures TargetOf(t, n) in g {
      assert (n, TargetOf(t, n)) in edges;
    }
  }

  /** The nodes the search from the text reaches, in the order it lists them. */
  ghost predicate Visits(g: Graph, order: seq<string>) {
    |order| > 0 && order[0] == TEXT && NoDuplicates(order) &&
    HasParents(g, order, 0) && forall x :: x in order <==> Reachable(g, TEXT, x)
  }

  /** `asdict`: every declared field, in declaration order; a layer becomes the list of its
      annotation dicts, any other field is copied as it is. */
  function Serialised(t: DocType, v: DataValue, hash: Annotation -> int): (d: PyDict<string, Value>)
    requires Fits(t, v)
    ensures Keys(d) == t.order && Valid(d)
    ensures forall n :: n in PlainSet(t) ==> Get(d, n) == Some(v.plain[n])
    ensures forall n :: n in LayerSet(t) ==> Get(d, n) == Some(RecordsV(AnnotationRecords(v.layers[n], hash)))
  {
    OrderDeclared(t);
    var d := seq(|t.order|, i requires 0 <= i < |t.order| => (t.order[i], Stored(t, v, hash, t.order[i])));
    SerialisedFound(t, v, hash, d);
    d
  }

  /** What `asdict` stores for one declared field. */
  function Stored(t: DocType, v: DataValue, hash: Annotation -> int, n: string): Value
    requires Fits(t, v) && n in t.decls
  {
    if n in LayerSet(t) then RecordsV(AnnotationRecords(v.layers[n], hash)) else assert n in PlainSet(t); v.plain[n]
  }

  /** Every name of the declaration order is a declared field. */
  lemma OrderDeclared(t: DocType)
    ensures forall i :: 0 <= i < |t.order| ==> t.order[i] in t.decls
  {
    forall i | 0 <= i < |t.order| ensures t.order[i] in t.decls {
      assert t.order[i] in (set n | n in t.order);
    }
  }

  /** The dict of the fields in declaration order finds each field's stored value. */
  lemma SerialisedFound(t: DocType, v: DataValue, hash: Annotation -> int, d: PyDict<string, Value>)
    requires Fits(t, v) && |d| == |t.order|
    requires forall i :: 0 <= i < |d| ==> d[i].0 == t.order[i] && d[i].0 in t.decls && d[i].1 == Stored(t, v, hash, d[i].0)
    ensures Keys(d) == t.order && Valid(d)
    ensures forall n :: n in t.decls ==> Get(d, n) == Some(Stored(t, v, hash, n))
  {
    assert Keys(d) == t.order;
    DistinctNoDuplicates(t.order);
    forall n | n in t.decls ensures Get(d, n) == Some(Stored(t, v, hash, n)) {
      assert n in (set m | m in t.order);
      GetAt(d, FirstIndex(t.order, n));
    }
  }

  /** A layer without a target is never reached from the text (unless it is the text field itself). */
  lemma UntargetedUnreached(t: DocType, g: Graph, n: string)
    requires ReverseOf(t, g)
    requires n in LayerSet(t) && TargetOf(t, n).None? && n != TEXT
    ensures !Reachable(g, TEXT, n)
  {
    forall w | IsWalk(g, w) && w[0] == TEXT ensures w[|w| - 1] != n {
      if |w| > 1 {
        assert Step(g, w, |w| - 2);
        var last := w[|w| - 1];
        assert Some(w[|w| - 2]) in g && last in g[Some(w[|w| - 2])];
        assert TargetOf(t, last) == Some(w[|w| - 2]);
      }
    }
  }

}
