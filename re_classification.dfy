/** The relation classification task module: one encoding per ordered pair of entities of a
    document (restricted to the annotated pairs when the document has relations), in which the
    head and the tail are wrapped in marker tokens; `prepare` numbers the relation labels after
    `no_relation`, a pair's target is the id of its gold label (or of `no_relation`), and predicted
    labels other than `no_relation` become binary relations. The tokenizer is a function parameter,
    and so is its vocabulary once the marker tokens have been added to it. */
module RelationClassification {
  import opened Wrappers
  import opened PyLists
  import opened PyDicts
  import opened Annotations
  import opened TaskDocuments
  import TaskModule

  const NO_RELATION := "no_relation"

  // ----- argument markers --------------------------------------------------------------------

  datatype Argument = Head | Tail
  datatype Boundary = Start | End

  /** The key of an argument marker: `(arg_type, arg_pos)`, or `(arg_type, arg_pos, entity_type)`
      when markers carry entity types. */
  datatype MarkerKey = MarkerKey(arg: Argument, pos: Boundary, entityType: Option<string>)

  /** The marker text of a key: `[H]`, `[/H]`, `[T]`, `[/T]`, or with `:type` before the bracket. */
  function Marker(key: MarkerKey): string {
    "[" + (if key.pos == Start then "" else "/") + (if key.arg == Head then "H" else "T") +
    (if key.entityType.Some? then ":" + key.entityType.value else "") + "]"
  }

  /** The two markers of one argument, and the markers of the two arguments, differ whatever the
      entity types; so do the markers of two entity types that differ. */
  lemma MarkersDiffer(k1: MarkerKey, k2: MarkerKey)
    requires k1 != k2
    ensures Marker(k1) != Marker(k2)
  {
    var m1, m2 := Marker(k1), Marker(k2);
    if k1.pos != k2.pos {
      assert (m1[1] == '/') != (m2[1] == '/');
    } else if k1.arg != k2.arg {
      var p := if k1.pos == Start then 1 else 2;
      assert m1[p] != m2[p];
    } else if k1.entityType.None? || k2.entityType.None? {
      assert |m1| != |m2|;
    } else {
      var p := if k1.pos == Start then 3 else 4;
      var t1, t2 := k1.entityType.value, k2.entityType.value;
      assert m1 == m1[..p] + t1 + "]" && m2 == m2[..p] + t2 + "]";
      assert m1[..p] == m2[..p];
      if |t1| == |t2| {
        assert m1[p..p + |t1|] == t1 && m2[p..p + |t2|] == t2;
      }
    }
  }

  /** The Python representation of a key, as a KeyError shows it. */
  function KeyRepr(key: MarkerKey): string {
    "('" + (if key.arg == Head then "head" else "tail") + "', '" + (if key.pos == Start then "start" else "end") + "'" +
    (if key.entityType.Some? then ", '" + key.entityType.value + "'" else "") + ")"
  }

  /** The markers of one (argument, boundary): one per entity type, or a single untyped one. */
  function BoundaryItems(arg: Argument, pos: Boundary, addType: bool, types: seq<string>): (r: PyDict<MarkerKey, string>)
    ensures MarkerValued(r)
    ensures forall key :: key in Keys(r) <==>
              key.arg == arg && key.pos == pos &&
              (if addType then key.entityType.Some? && key.entityType.value in types else key.entityType.None?)
  {
    if addType then
      var r := seq(|types|, i requires 0 <= i < |types| => (MarkerKey(arg, pos, Some(types[i])), Marker(MarkerKey(arg, pos, Some(types[i])))));
      assert forall i :: 0 <= i < |types| ==> Keys(r)[i] == MarkerKey(arg, pos, Some(types[i]));
      r
    else
      var r := [(MarkerKey(arg, pos, None), Marker(MarkerKey(arg, pos, None)))];
      assert Keys(r) == [MarkerKey(arg, pos, None)];
      r
  }

  /** Every item holds the marker of its key. */
  predicate MarkerValued(d: PyDict<MarkerKey, string>) {
    forall i :: 0 <= i < |d| ==> d[i].1 == Marker(d[i].0)
  }

  /** Joining two runs of marker assignments. */
  lemma ItemsConcat(x: PyDict<MarkerKey, string>, y: PyDict<MarkerKey, string>)
    requires MarkerValued(x) && MarkerValued(y)
    ensures MarkerValued(x + y)
    ensures forall key :: key in Keys(x + y) <==> key in Keys(x) || key in Keys(y)
  {
    assert Keys(x + y) == Keys(x) + Keys(y);
    forall i | 0 <= i < |x + y| ensures (x + y)[i].1 == Marker((x + y)[i].0) {
      if i >= |x| {
        assert (x + y)[i] == y[i - |x|];
      }
    }
  }

  /** The assignments of `_create_argument_markers`, in loop order: head start, head end, tail
      start, tail end. */
  function MarkerItems(addType: bool, types: seq<string>): (r: PyDict<MarkerKey, string>)
    ensures MarkerValued(r)
    ensures forall key :: key in Keys(r) <==>
              if addType then key.entityType.Some? && key.entityType.value in types else key.entityType.None?
  {
    var a, b := BoundaryItems(Head, Start, addType, types), BoundaryItems(Head, End, addType, types);
    var c, d := BoundaryItems(Tail, Start, addType, types), BoundaryItems(Tail, End, addType, types);
    ItemsConcat(a, b);
    ItemsConcat(a + b, c);
    ItemsConcat(a + b + c, d);
    a + b + c + d
  }

  /** `_create_argument_markers`: iterating over the entity labels fails when markers carry types
      and there are none (None). */
  function ArgumentMarkers(addType: bool, entityLabels: Option<seq<string>>): (r: Result<PyDict<MarkerKey, string>>)
    ensures r.Failure? <==> addType && entityLabels.None?
    ensures r.Failure? ==> r.error == TypeError(NOT_ITERABLE)
  {
    if addType && entityLabels.None? then Failure(TypeError(NOT_ITERABLE))
    else Success(Merge([], MarkerItems(addType, entityLabels.GetOr([]))))
  }

  /** Assigning items whose values are the markers of their keys gives a dict of exactly those keys,
      holding each key's marker. */
  lemma {:induction false} MergeMarkers(b: PyDict<MarkerKey, string>)
    requires MarkerValued(b)
    ensures forall key :: key in Keys(Merge([], b)) <==> key in Keys(b)
    ensures MarkerValued(Merge([], b))
    decreases |b|
  {
    if b != [] {
      var n := |b| - 1;
      MergeMarkers(b[..n]);
      assert Keys(b) == Keys(b[..n]) + [b[n].0];
    }
  }

  /** The markers: with types, each key (argument, boundary, t) of an entity type t holds its
      marker `[H:t]`, `[/H:t]`, `[T:t]` or `[/T:t]`; without, each key (argument, boundary) holds
      `[H]`, `[/H]`, `[T]` or `[/T]`; there is no other key. */
  lemma ArgumentMarkersKeys(addType: bool, entityLabels: Option<seq<string>>)
    requires !addType || entityLabels.Some?
    ensures var m := ArgumentMarkers(addType, entityLabels);
            m.Success? &&
            (forall key :: key in Keys(m.value) <==>
                 if addType then key.entityType.Some? && key.entityType.value in entityLabels.value
                 else key.entityType.None?) &&
            (forall key :: key in Keys(m.value) ==> Get(m.value, key) == Some(Marker(key)))
  {
    var items := MarkerItems(addType, entityLabels.GetOr([]));
    MergeMarkers(items);
    var m := Merge([], items);
    forall key | key in Keys(m) ensures Get(m, key) == Some(Marker(key)) {
      GetStored(m, key);
    }
  }

  /** Without entity types the markers are exactly `[H]`, `[/H]`, `[T]` and `[/T]`. */
  lemma UntypedMarkers(entityLabels: Option<seq<string>>)
    ensures var m := ArgumentMarkers(false, entityLabels);
            m.Success? &&
            Get(m.value, MarkerKey(Head, Start, None)) == Some("[H]") &&
            Get(m.value, MarkerKey(Head, End, None)) == Some("[/H]") &&
            Get(m.value, MarkerKey(Tail, Start, None)) == Some("[T]") &&
            Get(m.value, MarkerKey(Tail, End, None)) == Some("[/T]")
  {
    UntypedMarker(Head, Start, entityLabels);
    UntypedMarker(Head, End, entityLabels);
    UntypedMarker(Tail, Start, entityLabels);
    UntypedMarker(Tail, End, entityLabels);
    UntypedMarkerText();
  }

  /** The four untyped markers spelled out. */
  lemma UntypedMarkerText()
    ensures Marker(MarkerKey(Head, Start, None)) == "[H]" && Marker(MarkerKey(Head, End, None)) == "[/H]"
    ensures Marker(MarkerKey(Tail, Start, None)) == "[T]" && Marker(MarkerKey(Tail, End, None)) == "[/T]"
  {
    assert Marker(MarkerKey(Head, Start, None)) == "[H]";
    assert Marker(MarkerKey(Head, End, None)) == "[/H]";
    assert Marker(MarkerKey(Tail, Start, None)) == "[T]";
    assert Marker(MarkerKey(Tail, End, None)) == "[/T]";
  }

  /** Without entity types, each boundary of each argument holds its untyped marker. */
  lemma UntypedMarker(arg: Argument, pos: Boundary, entityLabels: Option<seq<string>>)
    ensures var m := ArgumentMarkers(false, entityLabels);
            m.Success? && Get(m.value, MarkerKey(arg, pos, None)) == Some(Marker(MarkerKey(arg, pos, None)))
  {
    ArgumentMarkersKeys(false, entityLabels);
  }

  /** What the encoding loop uses to mark the arguments: the markers, the tokenizer's vocabulary
      once the markers have been added to it, and whether markers carry entity types. */
  datatype Markup = Markup(markers: PyDict<MarkerKey, string>, vocab: string -> int, addType: bool)

  /** `self.argument_markers_to_id[self.argument_markers[key]]` for an argument's boundary. */
  function MarkerId(m: Markup, arg: Argument, pos: Boundary, a: LabeledSpanAnnotation): (r: Result<int>)
    ensures var key := MarkerKey(arg, pos, if m.addType then Some(a.tag) else None);
            (r.Failure? <==> key !in Keys(m.markers)) &&
            (r.Failure? ==> r.error == KeyError(KeyRepr(key))) &&
            (r.Success? ==> r.value == m.vocab(Get(m.markers, key).value))
  {
    var key := MarkerKey(arg, pos, if m.addType then Some(a.tag) else None);
    match Get(m.markers, key)
    case None => Failure(KeyError(KeyRepr(key)))
    case Some(marker) => Success(m.vocab(marker))
  }

  // ----- splicing the markers in -------------------------------------------------------------

  /** An argument's token range `[start, end)` and the ids of its two markers. */
  datatype ArgumentSpan = ArgumentSpan(start: int, end: int, startMarker: int, endMarker: int)

  /** The new input ids: prefix, start marker, first span, end marker, middle, start marker, second
      span, end marker, suffix, with Python's slicing. */
  function Spliced(ids: seq<int>, first: ArgumentSpan, second: ArgumentSpan): seq<int> {
    Slice(ids, 0, first.start) + [first.startMarker] + Slice(ids, first.start, first.end) + [first.endMarker] +
    Slice(ids, first.end, second.start) + [second.startMarker] + Slice(ids, second.start, second.end) +
    [second.endMarker] + Slice(ids, second.end, |ids|)
  }

  /** The head is wrapped first exactly when it starts before the tail. */
  function Inserted(ids: seq<int>, head: ArgumentSpan, tail: ArgumentSpan): seq<int> {
    if head.start < tail.start then Spliced(ids, head, tail) else Spliced(ids, tail, head)
  }

  /** The two spans lie inside the ids, the first wholly before the second. */
  predicate InOrder(ids: seq<int>, first: ArgumentSpan, second: ArgumentSpan) {
    0 <= first.start <= first.end <= second.start <= second.end <= |ids|
  }

  /** One of the four marker ids. */
  predicate IsMarker(x: int, first: ArgumentSpan, second: ArgumentSpan) {
    x == first.startMarker || x == first.endMarker || x == second.startMarker || x == second.endMarker
  }

  /** The ids hold none of the four marker ids. */
  predicate Unmarked(ids: seq<int>, first: ArgumentSpan, second: ArgumentSpan) {
    forall x :: x in ids ==> !IsMarker(x, first, second)
  }

  /** The four marker ids are pairwise distinct. */
  predicate DistinctMarkers(first: ArgumentSpan, second: ArgumentSpan) {
    first.startMarker != first.endMarker && first.startMarker != second.startMarker &&
    first.startMarker != second.endMarker && first.endMarker != second.startMarker &&
    first.endMarker != second.endMarker && second.startMarker != second.endMarker
  }

  /** Where the spans do not overlap, Python's slices are plain slices. */
  lemma SplicedParts(ids: seq<int>, first: ArgumentSpan, second: ArgumentSpan)
    requires InOrder(ids, first, second)
    ensures Spliced(ids, first, second) ==
            ids[0..first.start] + [first.startMarker] + ids[first.start..first.end] + [first.endMarker] +
            ids[first.end..second.start] + [second.startMarker] + ids[second.start..second.end] + [second.endMarker] +
            ids[second.end..|ids|]
  {
  }

  /** The new ids, as the concatenation of four pieces that each end in a marker and the rest. */
  lemma SplicedPieces(ids: seq<int>, first: ArgumentSpan, second: ArgumentSpan)
      returns (a: seq<int>, b: seq<int>, c: seq<int>, d: seq<int>)
    requires InOrder(ids, first, second)
    ensures a == ids[..first.start] + [first.startMarker]
    ensures b == a + ids[first.start..first.end] + [first.endMarker]
    ensures c == b + ids[first.end..second.start] + [second.startMarker]
    ensures d == c + ids[second.start..second.end] + [second.endMarker]
    ensures Spliced(ids, first, second) == d + ids[second.end..]
    ensures |a| == first.start + 1 && |b| == first.end + 2 && |c| == second.start + 3 && |d| == second.end + 4
  {
    SplicedParts(ids, first, second);
    a := ids[..first.start] + [first.startMarker];
    b := a + ids[first.start..first.end] + [first.endMarker];
    c := b + ids[first.end..second.start] + [second.startMarker];
    d := c + ids[second.start..second.end] + [second.endMarker];
  }

  /** The four markers sit at `first.start`, `first.end + 1`, `second.start + 2` and
      `second.end + 3`. */
  lemma SplicedMarkers(ids: seq<int>, first: ArgumentSpan, second: ArgumentSpan)
    requires InOrder(ids, first, second)
    ensures var r := Spliced(ids, first, second);
            |r| == |ids| + 4 &&
            r[first.start] == first.startMarker && r[first.end + 1] == first.endMarker &&
            r[second.start + 2] == second.startMarker && r[second.end + 3] == second.endMarker
  {
    var a, b, c, d := SplicedPieces(ids, first, second);
    var r := Spliced(ids, first, second);
    assert r[first.start] == d[first.start] == c[first.start] == b[first.start] == a[first.start];
    assert r[first.end + 1] == d[first.end + 1] == c[first.end + 1] == b[first.end + 1];
    assert r[second.start + 2] == d[second.start + 2] == c[second.start + 2];
    assert r[second.end + 3] == d[second.end + 3];
  }

  /** Before the first span the ids are unchanged. */
  lemma SplicedBefore(ids: seq<int>, first: ArgumentSpan, second: ArgumentSpan, j: nat)
    requires InOrder(ids, first, second) && j < first.start
    ensures j < |Spliced(ids, first, second)| && Spliced(ids, first, second)[j] == ids[j]
  {
    var a, b, c, d := SplicedPieces(ids, first, second);
    assert Spliced(ids, first, second)[j] == d[j] == c[j] == b[j] == a[j];
  }

  /** Inside the first span the ids move by one. */
  lemma SplicedInFirst(ids: seq<int>, first: ArgumentSpan, second: ArgumentSpan, j: nat)
    requires InOrder(ids, first, second) && first.start < j < first.end + 1
    ensures j < |Spliced(ids, first, second)| && Spliced(ids, first, second)[j] == ids[j - 1]
  {
    var a, b, c, d := SplicedPieces(ids, first, second);
    var s2 := ids[first.start..first.end];
    var as2 := a + s2;
    assert b == as2 + [first.endMarker];
    assert b[j] == as2[j];
    assert as2[j] == s2[j - |a|];
    assert Spliced(ids, first, second)[j] == d[j] == c[j] == b[j];
  }

  /** Between the spans the ids move by two. */
  lemma SplicedBetween(ids: seq<int>, first: ArgumentSpan, second: ArgumentSpan, j: nat)
    requires InOrder(ids, first, second) && first.end + 1 < j < second.start + 2
    ensures j < |Spliced(ids, first, second)| && Spliced(ids, first, second)[j] == ids[j - 2]
  {
    var a, b, c, d := SplicedPieces(ids, first, second);
    assert Spliced(ids, first, second)[j] == d[j] == c[j];
  }

  /** Inside the second span the ids move by three. */
  lemma SplicedInSecond(ids: seq<int>, first: ArgumentSpan, second: ArgumentSpan, j: nat)
    requires InOrder(ids, first, second) && second.start + 2 < j < second.end + 3
    ensures j < |Spliced(ids, first, second)| && Spliced(ids, first, second)[j] == ids[j - 3]
  {
    var a, b, c, d := SplicedPieces(ids, first, second);
    var s4 := ids[second.start..second.end];
    var cs := c + s4;
    assert d == cs + [second.endMarker];
    assert d[j] == cs[j];
    assert cs[j] == s4[j - |c|];
    assert Spliced(ids, first, second)[j] == d[j];
  }

  /** After the second span the ids move by four. */
  lemma SplicedAfter(ids: seq<int>, first: ArgumentSpan, second: ArgumentSpan, j: nat)
    requires InOrder(ids, first, second) && second.end + 3 < j < |ids| + 4
    ensures j < |Spliced(ids, first, second)| && Spliced(ids, first, second)[j] == ids[j - 4]
  {
    var a, b, c, d := SplicedPieces(ids, first, second);
  }

  /** The elements of a slice are elements of the list. */
  lemma SliceMembers(ids: seq<int>, i: nat, j: nat)
    requires i <= j <= |ids|
    ensures forall x :: x in ids[i..j] ==> x in ids
  {
    forall x | x in ids[i..j] ensures x in ids {
      var k :| 0 <= k < j - i && ids[i..j][k] == x;
      assert ids[i + k] == x;
    }
  }

  /** A prefix is the prefix up to an earlier point and the slice from there. */
  lemma PrefixSplit(ids: seq<int>, i: nat, j: nat)
    requires i <= j <= |ids|
    ensures ids[..j] == ids[..i] + ids[i..j]
  {
  }

  /** The filter that deletes the four marker ids. */
  function NotMarker(first: ArgumentSpan, second: ArgumentSpan): int -> bool {
    x => !IsMarker(x, first, second)
  }

  /** Deleting the markers from a slice of ids that hold none changes nothing. */
  lemma UnmarkedSlice(ids: seq<int>, i: nat, j: nat, first: ArgumentSpan, second: ArgumentSpan)
    requires i <= j <= |ids| && Unmarked(ids, first, second)
    ensures Filter(ids[i..j], NotMarker(first, second)) == ids[i..j]
  {
    SliceMembers(ids, i, j);
    FilterAll(ids[i..j], NotMarker(first, second));
  }

  /** Deleting the markers across one marker and the slice after it extends the prefix. */
  lemma UnmarkStep(pre: seq<int>, m: int, ids: seq<int>, i: nat, j: nat, first: ArgumentSpan, second: ArgumentSpan)
    requires i <= j <= |ids| && Unmarked(ids, first, second) && IsMarker(m, first, second)
    requires Filter(pre, NotMarker(first, second)) == ids[..i]
    ensures Filter(pre + [m] + ids[i..j], NotMarker(first, second)) == ids[..j]
  {
    UnmarkedSlice(ids, i, j, first, second);
    FilterAcross(pre, m, ids[i..j], NotMarker(first, second));
    PrefixSplit(ids, i, j);
  }

  /** Deleting the markers from the new ids gives back the old ones, when the old ids hold no
      marker. */
  lemma SplicedUnmarked(ids: seq<int>, first: ArgumentSpan, second: ArgumentSpan)
    requires InOrder(ids, first, second) && Unmarked(ids, first, second)
    ensures Filter(Spliced(ids, first, second), NotMarker(first, second)) == ids
  {
    var (fs, fe, ss, se) := (first.start, first.end, second.start, second.end);
    SplicedParts(ids, first, second);
    var l0 := ids[0..fs];
    var l1 := l0 + [first.startMarker] + ids[fs..fe];
    var l2 := l1 + [first.endMarker] + ids[fe..ss];
    var l3 := l2 + [second.startMarker] + ids[ss..se];
    var l4 := l3 + [second.endMarker] + ids[se..|ids|];
    UnmarkedSlice(ids, 0, fs, first, second);
    assert ids[..fs] == ids[0..fs];
    UnmarkStep(l0, first.startMarker, ids, fs, fe, first, second);
    UnmarkStep(l1, first.endMarker, ids, fe, ss, first, second);
    UnmarkStep(l2, second.startMarker, ids, ss, se, first, second);
    UnmarkStep(l3, second.endMarker, ids, se, |ids|, first, second);
    assert ids[..|ids|] == ids;
  }

  /** `(new_input_ids.index(start_marker), new_input_ids.index(end_marker))` */
  function Offsets(ids: seq<int>, s: ArgumentSpan): (int, int)
    requires s.startMarker in ids && s.endMarker in ids
  {
    (FirstIndex(ids, s.startMarker), FirstIndex(ids, s.endMarker))
  }

  /** Away from the four marker positions the new ids hold no marker, when the old ids hold none. */
  lemma SplicedPlainAt(ids: seq<int>, first: ArgumentSpan, second: ArgumentSpan, j: nat)
    requires InOrder(ids, first, second) && Unmarked(ids, first, second) && j < |ids| + 4
    requires j != first.start && j != first.end + 1 && j != second.start + 2 && j != second.end + 3
    ensures j < |Spliced(ids, first, second)| && !IsMarker(Spliced(ids, first, second)[j], first, second)
  {
    if j < first.start {
      SplicedBefore(ids, first, second, j);
      assert ids[j] in ids;
    } else if j < first.end + 1 {
      SplicedInFirst(ids, first, second, j);
      assert ids[j - 1] in ids;
    } else if j < second.start + 2 {
      SplicedBetween(ids, first, second, j);
      assert ids[j - 2] in ids;
    } else if j < second.end + 3 {
      SplicedInSecond(ids, first, second, j);
      assert ids[j - 3] in ids;
    } else {
      SplicedAfter(ids, first, second, j);
      assert ids[j - 4] in ids;
    }
  }

  /** `index` finds the first position holding the element. */
  lemma FirstIndexIs(s: seq<int>, x: int, k: nat)
    requires k < |s| && s[k] == x && forall j :: 0 <= j < k ==> s[j] != x
    ensures FirstIndex(s, x) == k
  {
  }

  /** With four distinct markers that the old ids do not hold, a marker is first found at its own
      position. */
  lemma SplicedFirstIndex(ids: seq<int>, first: ArgumentSpan, second: ArgumentSpan, k: nat)
    requires InOrder(ids, first, second) && DistinctMarkers(first, second) && Unmarked(ids, first, second)
    requires k == first.start || k == first.end + 1 || k == second.start + 2 || k == second.end + 3
    ensures k < |Spliced(ids, first, second)|
    ensures Spliced(ids, first, second)[k] in Spliced(ids, first, second)
    ensures FirstIndex(Spliced(ids, first, second), Spliced(ids, first, second)[k]) == k
  {
    SplicedMarkers(ids, first, second);
    var r := Spliced(ids, first, second);
    forall j | 0 <= j < k ensures r[j] != r[k] {
      if j != first.start && j != first.end + 1 && j != second.start + 2 {
        SplicedPlainAt(ids, first, second, j);
      }
    }
    FirstIndexIs(r, r[k], k);
  }

  /** With four distinct markers that the old ids do not hold, and spans that do not overlap, the
      markers are first found at their positions. */
  lemma SplicedOffsets(ids: seq<int>, first: ArgumentSpan, second: ArgumentSpan)
    requires InOrder(ids, first, second)
    requires DistinctMarkers(first, second) && Unmarked(ids, first, second)
    ensures var r := Spliced(ids, first, second);
            Offsets(r, first) == (first.start, first.end + 1) && Offsets(r, second) == (second.start + 2, second.end + 3)
  {
    SplicedMarkers(ids, first, second);
    SplicedFirstIndex(ids, first, second, first.start);
    SplicedFirstIndex(ids, first, second, first.end + 1);
    SplicedFirstIndex(ids, first, second, second.start + 2);
    SplicedFirstIndex(ids, first, second, second.end + 3);
  }

  /** The offsets of the head and the tail in the new ids: `(start, end + 1)` for the argument wrapped
      first and `(start + 2, end + 3)` for the other. */
  lemma InsertedOffsets(ids: seq<int>, head: ArgumentSpan, tail: ArgumentSpan)
    requires head.start < tail.start ==> InOrder(ids, head, tail)
    requires head.start >= tail.start ==> InOrder(ids, tail, head)
    requires DistinctMarkers(head, tail) && Unmarked(ids, head, tail)
    ensures var r := Inserted(ids, head, tail);
            if head.start < tail.start then
              Offsets(r, head) == (head.start, head.end + 1) && Offsets(r, tail) == (tail.start + 2, tail.end + 3)
            else
              Offsets(r, tail) == (tail.start, tail.end + 1) && Offsets(r, head) == (head.start + 2, head.end + 3)
  {
    if head.start < tail.start {
      SplicedOffsets(ids, head, tail);
    } else {
      SplicedOffsets(ids, tail, head);
    }
  }

  // ----- prepare -----------------------------------------------------------------------------

  /** The labels of a span layer in order. */
  function SpanTags(anns: seq<LabeledSpanAnnotation>): seq<string> {
    seq(|anns|, i requires 0 <= i < |anns| => anns[i].tag)
  }

  /** The labels of a relation layer in order. */
  function RelationTags(anns: seq<RelationAnnotation>): seq<string> {
    seq(|anns|, i requires 0 <= i < |anns| => anns[i].tag)
  }

  /** The two label sets of `prepare`, in the order labels are first seen. */
  datatype LabelSets = LabelSets(entityLabels: seq<string>, relationLabels: seq<string>)

  /** The label-collecting loop of `prepare`: the entity labels only when markers carry types, the
      relation labels always. Iterating over a layer the document does not have (None) is a
      TypeError. */
  function PreparedLabels(docs: seq<TaskDocument>, entityLayer: string, relationLayer: string, addType: bool)
    : (r: Result<LabelSets>)
    ensures r.Failure? <==> exists i :: 0 <= i < |docs| &&
                              ((addType && entityLayer !in docs[i].spans) || relationLayer !in docs[i].relations)
    ensures r.Failure? ==> r.error == TypeError(NOT_ITERABLE)
    ensures r.Success? ==> NoDuplicates(r.value.entityLabels) && NoDuplicates(r.value.relationLabels)
    ensures r.Success? && !addType ==> r.value.entityLabels == []
    decreases |docs|
  {
    if docs == [] then Success(LabelSets([], []))
    else
      var n := |docs| - 1;
      var before := PreparedLabels(docs[..n], entityLayer, relationLayer, addType);
      assert forall i :: 0 <= i < n ==> docs[..n][i] == docs[i];
      if before.Failure? then before
      else
        var entities := if addType then SpanAnnotations(docs[n], entityLayer) else Some([]);
        match entities
        case None => Failure(TypeError(NOT_ITERABLE))
        case Some(spans) =>
          match RelationAnnotations(docs[n], relationLayer)
          case None => Failure(TypeError(NOT_ITERABLE))
          case Some(relations) =>
            var b := before.value;
            SeenFacts(b.entityLabels, SpanTags(spans));
            SeenFacts(b.relationLabels, RelationTags(relations));
            Success(LabelSets(if addType then Seen(b.entityLabels, SpanTags(spans)) else b.entityLabels,
                              Seen(b.relationLabels, RelationTags(relations))))
  }

  /** A relation label is collected exactly when some relation of some document carries it. */
  lemma {:induction false} PreparedRelationLabels(docs: seq<TaskDocument>, entityLayer: string, relationLayer: string,
                                                  addType: bool)
    requires PreparedLabels(docs, entityLayer, relationLayer, addType).Success?
    ensures var sets := PreparedLabels(docs, entityLayer, relationLayer, addType).value;
            forall l :: l in sets.relationLabels <==>
                          exists i, k :: 0 <= i < |docs| && 0 <= k < |docs[i].relations[relationLayer]| &&
                                         docs[i].relations[relationLayer][k].tag == l
    decreases |docs|
  {
    if docs != [] {
      var n := |docs| - 1;
      PreparedRelationLabels(docs[..n], entityLayer, relationLayer, addType);
      assert forall i :: 0 <= i < n ==> docs[..n][i] == docs[i];
      var b := PreparedLabels(docs[..n], entityLayer, relationLayer, addType).value;
      var relations := docs[n].relations[relationLayer];
      var tags := RelationTags(relations);
      SeenFacts(b.relationLabels, tags);
      var sets := PreparedLabels(docs, entityLayer, relationLayer, addType).value;
      assert sets.relationLabels == Seen(b.relationLabels, tags);
      forall l | l in sets.relationLabels
        ensures exists i, k :: 0 <= i < |docs| && 0 <= k < |docs[i].relations[relationLayer]| &&
                               docs[i].relations[relationLayer][k].tag == l
      {
        if l !in b.relationLabels {
          var k :| 0 <= k < |tags| && tags[k] == l;
          assert docs[n].relations[relationLayer][k].tag == l;
        }
      }
      forall l | exists i, k :: 0 <= i < |docs| && 0 <= k < |docs[i].relations[relationLayer]| &&
                                docs[i].relations[relationLayer][k].tag == l
        ensures l in sets.relationLabels
      {
        var i, k :| 0 <= i < |docs| && 0 <= k < |docs[i].relations[relationLayer]| &&
                    docs[i].relations[relationLayer][k].tag == l;
        if i == n {
          assert tags[k] == l;
        }
      }
    }
  }

  /** With typed markers an entity label is collected exactly when some entity of some document
      carries it. */
  lemma {:induction false} PreparedEntityLabels(docs: seq<TaskDocument>, entityLayer: string, relationLayer: string)
    requires PreparedLabels(docs, entityLayer, relationLayer, true).Success?
    ensures var sets := PreparedLabels(docs, entityLayer, relationLayer, true).value;
            forall l :: l in sets.entityLabels <==>
                          exists i, k :: 0 <= i < |docs| && 0 <= k < |docs[i].spans[entityLayer]| &&
                                         docs[i].spans[entityLayer][k].tag == l
    decreases |docs|
  {
    if docs != [] {
      var n := |docs| - 1;
      PreparedEntityLabels(docs[..n], entityLayer, relationLayer);
      assert forall i :: 0 <= i < n ==> docs[..n][i] == docs[i];
      var b := PreparedLabels(docs[..n], entityLayer, relationLayer, true).value;
      var spans := docs[n].spans[entityLayer];
      var tags := SpanTags(spans);
      SeenFacts(b.entityLabels, tags);
      var sets := PreparedLabels(docs, entityLayer, relationLayer, true).value;
      assert sets.entityLabels == Seen(b.entityLabels, tags);
      forall l | l in sets.entityLabels
        ensures exists i, k :: 0 <= i < |docs| && 0 <= k < |docs[i].spans[entityLayer]| &&
                               docs[i].spans[entityLayer][k].tag == l
      {
        if l !in b.entityLabels {
          var k :| 0 <= k < |tags| && tags[k] == l;
          assert docs[n].spans[entityLayer][k].tag == l;
        }
      }
      forall l | exists i, k :: 0 <= i < |docs| && 0 <= k < |docs[i].spans[entityLayer]| &&
                                docs[i].spans[entityLayer][k].tag == l
        ensures l in sets.entityLabels
      {
        var i, k :| 0 <= i < |docs| && 0 <= k < |docs[i].spans[entityLayer]| &&
                    docs[i].spans[entityLayer][k].tag == l;
        if i == n {
          assert tags[k] == l;
        }
      }
    }
  }

  /** The relation labels other than `no_relation`, in order. */
  function WithoutNoRelation(labels: seq<string>): seq<string> {
    Filter(labels, l => l != NO_RELATION)
  }

  /** `label_to_id` after `prepare`: `no_relation` set to 0, then the other labels numbered from 1 with
      a counter. */
  function RelationVocabulary(init: PyDict<string, int>, labels: seq<string>): PyDict<string, int> {
    Merge(Put(init, NO_RELATION, 0), Numbered(WithoutNoRelation(labels)))
  }

  /** `prepare` gives `no_relation` the id 0 and every other collected label a distinct id in 1..n,
      the `i`-th one i+1; every other key keeps its id. */
  lemma RelationVocabularyIds(init: PyDict<string, int>, labels: seq<string>)
    requires NoDuplicates(labels)
    ensures var v, others := RelationVocabulary(init, labels), WithoutNoRelation(labels);
            Get(v, NO_RELATION) == Some(0) &&
            (forall i :: 0 <= i < |others| ==> Get(v, others[i]) == Some(i + 1)) &&
            (forall l :: l in labels && l != NO_RELATION ==> l in others) &&
            (forall k :: k != NO_RELATION && k !in labels ==> Get(v, k) == Get(init, k))
  {
    var base := Put(init, NO_RELATION, 0);
    var others := WithoutNoRelation(labels);
    var items := Numbered(others);
    FilterNoDuplicates(labels, l => l != NO_RELATION);
    MergeGet(base, items, NO_RELATION);
    forall i | 0 <= i < |others| ensures Get(RelationVocabulary(init, labels), others[i]) == Some(i + 1) {
      NumberedGet(others, i);
      MergeGet(base, items, others[i]);
    }
    forall k | k != NO_RELATION && k !in labels ensures Get(RelationVocabulary(init, labels), k) == Get(init, k) {
      MergeGet(base, items, k);
      PutOther(init, NO_RELATION, 0, k);
    }
  }

  /** On a module without a given `label_to_id`, the ids are exactly 0..n for the n labels other than
      `no_relation`, each label has its own, and `id_to_label` is the inverse. */
  lemma FreshRelationVocabulary(labels: seq<string>)
    requires NoDuplicates(labels)
    ensures var v := RelationVocabulary([], labels);
            Valid(v) &&
            (forall k, id :: Get(Invert(v), id) == Some(k) <==> Get(v, k) == Some(id)) &&
            (forall id :: Get(Invert(v), id).Some? <==> 0 <= id <= |WithoutNoRelation(labels)|)
  {
    var others := WithoutNoRelation(labels);
    FilterNoDuplicates(labels, l => l != NO_RELATION);
    NumberedFresh(NO_RELATION, others);
    NumberedInverse(NO_RELATION, others);
  }

  // ----- encode_input ------------------------------------------------------------------------

  /** The token range of an annotation: the tokens of its first and of its last character, when both
      characters map to a token. */
  function TokenRange(e: Encoding, a: LabeledSpanAnnotation): (r: Option<(nat, nat)>)
    ensures r.Some? <==> a.start in e.charToToken && a.end - 1 in e.charToToken
    ensures r.Some? ==> r.value == (e.charToToken[a.start], e.charToToken[a.end - 1])
  {
    match (CharToToken(e, a.start), CharToToken(e, a.end - 1))
    case (Some(s), Some(t)) => Some((s, t))
    case _ => None
  }

  /** `(head, tail) in existing_head_tail`: some relation of the document has this head and tail. */
  predicate Related(relations: seq<RelationAnnotation>, head: Annotation, tail: Annotation) {
    exists k :: 0 <= k < |relations| && relations[k].head == head && relations[k].tail == tail
  }

  /** The metadata of one encoding: lists of heads, tails and their offsets in the new ids. */
  datatype PairMetadata = PairMetadata(heads: seq<LabeledSpanAnnotation>, tails: seq<LabeledSpanAnnotation>,
                                       headOffsets: seq<(int, int)>, tailOffsets: seq<(int, int)>)

  /** One encoded pair: the marked input ids, its metadata and the document it comes from. */
  datatype PairEncoding = PairEncoding(inputIds: seq<int>, metadata: PairMetadata, document: TaskDocument)

  /** The markers are elements of the new ids. */
  lemma InsertedHoldsMarkers(ids: seq<int>, head: ArgumentSpan, tail: ArgumentSpan)
    ensures var r := Inserted(ids, head, tail);
            head.startMarker in r && head.endMarker in r && tail.startMarker in r && tail.endMarker in r
  {
    var (first, second) := if head.start < tail.start then (head, tail) else (tail, head);
    var a := Slice(ids, 0, first.start) + [first.startMarker];
    var b := a + Slice(ids, first.start, first.end) + [first.endMarker];
    var c := b + Slice(ids, first.end, second.start) + [second.startMarker];
    var d := c + Slice(ids, second.start, second.end) + [second.endMarker];
    var r := d + Slice(ids, second.end, |ids|);
    assert r == Inserted(ids, head, tail);
    assert r[|a| - 1] == first.startMarker && r[|b| - 1] == first.endMarker;
    assert r[|c| - 1] == second.startMarker && r[|d| - 1] == second.endMarker;
  }

  /** Both arguments' markers looked up (head start, head end, tail start, tail end) and their token
      ranges `[start, end + 1)`. */
  function PairSpans(m: Markup, head: LabeledSpanAnnotation, headRange: (nat, nat), tail: LabeledSpanAnnotation,
                     tailRange: (nat, nat)): (r: Result<(ArgumentSpan, ArgumentSpan)>)
    ensures r.Failure? ==> r.error.KeyError?
    ensures r.Success? ==> r.value.0.start == headRange.0 && r.value.0.end == headRange.1 + 1 &&
                           r.value.1.start == tailRange.0 && r.value.1.end == tailRange.1 + 1
  {
    var hs :- MarkerId(m, Head, Start, head);
    var he :- MarkerId(m, Head, End, head);
    var ts :- MarkerId(m, Tail, Start, tail);
    var te :- MarkerId(m, Tail, End, tail);
    Success((ArgumentSpan(headRange.0, headRange.1 + 1, hs, he), ArgumentSpan(tailRange.0, tailRange.1 + 1, ts, te)))
  }

  /** The marked pair: the spans wrapped in their markers, and the offsets found in the new ids. */
  function MarkedPair(d: TaskDocument, e: Encoding, m: Markup, head: LabeledSpanAnnotation, headRange: (nat, nat),
                      tail: LabeledSpanAnnotation, tailRange: (nat, nat)): (r: Result<PairEncoding>)
    ensures r.Failure? <==> PairSpans(m, head, headRange, tail, tailRange).Failure?
    ensures r.Failure? ==> r.error.KeyError?
    ensures r.Success? ==> r.value.document == d && r.value.metadata.heads == [head] && r.value.metadata.tails == [tail] &&
                           |r.value.metadata.headOffsets| == 1 && |r.value.metadata.tailOffsets| == 1
  {
    var spans :- PairSpans(m, head, headRange, tail, tailRange);
    var ids := Inserted(e.inputIds, spans.0, spans.1);
    InsertedHoldsMarkers(e.inputIds, spans.0, spans.1);
    Success(PairEncoding(ids, PairMetadata([head], [tail], [Offsets(ids, spans.0)], [Offsets(ids, spans.1)]), d))
  }

  /** Which argument is first does not matter to holding no marker. */
  lemma UnmarkedSwap(ids: seq<int>, first: ArgumentSpan, second: ArgumentSpan)
    requires Unmarked(ids, first, second)
    ensures Unmarked(ids, second, first)
  {
  }

  /** The argument wrapped first: the head exactly when it starts strictly before the tail. */
  function First(head: ArgumentSpan, tail: ArgumentSpan): ArgumentSpan {
    if head.start < tail.start then head else tail
  }

  /** The argument wrapped second. */
  function Second(head: ArgumentSpan, tail: ArgumentSpan): ArgumentSpan {
    if head.start < tail.start then tail else head
  }

  /** Where the spans do not overlap and the ids hold none of the markers, inserting the markers
      adds four ids, and deleting the markers gives the old ids back. */
  lemma InsertedLayout(ids: seq<int>, head: ArgumentSpan, tail: ArgumentSpan)
    requires InOrder(ids, First(head, tail), Second(head, tail)) && Unmarked(ids, head, tail)
    ensures |Inserted(ids, head, tail)| == |ids| + 4
    ensures Filter(Inserted(ids, head, tail), NotMarker(First(head, tail), Second(head, tail))) == ids
  {
    if head.start < tail.start {
      SplicedUnmarked(ids, head, tail);
      SplicedMarkers(ids, head, tail);
    } else {
      UnmarkedSwap(ids, head, tail);
      SplicedUnmarked(ids, tail, head);
      SplicedMarkers(ids, tail, head);
    }
  }

  /** The ids of a marked pair are the text's ids with the four markers inserted. */
  lemma MarkedPairIds(d: TaskDocument, e: Encoding, m: Markup, head: LabeledSpanAnnotation, headRange: (nat, nat),
                      tail: LabeledSpanAnnotation, tailRange: (nat, nat))
    requires PairSpans(m, head, headRange, tail, tailRange).Success?
    ensures var spans := PairSpans(m, head, headRange, tail, tailRange).value;
            var p := MarkedPair(d, e, m, head, headRange, tail, tailRange).value;
            p.inputIds == Inserted(e.inputIds, spans.0, spans.1) &&
            p.metadata.headOffsets == [Offsets(p.inputIds, spans.0)] &&
            p.metadata.tailOffsets == [Offsets(p.inputIds, spans.1)]
  {
  }

  /** Where the two spans do not overlap and the text's ids hold none of the markers, the new ids are
      the old ones plus the four markers, and deleting the markers gives the old ids back. */
  lemma MarkedPairLayout(d: TaskDocument, e: Encoding, m: Markup, head: LabeledSpanAnnotation, headRange: (nat, nat),
                         tail: LabeledSpanAnnotation, tailRange: (nat, nat))
    requires PairSpans(m, head, headRange, tail, tailRange).Success?
    requires var spans := PairSpans(m, head, headRange, tail, tailRange).value;
             InOrder(e.inputIds, First(spans.0, spans.1), Second(spans.0, spans.1)) &&
             Unmarked(e.inputIds, spans.0, spans.1)
    ensures var spans := PairSpans(m, head, headRange, tail, tailRange).value;
            var p := MarkedPair(d, e, m, head, headRange, tail, tailRange).value;
            |p.inputIds| == |e.inputIds| + 4 &&
            Filter(p.inputIds, NotMarker(First(spans.0, spans.1), Second(spans.0, spans.1))) == e.inputIds
  {
    var spans := PairSpans(m, head, headRange, tail, tailRange).value;
    MarkedPairIds(d, e, m, head, headRange, tail, tailRange);
    InsertedLayout(e.inputIds, spans.0, spans.1);
  }

  /** When, moreover, the four markers are distinct, the offsets are where the markers sit:
      `(start, end + 1)` in the old token positions' terms for the argument wrapped first (the head
      exactly when it starts strictly before the tail), two further on for the other. */
  lemma MarkedPairOffsets(d: TaskDocument, e: Encoding, m: Markup, head: LabeledSpanAnnotation, headRange: (nat, nat),
                          tail: LabeledSpanAnnotation, tailRange: (nat, nat))
    requires PairSpans(m, head, headRange, tail, tailRange).Success?
    requires var spans := PairSpans(m, head, headRange, tail, tailRange).value;
             InOrder(e.inputIds, First(spans.0, spans.1), Second(spans.0, spans.1)) &&
             DistinctMarkers(spans.0, spans.1) && Unmarked(e.inputIds, spans.0, spans.1)
    ensures var p := MarkedPair(d, e, m, head, headRange, tail, tailRange).value;
            p.metadata.headOffsets ==
              [if headRange.0 < tailRange.0 then (headRange.0, headRange.1 + 2) else (headRange.0 + 2, headRange.1 + 4)] &&
            p.metadata.tailOffsets ==
              [if headRange.0 < tailRange.0 then (tailRange.0 + 2, tailRange.1 + 4) else (tailRange.0, tailRange.1 + 2)]
  {
    var spans := PairSpans(m, head, headRange, tail, tailRange).value;
    var h, t := spans.0, spans.1;
    MarkedPairIds(d, e, m, head, headRange, tail, tailRange);
    SpanOffsets(e.inputIds, h, t);
    RangeOffsets(Inserted(e.inputIds, h, t), h, t, headRange, tailRange);
  }

  /** The offsets of the two arguments in terms of their token ranges. */
  lemma RangeOffsets(r: seq<int>, h: ArgumentSpan, t: ArgumentSpan, headRange: (nat, nat), tailRange: (nat, nat))
    requires h.start == headRange.0 && h.end == headRange.1 + 1 && t.start == tailRange.0 && t.end == tailRange.1 + 1
    requires h.startMarker in r && h.endMarker in r && t.startMarker in r && t.endMarker in r
    requires Offsets(r, h) == (if h.start < t.start then (h.start, h.end + 1) else (h.start + 2, h.end + 3))
    requires Offsets(r, t) == (if h.start < t.start then (t.start + 2, t.end + 3) else (t.start, t.end + 1))
    ensures Offsets(r, h) ==
              if headRange.0 < tailRange.0 then (headRange.0, headRange.1 + 2) else (headRange.0 + 2, headRange.1 + 4)
    ensures Offsets(r, t) ==
              if headRange.0 < tailRange.0 then (tailRange.0 + 2, tailRange.1 + 4) else (tailRange.0, tailRange.1 + 2)
  {
  }

  /** The offsets of each argument in the new ids, whichever is wrapped first. */
  lemma SpanOffsets(ids: seq<int>, h: ArgumentSpan, t: ArgumentSpan)
    requires InOrder(ids, First(h, t), Second(h, t)) && DistinctMarkers(h, t) && Unmarked(ids, h, t)
    ensures var r := Inserted(ids, h, t);
            h.startMarker in r && h.endMarker in r && t.startMarker in r && t.endMarker in r &&
            Offsets(r, h) == (if h.start < t.start then (h.start, h.end + 1) else (h.start + 2, h.end + 3)) &&
            Offsets(r, t) == (if h.start < t.start then (t.start + 2, t.end + 3) else (t.start, t.end + 1))
  {
    InsertedHoldsMarkers(ids, h, t);
    if h.start < t.start {
      assert First(h, t) == h && Second(h, t) == t;
    } else {
      assert First(h, t) == t && Second(h, t) == h;
    }
    InsertedOffsets(ids, h, t);
  }

  /** One step of the tail loop for an aligned head: the pair is skipped (no encoding) when head and
      tail are the same entity, when the document has relations and none of them joins the two, or
      when the tail does not align to tokens; otherwise it is marked. */
  function Candidate(d: TaskDocument, e: Encoding, relations: seq<RelationAnnotation>, m: Markup,
                     head: LabeledSpanAnnotation, headRange: (nat, nat), tail: LabeledSpanAnnotation)
    : (r: Result<seq<PairEncoding>>)
    ensures r.Success? ==> |r.value| <= 1
    ensures (r.Failure? || |r.value| == 1) <==>
              head != tail && (relations == [] || Related(relations, head, tail)) && TokenRange(e, tail).Some?
    ensures r.Failure? ==> r.error.KeyError?
    ensures r.Success? && |r.value| == 1 ==>
              var p := r.value[0];
              p.document == d && p.metadata.heads == [head] && p.metadata.tails == [tail] &&
              |p.metadata.headOffsets| == 1 && |p.metadata.tailOffsets| == 1
  {
    if head == tail then Success([])
    else if relations != [] && !Related(relations, head, tail) then Success([])
    else match TokenRange(e, tail)
      case None => Success([])
      case Some(tailRange) =>
        var p :- MarkedPair(d, e, m, head, headRange, tail, tailRange);
        Success([p])
  }

  /** The steps of the tail loop for an aligned head, one per entity. */
  function TailSteps(d: TaskDocument, e: Encoding, relations: seq<RelationAnnotation>, m: Markup,
                     head: LabeledSpanAnnotation, headRange: (nat, nat), entities: seq<LabeledSpanAnnotation>)
    : seq<Result<seq<PairEncoding>>>
  {
    seq(|entities|, j requires 0 <= j < |entities| => Candidate(d, e, relations, m, head, headRange, entities[j]))
  }

  /** One step of the head loop: nothing for a head that does not align to tokens, else the tail loop. */
  function HeadStep(d: TaskDocument, e: Encoding, relations: seq<RelationAnnotation>, m: Markup,
                    entities: seq<LabeledSpanAnnotation>, head: LabeledSpanAnnotation): Result<seq<PairEncoding>>
  {
    match TokenRange(e, head)
    case None => Success([])
    case Some(headRange) => Concatenated(TailSteps(d, e, relations, m, head, headRange, entities))
  }

  /** The steps of the head loop, one per entity. */
  function HeadSteps(d: TaskDocument, e: Encoding, relations: seq<RelationAnnotation>, m: Markup,
                     entities: seq<LabeledSpanAnnotation>): seq<Result<seq<PairEncoding>>>
  {
    seq(|entities|, i requires 0 <= i < |entities| => HeadStep(d, e, relations, m, entities, entities[i]))
  }

  /** The pairs of one document. The relation layer is iterated (to build the pair set) before the
      entity layer; iterating over a layer the document does not have is a TypeError. */
  function DocumentPairs(d: TaskDocument, entityLayer: string, relationLayer: string, m: Markup,
                         tokenize: string -> Encoding): (r: Result<seq<PairEncoding>>)
    ensures entityLayer !in d.spans || relationLayer !in d.relations ==> r == Failure(TypeError(NOT_ITERABLE))
  {
    match RelationAnnotations(d, relationLayer)
    case None => Failure(TypeError(NOT_ITERABLE))
    case Some(relations) =>
      match SpanAnnotations(d, entityLayer)
      case None => Failure(TypeError(NOT_ITERABLE))
      case Some(entities) => Concatenated(HeadSteps(d, tokenize(d.text), relations, m, entities))
  }

  /** The steps of the document loop. */
  function DocumentSteps(docs: seq<TaskDocument>, entityLayer: string, relationLayer: string, m: Markup,
                         tokenize: string -> Encoding): seq<Result<seq<PairEncoding>>>
  {
    seq(|docs|, i requires 0 <= i < |docs| => DocumentPairs(docs[i], entityLayer, relationLayer, m, tokenize))
  }

  /** An encoding carries exactly one head and one tail, with one offset pair for each, and comes
      from the document. */
  predicate PairOf(p: PairEncoding, d: TaskDocument, head: Annotation, tail: Annotation) {
    p.document == d && p.metadata.heads == [head] && p.metadata.tails == [tail] &&
    |p.metadata.headOffsets| == 1 && |p.metadata.tailOffsets| == 1
  }

  /** The pair passes every filter of the two loops: both arguments align to tokens, they differ, and
      a document with relations relates them. */
  predicate Selected(e: Encoding, relations: seq<RelationAnnotation>, head: LabeledSpanAnnotation,
                     tail: LabeledSpanAnnotation) {
    TokenRange(e, head).Some? && head != tail && (relations == [] || Related(relations, head, tail)) &&
    TokenRange(e, tail).Some?
  }

  /** A tail step encodes a pair exactly when the pair is selected. */
  lemma CandidateSelected(d: TaskDocument, e: Encoding, relations: seq<RelationAnnotation>, m: Markup,
                          head: LabeledSpanAnnotation, headRange: (nat, nat), tail: LabeledSpanAnnotation)
    requires TokenRange(e, head) == Some(headRange)
    requires Candidate(d, e, relations, m, head, headRange, tail).Success?
    ensures var r := Candidate(d, e, relations, m, head, headRange, tail).value;
            (forall p :: p in r ==> PairOf(p, d, head, tail) && Selected(e, relations, head, tail)) &&
            (Selected(e, relations, head, tail) ==> |r| == 1 && PairOf(r[0], d, head, tail))
  {
  }

  /** Every pair the tail loop of an aligned head encodes is a selected pair with that head. */
  lemma TailStepsSound(d: TaskDocument, e: Encoding, relations: seq<RelationAnnotation>, m: Markup,
                       head: LabeledSpanAnnotation, headRange: (nat, nat), entities: seq<LabeledSpanAnnotation>)
    requires TokenRange(e, head) == Some(headRange)
    requires Concatenated(TailSteps(d, e, relations, m, head, headRange, entities)).Success?
    ensures var pairs := Concatenated(TailSteps(d, e, relations, m, head, headRange, entities)).value;
            forall p :: p in pairs ==>
              exists j :: 0 <= j < |entities| && PairOf(p, d, head, entities[j]) && Selected(e, relations, head, entities[j])
  {
    var rs := TailSteps(d, e, relations, m, head, headRange, entities);
    ConcatenatedMembers(rs);
    forall p | p in Concatenated(rs).value
      ensures exists j :: 0 <= j < |entities| && PairOf(p, d, head, entities[j]) && Selected(e, relations, head, entities[j])
    {
      var j :| 0 <= j < |rs| && rs[j].Success? && p in rs[j].value;
      CandidateSelected(d, e, relations, m, head, headRange, entities[j]);
    }
  }

  /** Every selected pair with an aligned head is encoded by that head's tail loop. */
  lemma TailStepsComplete(d: TaskDocument, e: Encoding, relations: seq<RelationAnnotation>, m: Markup,
                          head: LabeledSpanAnnotation, headRange: (nat, nat), entities: seq<LabeledSpanAnnotation>)
    requires TokenRange(e, head) == Some(headRange)
    requires Concatenated(TailSteps(d, e, relations, m, head, headRange, entities)).Success?
    ensures var pairs := Concatenated(TailSteps(d, e, relations, m, head, headRange, entities)).value;
            forall j :: 0 <= j < |entities| && Selected(e, relations, head, entities[j]) ==>
              exists p :: p in pairs && PairOf(p, d, head, entities[j])
  {
    var rs := TailSteps(d, e, relations, m, head, headRange, entities);
    ConcatenatedMembers(rs);
    forall j | 0 <= j < |entities| && Selected(e, relations, head, entities[j])
      ensures exists p :: p in Concatenated(rs).value && PairOf(p, d, head, entities[j])
    {
      assert rs[j] == Candidate(d, e, relations, m, head, headRange, entities[j]) && rs[j].Success?;
      CandidateSelected(d, e, relations, m, head, headRange, entities[j]);
      ConcatenatedHas(rs, j, rs[j].value[0]);
    }
  }

  /** Every pair a document's loops encode is a selected pair of two of its entities. */
  lemma DocumentPairsSound(d: TaskDocument, entityLayer: string, relationLayer: string, m: Markup,
                           tokenize: string -> Encoding)
    requires DocumentPairs(d, entityLayer, relationLayer, m, tokenize).Success?
    ensures entityLayer in d.spans && relationLayer in d.relations
    ensures var entities := d.spans[entityLayer];
            forall p :: p in DocumentPairs(d, entityLayer, relationLayer, m, tokenize).value ==>
              exists i, j :: 0 <= i < |entities| && 0 <= j < |entities| && PairOf(p, d, entities[i], entities[j]) &&
                             Selected(tokenize(d.text), d.relations[relationLayer], entities[i], entities[j])
  {
    assert entityLayer in d.spans && relationLayer in d.relations;
    var (entities, relations, e) := (d.spans[entityLayer], d.relations[relationLayer], tokenize(d.text));
    var rs := HeadSteps(d, e, relations, m, entities);
    assert DocumentPairs(d, entityLayer, relationLayer, m, tokenize) == Concatenated(rs);
    ConcatenatedMembers(rs);
    forall p | p in Concatenated(rs).value
      ensures exists i, j :: 0 <= i < |entities| && 0 <= j < |entities| && PairOf(p, d, entities[i], entities[j]) &&
                             Selected(e, relations, entities[i], entities[j])
    {
      var i :| 0 <= i < |rs| && rs[i].Success? && p in rs[i].value;
      assert rs[i] == HeadStep(d, e, relations, m, entities, entities[i]);
      assert TokenRange(e, entities[i]).Some?;
      var headRange := TokenRange(e, entities[i]).value;
      assert rs[i] == Concatenated(TailSteps(d, e, relations, m, entities[i], headRange, entities));
      TailStepsSound(d, e, relations, m, entities[i], headRange, entities);
      var j :| 0 <= j < |entities| && PairOf(p, d, entities[i], entities[j]) && Selected(e, relations, entities[i], entities[j]);
    }
  }

  /** Every selected pair of two of a document's entities is encoded by its loops. */
  lemma DocumentPairsComplete(d: TaskDocument, entityLayer: string, relationLayer: string, m: Markup,
                              tokenize: string -> Encoding)
    requires DocumentPairs(d, entityLayer, relationLayer, m, tokenize).Success?
    ensures entityLayer in d.spans && relationLayer in d.relations
    ensures var entities := d.spans[entityLayer];
            forall i, j :: 0 <= i < |entities| && 0 <= j < |entities| &&
                           Selected(tokenize(d.text), d.relations[relationLayer], entities[i], entities[j]) ==>
              exists p :: p in DocumentPairs(d, entityLayer, relationLayer, m, tokenize).value &&
                          PairOf(p, d, entities[i], entities[j])
  {
    assert entityLayer in d.spans && relationLayer in d.relations;
    var (entities, relations, e) := (d.spans[entityLayer], d.relations[relationLayer], tokenize(d.text));
    var rs := HeadSteps(d, e, relations, m, entities);
    assert DocumentPairs(d, entityLayer, relationLayer, m, tokenize) == Concatenated(rs);
    ConcatenatedMembers(rs);
    forall i, j | 0 <= i < |entities| && 0 <= j < |entities| && Selected(e, relations, entities[i], entities[j])
      ensures exists p :: p in Concatenated(rs).value && PairOf(p, d, entities[i], entities[j])
    {
      var headRange := TokenRange(e, entities[i]).value;
      assert rs[i] == Concatenated(TailSteps(d, e, relations, m, entities[i], headRange, entities)) && rs[i].Success?;
      TailStepsComplete(d, e, relations, m, entities[i], headRange, entities);
      var p :| p in rs[i].value && PairOf(p, d, entities[i], entities[j]);
      ConcatenatedHas(rs, i, p);
    }
  }

  /** The three parallel lists `_single_pair_insert_marker` returns. */
  function Unzipped(pairs: seq<PairEncoding>): (r: TaskModule.InputEncodings<TaskDocument, seq<int>, PairMetadata>)
    ensures r.metadata.Some? && r.newDocuments.Some?
    ensures |r.inputs| == |pairs| && |r.metadata.value| == |pairs| && |r.newDocuments.value| == |pairs|
    ensures forall i :: 0 <= i < |pairs| ==>
              r.inputs[i] == pairs[i].inputIds && r.metadata.value[i] == pairs[i].metadata &&
              r.newDocuments.value[i] == pairs[i].document
  {
    TaskModule.InputEncodings(seq(|pairs|, i requires 0 <= i < |pairs| => pairs[i].inputIds),
                              Some(seq(|pairs|, i requires 0 <= i < |pairs| => pairs[i].metadata)),
                              Some(seq(|pairs|, i requires 0 <= i < |pairs| => pairs[i].document)))
  }

  /** `encode_input`: the encoded pairs of all documents in order, split into inputs, metadata and
      documents; the first exception aborts it. */
  function EncodedInput(docs: seq<TaskDocument>, entityLayer: string, relationLayer: string, m: Markup,
                        tokenize: string -> Encoding)
    : (r: Result<TaskModule.InputEncodings<TaskDocument, seq<int>, PairMetadata>>)
    ensures r.Success? ==>
              r.value.metadata.Some? && r.value.newDocuments.Some? &&
              |r.value.metadata.value| == |r.value.inputs| && |r.value.newDocuments.value| == |r.value.inputs|
  {
    var pairs :- Concatenated(DocumentSteps(docs, entityLayer, relationLayer, m, tokenize));
    Success(Unzipped(pairs))
  }

  /** The metadata of an encoding holds exactly one head and one tail, two entities of the document
      that form a selected pair, with one offset pair each. */
  predicate SelectedEncoding(meta: PairMetadata, d: TaskDocument, entityLayer: string, relationLayer: string,
                             tokenize: string -> Encoding) {
    entityLayer in d.spans && relationLayer in d.relations &&
    |meta.heads| == 1 && |meta.tails| == 1 && |meta.headOffsets| == 1 && |meta.tailOffsets| == 1 &&
    meta.heads[0] in d.spans[entityLayer] && meta.tails[0] in d.spans[entityLayer] &&
    Selected(tokenize(d.text), d.relations[relationLayer], meta.heads[0], meta.tails[0])
  }

  /** Each pair the document loop encodes belongs to one of the documents and holds a selected pair
      of two different entities of that document. */
  lemma EncodedPairSound(docs: seq<TaskDocument>, entityLayer: string, relationLayer: string, m: Markup,
                         tokenize: string -> Encoding, p: PairEncoding)
    requires Concatenated(DocumentSteps(docs, entityLayer, relationLayer, m, tokenize)).Success?
    requires p in Concatenated(DocumentSteps(docs, entityLayer, relationLayer, m, tokenize)).value
    ensures p.document in docs && SelectedEncoding(p.metadata, p.document, entityLayer, relationLayer, tokenize)
  {
    var rs := DocumentSteps(docs, entityLayer, relationLayer, m, tokenize);
    ConcatenatedMembers(rs);
    var k :| 0 <= k < |rs| && rs[k].Success? && p in rs[k].value;
    assert rs[k] == DocumentPairs(docs[k], entityLayer, relationLayer, m, tokenize);
    DocumentPairsSound(docs[k], entityLayer, relationLayer, m, tokenize);
    var entities := docs[k].spans[entityLayer];
    var a, b :| 0 <= a < |entities| && 0 <= b < |entities| && PairOf(p, docs[k], entities[a], entities[b]) &&
                Selected(tokenize(docs[k].text), docs[k].relations[relationLayer], entities[a], entities[b]);
    assert p.metadata.heads[0] == entities[a] && p.metadata.tails[0] == entities[b];
  }

  /** Each encoding `encode_input` produces belongs to one of the documents and holds a selected pair
      of two different entities of that document; the three lists have one length. */
  lemma EncodedInputSound(docs: seq<TaskDocument>, entityLayer: string, relationLayer: string, m: Markup,
                          tokenize: string -> Encoding)
    requires EncodedInput(docs, entityLayer, relationLayer, m, tokenize).Success?
    ensures var enc := EncodedInput(docs, entityLayer, relationLayer, m, tokenize).value;
            enc.metadata.Some? && enc.newDocuments.Some? &&
            |enc.metadata.value| == |enc.inputs| && |enc.newDocuments.value| == |enc.inputs| &&
            forall i :: 0 <= i < |enc.inputs| ==>
              enc.newDocuments.value[i] in docs &&
              SelectedEncoding(enc.metadata.value[i], enc.newDocuments.value[i], entityLayer, relationLayer, tokenize)
  {
    var pairs := Concatenated(DocumentSteps(docs, entityLayer, relationLayer, m, tokenize)).value;
    var enc := Unzipped(pairs);
    forall i | 0 <= i < |enc.inputs|
      ensures enc.newDocuments.value[i] in docs &&
              SelectedEncoding(enc.metadata.value[i], enc.newDocuments.value[i], entityLayer, relationLayer, tokenize)
    {
      assert pairs[i] in pairs;
      EncodedPairSound(docs, entityLayer, relationLayer, m, tokenize, pairs[i]);
    }
  }

  /** Every selected pair of two entities of a document is encoded: some encoding carries that
      document with that head and that tail. */
  lemma EncodedInputComplete(docs: seq<TaskDocument>, entityLayer: string, relationLayer: string, m: Markup,
                             tokenize: string -> Encoding, k: nat, a: nat, b: nat)
    requires EncodedInput(docs, entityLayer, relationLayer, m, tokenize).Success?
    requires k < |docs| && entityLayer in docs[k].spans && relationLayer in docs[k].relations
    requires a < |docs[k].spans[entityLayer]| && b < |docs[k].spans[entityLayer]|
    requires Selected(tokenize(docs[k].text), docs[k].relations[relationLayer],
                      docs[k].spans[entityLayer][a], docs[k].spans[entityLayer][b])
    ensures var enc := EncodedInput(docs, entityLayer, relationLayer, m, tokenize).value;
            exists i :: 0 <= i < |enc.inputs| && enc.newDocuments.value[i] == docs[k] &&
                        enc.metadata.value[i].heads == [docs[k].spans[entityLayer][a]] &&
                        enc.metadata.value[i].tails == [docs[k].spans[entityLayer][b]]
  {
    var rs := DocumentSteps(docs, entityLayer, relationLayer, m, tokenize);
    var pairs := Concatenated(rs).value;
    var entities := docs[k].spans[entityLayer];
    ConcatenatedMembers(rs);
    assert rs[k] == DocumentPairs(docs[k], entityLayer, relationLayer, m, tokenize) && rs[k].Success?;
    DocumentPairsComplete(docs[k], entityLayer, relationLayer, m, tokenize);
    var p :| p in rs[k].value && PairOf(p, docs[k], entities[a], entities[b]);
    ConcatenatedHas(rs, k, p);
    var i :| 0 <= i < |pairs| && pairs[i] == p;
    var enc := Unzipped(pairs);
    assert enc.newDocuments.value[i] == docs[k] && enc.metadata.value[i].heads == [entities[a]];
  }

  /** `{(relation.head, relation.tail) for relation in relations}` */
  function HeadTailPairs(relations: seq<RelationAnnotation>): (r: set<(Annotation, Annotation)>)
    ensures forall h, t :: (h, t) in r <==> Related(relations, h, t)
  {
    var r := set k | 0 <= k < |relations| :: (relations[k].head, relations[k].tail);
    assert forall h, t :: Related(relations, h, t) ==> (h, t) in r by {
      forall h, t | Related(relations, h, t) ensures (h, t) in r {
        var k :| 0 <= k < |relations| && relations[k].head == h && relations[k].tail == t;
        assert (relations[k].head, relations[k].tail) in r;
      }
    }
    r
  }

  /** The tail loop for one aligned head. */
  method TailLoop(d: TaskDocument, e: Encoding, relations: seq<RelationAnnotation>, existing: set<(Annotation, Annotation)>,
                  m: Markup, head: LabeledSpanAnnotation, headRange: (nat, nat), entities: seq<LabeledSpanAnnotation>)
    returns (r: Result<seq<PairEncoding>>)
    requires existing == HeadTailPairs(relations)
    ensures r == Concatenated(TailSteps(d, e, relations, m, head, headRange, entities))
  {
    ghost var rs := TailSteps(d, e, relations, m, head, headRange, entities);
    var pairs: seq<PairEncoding> := [];
    for j := 0 to |entities|
      invariant Concatenated(rs[..j]) == Success(pairs)
    {
      var tail := entities[j];
      assert rs[j] == Candidate(d, e, relations, m, head, headRange, tail);
      if head == tail || (relations != [] && (head, tail) !in existing) {
        ConcatenatedStep(rs, j);
        assert pairs + [] == pairs;
        continue;
      }
      var tailRange := TokenRange(e, tail);
      if tailRange.None? {
        ConcatenatedStep(rs, j);
        assert pairs + [] == pairs;
        continue;
      }
      var pair := MarkedPair(d, e, m, head, headRange, tail, tailRange.value);
      if pair.Failure? {
        ConcatenatedAbort(rs, j);
        return Failure(pair.error);
      }
      ConcatenatedStep(rs, j);
      pairs := pairs + [pair.value];
    }
    assert rs[..|entities|] == rs;
    return Success(pairs);
  }

  /** The head loop of one document: heads that do not align to tokens are skipped. */
  method HeadLoop(d: TaskDocument, e: Encoding, relations: seq<RelationAnnotation>, existing: set<(Annotation, Annotation)>,
                  m: Markup, entities: seq<LabeledSpanAnnotation>) returns (r: Result<seq<PairEncoding>>)
    requires existing == HeadTailPairs(relations)
    ensures r == Concatenated(HeadSteps(d, e, relations, m, entities))
  {
    ghost var rs := HeadSteps(d, e, relations, m, entities);
    var pairs: seq<PairEncoding> := [];
    for i := 0 to |entities|
      invariant Concatenated(rs[..i]) == Success(pairs)
    {
      var head := entities[i];
      assert rs[i] == HeadStep(d, e, relations, m, entities, head);
      var headRange := TokenRange(e, head);
      if headRange.None? {
        ConcatenatedStep(rs, i);
        assert pairs + [] == pairs;
        continue;
      }
      var headPairs := TailLoop(d, e, relations, existing, m, head, headRange.value, entities);
      if headPairs.Failure? {
        ConcatenatedAbort(rs, i);
        return Failure(headPairs.error);
      }
      ConcatenatedStep(rs, i);
      pairs := pairs + headPairs.value;
    }
    assert rs[..|entities|] == rs;
    return Success(pairs);
  }

  /** Splitting a concatenation of pairs splits the three lists alike. */
  lemma UnzippedConcat(a: seq<PairEncoding>, b: seq<PairEncoding>)
    ensures Unzipped(a + b) ==
            TaskModule.InputEncodings(Unzipped(a).inputs + Unzipped(b).inputs,
                                      Some(Unzipped(a).metadata.value + Unzipped(b).metadata.value),
                                      Some(Unzipped(a).newDocuments.value + Unzipped(b).newDocuments.value))
  {
    var u, v, w := Unzipped(a), Unzipped(b), Unzipped(a + b);
    assert w.inputs == u.inputs + v.inputs;
    assert w.metadata.value == u.metadata.value + v.metadata.value;
    assert w.newDocuments.value == u.newDocuments.value + v.newDocuments.value;
  }

  /** `_single_pair_insert_marker`: the document loop, which appends every pair of every document to
      the three lists. */
  method InsertMarkers(docs: seq<TaskDocument>, entityLayer: string, relationLayer: string, m: Markup,
                       tokenize: string -> Encoding)
    returns (r: Result<TaskModule.InputEncodings<TaskDocument, seq<int>, PairMetadata>>)
    ensures r == EncodedInput(docs, entityLayer, relationLayer, m, tokenize)
  {
    ghost var rs := DocumentSteps(docs, entityLayer, relationLayer, m, tokenize);
    ghost var pairs: seq<PairEncoding> := [];
    var inputs: seq<seq<int>> := [];
    var metadata: seq<PairMetadata> := [];
    var newDocuments: seq<TaskDocument> := [];
    assert Unzipped(pairs) == TaskModule.InputEncodings(inputs, Some(metadata), Some(newDocuments));
    for i := 0 to |docs|
      invariant Concatenated(rs[..i]) == Success(pairs)
      invariant Unzipped(pairs) == TaskModule.InputEncodings(inputs, Some(metadata), Some(newDocuments))
    {
      var d := docs[i];
      assert rs[i] == DocumentPairs(d, entityLayer, relationLayer, m, tokenize);
      var entities := SpanAnnotations(d, entityLayer);
      var e := tokenize(d.text);
      var relations := RelationAnnotations(d, relationLayer);
      if relations.None? || entities.None? {
        ConcatenatedAbort(rs, i);
        return Failure(TypeError(NOT_ITERABLE));
      }
      var existing := HeadTailPairs(relations.value);
      var docPairs := HeadLoop(d, e, relations.value, existing, m, entities.value);
      if docPairs.Failure? {
        ConcatenatedAbort(rs, i);
        return Failure(docPairs.error);
      }
      ConcatenatedStep(rs, i);
      UnzippedConcat(pairs, docPairs.value);
      var added := Unzipped(docPairs.value);
      inputs := inputs + added.inputs;
      metadata := metadata + added.metadata.value;
      newDocuments := newDocuments + added.newDocuments.value;
      pairs := pairs + docPairs.value;
    }
    assert rs[..|docs|] == rs;
    return Success(TaskModule.InputEncodings(inputs, Some(metadata), Some(newDocuments)));
  }

  // ----- encode_target -----------------------------------------------------------------------

  /** The items of the dict comprehension from `(relation.head, relation.tail)` to `relation.label`. */
  function HeadTailItems(relations: seq<RelationAnnotation>): (r: PyDict<(Annotation, Annotation), string>)
    ensures |r| == |relations|
    ensures forall k :: 0 <= k < |r| ==> r[k] == ((relations[k].head, relations[k].tail), relations[k].tag)
  {
    seq(|relations|, k requires 0 <= k < |relations| => ((relations[k].head, relations[k].tail), relations[k].tag))
  }

  /** `head_tail_to_label`: a later relation between the same arguments overwrites an earlier one. */
  function HeadTailLabels(relations: seq<RelationAnnotation>): PyDict<(Annotation, Annotation), string> {
    Merge([], HeadTailItems(relations))
  }

  /** `head_tail_to_label.get((head, tail), "no_relation")` */
  function PairLabel(labels: PyDict<(Annotation, Annotation), string>, head: Annotation, tail: Annotation): string {
    Get(labels, (head, tail)).GetOr(NO_RELATION)
  }

  /** A pair that no relation joins is labelled `no_relation`. */
  lemma UnrelatedPairLabel(relations: seq<RelationAnnotation>, head: Annotation, tail: Annotation)
    requires !Related(relations, head, tail)
    ensures PairLabel(HeadTailLabels(relations), head, tail) == NO_RELATION
  {
    var items := HeadTailItems(relations);
    assert (head, tail) !in Keys(items) by {
      forall k | 0 <= k < |items| ensures Keys(items)[k] != (head, tail) {
        assert Keys(items)[k] == (relations[k].head, relations[k].tail);
      }
    }
    MergeAbsent([], items, (head, tail));
  }

  /** A pair that relations join is labelled with the label of the last of them. */
  lemma RelatedPairLabel(relations: seq<RelationAnnotation>, head: Annotation, tail: Annotation) returns (k: nat)
    requires Related(relations, head, tail)
    ensures k < |relations| && relations[k].head == head && relations[k].tail == tail
    ensures forall j :: k < j < |relations| ==> !(relations[j].head == head && relations[j].tail == tail)
    ensures PairLabel(HeadTailLabels(relations), head, tail) == relations[k].tag
  {
    var items := HeadTailItems(relations);
    var p :| 0 <= p < |relations| && relations[p].head == head && relations[p].tail == tail;
    k := MergeLast([], items, p);
    forall j | k < j < |relations| ensures !(relations[j].head == head && relations[j].tail == tail) {
      assert items[j].0 != items[p].0;
    }
  }

  /** After `prepare` has collected every gold label of a document, each of its pairs has a label
      that `label_to_id` knows. */
  lemma PairLabelKnown(init: PyDict<string, int>, labels: seq<string>, relations: seq<RelationAnnotation>,
                       head: Annotation, tail: Annotation)
    requires NoDuplicates(labels)
    requires forall k :: 0 <= k < |relations| ==> relations[k].tag in labels
    ensures PairLabel(HeadTailLabels(relations), head, tail) in Keys(RelationVocabulary(init, labels))
  {
    RelationVocabularyIds(init, labels);
    if Related(relations, head, tail) {
      var k := RelatedPairLabel(relations, head, tail);
      var l := relations[k].tag;
      if l != NO_RELATION {
        var others := WithoutNoRelation(labels);
        var i :| 0 <= i < |others| && others[i] == l;
        assert Get(RelationVocabulary(init, labels), others[i]) == Some(i + 1);
      }
    } else {
      UnrelatedPairLabel(relations, head, tail);
    }
  }

  /** The length of `zip(meta["head"], meta["tail"])`. */
  function ZipLength(meta: PairMetadata): nat {
    if |meta.heads| < |meta.tails| then |meta.heads| else |meta.tails|
  }

  /** The zip loop over the first n pairs of one document's metadata. `label_ids` starts with the
      value the previous document left (None before any assignment); each pair sets it to the id of
      the pair's label, and multi-label raises at the first pair. */
  function ZippedLabelIds(labels: PyDict<(Annotation, Annotation), string>, meta: PairMetadata, n: nat,
                          labelToId: PyDict<string, int>, multiLabel: bool, prev: Option<seq<int>>)
    : (r: Result<Option<seq<int>>>)
    requires n <= ZipLength(meta)
    ensures n == 0 ==> r == Success(prev)
    ensures n > 0 && multiLabel ==> r == Failure(NotImplementedError)
    ensures n > 0 && r.Success? ==>
              var id := Lookup(labelToId, PairLabel(labels, meta.heads[n - 1], meta.tails[n - 1]));
              id.Success? && r.value == Some([id.value])
    decreases n
  {
    if n == 0 then Success(prev)
    else
      var _ :- ZippedLabelIds(labels, meta, n - 1, labelToId, multiLabel, prev);
      ZipStep(labelToId, multiLabel, PairLabel(labels, meta.heads[n - 1], meta.tails[n - 1]))
  }

  /** One turn of the zip loop, for a pair with label `pairLabel`. */
  function ZipStep(labelToId: PyDict<string, int>, multiLabel: bool, pairLabel: string): Result<Option<seq<int>>>
  {
    if multiLabel then Failure(NotImplementedError)
    else
      var id :- Lookup(labelToId, pairLabel);
      Success(Some([id]))
  }

  /** In single-label mode the zip loop succeeds exactly when `label_to_id` knows the label of every
      pair, and otherwise raises a KeyError for one of them. */
  lemma {:induction false} ZippedLabelIdsKnown(labels: PyDict<(Annotation, Annotation), string>, meta: PairMetadata,
                                               n: nat, labelToId: PyDict<string, int>, prev: Option<seq<int>>)
    requires n <= ZipLength(meta)
    ensures var r := ZippedLabelIds(labels, meta, n, labelToId, false, prev);
            (r.Success? <==>
               forall j :: 0 <= j < n ==> PairLabel(labels, meta.heads[j], meta.tails[j]) in Keys(labelToId)) &&
            (r.Failure? ==>
               exists j :: 0 <= j < n && r.error == KeyError(PairLabel(labels, meta.heads[j], meta.tails[j])))
    decreases n
  {
    if n > 0 {
      ZippedLabelIdsKnown(labels, meta, n - 1, labelToId, prev);
    }
  }

  /** The label ids of one document: the relation layer is iterated to build `head_tail_to_label`. */
  function DocumentLabelIds(d: TaskDocument, meta: PairMetadata, relationLayer: string,
                            labelToId: PyDict<string, int>, multiLabel: bool, prev: Option<seq<int>>)
    : (r: Result<Option<seq<int>>>)
    ensures relationLayer !in d.relations ==> r == Failure(TypeError(NOT_ITERABLE))
  {
    match RelationAnnotations(d, relationLayer)
    case None => Failure(TypeError(NOT_ITERABLE))
    case Some(relations) =>
      ZippedLabelIds(HeadTailLabels(relations), meta, ZipLength(meta), labelToId, multiLabel, prev)
  }

  /** `metadata[i]` */
  function MetadataAt(metadata: Option<seq<PairMetadata>>, i: nat): (r: Result<PairMetadata>)
    ensures metadata.None? ==> r == Failure(TypeError(NOT_SUBSCRIPTABLE))
    ensures metadata.Some? ==> r == GetIndex(metadata.value, i)
  {
    match metadata
    case None => Failure(TypeError(NOT_SUBSCRIPTABLE))
    case Some(ms) => GetIndex(ms, i)
  }

  /** Subscripting None. */
  const NOT_SUBSCRIPTABLE := "'NoneType' object is not subscriptable"

  /** The `label_ids` local, as the target loop reads it. */
  const LABEL_IDS := "label_ids"

  /** The targets of the first n documents together with the value `label_ids` holds afterwards. */
  function TargetsUpTo(docs: seq<TaskDocument>, metadata: Option<seq<PairMetadata>>, n: nat, relationLayer: string,
                       labelToId: PyDict<string, int>, multiLabel: bool): (r: Result<(seq<seq<int>>, Option<seq<int>>)>)
    requires n <= |docs|
    ensures r.Success? ==> |r.value.0| == n
    ensures r.Success? && n > 0 ==> r.value.1 == Some(r.value.0[n - 1])
    ensures n > 0 && multiLabel ==> r.Failure?
    decreases n
  {
    if n == 0 then Success(([], None))
    else
      var before :- TargetsUpTo(docs, metadata, n - 1, relationLayer, labelToId, multiLabel);
      TargetStep(docs[n - 1], metadata, n - 1, relationLayer, labelToId, multiLabel, before)
  }

  /** One turn of the target loop: document `i` with `before` the targets so far and the value of
      `label_ids`. */
  function TargetStep(d: TaskDocument, metadata: Option<seq<PairMetadata>>, i: nat, relationLayer: string,
                      labelToId: PyDict<string, int>, multiLabel: bool, before: (seq<seq<int>>, Option<seq<int>>))
    : (r: Result<(seq<seq<int>>, Option<seq<int>>)>)
    ensures r.Success? ==> r.value.1.Some? && r.value.0 == before.0 + [r.value.1.value]
    ensures multiLabel && before.1.None? ==> r.Failure?
  {
    var meta :- MetadataAt(metadata, i);
    var ids :- DocumentLabelIds(d, meta, relationLayer, labelToId, multiLabel, before.1);
    if ids.None? then Failure(UnboundLocalError(LABEL_IDS)) else Success((before.0 + [ids.value], ids))
  }

  /** `encode_target`: one target per document, each the label ids `label_ids` holds after the
      document's zip loop. */
  function EncodedTargets(docs: seq<TaskDocument>, metadata: Option<seq<PairMetadata>>, relationLayer: string,
                          labelToId: PyDict<string, int>, multiLabel: bool): (r: Result<seq<seq<int>>>)
    ensures r.Success? ==> |r.value| == |docs|
  {
    var r :- TargetsUpTo(docs, metadata, |docs|, relationLayer, labelToId, multiLabel);
    Success(r.0)
  }

  /** `encode_target`'s result read off the finished document loop. */
  lemma TargetsDone(docs: seq<TaskDocument>, metadata: Option<seq<PairMetadata>>, relationLayer: string,
                    labelToId: PyDict<string, int>, multiLabel: bool)
    ensures var t := TargetsUpTo(docs, metadata, |docs|, relationLayer, labelToId, multiLabel);
            EncodedTargets(docs, metadata, relationLayer, labelToId, multiLabel) ==
            if t.Success? then Success(t.value.0) else Failure(t.error)
  {
  }

  /** A zip loop that has raised before pair `n - 1` raises the same error after it. */
  lemma ZippedAbortStep(labels: PyDict<(Annotation, Annotation), string>, meta: PairMetadata, n: nat,
                        labelToId: PyDict<string, int>, multiLabel: bool, prev: Option<seq<int>>)
    requires 0 < n <= ZipLength(meta)
    requires ZippedLabelIds(labels, meta, n - 1, labelToId, multiLabel, prev).Failure?
    ensures ZippedLabelIds(labels, meta, n, labelToId, multiLabel, prev) ==
            ZippedLabelIds(labels, meta, n - 1, labelToId, multiLabel, prev)
  {
  }

  /** Once the zip loop has raised, it stays raised. */
  lemma {:induction false} ZippedAbort(labels: PyDict<(Annotation, Annotation), string>, meta: PairMetadata, k: nat,
                                       n: nat, labelToId: PyDict<string, int>, multiLabel: bool, prev: Option<seq<int>>)
    requires k <= n <= ZipLength(meta)
    requires ZippedLabelIds(labels, meta, k, labelToId, multiLabel, prev).Failure?
    ensures ZippedLabelIds(labels, meta, n, labelToId, multiLabel, prev) ==
            ZippedLabelIds(labels, meta, k, labelToId, multiLabel, prev)
    decreases n
  {
    if k < n {
      ZippedAbort(labels, meta, k, n - 1, labelToId, multiLabel, prev);
      ZippedAbortStep(labels, meta, n, labelToId, multiLabel, prev);
    }
  }

  /** The zip loop of one document. */
  method ZipLoop(labels: PyDict<(Annotation, Annotation), string>, meta: PairMetadata, labelToId: PyDict<string, int>,
                 multiLabel: bool, prev: Option<seq<int>>) returns (r: Result<Option<seq<int>>>)
    ensures r == ZippedLabelIds(labels, meta, ZipLength(meta), labelToId, multiLabel, prev)
  {
    var labelIds := prev;
    for j := 0 to ZipLength(meta)
      invariant ZippedLabelIds(labels, meta, j, labelToId, multiLabel, prev) == Success(labelIds)
    {
      var pairLabel := PairLabel(labels, meta.heads[j], meta.tails[j]);
      if multiLabel {
        ZippedAbort(labels, meta, j + 1, ZipLength(meta), labelToId, multiLabel, prev);
        return Failure(NotImplementedError);
      }
      var id := Lookup(labelToId, pairLabel);
      if id.Failure? {
        ZippedAbort(labels, meta, j + 1, ZipLength(meta), labelToId, multiLabel, prev);
        return Failure(id.error);
      }
      labelIds := Some([id.value]);
    }
    return Success(labelIds);
  }

  /** A target loop that has raised before document `n - 1` raises the same error after it. */
  lemma TargetsAbortStep(docs: seq<TaskDocument>, metadata: Option<seq<PairMetadata>>, n: nat,
                         relationLayer: string, labelToId: PyDict<string, int>, multiLabel: bool)
    requires 0 < n <= |docs|
    requires TargetsUpTo(docs, metadata, n - 1, relationLayer, labelToId, multiLabel).Failure?
    ensures TargetsUpTo(docs, metadata, n, relationLayer, labelToId, multiLabel) ==
            Failure(TargetsUpTo(docs, metadata, n - 1, relationLayer, labelToId, multiLabel).error)
  {
  }

  /** Once the target loop has raised, it stays raised. */
  lemma {:induction false} TargetsAbort(docs: seq<TaskDocument>, metadata: Option<seq<PairMetadata>>, k: nat, n: nat,
                                        relationLayer: string, labelToId: PyDict<string, int>, multiLabel: bool)
    requires k <= n <= |docs|
    requires TargetsUpTo(docs, metadata, k, relationLayer, labelToId, multiLabel).Failure?
    ensures TargetsUpTo(docs, metadata, n, relationLayer, labelToId, multiLabel) ==
            Failure(TargetsUpTo(docs, metadata, k, relationLayer, labelToId, multiLabel).error)
    decreases n
  {
    if k < n {
      TargetsAbort(docs, metadata, k, n - 1, relationLayer, labelToId, multiLabel);
      TargetsAbortStep(docs, metadata, n, relationLayer, labelToId, multiLabel);
    }
  }

  /** A document whose metadata holds no pair repeats the previous document's target, because
      `label_ids` keeps its value across documents; as the first document it raises
      UnboundLocalError. */
  lemma PairlessTarget(docs: seq<TaskDocument>, metadata: seq<PairMetadata>, n: nat, relationLayer: string,
                       labelToId: PyDict<string, int>, multiLabel: bool)
    requires 0 < n <= |docs| && n <= |metadata| && ZipLength(metadata[n - 1]) == 0
    requires relationLayer in docs[n - 1].relations
    requires TargetsUpTo(docs, Some(metadata), n - 1, relationLayer, labelToId, multiLabel).Success?
    ensures n == 1 ==>
              TargetsUpTo(docs, Some(metadata), n, relationLayer, labelToId, multiLabel) ==
              Failure(UnboundLocalError(LABEL_IDS))
    ensures n > 1 ==>
              var before := TargetsUpTo(docs, Some(metadata), n - 1, relationLayer, labelToId, multiLabel).value.0;
              TargetsUpTo(docs, Some(metadata), n, relationLayer, labelToId, multiLabel) ==
              Success((before + [before[n - 2]], Some(before[n - 2])))
  {
    assert MetadataAt(Some(metadata), n - 1) == Success(metadata[n - 1]);
  }

  /** An encoding with one head and one tail, from a document that has the relation layer. */
  predicate SinglePair(d: TaskDocument, meta: PairMetadata, relationLayer: string) {
    relationLayer in d.relations && |meta.heads| == 1 && |meta.tails| == 1
  }

  /** The gold label of a single-pair encoding: the label of the last relation between the head and
      the tail, or `no_relation`. */
  function GoldLabel(d: TaskDocument, meta: PairMetadata, relationLayer: string): string
    requires SinglePair(d, meta, relationLayer)
  {
    PairLabel(HeadTailLabels(d.relations[relationLayer]), meta.heads[0], meta.tails[0])
  }

  /** The target of a single-pair encoding with a known gold label is its gold label's id. */
  lemma SinglePairStep(docs: seq<TaskDocument>, metadata: seq<PairMetadata>, relationLayer: string,
                       labelToId: PyDict<string, int>, n: nat)
    requires 0 < n <= |docs| <= |metadata|
    requires SinglePair(docs[n - 1], metadata[n - 1], relationLayer)
    requires GoldLabel(docs[n - 1], metadata[n - 1], relationLayer) in Keys(labelToId)
    requires TargetsUpTo(docs, Some(metadata), n - 1, relationLayer, labelToId, false).Success?
    ensures var id := Lookup(labelToId, GoldLabel(docs[n - 1], metadata[n - 1], relationLayer)).value;
            TargetsUpTo(docs, Some(metadata), n, relationLayer, labelToId, false) ==
              Success((TargetsUpTo(docs, Some(metadata), n - 1, relationLayer, labelToId, false).value.0 + [[id]],
                       Some([id])))
  {
    assert MetadataAt(Some(metadata), n - 1) == Success(metadata[n - 1]);
    assert ZipLength(metadata[n - 1]) == 1;
  }

  /** Single-label targets of single-pair encodings with known gold labels: one `[label_id]` each. */
  lemma {:induction false} SinglePairTargets(docs: seq<TaskDocument>, metadata: seq<PairMetadata>, relationLayer: string,
                                             labelToId: PyDict<string, int>, n: nat)
    requires n <= |docs| <= |metadata|
    requires forall i :: 0 <= i < |docs| ==>
               SinglePair(docs[i], metadata[i], relationLayer) &&
               GoldLabel(docs[i], metadata[i], relationLayer) in Keys(labelToId)
    ensures var r := TargetsUpTo(docs, Some(metadata), n, relationLayer, labelToId, false);
            r.Success? &&
            forall i :: 0 <= i < n ==>
              r.value.0[i] == [Lookup(labelToId, GoldLabel(docs[i], metadata[i], relationLayer)).value]
    decreases n
  {
    if n > 0 {
      SinglePairTargets(docs, metadata, relationLayer, labelToId, n - 1);
      SinglePairStep(docs, metadata, relationLayer, labelToId, n);
      var prev := TargetsUpTo(docs, Some(metadata), n - 1, relationLayer, labelToId, false).value.0;
      var r := TargetsUpTo(docs, Some(metadata), n, relationLayer, labelToId, false).value.0;
      forall i | 0 <= i < n
        ensures r[i] == [Lookup(labelToId, GoldLabel(docs[i], metadata[i], relationLayer)).value]
      {
        if i < n - 1 {
          assert r[i] == prev[i];
        }
      }
    } else {
      assert TargetsUpTo(docs, Some(metadata), 0, relationLayer, labelToId, false) == Success(([], None));
    }
  }

  /** In single-label mode, when every encoding holds one pair whose gold label `label_to_id` knows,
      `encode_target` gives each encoding the one-element list of its gold label's id. */
  lemma OneLabelPerEncoding(docs: seq<TaskDocument>, metadata: seq<PairMetadata>, relationLayer: string,
                            labelToId: PyDict<string, int>)
    requires |docs| <= |metadata|
    requires forall i :: 0 <= i < |docs| ==>
               SinglePair(docs[i], metadata[i], relationLayer) &&
               GoldLabel(docs[i], metadata[i], relationLayer) in Keys(labelToId)
    ensures var r := EncodedTargets(docs, Some(metadata), relationLayer, labelToId, false);
            r.Success? &&
            forall i :: 0 <= i < |docs| ==>
              r.value[i] == [Lookup(labelToId, GoldLabel(docs[i], metadata[i], relationLayer)).value]
  {
    SinglePairTargets(docs, metadata, relationLayer, labelToId, |docs|);
  }

  /** Multi-label targets are not implemented: `encode_target` on any document raises, and on a
      first document with a pair it raises NotImplementedError. */
  lemma MultiLabelTargets(docs: seq<TaskDocument>, metadata: seq<PairMetadata>, relationLayer: string,
                          labelToId: PyDict<string, int>)
    requires |docs| > 0
    ensures EncodedTargets(docs, Some(metadata), relationLayer, labelToId, true).Failure?
    ensures |metadata| > 0 && ZipLength(metadata[0]) > 0 && relationLayer in docs[0].relations ==>
              EncodedTargets(docs, Some(metadata), relationLayer, labelToId, true) == Failure(NotImplementedError)
  {
    if |metadata| > 0 && ZipLength(metadata[0]) > 0 && relationLayer in docs[0].relations {
      assert MetadataAt(Some(metadata), 0) == Success(metadata[0]);
      assert TargetsUpTo(docs, Some(metadata), 1, relationLayer, labelToId, true) == Failure(NotImplementedError);
      TargetsAbort(docs, Some(metadata), 1, |docs|, relationLayer, labelToId, true);
    }
  }

  /** After `prepare` on the documents, the gold label of a pair that `encode_input` encodes from one
      of them has an id. */
  lemma EncodedGoldLabelKnown(docs: seq<TaskDocument>, entityLayer: string, relationLayer: string, addType: bool,
                              init: PyDict<string, int>, tokenize: string -> Encoding, d: TaskDocument,
                              meta: PairMetadata)
    requires PreparedLabels(docs, entityLayer, relationLayer, addType).Success?
    requires d in docs && SelectedEncoding(meta, d, entityLayer, relationLayer, tokenize)
    ensures SinglePair(d, meta, relationLayer)
    ensures GoldLabel(d, meta, relationLayer) in
            Keys(RelationVocabulary(init, PreparedLabels(docs, entityLayer, relationLayer, addType).value.relationLabels))
  {
    var labels := PreparedLabels(docs, entityLayer, relationLayer, addType).value.relationLabels;
    var j :| 0 <= j < |docs| && docs[j] == d;
    var relations := d.relations[relationLayer];
    PreparedRelationLabels(docs, entityLayer, relationLayer, addType);
    forall k | 0 <= k < |relations| ensures relations[k].tag in labels {
      assert docs[j].relations[relationLayer][k].tag == relations[k].tag;
    }
    PairLabelKnown(init, labels, relations, meta.heads[0], meta.tails[0]);
  }

  /** `prepare`, `encode_input` and single-label `encode_target` on the same documents: the targets
      exist, one per encoding, each the id of the encoded pair's gold label (the label of the last
      relation between its head and its tail, or `no_relation`). */
  lemma PreparedEncodedTargets(docs: seq<TaskDocument>, entityLayer: string, relationLayer: string, addType: bool,
                               init: PyDict<string, int>, m: Markup, tokenize: string -> Encoding)
    requires PreparedLabels(docs, entityLayer, relationLayer, addType).Success?
    requires EncodedInput(docs, entityLayer, relationLayer, m, tokenize).Success?
    ensures var enc := EncodedInput(docs, entityLayer, relationLayer, m, tokenize).value;
            var v := RelationVocabulary(init, PreparedLabels(docs, entityLayer, relationLayer, addType).value.relationLabels);
            var r := EncodedTargets(enc.newDocuments.value, enc.metadata, relationLayer, v, false);
            r.Success? && |r.value| == |enc.inputs| &&
            forall i :: 0 <= i < |enc.inputs| ==>
              SinglePair(enc.newDocuments.value[i], enc.metadata.value[i], relationLayer) &&
              GoldLabel(enc.newDocuments.value[i], enc.metadata.value[i], relationLayer) in Keys(v) &&
              r.value[i] == [Lookup(v, GoldLabel(enc.newDocuments.value[i], enc.metadata.value[i], relationLayer)).value]
  {
    var enc := EncodedInput(docs, entityLayer, relationLayer, m, tokenize).value;
    var v := RelationVocabulary(init, PreparedLabels(docs, entityLayer, relationLayer, addType).value.relationLabels);
    EncodedInputSound(docs, entityLayer, relationLayer, m, tokenize);
    var newDocs, metadata := enc.newDocuments.value, enc.metadata.value;
    forall i | 0 <= i < |newDocs|
      ensures SinglePair(newDocs[i], metadata[i], relationLayer) &&
              GoldLabel(newDocs[i], metadata[i], relationLayer) in Keys(v)
    {
      EncodedGoldLabelKnown(docs, entityLayer, relationLayer, addType, init, tokenize, newDocs[i], metadata[i]);
    }
    OneLabelPerEncoding(newDocs, metadata, relationLayer, v);
  }

  // ----- create_annotations_from_output ------------------------------------------------------

  /** The unbatched model output of one encoding: the predicted labels and their probabilities. */
  datatype RelationOutput = RelationOutput(labels: seq<string>, probabilities: seq<real>)

  /** `unbatch_output`, given the arg-max label ids of the batch and their probabilities: not
      implemented in multi-label mode; otherwise a list of ONE output holding the label and the
      probability of every batch row. */
  function Unbatched(multiLabel: bool, labelIds: seq<int>, probabilities: seq<real>, idToLabel: PyDict<int, string>)
    : (r: Result<seq<RelationOutput>>)
    requires |probabilities| == |labelIds|
    ensures multiLabel ==> r == Failure(NotImplementedError)
    ensures !multiLabel ==>
              (r.Success? <==> forall i :: 0 <= i < |labelIds| ==> labelIds[i] in Keys(idToLabel))
    ensures r.Success? ==> (|r.value| == 1 && |r.value[0].labels| == |labelIds| &&
              r.value[0].probabilities == probabilities &&
              forall i :: 0 <= i < |labelIds| ==> Get(idToLabel, labelIds[i]) == Some(r.value[0].labels[i]))
  {
    if multiLabel then Failure(NotImplementedError)
    else
      var found := seq(|labelIds|, i requires 0 <= i < |labelIds| =>
                     match Get(idToLabel, labelIds[i])
                     case Some(l) => Success(l)
                     case None => Failure(UnknownId(labelIds[i])));
      assert forall i :: 0 <= i < |labelIds| ==> (found[i].Success? <==> labelIds[i] in Keys(idToLabel));
      SequencedAt(found);
      var labels :- Sequenced(found);
      Success([RelationOutput(labels, probabilities)])
  }

  /** The length of `zip(heads, tails, labels, probabilities)`. */
  function OutputLength(meta: PairMetadata, out: RelationOutput): (r: nat)
    ensures r <= |meta.heads| && r <= |meta.tails| && r <= |out.labels| && r <= |out.probabilities|
    ensures r == |meta.heads| || r == |meta.tails| || r == |out.labels| || r == |out.probabilities|
  {
    var a := if |meta.heads| < |meta.tails| then |meta.heads| else |meta.tails|;
    var b := if |out.labels| < |out.probabilities| then |out.labels| else |out.probabilities|;
    if a < b then a else b
  }

  /** The relation the `k`-th zipped item predicts, scored with its probability. */
  function PredictedRelation(meta: PairMetadata, out: RelationOutput, k: nat): RelationAnnotation
    requires k < OutputLength(meta, out)
  {
    BinaryRelation(meta.heads[k], meta.tails[k], out.labels[k], out.probabilities[k])
  }

  /** The zipped items of an output, each with the relation it predicts. */
  function PredictedItems(meta: PairMetadata, out: RelationOutput, relationLayer: string)
    : (r: seq<(string, RelationAnnotation)>)
    ensures |r| == OutputLength(meta, out)
    ensures forall k :: 0 <= k < |r| ==> r[k] == (relationLayer, PredictedRelation(meta, out, k))
  {
    var n := OutputLength(meta, out);
    seq(n, k requires 0 <= k < n => (relationLayer, PredictedRelation(meta, out, k)))
  }

  /** `create_annotations_from_output`: the zipped items whose label is not `no_relation`, in order;
      multi-label output is not implemented. */
  function CreatedRelations(meta: PairMetadata, out: RelationOutput, relationLayer: string, multiLabel: bool)
    : (r: Result<TaskModule.Yielded<Annotation>>)
    ensures r.Failure? <==> multiLabel
    ensures r.Failure? ==> r.error == NotImplementedError
  {
    if multiLabel then Failure(NotImplementedError)
    else Success(Filter(PredictedItems(meta, out, relationLayer),
                        (item: (string, RelationAnnotation)) => item.1.tag != NO_RELATION))
  }

  /** In single-label mode a relation is created, in the relation layer, exactly for the zipped items
      whose label is not `no_relation`. */
  lemma CreatedRelationsMembers(meta: PairMetadata, out: RelationOutput, relationLayer: string)
    ensures var r := CreatedRelations(meta, out, relationLayer, false).value;
            (forall item :: item in r ==>
               item.0 == relationLayer &&
               exists k :: 0 <= k < OutputLength(meta, out) && out.labels[k] != NO_RELATION &&
                           item.1 == PredictedRelation(meta, out, k)) &&
            (forall k :: 0 <= k < OutputLength(meta, out) && out.labels[k] != NO_RELATION ==>
               (relationLayer, PredictedRelation(meta, out, k)) in r)
  {
    var items := PredictedItems(meta, out, relationLayer);
    var kept := Filter(items, (item: (string, RelationAnnotation)) => item.1.tag != NO_RELATION);
    assert CreatedRelations(meta, out, relationLayer, false).value == kept;
    forall item | item in kept
      ensures item.0 == relationLayer &&
              exists k :: 0 <= k < OutputLength(meta, out) && out.labels[k] != NO_RELATION &&
                          item.1 == PredictedRelation(meta, out, k)
    {
      var k :| 0 <= k < |items| && items[k] == item;
    }
    forall k | 0 <= k < OutputLength(meta, out) && out.labels[k] != NO_RELATION
      ensures (relationLayer, PredictedRelation(meta, out, k)) in kept
    {
      assert items[k].1.tag == out.labels[k];
    }
  }

  /** Composed with `unbatch_output`, a relation is created for every zipped pair whose row's label
      is not `no_relation`, with `id_to_label` of the row's arg-max id as its label
      and the row's probability as its score. */
  lemma UnbatchedRelations(meta: PairMetadata, labelIds: seq<int>, probabilities: seq<real>,
                           idToLabel: PyDict<int, string>, relationLayer: string)
    requires |probabilities| == |labelIds|
    requires Unbatched(false, labelIds, probabilities, idToLabel).Success?
    ensures var out := Unbatched(false, labelIds, probabilities, idToLabel).value[0];
            var r := CreatedRelations(meta, out, relationLayer, false).value;
            forall k :: 0 <= k < OutputLength(meta, out) && Get(idToLabel, labelIds[k]) != Some(NO_RELATION) ==>
              (relationLayer, BinaryRelation(meta.heads[k], meta.tails[k], Get(idToLabel, labelIds[k]).value,
                                             probabilities[k])) in r
  {
    var out := Unbatched(false, labelIds, probabilities, idToLabel).value[0];
    CreatedRelationsMembers(meta, out, relationLayer);
    forall k | 0 <= k < OutputLength(meta, out) && Get(idToLabel, labelIds[k]) != Some(NO_RELATION)
      ensures (relationLayer, BinaryRelation(meta.heads[k], meta.tails[k], Get(idToLabel, labelIds[k]).value,
                                             probabilities[k])) in CreatedRelations(meta, out, relationLayer, false).value
    {
      assert out.labels[k] != NO_RELATION;
      assert PredictedRelation(meta, out, k) ==
             BinaryRelation(meta.heads[k], meta.tails[k], Get(idToLabel, labelIds[k]).value, probabilities[k]);
    }
  }
  /** The target loop after document `i` is one more turn of it. */
  lemma TargetsStep(docs: seq<TaskDocument>, metadata: Option<seq<PairMetadata>>, i: nat, relationLayer: string,
                    labelToId: PyDict<string, int>, multiLabel: bool)
    requires i < |docs|
    requires TargetsUpTo(docs, metadata, i, relationLayer, labelToId, multiLabel).Success?
    ensures TargetsUpTo(docs, metadata, i + 1, relationLayer, labelToId, multiLabel) ==
            TargetStep(docs[i], metadata, i, relationLayer, labelToId, multiLabel,
                       TargetsUpTo(docs, metadata, i, relationLayer, labelToId, multiLabel).value)
  {
  }

  /** `encode_target`'s document loop, with `target` and `label_ids` as it leaves them; the first
      exception aborts it. */
  method DocumentTargets(docs: seq<TaskDocument>, metadata: Option<seq<PairMetadata>>, relationLayer: string,
                         labelToId: PyDict<string, int>, multiLabel: bool)
    returns (r: Result<(seq<seq<int>>, Option<seq<int>>)>)
    ensures r == TargetsUpTo(docs, metadata, |docs|, relationLayer, labelToId, multiLabel)
  {
    r := Success(([], None));
    var i := 0;
    while i < |docs| && r.Success?
      invariant i <= |docs|
      invariant r == TargetsUpTo(docs, metadata, i, relationLayer, labelToId, multiLabel)
    {
      r := NextTarget(docs, metadata, i, relationLayer, labelToId, multiLabel, r.value);
      i := i + 1;
    }
    if r.Failure? {
      TargetsAbort(docs, metadata, i, |docs|, relationLayer, labelToId, multiLabel);
    }
  }

  /** One pass of `encode_target`'s document loop, on document `i`. */
  method NextTarget(docs: seq<TaskDocument>, metadata: Option<seq<PairMetadata>>, i: nat, relationLayer: string,
                    labelToId: PyDict<string, int>, multiLabel: bool, before: (seq<seq<int>>, Option<seq<int>>))
    returns (r: Result<(seq<seq<int>>, Option<seq<int>>)>)
    requires i < |docs|
    requires TargetsUpTo(docs, metadata, i, relationLayer, labelToId, multiLabel) == Success(before)
    ensures r == TargetsUpTo(docs, metadata, i + 1, relationLayer, labelToId, multiLabel)
  {
    TargetsStep(docs, metadata, i, relationLayer, labelToId, multiLabel);
    r := DocumentTarget(docs[i], metadata, i, relationLayer, labelToId, multiLabel, before);
  }

  /** The body of `encode_target`'s document loop: look up the metadata, build `head_tail_to_label`,
      run the zip loop and append `label_ids`. */
  method DocumentTarget(d: TaskDocument, metadata: Option<seq<PairMetadata>>, i: nat, relationLayer: string,
                        labelToId: PyDict<string, int>, multiLabel: bool, before: (seq<seq<int>>, Option<seq<int>>))
    returns (r: Result<(seq<seq<int>>, Option<seq<int>>)>)
    ensures r == TargetStep(d, metadata, i, relationLayer, labelToId, multiLabel, before)
  {
    var meta := MetadataAt(metadata, i);
    if meta.Failure? {
      return Failure(meta.error);
    }
    var relations := RelationAnnotations(d, relationLayer);
    if relations.None? {
      return Failure(TypeError(NOT_ITERABLE));
    }
    var headTailToLabel := HeadTailLabels(relations.value);
    var labelIds := ZipLoop(headTailToLabel, meta.value, labelToId, multiLabel, before.1);
    if labelIds.Failure? {
      return Failure(labelIds.error);
    }
    if labelIds.value.None? {
      return Failure(UnboundLocalError(LABEL_IDS));
    }
    return Success((before.0 + [labelIds.value.value], labelIds.value));
  }

  // ----- the module ----------------------------------------------------------------------------

  /** The inner loop of `prepare` over one layer: each label not yet seen is added. */
  method AddUnseen(seen: seq<string>, labels: seq<string>) returns (r: seq<string>)
    ensures r == Seen(seen, labels)
  {
    r := seen;
    for k := 0 to |labels|
      invariant r == Seen(seen, labels[..k])
    {
      assert labels[..k + 1][..k] == labels[..k];
      if labels[k] !in r {
        r := r + [labels[k]];
      }
    }
    assert labels[..|labels|] == labels;
  }

  /** `TransformerRETextClassificationTaskModule`: its two layers, its modes, the tokenizer and its
      vocabulary (with the marker tokens added), the relation label vocabulary, the entity labels and
      the argument markers. */
  class RelationClassifier {
    const entityLayer: string
    const relationLayer: string
    const multiLabel: bool
    const addType: bool
    const tokenize: string -> Encoding
    const vocab: string -> int
    var labelToId: PyDict<string, int>
    var idToLabel: PyDict<int, string>
    var entityLabels: Option<seq<string>>
    var argumentMarkers: PyDict<MarkerKey, string>

    /** `__init__`, which ends by creating the argument markers. */
    constructor (entityLayer: string, relationLayer: string, multiLabel: bool, addType: bool,
                 labelToId: Option<PyDict<string, int>>, entityLabels: Option<seq<string>>,
                 tokenize: string -> Encoding, vocab: string -> int)
      requires !addType || entityLabels.Some?
      ensures this.entityLayer == entityLayer && this.relationLayer == relationLayer
      ensures this.multiLabel == multiLabel && this.addType == addType
      ensures this.tokenize == tokenize && this.vocab == vocab
      ensures this.labelToId == labelToId.GetOr([]) && idToLabel == Invert(this.labelToId)
      ensures this.entityLabels == entityLabels
      ensures argumentMarkers == ArgumentMarkers(addType, entityLabels).value
    {
      this.entityLayer := entityLayer;
      this.relationLayer := relationLayer;
      this.multiLabel := multiLabel;
      this.addType := addType;
      this.tokenize := tokenize;
      this.vocab := vocab;
      this.labelToId := labelToId.GetOr([]);
      idToLabel := Invert(labelToId.GetOr([]));
      this.entityLabels := entityLabels;
      argumentMarkers := ArgumentMarkers(addType, entityLabels).value;
    }

    /** `TransformerRETextClassificationTaskModule(...)` called with any settings: typed markers
        without entity labels make `_create_argument_markers` iterate `None`, the TypeError;
        otherwise the module `__init__` builds. */
    static method Create(entityLayer: string, relationLayer: string, multiLabel: bool, addType: bool,
                         labelToId: Option<PyDict<string, int>>, entityLabels: Option<seq<string>>,
                         tokenize: string -> Encoding, vocab: string -> int)
        returns (r: Result<RelationClassifier>)
      ensures r.Failure? <==> addType && entityLabels.None?
      ensures r.Failure? ==> r.error == TypeError(NOT_ITERABLE)
      ensures r.Success? ==> fresh(r.value)
      ensures r.Success? ==> r.value.entityLayer == entityLayer && r.value.relationLayer == relationLayer &&
                             r.value.multiLabel == multiLabel && r.value.addType == addType &&
                             r.value.tokenize == tokenize && r.value.vocab == vocab
      ensures r.Success? ==> r.value.labelToId == labelToId.GetOr([]) && r.value.idToLabel == Invert(r.value.labelToId)
      ensures r.Success? ==> r.value.entityLabels == entityLabels &&
                             r.value.argumentMarkers == ArgumentMarkers(addType, entityLabels).value
    {
      var markers := ArgumentMarkers(addType, entityLabels);
      if markers.Failure? {
        return Failure(markers.error);
      }
      var classifier := new RelationClassifier(entityLayer, relationLayer, multiLabel, addType, labelToId,
                                               entityLabels, tokenize, vocab);
      return Success(classifier);
    }

    /** The markers, their ids and the marking mode, as `_single_pair_insert_marker` uses them. */
    function CurrentMarkup(): Markup
      reads this
    {
      Markup(argumentMarkers, vocab, addType)
    }

    /** The label-collecting loop of `prepare`. */
    method CollectLabels(docs: seq<TaskDocument>) returns (r: Result<LabelSets>)
      ensures r == PreparedLabels(docs, entityLayer, relationLayer, addType)
    {
      var entitySeen: seq<string> := [];
      var relationSeen: seq<string> := [];
      for i := 0 to |docs|
        invariant PreparedLabels(docs[..i], entityLayer, relationLayer, addType) ==
                  Success(LabelSets(entitySeen, relationSeen))
      {
        assert docs[..i + 1][..i] == docs[..i];
        assert forall j :: 0 <= j < i ==> docs[..i + 1][j] == docs[j];
        var entityAnnotations := SpanAnnotations(docs[i], entityLayer);
        var relationAnnotations := RelationAnnotations(docs[i], relationLayer);
        if addType {
          if entityAnnotations.None? {
            assert entityLayer !in docs[i].spans;
            return Failure(TypeError(NOT_ITERABLE));
          }
          entitySeen := AddUnseen(entitySeen, SpanTags(entityAnnotations.value));
        }
        if relationAnnotations.None? {
          assert relationLayer !in docs[i].relations;
          return Failure(TypeError(NOT_ITERABLE));
        }
        relationSeen := AddUnseen(relationSeen, RelationTags(relationAnnotations.value));
      }
      assert docs[..|docs|] == docs;
      return Success(LabelSets(entitySeen, relationSeen));
    }

    /** `prepare`: collect the labels, give `no_relation` the id 0 and number the other relation
        labels from 1 with a counter; `id_to_label` becomes the inverse; the entity labels are
        stored and the markers created again from them. */
    method Prepare(docs: seq<TaskDocument>) returns (o: Outcome)
      modifies this
      ensures o.Fail? <==> PreparedLabels(docs, entityLayer, relationLayer, addType).Failure?
      ensures o.Fail? ==> o.error == TypeError(NOT_ITERABLE)
      ensures o.Fail? ==> labelToId == old(labelToId) && idToLabel == old(idToLabel) &&
                          entityLabels == old(entityLabels) && argumentMarkers == old(argumentMarkers)
      ensures o.Pass? ==>
                var sets := PreparedLabels(docs, entityLayer, relationLayer, addType).value;
                labelToId == RelationVocabulary(old(labelToId), sets.relationLabels) &&
                idToLabel == Invert(labelToId) && entityLabels == Some(sets.entityLabels) &&
                argumentMarkers == ArgumentMarkers(addType, entityLabels).value
    {
      var sets := CollectLabels(docs);
      if sets.Failure? {
        return Fail(sets.error);
      }
      var others := WithoutNoRelation(sets.value.relationLabels);
      labelToId := NumberKeys(Put(labelToId, NO_RELATION, 0), others);
      idToLabel := Invert(labelToId);
      entityLabels := Some(sets.value.entityLabels);
      argumentMarkers := ArgumentMarkers(addType, entityLabels).value;
      o := Pass;
    }

    /** `encode_input`, which is `_single_pair_insert_marker` with the module's markers. */
    method EncodeInput(docs: seq<TaskDocument>)
      returns (r: Result<TaskModule.InputEncodings<TaskDocument, seq<int>, PairMetadata>>)
      ensures r == EncodedInput(docs, entityLayer, relationLayer, CurrentMarkup(), tokenize)
    {
      r := InsertMarkers(docs, entityLayer, relationLayer, Markup(argumentMarkers, vocab, addType), tokenize);
    }

    /** `encode_target`: the documents' targets in order; the first exception aborts the loop. */
    method EncodeTarget(docs: seq<TaskDocument>, metadata: Option<seq<PairMetadata>>) returns (r: Result<seq<seq<int>>>)
      ensures r == EncodedTargets(docs, metadata, relationLayer, labelToId, multiLabel)
    {
      var t := DocumentTargets(docs, metadata, relationLayer, labelToId, multiLabel);
      TargetsDone(docs, metadata, relationLayer, labelToId, multiLabel);
      if t.Failure? {
        return Failure(t.error);
      }
      return Success(t.value.0);
    }
  }
}
