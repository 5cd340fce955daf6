/** The annotation values shared by all document variants: spans, labeled spans, binary relations
    and document-level labels. They are frozen dataclasses compared field by field; a relation refers
    to its head and tail annotations themselves, not to offsets. When serialised, an annotation becomes
    its field mapping plus an id (its hash), and a relation's head and tail become their ids. */
module Annotations {
  import opened Wrappers
  import opened PyLists
  import opened PyDicts

  /** The `label` field of the Python classes is called `tag` here, since `label` is a Dafny keyword. */
  datatype Annotation =
    | Span(start: int, end: int)
    | LabeledSpan(start: int, end: int, tag: string, score: real)
    | BinaryRelation(head: Annotation, tail: Annotation, tag: string, score: real)
    | Label(tag: string, score: real)
    | MultiLabel(labels: seq<string>, scores: seq<real>)
  {
    predicate IsSpan() {
      Span? || LabeledSpan?
    }

    predicate IsMultilabel() {
      MultiLabel?
    }

    /** `annotation.label if annotation.is_multilabel else [annotation.label]` */
    function LabelList(): (r: seq<string>)
      requires !Span?
      ensures !MultiLabel? ==> r == [tag]
      ensures MultiLabel? ==> r == labels
    {
      if MultiLabel? then labels else [tag]
    }
  }

  /** The annotations a span layer of a task module holds. */
  type LabeledSpanAnnotation = a: Annotation | a.LabeledSpan? witness LabeledSpan(0, 0, "", 1.0)

  /** The annotations a relation layer of a task module holds. */
  type RelationAnnotation = a: Annotation | a.BinaryRelation?
    witness BinaryRelation(Span(0, 0), Span(0, 0), "", 1.0)

  /** The annotations a document-level label layer of a task module holds. */
  type LabelAnnotation = a: Annotation | a.Label? || a.MultiLabel? witness Label("", 1.0)

  /** `Span.text()`: the covered part of the target text. */
  function SpanText(target: string, a: Annotation): (r: string)
    requires a.IsSpan()
    ensures 0 <= a.start <= a.end <= |target| ==> r == target[a.start..a.end]
    ensures |r| <= |target|
  {
    Slice(target, a.start, a.end)
  }

  /** The serialised fields of an annotation: a relation's head and tail are replaced by ids. */
  datatype Record =
    | SpanRecord(start: int, end: int)
    | LabeledSpanRecord(start: int, end: int, tag: string, score: real)
    | RelationRecord(headId: int, tailId: int, tag: string, score: real)
    | LabelRecord(tag: string, score: real)
    | MultiLabelRecord(labels: seq<string>, scores: seq<real>)

  /** An annotation dict: the fields plus the id that other annotation dicts use to refer to it. */
  datatype AnnotationDict = AnnotationDict(fields: Record, id: int)

  /** The accumulator that deserialisation fills: id to (layer name, rebuilt annotation). */
  type Store = PyDict<int, (string, Annotation)>

  function Fields(a: Annotation, hash: Annotation -> int): (r: Record)
    ensures a.BinaryRelation? <==> r.RelationRecord?
    ensures a.BinaryRelation? ==> r.headId == hash(a.head) && r.tailId == hash(a.tail)
  {
    match a
    case Span(s, e) => SpanRecord(s, e)
    case LabeledSpan(s, e, l, sc) => LabeledSpanRecord(s, e, l, sc)
    case BinaryRelation(h, t, l, sc) => RelationRecord(hash(h), hash(t), l, sc)
    case Label(l, sc) => LabelRecord(l, sc)
    case MultiLabel(ls, scs) => MultiLabelRecord(ls, scs)
  }

  /** `annotation.asdict()`: the fields without the target, plus `hash(annotation)` as the id. */
  function AsDict(a: Annotation, hash: Annotation -> int): (r: AnnotationDict)
    ensures r.id == hash(a)
    ensures r.fields == Fields(a, hash)
  {
    AnnotationDict(Fields(a, hash), hash(a))
  }

  /** Look up an id in the accumulator; a missing id is a KeyError. */
  function Resolve(store: Store, id: int): (r: Result<Annotation>)
    ensures r.Success? <==> id in Keys(store)
    ensures r.Failure? ==> r.error == UnknownId(id)
  {
    match Get(store, id)
    case Some(entry) => Success(entry.1)
    case None => Failure(UnknownId(id))
  }

  /** `cls.fromdict(dct, annotations)`: rebuild an annotation from its fields; a relation's head and
      tail ids are substituted by the objects stored under them. */
  function FromDict(r: Record, store: Store): (a: Result<Annotation>)
    ensures !r.RelationRecord? ==> a.Success?
    ensures r.RelationRecord? ==>
              (a.Success? <==> r.headId in Keys(store) && r.tailId in Keys(store))
  {
    match r
    case SpanRecord(s, e) => Success(Span(s, e))
    case LabeledSpanRecord(s, e, l, sc) => Success(LabeledSpan(s, e, l, sc))
    case RelationRecord(h, t, l, sc) =>
      var head :- Resolve(store, h);
      var tail :- Resolve(store, t);
      Success(BinaryRelation(head, tail, l, sc))
    case LabelRecord(l, sc) => Success(Label(l, sc))
    case MultiLabelRecord(ls, scs) => Success(MultiLabel(ls, scs))
  }

  /** The store holds `b` under its hash. */
  predicate Stores(store: Store, b: Annotation, hash: Annotation -> int) {
    Get(store, hash(b)).Some? && Get(store, hash(b)).value.1 == b
  }

  /** Serialising and rebuilding an annotation gives it back, provided a relation's head and tail
      are already in the store under their ids. */
  lemma AnnotationRoundTrip(a: Annotation, store: Store, hash: Annotation -> int)
    requires a.BinaryRelation? ==> Stores(store, a.head, hash) && Stores(store, a.tail, hash)
    ensures FromDict(AsDict(a, hash).fields, store) == Success(a)
  {
  }
}
