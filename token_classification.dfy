/** The token classification task module: each entity label `l` becomes the tags `B-l` and `I-l`
    next to `O`; a document (or each of its partitions) is tokenized, each token's target is the tag
    of the entity covering it, and decoded tag sequences become labeled spans again. The tokenizer is
    a function parameter, and so is `bio_tags_to_spans`, which is not part of this model. */
module TokenClassification {
  import opened Wrappers
  import opened PyLists
  import opened PyDicts
  import opened Annotations
  import opened TaskDocuments
  import TaskModule

  const OUTSIDE := "O"
  const FULL_DOCUMENT := "FULL_DOCUMENT"
  const SENTENCE_INDEX := "sentence_index"

  // ----- prepare -----------------------------------------------------------------------------

  /** The labels of one document's entities. */
  function SpanLabels(spans: seq<LabeledSpanAnnotation>): set<string> {
    set a | a in spans :: a.tag
  }

  /** The label set `prepare` collects: the labels of every document's entities; a document without
      the entity layer fails the assertion. */
  function EntityLabels(docs: seq<TaskDocument>, layer: string): (r: Result<set<string>>)
    ensures r.Failure? <==> exists i :: 0 <= i < |docs| && layer !in docs[i].spans
    ensures r.Failure? ==> r.error == AssertionError(NoSpansMessage(layer))
    ensures r.Success? ==> forall l :: l in r.value <==>
                             exists i :: 0 <= i < |docs| && l in SpanLabels(docs[i].spans[layer])
    decreases |docs|
  {
    if docs == [] then Success({})
    else
      var n := |docs| - 1;
      var init := EntityLabels(docs[..n], layer);
      assert forall i :: 0 <= i < n ==> docs[..n][i] == docs[i];
      if init.Failure? then init
      else match SpanAnnotations(docs[n], layer)
        case None => Failure(AssertionError(NoSpansMessage(layer)))
        case Some(spans) => Success(init.value + SpanLabels(spans))
  }

  /** The tag `prefix-label`. */
  function Tag(prefix: string, entityLabel: string): string {
    prefix + "-" + entityLabel
  }

  /** The tags the counter loop of `prepare` numbers: `B-l` and `I-l` for each label `l` in turn. */
  function BioTags(labels: seq<string>): (r: seq<string>)
    ensures |r| == 2 * |labels|
  {
    seq(2 * |labels|, k requires 0 <= k < 2 * |labels| => Tag(if k % 2 == 0 then "B" else "I", labels[k / 2]))
  }

  /** The items the counter loop of `prepare` assigns: the tags numbered from 1. */
  function BioItems(labels: seq<string>): (r: PyDict<string, int>)
    ensures Keys(r) == BioTags(labels)
  {
    Numbered(BioTags(labels))
  }

  /** `label_to_id` after `prepare`: `O` set to 0, then the tags of the sorted labels. */
  function Vocabulary(init: PyDict<string, int>, labels: seq<string>): PyDict<string, int> {
    Merge(Put(init, OUTSIDE, 0), BioItems(labels))
  }

  /** A tag starts with its prefix letter and ends with its label. */
  lemma TagParts(prefix: char, entityLabel: string)
    ensures Tag([prefix], entityLabel)[0] == prefix && Tag([prefix], entityLabel)[2..] == entityLabel
  {
  }

  /** The item at `2i+p` is the `p`-th prefix's tag of label `i`. */
  lemma BioItemAt(labels: seq<string>, i: nat, p: nat)
    requires i < |labels| && p < 2
    ensures BioItems(labels)[2 * i + p] == (Tag(["B", "I"][p], labels[i]), 2 * i + p + 1)
  {
    assert (2 * i + p) % 2 == p && (2 * i + p) / 2 == i;
  }

  /** With distinct labels the tags are distinct keys. */
  lemma {:induction false} BioItemsValid(labels: seq<string>)
    requires NoDuplicates(labels)
    ensures NoDuplicates(BioTags(labels)) && OUTSIDE !in BioTags(labels)
    ensures Valid(BioItems(labels)) && OUTSIDE !in Keys(BioItems(labels))
  {
    var ks := BioTags(labels);
    forall k | 0 <= k < |ks| ensures ks[k][0] == (if k % 2 == 0 then 'B' else 'I') && ks[k][2..] == labels[k / 2] {
      TagParts(if k % 2 == 0 then 'B' else 'I', labels[k / 2]);
    }
    forall i, j | 0 <= i < j < |ks| ensures ks[i] != ks[j] {
      if i / 2 == j / 2 {
        assert i % 2 == 0 && j % 2 == 1;
        assert ks[i][0] != ks[j][0];
      } else {
        assert labels[i / 2] != labels[j / 2];
        assert ks[i][2..] != ks[j][2..];
      }
    }
    forall k | 0 <= k < |ks| ensures ks[k] != OUTSIDE {
      assert ks[k][0] != OUTSIDE[0];
    }
  }

  /** The tags of the `i`-th label get the ids 2i+1 and 2i+2. */
  lemma BioItemsAt(labels: seq<string>, i: nat)
    requires NoDuplicates(labels) && i < |labels|
    ensures Tag("B", labels[i]) in Keys(BioItems(labels)) && Tag("I", labels[i]) in Keys(BioItems(labels))
    ensures Get(BioItems(labels), Tag("B", labels[i])) == Some(2 * i + 1)
    ensures Get(BioItems(labels), Tag("I", labels[i])) == Some(2 * i + 2)
  {
    BioItemsValid(labels);
    BioItemAt(labels, i, 0);
    BioItemAt(labels, i, 1);
    NumberedGet(BioTags(labels), 2 * i);
    NumberedGet(BioTags(labels), 2 * i + 1);
  }

  /** `prepare` gives `O` the id 0 and, for the `i`-th label in sorted order, `B-` the id 2i+1 and
      `I-` the id 2i+2; every other key the module already had keeps its id. */
  lemma {:induction false} VocabularyIds(init: PyDict<string, int>, labels: seq<string>)
    requires NoDuplicates(labels)
    ensures Get(Vocabulary(init, labels), OUTSIDE) == Some(0)
    ensures forall i :: 0 <= i < |labels| ==>
              Get(Vocabulary(init, labels), Tag("B", labels[i])) == Some(2 * i + 1) &&
              Get(Vocabulary(init, labels), Tag("I", labels[i])) == Some(2 * i + 2)
    ensures forall k :: k != OUTSIDE && k !in Keys(BioItems(labels)) ==> Get(Vocabulary(init, labels), k) == Get(init, k)
  {
    var items := BioItems(labels);
    var base := Put(init, OUTSIDE, 0);
    BioItemsValid(labels);
    MergeGet(base, items, OUTSIDE);
    forall i | 0 <= i < |labels|
      ensures Get(Vocabulary(init, labels), Tag("B", labels[i])) == Some(2 * i + 1)
      ensures Get(Vocabulary(init, labels), Tag("I", labels[i])) == Some(2 * i + 2)
    {
      BioItemsAt(labels, i);
      MergeGet(base, items, Tag("B", labels[i]));
      MergeGet(base, items, Tag("I", labels[i]));
    }
    forall k | k != OUTSIDE && k !in Keys(items) ensures Get(Vocabulary(init, labels), k) == Get(init, k) {
      MergeGet(base, items, k);
      PutOther(init, OUTSIDE, 0, k);
    }
  }

  /** Without a given `label_to_id`, `prepare` builds `O` followed by the tags, ids 0, 1, 2, ... */
  lemma {:induction false} FreshVocabulary(labels: seq<string>)
    requires NoDuplicates(labels)
    ensures Vocabulary([], labels) == [(OUTSIDE, 0)] + BioItems(labels)
    ensures Valid(Vocabulary([], labels))
    ensures forall i :: 0 <= i < |Vocabulary([], labels)| ==> Vocabulary([], labels)[i].1 == i
  {
    BioItemsValid(labels);
    NumberedFresh(OUTSIDE, BioTags(labels));
  }

  /** On a module without a given `label_to_id`, the ids are exactly 0..2n for n labels and
      `id_to_label` is the inverse of `label_to_id`. */
  lemma {:induction false} FreshVocabularyInverse(labels: seq<string>)
    requires NoDuplicates(labels)
    ensures forall k, id :: Get(Invert(Vocabulary([], labels)), id) == Some(k) <==> Get(Vocabulary([], labels), k) == Some(id)
    ensures forall id :: Get(Invert(Vocabulary([], labels)), id).Some? <==> 0 <= id <= 2 * |labels|
  {
    FreshVocabulary(labels);
    BioItemsValid(labels);
    NumberedInverse(OUTSIDE, BioTags(labels));
  }

  // ----- encode_input ------------------------------------------------------------------------

  /** The partitions `encode_input` tokenizes: the partition layer, which must be present and not
      empty, or one pseudo-partition over the whole text. */
  function Partitions(d: TaskDocument, partitionLayer: Option<string>): (r: Result<seq<LabeledSpanAnnotation>>)
    ensures partitionLayer.None? ==> r == Success([LabeledSpan(0, |d.text|, FULL_DOCUMENT, 1.0)])
    ensures partitionLayer.Some? ==>
              (r.Failure? <==> partitionLayer.value !in d.spans || d.spans[partitionLayer.value] == []) &&
              (r.Failure? ==> r.error == AssertionError(NoSpansMessage(partitionLayer.value))) &&
              (r.Success? ==> r.value == d.spans[partitionLayer.value])
  {
    if partitionLayer.None? then Success([LabeledSpan(0, |d.text|, FULL_DOCUMENT, 1.0)])
    else NonEmptySpans(d, partitionLayer.value)
  }

  /** One encoding `encode_input` appends: the model input, its metadata and its document. */
  datatype Encoded = Encoded(input: Encoding, metadata: TokenMetadata, document: TaskDocument)

  /** The encoding of partition `k` of `d`: its text tokenized, with the partition index when the
      module has a partition layer. */
  function PartitionInput(d: TaskDocument, parts: seq<LabeledSpanAnnotation>, k: nat, partitionLayer: Option<string>,
                          tokenize: string -> Tokenized): Encoded
    requires k < |parts|
  {
    var t := tokenize(Slice(d.text, parts[k].start, parts[k].end));
    Encoded(t.encoding, TokenMetadata(t.offsetMapping, t.specialTokensMask, if partitionLayer.Some? then Some(k) else None), d)
  }

  /** How many encodings a document contributes. */
  function PartitionCount(d: TaskDocument, partitionLayer: Option<string>): nat {
    var parts := Partitions(d, partitionLayer);
    if parts.Success? then |parts.value| else 0
  }

  /** The position of the first encoding of `docs[i]`. */
  function Offset(docs: seq<TaskDocument>, i: nat, partitionLayer: Option<string>): nat
    requires i <= |docs|
  {
    if i == 0 then 0 else Offset(docs, i - 1, partitionLayer) + PartitionCount(docs[i - 1], partitionLayer)
  }

  /** The encodings of `encode_input`, document after document and partition after partition. */
  function EncodedInputs(docs: seq<TaskDocument>, partitionLayer: Option<string>, tokenize: string -> Tokenized)
    : Result<seq<Encoded>>
    decreases |docs|
  {
    if docs == [] then Success([])
    else
      var n := |docs| - 1;
      var init :- EncodedInputs(docs[..n], partitionLayer, tokenize);
      var parts :- Partitions(docs[n], partitionLayer);
      Success(init + seq(|parts|, k requires 0 <= k < |parts| => PartitionInput(docs[n], parts, k, partitionLayer, tokenize)))
  }

  /** Three lists holding `items` column by column. */
  predicate Columns(items: seq<Encoded>, inputs: seq<Encoding>, metadata: seq<TokenMetadata>, documents: seq<TaskDocument>) {
    |inputs| == |items| && |metadata| == |items| && |documents| == |items| &&
    forall j :: 0 <= j < |items| ==> items[j] == Encoded(inputs[j], metadata[j], documents[j])
  }

  /** Column lists of two runs of encodings, one after the other, hold the runs one after the other. */
  lemma ColumnsConcat(a: seq<Encoded>, b: seq<Encoded>, inputs: seq<Encoding>, metadata: seq<TokenMetadata>,
                      documents: seq<TaskDocument>, inputs': seq<Encoding>, metadata': seq<TokenMetadata>,
                      documents': seq<TaskDocument>)
    requires Columns(a, inputs, metadata, documents) && Columns(b, inputs', metadata', documents')
    ensures Columns(a + b, inputs + inputs', metadata + metadata', documents + documents')
  {
    forall j | 0 <= j < |a + b|
      ensures (a + b)[j] == Encoded((inputs + inputs')[j], (metadata + metadata')[j], (documents + documents')[j])
    {
      if j >= |a| {
        assert (a + b)[j] == b[j - |a|];
      }
    }
  }

  /** A document whose partitions are found adds one encoding per partition. */
  lemma EncodedInputsStep(docs: seq<TaskDocument>, i: nat, partitionLayer: Option<string>, tokenize: string -> Tokenized)
    requires i < |docs| && EncodedInputs(docs[..i], partitionLayer, tokenize).Success?
    requires Partitions(docs[i], partitionLayer).Success?
    ensures var parts := Partitions(docs[i], partitionLayer).value;
            EncodedInputs(docs[..i + 1], partitionLayer, tokenize) ==
              Success(EncodedInputs(docs[..i], partitionLayer, tokenize).value +
                      seq(|parts|, k requires 0 <= k < |parts| => PartitionInput(docs[i], parts, k, partitionLayer, tokenize)))
  {
    assert docs[..i + 1][..i] == docs[..i];
  }

  /** The inner loop of `encode_input` on one document: each partition tokenized in turn. */
  method PartitionInputs(d: TaskDocument, parts: seq<LabeledSpanAnnotation>, partitionLayer: Option<string>,
                         tokenize: string -> Tokenized)
      returns (inputs: seq<Encoding>, metadata: seq<TokenMetadata>, documents: seq<TaskDocument>)
    ensures Columns(seq(|parts|, k requires 0 <= k < |parts| => PartitionInput(d, parts, k, partitionLayer, tokenize)),
                    inputs, metadata, documents)
  {
    inputs, metadata, documents := [], [], [];
    for k := 0 to |parts|
      invariant Columns(seq(k, k' requires 0 <= k' < k => PartitionInput(d, parts, k', partitionLayer, tokenize)),
                        inputs, metadata, documents)
    {
      var t := tokenize(Slice(d.text, parts[k].start, parts[k].end));
      var meta := TokenMetadata(t.offsetMapping, t.specialTokensMask, if partitionLayer.Some? then Some(k) else None);
      ghost var before := seq(k, k' requires 0 <= k' < k => PartitionInput(d, parts, k', partitionLayer, tokenize));
      ghost var after := seq(k + 1, k' requires 0 <= k' < k + 1 => PartitionInput(d, parts, k', partitionLayer, tokenize));
      assert after == before + [Encoded(t.encoding, meta, d)];
      metadata := metadata + [meta];
      inputs := inputs + [t.encoding];
      documents := documents + [d];
    }
  }

  /** Document `i` contributes one encoding per partition, starting at `Offset(docs, i)`. */
  predicate LaidOut(docs: seq<TaskDocument>, partitionLayer: Option<string>, tokenize: string -> Tokenized,
                    items: seq<Encoded>)
  {
    |items| == Offset(docs, |docs|, partitionLayer) &&
    forall i, k :: 0 <= i < |docs| && 0 <= k < PartitionCount(docs[i], partitionLayer) ==>
      Slot(docs, partitionLayer, tokenize, items, i, k)
  }

  /** The encoding of partition `k` of `docs[i]` sits at `Offset(docs, i) + k`. */
  predicate Slot(docs: seq<TaskDocument>, partitionLayer: Option<string>, tokenize: string -> Tokenized,
                 items: seq<Encoded>, i: nat, k: nat)
    requires i < |docs| && k < PartitionCount(docs[i], partitionLayer)
  {
    Offset(docs, i, partitionLayer) + k < |items| &&
    items[Offset(docs, i, partitionLayer) + k] ==
      PartitionInput(docs[i], Partitions(docs[i], partitionLayer).value, k, partitionLayer, tokenize)
  }

  /** `encode_input` fails exactly when some document lacks its partitions; otherwise document `i`
      contributes one encoding per partition, starting at `Offset(docs, i)`, each with the document
      itself and, on the partition path, the partition's index. */
  lemma {:induction false} EncodedInputsLayout(docs: seq<TaskDocument>, partitionLayer: Option<string>,
                                               tokenize: string -> Tokenized)
    ensures EncodedInputs(docs, partitionLayer, tokenize).Success? <==>
              forall i :: 0 <= i < |docs| ==> Partitions(docs[i], partitionLayer).Success?
    ensures EncodedInputs(docs, partitionLayer, tokenize).Failure? ==>
              partitionLayer.Some? &&
              EncodedInputs(docs, partitionLayer, tokenize).error == AssertionError(NoSpansMessage(partitionLayer.value))
    ensures var r := EncodedInputs(docs, partitionLayer, tokenize);
            r.Success? ==> LaidOut(docs, partitionLayer, tokenize, r.value)
    decreases |docs|
  {
    if docs != [] {
      var n := |docs| - 1;
      var init := docs[..n];
      EncodedInputsLayout(init, partitionLayer, tokenize);
      assert forall i :: 0 <= i < n ==> init[i] == docs[i];
      OffsetPrefix(docs, n, partitionLayer);
      var r := EncodedInputs(docs, partitionLayer, tokenize);
      if r.Success? {
        LayoutStep(docs, partitionLayer, tokenize, EncodedInputs(init, partitionLayer, tokenize).value,
                   Partitions(docs[n], partitionLayer).value);
      }
    }
  }

  /** The encodings of one more document go after those of the documents before it. */
  lemma LayoutStep(docs: seq<TaskDocument>, partitionLayer: Option<string>, tokenize: string -> Tokenized,
                   before: seq<Encoded>, parts: seq<LabeledSpanAnnotation>)
    requires docs != [] && LaidOut(docs[..|docs| - 1], partitionLayer, tokenize, before)
    requires Partitions(docs[|docs| - 1], partitionLayer) == Success(parts)
    ensures LaidOut(docs, partitionLayer, tokenize,
                    before + seq(|parts|, k requires 0 <= k < |parts| =>
                                   PartitionInput(docs[|docs| - 1], parts, k, partitionLayer, tokenize)))
  {
    var n := |docs| - 1;
    var init := docs[..n];
    var added := seq(|parts|, k requires 0 <= k < |parts| => PartitionInput(docs[n], parts, k, partitionLayer, tokenize));
    var items := before + added;
    OffsetPrefix(docs, n, partitionLayer);
    assert |before| == Offset(docs, n, partitionLayer);
    forall i, k | 0 <= i < |docs| && 0 <= k < PartitionCount(docs[i], partitionLayer)
      ensures Slot(docs, partitionLayer, tokenize, items, i, k)
    {
      if i < n {
        SlotKept(docs, partitionLayer, tokenize, before, added, i, k);
      } else {
        assert Offset(docs, i, partitionLayer) + k == |before| + k;
        assert items[|before| + k] == added[k];
      }
    }
  }

  lemma SlotKept(docs: seq<TaskDocument>, partitionLayer: Option<string>, tokenize: string -> Tokenized,
                 before: seq<Encoded>, added: seq<Encoded>, i: nat, k: nat)
    requires docs != [] && LaidOut(docs[..|docs| - 1], partitionLayer, tokenize, before)
    requires i < |docs| - 1 && k < PartitionCount(docs[i], partitionLayer)
    requires forall j :: 0 <= j <= |docs| - 1 ==> Offset(docs[..|docs| - 1], j, partitionLayer) == Offset(docs, j, partitionLayer)
    ensures Slot(docs, partitionLayer, tokenize, before + added, i, k)
  {
    var init := docs[..|docs| - 1];
    assert init[i] == docs[i];
    assert Slot(init, partitionLayer, tokenize, before, i, k);
    OffsetBelow(init, i, partitionLayer);
    var at := Offset(docs, i, partitionLayer) + k;
    assert (before + added)[at] == before[at];
  }

  /** The offsets of a prefix of the documents are those of the whole list. */
  lemma {:induction false} OffsetPrefix(docs: seq<TaskDocument>, n: nat, partitionLayer: Option<string>)
    requires n <= |docs|
    ensures forall i :: 0 <= i <= n ==> Offset(docs[..n], i, partitionLayer) == Offset(docs, i, partitionLayer)
  {
    forall i | 0 <= i <= n ensures Offset(docs[..n], i, partitionLayer) == Offset(docs, i, partitionLayer) {
      OffsetPrefixAt(docs, n, i, partitionLayer);
    }
  }

  lemma {:induction false} OffsetPrefixAt(docs: seq<TaskDocument>, n: nat, i: nat, partitionLayer: Option<string>)
    requires i <= n <= |docs|
    ensures Offset(docs[..n], i, partitionLayer) == Offset(docs, i, partitionLayer)
    decreases i
  {
    if i > 0 {
      OffsetPrefixAt(docs, n, i - 1, partitionLayer);
      assert docs[..n][i - 1] == docs[i - 1];
    }
  }

  /** The encodings of a document come before those of the next one. */
  lemma {:induction false} OffsetBelow(docs: seq<TaskDocument>, i: nat, partitionLayer: Option<string>)
    requires i < |docs|
    ensures Offset(docs, i, partitionLayer) + PartitionCount(docs[i], partitionLayer) <= Offset(docs, |docs|, partitionLayer)
    decreases |docs| - i
  {
    if i + 1 < |docs| {
      OffsetBelow(docs, i + 1, partitionLayer);
    }
  }

  // ----- encode_target -----------------------------------------------------------------------

  /** The list comprehension that starts every target: the padding id where the word id is None and
      the id of `O` elsewhere, which is looked up only when some word id is not None. */
  function InitialLabels(wordIds: seq<Option<nat>>, labelToId: PyDict<string, int>, pad: int): (r: Result<seq<int>>)
    ensures r.Failure? <==> (exists j :: 0 <= j < |wordIds| && wordIds[j].Some?) && OUTSIDE !in Keys(labelToId)
    ensures r.Failure? ==> r.error == KeyError(OUTSIDE)
    ensures r.Success? ==> (|r.value| == |wordIds| &&
      forall j :: 0 <= j < |wordIds| ==>
        r.value[j] == if wordIds[j].None? then pad else Get(labelToId, OUTSIDE).value)
  {
    if (exists j | 0 <= j < |wordIds| :: wordIds[j].Some?) && Get(labelToId, OUTSIDE).None? then Failure(KeyError(OUTSIDE))
    else Success(seq(|wordIds|, j requires 0 <= j < |wordIds| =>
                       if wordIds[j].None? then pad else Get(labelToId, OUTSIDE).GetOr(0)))
  }

  /** An entity's tokens: `start` to `end` inclusive, and its label. */
  datatype TokenRange = TokenRange(start: nat, end: nat, tag: string)

  /** What the entity loop writes at position `j` of a range that covers it. */
  function RangeTag(rg: TokenRange, j: nat): string {
    Tag(if j == rg.start then "B" else "I", rg.tag)
  }

  /** `for j in range(start, end + 1): label_ids[j] = label_to_id[f"{prefix}-{label}"]`: the `B-`
      id at the start and the `I-` id after it. The `B-` tag is looked up before the first write and
      the `I-` tag before the second one; a write past the end is an IndexError. */
  function Marked(ids: seq<int>, rg: TokenRange, labelToId: PyDict<string, int>): (r: Result<seq<int>>)
  {
    if rg.end < rg.start then Success(ids)
    else
      var b :- Lookup(labelToId, Tag("B", rg.tag));
      if rg.start >= |ids| then Failure(IndexError)
      else
        var i :- if rg.end > rg.start then Lookup(labelToId, Tag("I", rg.tag)) else Success(0);
        if rg.end >= |ids| then Failure(IndexError)
        else Success(seq(|ids|, j requires 0 <= j < |ids| =>
                           if j == rg.start then b else if rg.start < j <= rg.end then i else ids[j]))
  }

  /** A range can be written: it is empty, or it ends inside the target and its tags are known. */
  predicate Writable(rg: TokenRange, n: nat, labelToId: PyDict<string, int>) {
    rg.end < rg.start ||
    (rg.end < n && Tag("B", rg.tag) in Keys(labelToId) && (rg.end > rg.start ==> Tag("I", rg.tag) in Keys(labelToId)))
  }

  /** The last of `ranges` that covers position `j`. */
  function LastCover(ranges: seq<TokenRange>, j: nat): (c: Option<TokenRange>)
    ensures c.Some? ==> c.value in ranges && c.value.start <= j <= c.value.end
    decreases |ranges|
  {
    if ranges == [] then None
    else
      var last := ranges[|ranges| - 1];
      if last.start <= j <= last.end then Some(last) else LastCover(ranges[..|ranges| - 1], j)
  }

  /** The entity loop over ranges already resolved. */
  function MarkedAll(ids: seq<int>, ranges: seq<TokenRange>, labelToId: PyDict<string, int>): Result<seq<int>>
    decreases |ranges|
  {
    if ranges == [] then Success(ids)
    else
      var before :- MarkedAll(ids, ranges[..|ranges| - 1], labelToId);
      Marked(before, ranges[|ranges| - 1], labelToId)
  }

  /** Marking one range fails exactly when the range cannot be written; otherwise it writes the range's
      tags over its positions and keeps every other position. */
  lemma MarkedAt(ids: seq<int>, rg: TokenRange, labelToId: PyDict<string, int>)
    ensures Marked(ids, rg, labelToId).Success? <==> Writable(rg, |ids|, labelToId)
    ensures var r := Marked(ids, rg, labelToId);
            r.Success? ==> (|r.value| == |ids| &&
              forall j :: 0 <= j < |ids| ==>
                r.value[j] == if rg.start <= j <= rg.end then Get(labelToId, RangeTag(rg, j)).value else ids[j])
  {
  }

  /** The entity loop succeeds exactly when every range can be written, and then each position holds
      the tag the last range covering it writes there, or its initial id when no range covers it. */
  lemma {:induction false} MarkedAllAt(ids: seq<int>, ranges: seq<TokenRange>, labelToId: PyDict<string, int>)
    ensures MarkedAll(ids, ranges, labelToId).Success? <==>
              forall k :: 0 <= k < |ranges| ==> Writable(ranges[k], |ids|, labelToId)
    ensures var r := MarkedAll(ids, ranges, labelToId);
            r.Success? ==> (|r.value| == |ids| &&
              forall j :: 0 <= j < |ids| ==>
                r.value[j] == match LastCover(ranges, j)
                              case None => ids[j]
                              case Some(c) => Get(labelToId, RangeTag(c, j)).value)
    decreases |ranges|
  {
    if ranges != [] {
      var n := |ranges| - 1;
      var init := ranges[..n];
      MarkedAllAt(ids, init, labelToId);
      assert forall k :: 0 <= k < n ==> init[k] == ranges[k];
      var before := MarkedAll(ids, init, labelToId);
      if before.Success? {
        MarkedAt(before.value, ranges[n], labelToId);
      }
    }
  }

  /** On the partition path: an entity outside the partition, or whose first or last character is
      not in a token, is skipped; otherwise its offsets are taken relative to the partition. */
  function PartitionRange(e: LabeledSpanAnnotation, sentence: LabeledSpanAnnotation, enc: Encoding): (r: Option<TokenRange>)
    ensures r.Some? <==> sentence.start <= e.start && e.end <= sentence.end &&
                         CharToToken(enc, e.start - sentence.start).Some? && CharToToken(enc, e.end - sentence.start - 1).Some?
    ensures r.Some? ==> r.value == TokenRange(enc.charToToken[e.start - sentence.start],
                                              enc.charToToken[e.end - sentence.start - 1], e.tag)
  {
    if e.start < sentence.start || e.end > sentence.end then None
    else
      var first := CharToToken(enc, e.start - sentence.start);
      var last := CharToToken(enc, e.end - sentence.start - 1);
      if first.None? || last.None? then None else Some(TokenRange(first.value, last.value, e.tag))
  }

  const NONE_PLUS_INT := "unsupported operand type(s) for +: 'NoneType' and 'int'"
  const NONE_NOT_INT := "'NoneType' object cannot be interpreted as an integer"

  /** On the plain path there is no check: `end_idx + 1` and `range(start_idx, ...)` fail on None. */
  function PlainRange(e: LabeledSpanAnnotation, enc: Encoding): (r: Result<TokenRange>)
    ensures r.Success? <==> CharToToken(enc, e.start).Some? && CharToToken(enc, e.end - 1).Some?
    ensures CharToToken(enc, e.end - 1).None? ==> r == Failure(TypeError(NONE_PLUS_INT))
    ensures CharToToken(enc, e.end - 1).Some? && CharToToken(enc, e.start).None? ==> r == Failure(TypeError(NONE_NOT_INT))
    ensures r.Success? ==> r.value == TokenRange(enc.charToToken[e.start], enc.charToToken[e.end - 1], e.tag)
  {
    var first := CharToToken(enc, e.start);
    var last := CharToToken(enc, e.end - 1);
    if last.None? then Failure(TypeError(NONE_PLUS_INT))
    else if first.None? then Failure(TypeError(NONE_NOT_INT))
    else Success(TokenRange(first.value, last.value, e.tag))
  }

  /** The range of an entity on the partition path (`sentence` given) or the plain path. */
  function EntityRange(e: LabeledSpanAnnotation, sentence: Option<LabeledSpanAnnotation>, enc: Encoding)
    : Result<Option<TokenRange>>
  {
    if sentence.Some? then Success(PartitionRange(e, sentence.value, enc))
    else var rg :- PlainRange(e, enc); Success(Some(rg))
  }

  /** The entity loop as the source runs it: each entity's range is resolved, and written, in turn. */
  function MarkedEntities(ids: seq<int>, entities: seq<LabeledSpanAnnotation>, sentence: Option<LabeledSpanAnnotation>,
                          enc: Encoding, labelToId: PyDict<string, int>): Result<seq<int>>
    decreases |entities|
  {
    if entities == [] then Success(ids)
    else
      var before :- MarkedEntities(ids, entities[..|entities| - 1], sentence, enc, labelToId);
      var rg :- EntityRange(entities[|entities| - 1], sentence, enc);
      if rg.None? then Success(before) else Marked(before, rg.value, labelToId)
  }

  /** The ranges of the entities that are not skipped, in entity order. */
  function Ranges(entities: seq<LabeledSpanAnnotation>, sentence: Option<LabeledSpanAnnotation>, enc: Encoding)
    : Result<seq<TokenRange>>
    decreases |entities|
  {
    if entities == [] then Success([])
    else
      var before :- Ranges(entities[..|entities| - 1], sentence, enc);
      var rg :- EntityRange(entities[|entities| - 1], sentence, enc);
      Success(before + if rg.Some? then [rg.value] else [])
  }

  /** When the entity loop succeeds, it is the loop over the ranges of the entities it does not skip. */
  lemma {:induction false} MarkedEntitiesRanges(ids: seq<int>, entities: seq<LabeledSpanAnnotation>,
                                                sentence: Option<LabeledSpanAnnotation>, enc: Encoding,
                                                labelToId: PyDict<string, int>)
    requires MarkedEntities(ids, entities, sentence, enc, labelToId).Success?
    ensures Ranges(entities, sentence, enc).Success?
    ensures MarkedEntities(ids, entities, sentence, enc, labelToId) ==
            MarkedAll(ids, Ranges(entities, sentence, enc).value, labelToId)
    decreases |entities|
  {
    if entities != [] {
      var init := entities[..|entities| - 1];
      MarkedEntitiesRanges(ids, init, sentence, enc, labelToId);
      var before := Ranges(init, sentence, enc).value;
      var rg := EntityRange(entities[|entities| - 1], sentence, enc).value;
      if rg.None? {
        assert Ranges(entities, sentence, enc).value == before + [];
        assert before + [] == before;
      } else {
        var all := before + [rg.value];
        assert all[..|all| - 1] == before;
      }
    }
  }

  /** A failure of the entity loop on a prefix of the entities is the failure of the whole loop. */
  lemma {:induction false} MarkedEntitiesAbort(ids: seq<int>, entities: seq<LabeledSpanAnnotation>, n: nat,
                                               sentence: Option<LabeledSpanAnnotation>, enc: Encoding,
                                               labelToId: PyDict<string, int>)
    requires n <= |entities| && MarkedEntities(ids, entities[..n], sentence, enc, labelToId).Failure?
    ensures MarkedEntities(ids, entities, sentence, enc, labelToId) == MarkedEntities(ids, entities[..n], sentence, enc, labelToId)
    decreases |entities|
  {
    if n < |entities| {
      var init := entities[..|entities| - 1];
      assert init[..n] == entities[..n];
      MarkedEntitiesAbort(ids, init, n, sentence, enc, labelToId);
    } else {
      assert entities[..n] == entities;
    }
  }

  /** The span layer a document must have, non-empty: the assertion `assert entities` fails on a
      missing layer and on an empty one. */
  function NonEmptySpans(d: TaskDocument, name: string): (r: Result<seq<LabeledSpanAnnotation>>)
    ensures r.Success? <==> name in d.spans && d.spans[name] != []
    ensures r.Failure? ==> r.error == AssertionError(NoSpansMessage(name))
    ensures r.Success? ==> r.value == d.spans[name]
  {
    match SpanAnnotations(d, name)
    case Some(s) => if s == [] then Failure(AssertionError(NoSpansMessage(name))) else Success(s)
    case None => Failure(AssertionError(NoSpansMessage(name)))
  }

  /** The partition a partition-path encoding was made from: `partitions[metadata["sentence_index"]]`. */
  function Sentence(d: TaskDocument, meta: TokenMetadata, partitionLayer: string): Result<LabeledSpanAnnotation> {
    if meta.sentenceIndex.None? then Failure(KeyError(SENTENCE_INDEX))
    else
      var parts :- NonEmptySpans(d, partitionLayer);
      GetIndex(parts, meta.sentenceIndex.value)
  }

  /** One iteration of the document loop of `encode_target` (document `i`, with the i-th input
      encoding and metadata). On the partition path the entity layer is checked first, then the
      metadata and the partition, and then the labels are built; on the plain path the labels are
      built before the entity layer is checked. */
  function DocumentTarget(d: TaskDocument, i: nat, inputs: seq<Encoding>, metadata: seq<TokenMetadata>,
                          entityLayer: string, partitionLayer: Option<string>,
                          labelToId: PyDict<string, int>, pad: int): (r: Result<seq<int>>)
    ensures partitionLayer.Some? && NonEmptySpans(d, entityLayer).Failure? ==> r == Failure(AssertionError(NoSpansMessage(entityLayer)))
    ensures partitionLayer.None? && i >= |inputs| ==> r == Failure(IndexError)
    ensures r.Success? ==> i < |inputs| && NonEmptySpans(d, entityLayer).Success?
  {
    if partitionLayer.Some? then
      var entities :- NonEmptySpans(d, entityLayer);
      var meta :- GetIndex(metadata, i);
      var sentence :- Sentence(d, meta, partitionLayer.value);
      var enc :- GetIndex(inputs, i);
      var ids :- InitialLabels(enc.wordIds, labelToId, pad);
      MarkedEntities(ids, entities, Some(sentence), enc, labelToId)
    else
      var enc :- GetIndex(inputs, i);
      var ids :- InitialLabels(enc.wordIds, labelToId, pad);
      var entities :- NonEmptySpans(d, entityLayer);
      MarkedEntities(ids, entities, None, enc, labelToId)
  }

  /** The partition an encoding's entities are read against: Some on the partition path. */
  function SentenceOf(d: TaskDocument, i: nat, metadata: seq<TokenMetadata>, partitionLayer: Option<string>)
    : Option<LabeledSpanAnnotation>
  {
    if partitionLayer.None? || i >= |metadata| then None
    else match Sentence(d, metadata[i], partitionLayer.value)
         case Success(s) => Some(s)
         case Failure(_) => None
  }

  /** A target that is built holds, at each token, the tag of the last entity range covering it,
      and otherwise the padding id for a special token and the id of `O` for a word token. Every
      entity that is not skipped has a range that fits the target and whose tags are known; on the
      partition path these are the entities inside the partition, with offsets relative to it. */
  lemma DocumentTargetAt(d: TaskDocument, i: nat, inputs: seq<Encoding>, metadata: seq<TokenMetadata>,
                         entityLayer: string, partitionLayer: Option<string>,
                         labelToId: PyDict<string, int>, pad: int)
    requires DocumentTarget(d, i, inputs, metadata, entityLayer, partitionLayer, labelToId, pad).Success?
    ensures i < |inputs| && entityLayer in d.spans
    ensures partitionLayer.Some? ==> SentenceOf(d, i, metadata, partitionLayer).Some?
    ensures var enc := inputs[i];
            var rs := Ranges(d.spans[entityLayer], SentenceOf(d, i, metadata, partitionLayer), enc);
            var r := DocumentTarget(d, i, inputs, metadata, entityLayer, partitionLayer, labelToId, pad).value;
            rs.Success? &&
            (forall k :: 0 <= k < |rs.value| ==> Writable(rs.value[k], |r|, labelToId)) &&
            |r| == |enc.wordIds| &&
            forall j :: 0 <= j < |r| ==>
              r[j] == match LastCover(rs.value, j)
                      case None => (if enc.wordIds[j].None? then pad else Get(labelToId, OUTSIDE).value)
                      case Some(c) => Get(labelToId, RangeTag(c, j)).value
  {
    var enc := inputs[i];
    var entities := d.spans[entityLayer];
    var sentence := SentenceOf(d, i, metadata, partitionLayer);
    var ids := InitialLabels(enc.wordIds, labelToId, pad).value;
    MarkedEntitiesRanges(ids, entities, sentence, enc, labelToId);
    MarkedAllAt(ids, Ranges(entities, sentence, enc).value, labelToId);
  }

  /** Every document's target, or the exception that aborts its iteration. */
  function DocumentTargets(docs: seq<TaskDocument>, inputs: seq<Encoding>, metadata: seq<TokenMetadata>,
                           entityLayer: string, partitionLayer: Option<string>,
                           labelToId: PyDict<string, int>, pad: int): (rs: seq<Result<seq<int>>>)
    ensures |rs| == |docs|
    ensures forall i :: 0 <= i < |docs| ==>
      rs[i] == DocumentTarget(docs[i], i, inputs, metadata, entityLayer, partitionLayer, labelToId, pad)
  {
    seq(|docs|, i requires 0 <= i < |docs| =>
      DocumentTarget(docs[i], i, inputs, metadata, entityLayer, partitionLayer, labelToId, pad))
  }

  /** The document loop of `encode_target`: one target per document, in document order; the first
      document whose target fails aborts the loop. */
  function EncodedTargets(docs: seq<TaskDocument>, inputs: seq<Encoding>, metadata: seq<TokenMetadata>,
                          entityLayer: string, partitionLayer: Option<string>,
                          labelToId: PyDict<string, int>, pad: int): (r: Result<seq<seq<int>>>)
    ensures r.Success? <==> forall i :: 0 <= i < |docs| ==>
      DocumentTarget(docs[i], i, inputs, metadata, entityLayer, partitionLayer, labelToId, pad).Success?
    ensures r.Success? ==> (|r.value| == |docs| &&
      forall i :: 0 <= i < |docs| ==>
        r.value[i] == DocumentTarget(docs[i], i, inputs, metadata, entityLayer, partitionLayer, labelToId, pad).value)
  {
    var rs := DocumentTargets(docs, inputs, metadata, entityLayer, partitionLayer, labelToId, pad);
    SequencedAt(rs);
    Sequenced(rs)
  }

  // ----- create_annotations_from_output ------------------------------------------------------

  /** The tag sequence handed to `bio_tags_to_spans`: the predicted tags zipped with the
      special-tokens mask, `O` wherever the mask is set. */
  function MaskedTags(tags: seq<string>, mask: seq<bool>): (r: seq<string>)
    ensures |r| == if |tags| < |mask| then |tags| else |mask|
  {
    var n := if |tags| < |mask| then |tags| else |mask|;
    seq(n, j requires 0 <= j < n => if mask[j] then OUTSIDE else tags[j])
  }

  /** Special tokens are never part of a decoded entity: the masked sequence holds `O` at every
      special token, keeps every other predicted tag, and so ignores what was predicted at special
      tokens. */
  lemma MaskedTagsIgnoreSpecial(tags: seq<string>, other: seq<string>, mask: seq<bool>)
    requires |tags| == |other|
    requires forall j :: 0 <= j < |tags| && j < |mask| && !mask[j] ==> tags[j] == other[j]
    ensures MaskedTags(tags, mask) == MaskedTags(other, mask)
    ensures forall j :: 0 <= j < |MaskedTags(tags, mask)| ==>
              MaskedTags(tags, mask)[j] == if mask[j] then OUTSIDE else tags[j]
  {
  }

  /** A span `(label, (start, end))` of token indices (end inclusive) as it is yielded: from the
      start of token `start` to the end of token `end`, shifted by `base`. */
  function DecodedSpan(span: (string, (int, int)), offsets: seq<(int, int)>, base: int): (r: Result<LabeledSpanAnnotation>)
    ensures r.Success? <==> GetIndex(offsets, span.1.0).Success? && GetIndex(offsets, span.1.1).Success?
    ensures r.Failure? ==> r.error == IndexError
    ensures r.Success? ==> r.value.tag == span.0 &&
                           r.value.start == base + GetIndex(offsets, span.1.0).value.0 &&
                           r.value.end == base + GetIndex(offsets, span.1.1).value.1
  {
    var first :- GetIndex(offsets, span.1.0);
    var last :- GetIndex(offsets, span.1.1);
    Success(LabeledSpan(base + first.0, base + last.1, span.0, 1.0))
  }

  /** `create_annotations_from_output` for one encoding and its predicted tags: on the partition path
      the partition layer is checked and the encoding's partition gives the base offset, otherwise the
      base is 0; then each span `bio_tags_to_spans` finds is yielded into the entity layer. */
  function CreatedAnnotations(enc: TaskModule.TaskEncoding<TaskDocument, Encoding, TokenMetadata, seq<int>>,
                              tags: seq<string>, entityLayer: string, partitionLayer: Option<string>,
                              bioToSpans: seq<string> -> seq<(string, (int, int))>): (r: Result<TaskModule.Yielded<Annotation>>)
    ensures partitionLayer.Some? && NonEmptySpans(enc.document, partitionLayer.value).Failure? ==>
              r == Failure(AssertionError(NoSpansMessage(partitionLayer.value)))
    ensures (partitionLayer.Some? && NonEmptySpans(enc.document, partitionLayer.value).Success? &&
             enc.metadata.sentenceIndex.None?) ==> r == Failure(KeyError(SENTENCE_INDEX))
  {
    var base :-
      if partitionLayer.None? then Success(0)
      else
        var parts :- NonEmptySpans(enc.document, partitionLayer.value);
        if enc.metadata.sentenceIndex.None? then Failure(KeyError(SENTENCE_INDEX))
        else
          var sentence :- GetIndex(parts, enc.metadata.sentenceIndex.value);
          Success(sentence.start);
    var spans := bioToSpans(MaskedTags(tags, enc.metadata.specialTokensMask));
    var decoded :- Sequenced(seq(|spans|, k requires 0 <= k < |spans| =>
                                   DecodedSpan(spans[k], enc.metadata.offsetMapping, base)));
    Success(seq(|decoded|, k requires 0 <= k < |decoded| => (entityLayer, decoded[k])))
  }

  /** The offset all decoded spans of an encoding are shifted by. */
  function BaseOffset(enc: TaskModule.TaskEncoding<TaskDocument, Encoding, TokenMetadata, seq<int>>,
                      partitionLayer: Option<string>): int
  {
    if partitionLayer.None? || enc.metadata.sentenceIndex.None? then 0
    else match NonEmptySpans(enc.document, partitionLayer.value)
         case Failure(_) => 0
         case Success(parts) => match GetIndex(parts, enc.metadata.sentenceIndex.value)
                                case Success(sentence) => sentence.start
                                case Failure(_) => 0
  }

  /** What is yielded: one labeled span per span of the masked tags, in order, into the entity layer,
      running from the start offset of its first token to the end offset of its last token (shifted
      by the partition's start on the partition path); a token index outside the offsets is an
      IndexError. Predictions at special tokens make no difference. */
  lemma CreatedAnnotationsSpans(enc: TaskModule.TaskEncoding<TaskDocument, Encoding, TokenMetadata, seq<int>>,
                                tags: seq<string>, entityLayer: string, partitionLayer: Option<string>,
                                bioToSpans: seq<string> -> seq<(string, (int, int))>)
    requires CreatedAnnotations(enc, tags, entityLayer, partitionLayer, bioToSpans).Success?
    ensures var spans := bioToSpans(MaskedTags(tags, enc.metadata.specialTokensMask));
            var offsets := enc.metadata.offsetMapping;
            var base := BaseOffset(enc, partitionLayer);
            var r := CreatedAnnotations(enc, tags, entityLayer, partitionLayer, bioToSpans).value;
            |r| == |spans| &&
            forall k :: 0 <= k < |r| ==>
              r[k].0 == entityLayer && r[k].1.LabeledSpan? && r[k].1.tag == spans[k].0 &&
              GetIndex(offsets, spans[k].1.0).Success? && GetIndex(offsets, spans[k].1.1).Success? &&
              r[k].1.start == base + GetIndex(offsets, spans[k].1.0).value.0 &&
              r[k].1.end == base + GetIndex(offsets, spans[k].1.1).value.1
  {
    var spans := bioToSpans(MaskedTags(tags, enc.metadata.specialTokensMask));
    var base := BaseOffset(enc, partitionLayer);
    var rs := seq(|spans|, k requires 0 <= k < |spans| => DecodedSpan(spans[k], enc.metadata.offsetMapping, base));
    SequencedAt(rs);
  }

  // ----- collate -----------------------------------------------------------------------------

  /** One target padded with `pad` to the batch's sequence length: appended for right padding,
      prepended otherwise. A target already as long keeps its length. */
  function Padded(t: seq<int>, length: int, pad: int, right: bool): (r: seq<int>)
    ensures |r| == if length > |t| then length else |t|
    ensures right ==> r[..|t|] == t && forall j :: |t| <= j < |r| ==> r[j] == pad
    ensures !right ==> r[|r| - |t|..] == t && forall j :: 0 <= j < |r| - |t| ==> r[j] == pad
  {
    if right then t + Repeat(pad, length - |t|) else Repeat(pad, length - |t|) + t
  }

  /** The target half of `collate`, over the batch's targets (None where an encoding has none):
      None when the first encoding has no target; a later encoding without one fails where the
      comprehension touches it (`list(None)` for right padding, `len(None)` otherwise). */
  function CollatedTargets(targets: seq<Option<seq<int>>>, length: int, pad: int, right: bool)
    : (r: Result<Option<seq<seq<int>>>>)
    ensures targets == [] ==> r == Failure(IndexError)
    ensures targets != [] && targets[0].None? ==> r == Success(None)
    ensures r.Success? && r.value.Some? ==> (targets[0].Some? && |r.value.value| == |targets| &&
              forall i :: 0 <= i < |targets| ==> targets[i].Some? && r.value.value[i] == Padded(targets[i].value, length, pad, right))
    ensures r.Failure? && targets != [] ==>
              r.error == TypeError(if right then NOT_ITERABLE else TaskModule.NO_LEN) &&
              exists i :: 0 <= i < |targets| && targets[i].None?
  {
    if targets == [] then Failure(IndexError)
    else if targets[0].None? then Success(None)
    else
      var rs := seq(|targets|, i requires 0 <= i < |targets| =>
                  match targets[i]
                  case Some(t) => Success(Padded(t, length, pad, right))
                  case None => Failure(TypeError(if right then NOT_ITERABLE else TaskModule.NO_LEN)));
      SequencedAt(rs);
      SequencedError(rs);
      var padded :- Sequenced(rs);
      assert forall i :: 0 <= i < |targets| ==> targets[i].Some? && padded[i] == Padded(targets[i].value, length, pad, right) by {
        forall i | 0 <= i < |targets| ensures targets[i].Some? && padded[i] == Padded(targets[i].value, length, pad, right) {
          assert rs[i].Success?;
        }
      }
      Success(Some(padded))
  }

  // ----- the module ----------------------------------------------------------------------------

  /** Tag `p` of label `i` is added with id `2 * i + p + 1`. */
  lemma TagNumbered(init: PyDict<string, int>, labels: seq<string>, i: nat, p: nat)
    requires i < |labels| && p < 2
    ensures Merge(init, BioItems(labels)[..2 * i + p + 1]) ==
            Put(Merge(init, BioItems(labels)[..2 * i + p]), Tag(["B", "I"][p], labels[i]), 2 * i + p + 1)
  {
    BioItemAt(labels, i, p);
    MergeStep(init, BioItems(labels), 2 * i + p);
  }

  /** The counter loop of `prepare` on a vocabulary: `B-l` and `I-l` for each label in turn get the
      next ids, counting from 1. */
  method NumberTags(init: PyDict<string, int>, sorted: seq<string>) returns (vocabulary: PyDict<string, int>)
    ensures vocabulary == Merge(init, BioItems(sorted))
  {
    vocabulary := init;
    var items := BioItems(sorted);
    var currentId := 1;
    for i := 0 to |sorted|
      invariant currentId == 2 * i + 1
      invariant vocabulary == Merge(init, items[..2 * i])
    {
      var prefixes := ["B", "I"];
      for p := 0 to 2
        invariant currentId == 2 * i + p + 1
        invariant vocabulary == Merge(init, items[..2 * i + p])
      {
        TagNumbered(init, sorted, i, p);
        vocabulary := Put(vocabulary, Tag(prefixes[p], sorted[i]), currentId);
        currentId := currentId + 1;
      }
    }
    assert items[..2 * |sorted|] == items;
  }

  /** `TransformerTokenClassificationTaskModule`: the layers it reads and writes, the padding id of
      targets and the label vocabulary, which `prepare` extends. */
  class TokenClassifier {
    const entityLayer: string
    const partitionLayer: Option<string>
    const labelPadTokenId: int
    var labelToId: PyDict<string, int>
    var idToLabel: PyDict<int, string>

    /** The deprecated `single_sentence` flag makes the sentence layer the partition layer; a missing
        vocabulary starts empty. */
    constructor (entityLayer: string, partitionLayer: Option<string>, singleSentence: bool, sentenceLayer: string,
                 labelPadTokenId: int, labelToId: Option<PyDict<string, int>>)
      ensures this.entityLayer == entityLayer && this.labelPadTokenId == labelPadTokenId
      ensures this.partitionLayer == if singleSentence then Some(sentenceLayer) else partitionLayer
      ensures this.labelToId == labelToId.GetOr([]) && idToLabel == Invert(this.labelToId)
    {
      this.entityLayer := entityLayer;
      this.partitionLayer := if singleSentence then Some(sentenceLayer) else partitionLayer;
      this.labelPadTokenId := labelPadTokenId;
      this.labelToId := labelToId.GetOr([]);
      idToLabel := Invert(labelToId.GetOr([]));
    }

    /** The first loop of `prepare`: the label set, or the failed assertion. */
    method CollectLabels(docs: seq<TaskDocument>) returns (r: Result<set<string>>)
      ensures r == EntityLabels(docs, entityLayer)
    {
      var labels: set<string> := {};
      for i := 0 to |docs|
        invariant EntityLabels(docs[..i], entityLayer) == Success(labels)
      {
        assert docs[..i + 1][..i] == docs[..i];
        var entities := SpanAnnotations(docs[i], entityLayer);
        if entities.None? {
          return Failure(AssertionError(NoSpansMessage(entityLayer)));
        }
        ghost var before := labels;
        for k := 0 to |entities.value|
          invariant labels == before + SpanLabels(entities.value[..k])
        {
          assert entities.value[..k + 1] == entities.value[..k] + [entities.value[k]];
          labels := labels + {entities.value[k].tag};
        }
        assert entities.value[..|entities.value|] == entities.value;
      }
      assert docs[..|docs|] == docs;
      return Success(labels);
    }

    /** `encode_input`: for each document and each of its partitions (the whole text when there is
        no partition layer), the tokenized partition text, its metadata and the document, appended to
        three lists. */
    method EncodeInput(docs: seq<TaskDocument>, tokenize: string -> Tokenized)
      returns (r: Result<(seq<Encoding>, seq<TokenMetadata>, seq<TaskDocument>)>)
      ensures r.Success? <==> EncodedInputs(docs, partitionLayer, tokenize).Success?
      ensures r.Failure? ==> r.error == EncodedInputs(docs, partitionLayer, tokenize).error
      ensures r.Success? ==> Columns(EncodedInputs(docs, partitionLayer, tokenize).value, r.value.0, r.value.1, r.value.2)
    {
      var inputs: seq<Encoding> := [];
      var metadata: seq<TokenMetadata> := [];
      var expanded: seq<TaskDocument> := [];
      for i := 0 to |docs|
        invariant EncodedInputs(docs[..i], partitionLayer, tokenize).Success?
        invariant Columns(EncodedInputs(docs[..i], partitionLayer, tokenize).value, inputs, metadata, expanded)
      {
        var doc := docs[i];
        var partitions := Partitions(doc, partitionLayer);
        if partitions.Failure? {
          EncodedInputsLayout(docs, partitionLayer, tokenize);
          return Failure(partitions.error);
        }
        var parts := partitions.value;
        EncodedInputsStep(docs, i, partitionLayer, tokenize);
        var ins, metas, docs' := PartitionInputs(doc, parts, partitionLayer, tokenize);
        ColumnsConcat(EncodedInputs(docs[..i], partitionLayer, tokenize).value,
                      seq(|parts|, k requires 0 <= k < |parts| => PartitionInput(doc, parts, k, partitionLayer, tokenize)),
                      inputs, metadata, expanded, ins, metas, docs');
        inputs, metadata, expanded := inputs + ins, metadata + metas, expanded + docs';
      }
      assert docs[..|docs|] == docs;
      return Success((inputs, metadata, expanded));
    }

    /** The innermost loop of `encode_target`: `label_ids[j]` is overwritten with the `B-` id at the
        range's first token and the `I-` id at the others, each looked up as it is written. */
    method MarkRange(ids: seq<int>, rg: TokenRange) returns (r: Result<seq<int>>)
      ensures r == Marked(ids, rg, labelToId)
    {
      var labelIds := ids;
      var j := rg.start;
      while j < rg.end + 1
        invariant rg.start <= j && (if rg.start <= rg.end then j <= rg.end + 1 else j == rg.start)
        invariant j > rg.start ==> Tag("B", rg.tag) in Keys(labelToId) && rg.start < |ids|
        invariant j > rg.start + 1 ==> Tag("I", rg.tag) in Keys(labelToId)
        invariant j > rg.start ==> j <= |ids|
        invariant |labelIds| == |ids|
        invariant forall m :: 0 <= m < |ids| ==>
                    labelIds[m] == if m == rg.start && j > rg.start then Get(labelToId, Tag("B", rg.tag)).value
                                   else if rg.start < m < j then Get(labelToId, Tag("I", rg.tag)).value
                                   else ids[m]
        decreases rg.end + 1 - j
      {
        var prefix := if j == rg.start then "B" else "I";
        var id := Lookup(labelToId, Tag(prefix, rg.tag));
        if id.Failure? {
          return Failure(id.error);
        }
        if j >= |labelIds| {
          return Failure(IndexError);
        }
        labelIds := labelIds[j := id.value];
        j := j + 1;
      }
      if rg.start <= rg.end {
        var expected := Marked(ids, rg, labelToId);
        assert expected.Success? && |expected.value| == |ids|;
        assert forall m :: 0 <= m < |ids| ==> labelIds[m] == expected.value[m];
        assert labelIds == expected.value;
      } else {
        assert labelIds == ids;
      }
      return Success(labelIds);
    }

    /** The entity loop of `encode_target`: each entity's range is resolved (or the entity skipped)
        and written in turn. */
    method MarkEntities(ids: seq<int>, entities: seq<LabeledSpanAnnotation>, sentence: Option<LabeledSpanAnnotation>,
                        enc: Encoding) returns (r: Result<seq<int>>)
      ensures r == MarkedEntities(ids, entities, sentence, enc, labelToId)
    {
      var labelIds := ids;
      for k := 0 to |entities|
        invariant MarkedEntities(ids, entities[..k], sentence, enc, labelToId) == Success(labelIds)
      {
        assert entities[..k + 1][..k] == entities[..k];
        var rg := EntityRange(entities[k], sentence, enc);
        if rg.Failure? {
          MarkedEntitiesAbort(ids, entities, k + 1, sentence, enc, labelToId);
          return Failure(rg.error);
        }
        if rg.value.Some? {
          var marked := MarkRange(labelIds, rg.value.value);
          if marked.Failure? {
            MarkedEntitiesAbort(ids, entities, k + 1, sentence, enc, labelToId);
            return marked;
          }
          labelIds := marked.value;
        }
      }
      assert entities[..|entities|] == entities;
      return Success(labelIds);
    }

    /** One iteration of the document loop of `encode_target`. */
    method TargetOf(d: TaskDocument, i: nat, inputs: seq<Encoding>, metadata: seq<TokenMetadata>)
      returns (r: Result<seq<int>>)
      ensures r == DocumentTarget(d, i, inputs, metadata, entityLayer, partitionLayer, labelToId, labelPadTokenId)
    {
      if partitionLayer.Some? {
        var entities := NonEmptySpans(d, entityLayer);
        if entities.Failure? { return Failure(entities.error); }
        var meta := GetIndex(metadata, i);
        if meta.Failure? { return Failure(meta.error); }
        var sentence := Sentence(d, meta.value, partitionLayer.value);
        if sentence.Failure? { return Failure(sentence.error); }
        var enc := GetIndex(inputs, i);
        if enc.Failure? { return Failure(enc.error); }
        var labelIds := InitialLabels(enc.value.wordIds, labelToId, labelPadTokenId);
        if labelIds.Failure? { return labelIds; }
        r := MarkEntities(labelIds.value, entities.value, Some(sentence.value), enc.value);
      } else {
        var enc := GetIndex(inputs, i);
        if enc.Failure? { return Failure(enc.error); }
        var labelIds := InitialLabels(enc.value.wordIds, labelToId, labelPadTokenId);
        if labelIds.Failure? { return labelIds; }
        var entities := NonEmptySpans(d, entityLayer);
        if entities.Failure? { return Failure(entities.error); }
        r := MarkEntities(labelIds.value, entities.value, None, enc.value);
      }
    }

    /** `encode_target`: one target per document, in order. */
    method EncodeTarget(docs: seq<TaskDocument>, inputs: seq<Encoding>, metadata: seq<TokenMetadata>)
      returns (r: Result<seq<seq<int>>>)
      ensures r == EncodedTargets(docs, inputs, metadata, entityLayer, partitionLayer, labelToId, labelPadTokenId)
    {
      ghost var rs := DocumentTargets(docs, inputs, metadata, entityLayer, partitionLayer, labelToId, labelPadTokenId);
      var target: seq<seq<int>> := [];
      for i := 0 to |docs|
        invariant Sequenced(rs[..i]) == Success(target)
      {
        var t := TargetOf(docs[i], i, inputs, metadata);
        if t.Failure? {
          SequencedAbort(rs, i);
          return Failure(t.error);
        }
        SequencedStep(rs, i);
        target := target + [t.value];
      }
      assert rs[..|docs|] == rs;
      SequencedAt(rs);
      return Success(target);
    }

    /** `prepare`: collect the entity labels, give `O` the id 0, then number the tags of the sorted
        labels from 1 with a counter; `id_to_label` becomes the inverse. A document without the
        entity layer fails the assertion before anything is changed. */
    method Prepare(docs: seq<TaskDocument>) returns (o: Outcome)
      modifies this
      ensures o.Fail? <==> EntityLabels(docs, entityLayer).Failure?
      ensures o.Fail? ==> o.error == EntityLabels(docs, entityLayer).error &&
                          labelToId == old(labelToId) && idToLabel == old(idToLabel)
      ensures o.Pass? ==> labelToId == Vocabulary(old(labelToId), SortedSet(EntityLabels(docs, entityLayer).value)) &&
                          idToLabel == Invert(labelToId)
    {
      var labels := CollectLabels(docs);
      if labels.Failure? {
        return Fail(labels.error);
      }
      var vocabulary := NumberTags(Put(labelToId, OUTSIDE, 0), SortedSet(labels.value));
      labelToId := vocabulary;
      idToLabel := Invert(labelToId);
      o := Pass;
    }
  }
}
