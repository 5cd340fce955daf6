/** The text classification task module: each document carries document-level label annotations
    (single labels or multi-labels); `prepare` numbers the labels it sees after `O`, a document's
    target is the id of its one label or a 0/1 vector over the vocabulary, and predicted labels
    become label annotations again. The tokenizer is a function parameter. */
module TextClassification {
  import opened Wrappers
  import opened PyLists
  import opened PyDicts
  import opened Annotations
  import opened TaskDocuments
  import TaskModule

  const OUTSIDE := "O"

  // ----- prepare -----------------------------------------------------------------------------

  /** The labels of a layer's annotations in order: all labels of a multi-label annotation, the one
      label of any other. */
  function LayerLabels(anns: seq<LabelAnnotation>): seq<string>
    decreases |anns|
  {
    if anns == [] then [] else LayerLabels(anns[..|anns| - 1]) + anns[|anns| - 1].LabelList()
  }

  /** A label is among a layer's labels exactly when one of its annotations carries it. */
  lemma {:induction false} LayerLabelsMembers(anns: seq<LabelAnnotation>)
    ensures forall l :: l in LayerLabels(anns) <==> exists k :: 0 <= k < |anns| && l in anns[k].LabelList()
    decreases |anns|
  {
    if anns != [] {
      var n := |anns| - 1;
      LayerLabelsMembers(anns[..n]);
      assert forall k :: 0 <= k < n ==> anns[..n][k] == anns[k];
    }
  }

  /** The label set of `prepare`, in the order labels are first seen. Iterating over a document
      without the label layer (None) is a TypeError. */
  function PreparedLabels(docs: seq<TaskDocument>, layer: string): (r: Result<seq<string>>)
    ensures r.Failure? <==> exists i :: 0 <= i < |docs| && layer !in docs[i].labels
    ensures r.Failure? ==> r.error == TypeError(NOT_ITERABLE)
    ensures r.Success? ==> NoDuplicates(r.value)
    decreases |docs|
  {
    if docs == [] then Success([])
    else
      var n := |docs| - 1;
      var before := PreparedLabels(docs[..n], layer);
      assert forall i :: 0 <= i < n ==> docs[..n][i] == docs[i];
      if before.Failure? then before
      else match LabelAnnotations(docs[n], layer)
        case None => Failure(TypeError(NOT_ITERABLE))
        case Some(anns) =>
          SeenFacts(before.value, LayerLabels(anns));
          Success(Seen(before.value, LayerLabels(anns)))
  }

  /** Some annotation of some document's label layer carries `l`. */
  ghost predicate CarriedBy(docs: seq<TaskDocument>, layer: string, l: string) {
    exists i, k :: 0 <= i < |docs| && layer in docs[i].labels && 0 <= k < |docs[i].labels[layer]| &&
                   l in docs[i].labels[layer][k].LabelList()
  }

  /** A label the documents carry is carried by the earlier ones or by the last one. */
  lemma CarriedBySplit(docs: seq<TaskDocument>, layer: string, l: string)
    requires docs != [] && layer in docs[|docs| - 1].labels && CarriedBy(docs, layer, l)
    ensures CarriedBy(docs[..|docs| - 1], layer, l) || l in LayerLabels(docs[|docs| - 1].labels[layer])
  {
    var n := |docs| - 1;
    var i, k :| 0 <= i < |docs| && layer in docs[i].labels && 0 <= k < |docs[i].labels[layer]| &&
                l in docs[i].labels[layer][k].LabelList();
    if i < n {
      assert docs[..n][i] == docs[i];
    } else {
      LayerLabelsMembers(docs[n].labels[layer]);
    }
  }

  /** A label the earlier documents or the last one carry is carried by the documents. */
  lemma CarriedByJoin(docs: seq<TaskDocument>, layer: string, l: string)
    requires docs != [] && layer in docs[|docs| - 1].labels
    requires CarriedBy(docs[..|docs| - 1], layer, l) || l in LayerLabels(docs[|docs| - 1].labels[layer])
    ensures CarriedBy(docs, layer, l)
  {
    var n := |docs| - 1;
    var init := docs[..n];
    if CarriedBy(init, layer, l) {
      var i, k :| 0 <= i < |init| && layer in init[i].labels && 0 <= k < |init[i].labels[layer]| &&
                  l in init[i].labels[layer][k].LabelList();
      assert init[i] == docs[i];
    } else {
      var anns := docs[n].labels[layer];
      LayerLabelsMembers(anns);
      var k :| 0 <= k < |anns| && l in anns[k].LabelList();
      assert 0 <= n < |docs| && layer in docs[n].labels && 0 <= k < |docs[n].labels[layer]| &&
             l in docs[n].labels[layer][k].LabelList();
    }
  }

  /** The labels `prepare` collects are exactly those some annotation of some document carries. */
  lemma {:induction false} PreparedLabelsMembers(docs: seq<TaskDocument>, layer: string)
    requires PreparedLabels(docs, layer).Success?
    ensures forall l :: l in PreparedLabels(docs, layer).value <==> CarriedBy(docs, layer, l)
    decreases |docs|
  {
    if docs != [] {
      var n := |docs| - 1;
      var init := docs[..n];
      PreparedLabelsMembers(init, layer);
      var before := PreparedLabels(init, layer).value;
      var anns := docs[n].labels[layer];
      assert PreparedLabels(docs, layer).value == Seen(before, LayerLabels(anns));
      SeenFacts(before, LayerLabels(anns));
      forall l ensures l in PreparedLabels(docs, layer).value <==> CarriedBy(docs, layer, l) {
        if CarriedBy(docs, layer, l) {
          CarriedBySplit(docs, layer, l);
        }
        if l in before || l in LayerLabels(anns) {
          CarriedByJoin(docs, layer, l);
        }
      }
    }
  }

  /** `label_to_id` after `prepare`: `O` set to 0, then the labels numbered from 1. */
  function Vocabulary(init: PyDict<string, int>, labels: seq<string>): PyDict<string, int> {
    Merge(Put(init, OUTSIDE, 0), Numbered(labels))
  }

  /** `prepare` gives the `i`-th label the id i+1 and `O` the id 0, unless `O` is itself one of the
      labels, when it is renumbered like them; every other key keeps its id. */
  lemma {:induction false} VocabularyIds(init: PyDict<string, int>, labels: seq<string>)
    requires NoDuplicates(labels)
    ensures forall i :: 0 <= i < |labels| ==> Get(Vocabulary(init, labels), labels[i]) == Some(i + 1)
    ensures OUTSIDE !in labels ==> Get(Vocabulary(init, labels), OUTSIDE) == Some(0)
    ensures forall k :: k != OUTSIDE && k !in labels ==> Get(Vocabulary(init, labels), k) == Get(init, k)
  {
    var base := Put(init, OUTSIDE, 0);
    var items := Numbered(labels);
    forall i | 0 <= i < |labels| ensures Get(Vocabulary(init, labels), labels[i]) == Some(i + 1) {
      NumberedGet(labels, i);
      MergeGet(base, items, labels[i]);
    }
    MergeGet(base, items, OUTSIDE);
    forall k | k != OUTSIDE && k !in labels ensures Get(Vocabulary(init, labels), k) == Get(init, k) {
      MergeGet(base, items, k);
      PutOther(init, OUTSIDE, 0, k);
    }
  }

  /** On a module without a given `label_to_id` and with no label named `O`, the ids are exactly
      0..n for n labels, each label has its own, and `id_to_label` is the inverse. */
  lemma {:induction false} FreshVocabulary(labels: seq<string>)
    requires NoDuplicates(labels) && OUTSIDE !in labels
    ensures Valid(Vocabulary([], labels))
    ensures forall k, id :: Get(Invert(Vocabulary([], labels)), id) == Some(k) <==> Get(Vocabulary([], labels), k) == Some(id)
    ensures forall id :: Get(Invert(Vocabulary([], labels)), id).Some? <==> 0 <= id <= |labels|
  {
    NumberedFresh(OUTSIDE, labels);
    NumberedInverse(OUTSIDE, labels);
  }

  // ----- encode_input ------------------------------------------------------------------------

  /** `encode_input`: each document's text tokenized, with the popped offsets and special-tokens
      mask as its metadata; the documents are returned unchanged. */
  function EncodedInput(docs: seq<TaskDocument>, tokenize: string -> Tokenized)
    : (r: TaskModule.InputEncodings<TaskDocument, Encoding, TokenMetadata>)
    ensures |r.inputs| == |docs| && r.metadata.Some? && |r.metadata.value| == |docs|
    ensures r.newDocuments == Some(docs)
    ensures forall i :: 0 <= i < |docs| ==>
              r.inputs[i] == tokenize(docs[i].text).encoding &&
              r.metadata.value[i].offsetMapping == tokenize(docs[i].text).offsetMapping &&
              r.metadata.value[i].specialTokensMask == tokenize(docs[i].text).specialTokensMask &&
              r.metadata.value[i].sentenceIndex.None?
  {
    var encodings := seq(|docs|, i requires 0 <= i < |docs| => tokenize(docs[i].text));
    TaskModule.InputEncodings(
      seq(|docs|, i requires 0 <= i < |docs| => encodings[i].encoding),
      Some(seq(|docs|, i requires 0 <= i < |docs| =>
             TokenMetadata(encodings[i].offsetMapping, encodings[i].specialTokensMask, None))),
      Some(docs))
  }

  /** Encoding documents with this module gives exactly one task encoding per document, in order,
      for a single document as for a list; each carries its document and its document's tokens. */
  lemma EncodeOnePerDocument(docs: TaskModule.Documents<TaskDocument>, encodeTarget: bool, tokenize: string -> Tokenized,
                             encodeTargets: (seq<TaskDocument>, seq<Encoding>, Option<seq<TokenMetadata>>) -> Option<seq<seq<int>>>,
                             empty: TokenMetadata)
    requires encodeTarget ==> var ds := TaskModule.AsList(docs);
                              var enc := EncodedInput(ds, tokenize);
                              var t := encodeTargets(ds, enc.inputs, enc.metadata);
                              t.Some? ==> |t.value| == |ds|
    ensures var r := TaskModule.Encode(docs, encodeTarget, ds => EncodedInput(ds, tokenize), encodeTargets, empty);
            var ds := TaskModule.AsList(docs);
            r.Success? && |r.value| == |ds| &&
            forall i :: 0 <= i < |ds| ==> r.value[i].document == ds[i] && r.value[i].input == tokenize(ds[i].text).encoding
  {
    TaskModule.EncodeZips(docs, encodeTarget, ds => EncodedInput(ds, tokenize), encodeTargets, empty);
  }

  // ----- encode_target -----------------------------------------------------------------------

  /** The position a Python index names in a list of length `n`: negative indices count from the end. */
  function Position(i: int, n: nat): int {
    if i < 0 then i + n else i
  }

  /** The multi-label loop: `label_ids[label_to_id[label]] = 1` for every label in turn, starting from
      `[0] * len(label_to_id)`. */
  function OneHot(labelToId: PyDict<string, int>, labels: seq<string>): Result<seq<int>>
    decreases |labels|
  {
    if labels == [] then Success(Repeat(0, |labelToId|))
    else
      var n := |labels| - 1;
      var before :- OneHot(labelToId, labels[..n]);
      var id :- Lookup(labelToId, labels[n]);
      SetIndex(before, id, 1)
  }

  /** A label whose id is a valid index of the vector. */
  predicate Indexable(labelToId: PyDict<string, int>, l: string) {
    l in Keys(labelToId) && -|labelToId| <= Get(labelToId, l).value < |labelToId|
  }

  /** The multi-label target succeeds exactly when every label has an id that indexes the vector;
      it then has one entry per vocabulary item, 1 exactly at the positions of the labels' ids and 0
      elsewhere. */
  lemma {:induction false} OneHotAt(labelToId: PyDict<string, int>, labels: seq<string>)
    ensures OneHot(labelToId, labels).Success? <==> forall k :: 0 <= k < |labels| ==> Indexable(labelToId, labels[k])
    ensures var r := OneHot(labelToId, labels);
            r.Success? ==> (|r.value| == |labelToId| &&
              forall p :: 0 <= p < |r.value| ==>
                (r.value[p] == 1 <==> exists k :: 0 <= k < |labels| && Position(Get(labelToId, labels[k]).value, |labelToId|) == p) &&
                (r.value[p] == 0 || r.value[p] == 1))
    decreases |labels|
  {
    if labels != [] {
      var n := |labels| - 1;
      var init := labels[..n];
      OneHotAt(labelToId, init);
      assert forall k :: 0 <= k < n ==> init[k] == labels[k];
      var before := OneHot(labelToId, init);
      if before.Success? && labels[n] in Keys(labelToId) {
        var id := Get(labelToId, labels[n]).value;
        if -|labelToId| <= id < |labelToId| {
          var r := OneHot(labelToId, labels).value;
          forall p | 0 <= p < |r|
            ensures r[p] == 1 <==> exists k :: 0 <= k < |labels| && Position(Get(labelToId, labels[k]).value, |labelToId|) == p
          {
            if Position(id, |labelToId|) == p {
              assert Position(Get(labelToId, labels[n]).value, |labelToId|) == p;
            } else if r[p] == 1 {
              var k :| 0 <= k < n && Position(Get(labelToId, init[k]).value, |labelToId|) == p;
              assert init[k] == labels[k];
            }
          }
        }
      }
    }
  }

  /** The labels of two runs of annotations follow each other. */
  lemma {:induction false} LayerLabelsConcat(a: seq<LabelAnnotation>, b: seq<LabelAnnotation>)
    ensures LayerLabels(a + b) == LayerLabels(a) + LayerLabels(b)
    decreases |b|
  {
    if b == [] {
      assert a + b == a;
    } else {
      var n := |b| - 1;
      assert (a + b)[..|a| + n] == a + b[..n];
      assert (a + b)[|a| + n] == b[n];
      LayerLabelsConcat(a, b[..n]);
      var x, y, z := LayerLabels(a), LayerLabels(b[..n]), b[n].LabelList();
      assert LayerLabels(a + b) == (x + y) + z;
      assert (x + y) + z == x + (y + z);
    }
  }

  /** A failure of the multi-label loop on a prefix of the labels is the failure of the whole loop. */
  lemma {:induction false} OneHotAbort(labelToId: PyDict<string, int>, labels: seq<string>, n: nat)
    requires n <= |labels| && OneHot(labelToId, labels[..n]).Failure?
    ensures OneHot(labelToId, labels) == OneHot(labelToId, labels[..n])
    decreases |labels|
  {
    if n < |labels| {
      var init := labels[..|labels| - 1];
      assert init[..n] == labels[..n];
      OneHotAbort(labelToId, init, n);
    } else {
      assert labels[..n] == labels;
    }
  }

  /** The labels of the first j annotations are a prefix of all the labels. */
  lemma LayerPrefix(anns: seq<LabelAnnotation>, j: nat)
    requires j <= |anns|
    ensures |LayerLabels(anns[..j])| <= |LayerLabels(anns)|
    ensures LayerLabels(anns)[..|LayerLabels(anns[..j])|] == LayerLabels(anns[..j])
  {
    assert anns == anns[..j] + anns[j..];
    LayerLabelsConcat(anns[..j], anns[j..]);
  }

  /** The message-less assertion of the single-label target. */
  const SINGLE_LABEL_ASSERTION := ""

  /** One document's target: the 0/1 vector of its labels in multi-label mode; otherwise the id of
      its label, after asserting that it has exactly one annotation and that one is not multi-label. */
  function DocumentTarget(d: TaskDocument, layer: string, multiLabel: bool, labelToId: PyDict<string, int>)
    : (r: Result<seq<int>>)
    ensures layer !in d.labels ==> r == Failure(TypeError(if multiLabel then NOT_ITERABLE else TaskModule.NO_LEN))
    ensures !multiLabel && layer in d.labels ==>
              (r.Success? <==> |d.labels[layer]| == 1 && d.labels[layer][0].Label? && d.labels[layer][0].tag in Keys(labelToId)) &&
              (r.Success? ==> r.value == [Get(labelToId, d.labels[layer][0].tag).value]) &&
              (r.Failure? && (|d.labels[layer]| != 1 || d.labels[layer][0].MultiLabel?) ==>
                 r.error == AssertionError(SINGLE_LABEL_ASSERTION))
    ensures multiLabel && layer in d.labels ==> r == OneHot(labelToId, LayerLabels(d.labels[layer]))
  {
    match LabelAnnotations(d, layer)
    case None => Failure(TypeError(if multiLabel then NOT_ITERABLE else TaskModule.NO_LEN))
    case Some(anns) =>
      if multiLabel then OneHot(labelToId, LayerLabels(anns))
      else if |anns| != 1 || anns[0].MultiLabel? then Failure(AssertionError(SINGLE_LABEL_ASSERTION))
      else
        var id :- Lookup(labelToId, anns[0].tag);
        Success([id])
  }

  /** Every document's target, or the exception that aborts its iteration. */
  function DocumentTargets(docs: seq<TaskDocument>, layer: string, multiLabel: bool, labelToId: PyDict<string, int>)
    : (rs: seq<Result<seq<int>>>)
    ensures |rs| == |docs|
    ensures forall i :: 0 <= i < |docs| ==> rs[i] == DocumentTarget(docs[i], layer, multiLabel, labelToId)
  {
    seq(|docs|, i requires 0 <= i < |docs| => DocumentTarget(docs[i], layer, multiLabel, labelToId))
  }

  /** `encode_target`: one target per document, in document order; the first document whose target
      fails aborts the loop. */
  function EncodedTargets(docs: seq<TaskDocument>, layer: string, multiLabel: bool, labelToId: PyDict<string, int>)
    : (r: Result<seq<seq<int>>>)
    ensures r.Success? <==> forall i :: 0 <= i < |docs| ==> DocumentTarget(docs[i], layer, multiLabel, labelToId).Success?
    ensures r.Success? ==> (|r.value| == |docs| &&
              forall i :: 0 <= i < |docs| ==> r.value[i] == DocumentTarget(docs[i], layer, multiLabel, labelToId).value)
  {
    var rs := DocumentTargets(docs, layer, multiLabel, labelToId);
    SequencedAt(rs);
    Sequenced(rs)
  }

  /** On a fresh vocabulary, the multi-label target of labels that were all numbered succeeds. */
  lemma KnownLabelsIndexable(labels: seq<string>, all: seq<string>)
    requires NoDuplicates(labels) && OUTSIDE !in labels
    requires forall k :: 0 <= k < |all| ==> all[k] in labels
    ensures OneHot(Vocabulary([], labels), all).Success?
  {
    var vocabulary := Vocabulary([], labels);
    NumberedFresh(OUTSIDE, labels);
    assert |vocabulary| == |labels| + 1;
    VocabularyIds([], labels);
    OneHotAt(vocabulary, all);
    forall k | 0 <= k < |all| ensures Indexable(vocabulary, all[k]) {
      var j :| 0 <= j < |labels| && labels[j] == all[k];
      assert Get(vocabulary, all[k]) == Some(j + 1);
    }
  }

  /** Encoding the targets of the documents a fresh multi-label module was prepared on cannot fail:
      every label they carry has an id, and every id indexes the vector. */
  lemma PreparedMultiLabelTargets(docs: seq<TaskDocument>, layer: string)
    requires PreparedLabels(docs, layer).Success? && OUTSIDE !in PreparedLabels(docs, layer).value
    ensures EncodedTargets(docs, layer, true, Vocabulary([], PreparedLabels(docs, layer).value)).Success?
  {
    var labels := PreparedLabels(docs, layer).value;
    PreparedLabelsMembers(docs, layer);
    forall i | 0 <= i < |docs| ensures DocumentTarget(docs[i], layer, true, Vocabulary([], labels)).Success? {
      var anns := docs[i].labels[layer];
      var all := LayerLabels(anns);
      LayerLabelsMembers(anns);
      forall k | 0 <= k < |all| ensures all[k] in labels {
        assert all[k] in all;
        var a :| 0 <= a < |anns| && all[k] in anns[a].LabelList();
        assert 0 <= i < |docs| && layer in docs[i].labels && 0 <= a < |docs[i].labels[layer]| &&
               all[k] in docs[i].labels[layer][a].LabelList();
      }
      KnownLabelsIndexable(labels, all);
    }
  }

  // ----- unbatch_output and create_annotations_from_output -----------------------------------

  /** The decoded output of a batch: the predicted label and its probability per batch element. */
  datatype TextOutput = TextOutput(labels: seq<string>, probabilities: seq<real>)

  /** `unbatch_output`, given the arg-max label ids of the batch and their probabilities: not
      implemented in multi-label mode; otherwise ONE output holding the whole batch's labels. */
  function Unbatched(multiLabel: bool, labelIds: seq<int>, probabilities: seq<real>, idToLabel: PyDict<int, string>)
    : (r: Result<seq<TextOutput>>)
    requires |probabilities| == |labelIds|
    ensures multiLabel ==> r == Failure(NotImplementedError)
    ensures !multiLabel ==>
              (r.Success? <==> forall i :: 0 <= i < |labelIds| ==> labelIds[i] in Keys(idToLabel))
    ensures r.Success? ==> (|r.value| == 1 && |r.value[0].labels| == |labelIds| &&
              r.value[0].probabilities == probabilities &&
              forall i :: 0 <= i < |labelIds| ==> Get(idToLabel, labelIds[i]) == Some(r.value[0].labels[i]))
  {
    if multiLabel then Failure(NotImplementedError)
    else
      var found := seq(|labelIds|, i requires 0 <= i < |labelIds| =>
                     match Get(idToLabel, labelIds[i])
                     case Some(l) => Success(l)
                     case None => Failure(UnknownId(labelIds[i])));
      assert forall i :: 0 <= i < |labelIds| ==> (found[i].Success? <==> labelIds[i] in Keys(idToLabel));
      SequencedAt(found);
      var labels :- Sequenced(found);
      Success([TextOutput(labels, probabilities)])
  }

  /** `create_annotations_from_output` as written: for each (label, probability) pair of the output
      (as many as the shorter list has), a `Label` in the module's layer built from the pair itself
      in multi-label mode, or from `labels[0]` and `probabilities[0]` otherwise. Since every row of an
      output of `unbatch_output` is a single label string and a single float, the single-label path
      takes the label's first character, or raises IndexError on an empty label, and then fails to
      subscript the float: the first row already raises. */
  function CreatedAnnotations(output: TextOutput, layer: string, multiLabel: bool)
    : (r: Result<TaskModule.Yielded<Annotation>>)
    ensures var n := if |output.labels| < |output.probabilities| then |output.labels| else |output.probabilities|;
            (r.Success? <==> multiLabel || n == 0) &&
            (!multiLabel && n > 0 ==>
               r == Failure(if output.labels[0] == "" then IndexError
                            else TypeError("'float' object is not subscriptable"))) &&
            (r.Success? ==> (|r.value| == n &&
               forall k :: 0 <= k < n ==>
                 r.value[k] == (layer, Label(output.labels[k], output.probabilities[k]))))
  {
    var n := if |output.labels| < |output.probabilities| then |output.labels| else |output.probabilities|;
    if multiLabel then
      Success(seq(n, k requires 0 <= k < n => (layer, Label(output.labels[k], output.probabilities[k]))))
    else if n == 0 then Success([])
    else if output.labels[0] == "" then Failure(IndexError)
    else Failure(TypeError("'float' object is not subscriptable"))
  }

  /** The evidently intended decoding: one `Label` per row of the output, its label and probability. */
  function IntendedAnnotations(output: TextOutput, layer: string): (r: TaskModule.Yielded<Annotation>)
    ensures |r| == if |output.labels| < |output.probabilities| then |output.labels| else |output.probabilities|
    ensures forall k :: 0 <= k < |r| ==> r[k] == (layer, Label(output.labels[k], output.probabilities[k]))
  {
    var n := if |output.labels| < |output.probabilities| then |output.labels| else |output.probabilities|;
    seq(n, k requires 0 <= k < n => (layer, Label(output.labels[k], output.probabilities[k])))
  }

  /** In single-label mode, the only mode `unbatch_output` supports, the annotations of any non-empty
      batch cannot be created as written, while the intended decoding yields one label per batch row. */
  lemma SingleLabelCreationFails(multiLabel: bool, labelIds: seq<int>, probabilities: seq<real>,
                                 idToLabel: PyDict<int, string>, layer: string)
    requires |probabilities| == |labelIds| > 0
    requires Unbatched(multiLabel, labelIds, probabilities, idToLabel).Success?
    ensures var output := Unbatched(multiLabel, labelIds, probabilities, idToLabel).value[0];
            CreatedAnnotations(output, layer, multiLabel).Failure? &&
            |IntendedAnnotations(output, layer)| == |labelIds|
  {
  }

  /** Composed with `unbatch_output`, the intended decoding yields, per batch row, the label of the
      row's arg-max id with its probability. */
  lemma UnbatchedAnnotations(labelIds: seq<int>, probabilities: seq<real>, idToLabel: PyDict<int, string>, layer: string)
    requires |probabilities| == |labelIds|
    requires Unbatched(false, labelIds, probabilities, idToLabel).Success?
    ensures var r := IntendedAnnotations(Unbatched(false, labelIds, probabilities, idToLabel).value[0], layer);
            |r| == |labelIds| &&
            forall k :: 0 <= k < |labelIds| ==>
              r[k].0 == layer && r[k].1.Label? && Get(idToLabel, labelIds[k]) == Some(r[k].1.tag) &&
              r[k].1.score == probabilities[k]
  {
  }

  /** The inner loop of the multi-label target: sets the entry of each of `labels` in turn, starting
      from the vector of the labels `before`. */
  method SetLabels(labelToId: PyDict<string, int>, ghost before: seq<string>, labels: seq<string>, start: seq<int>)
    returns (r: Result<seq<int>>)
    requires OneHot(labelToId, before) == Success(start)
    ensures r == OneHot(labelToId, before + labels)
  {
    var labelIds := start;
    assert before + labels[..0] == before;
    for m := 0 to |labels|
      invariant OneHot(labelToId, before + labels[..m]) == Success(labelIds)
    {
      ghost var next := before + labels[..m + 1];
      assert next[..|before| + m] == before + labels[..m];
      assert next[|before| + m] == labels[m];
      var labelId := Lookup(labelToId, labels[m]);
      var updated := if labelId.Failure? then Failure(labelId.error) else SetIndex(labelIds, labelId.value, 1);
      assert OneHot(labelToId, next) == updated;
      if updated.Failure? {
        assert (before + labels)[..|before| + m + 1] == next;
        OneHotAbort(labelToId, before + labels, |before| + m + 1);
        return updated;
      }
      labelIds := updated.value;
    }
    assert labels[..|labels|] == labels;
    return Success(labelIds);
  }

  /** The multi-label loop of `encode_target` over a document's annotations and their labels. */
  method MultiLabelIds(labelToId: PyDict<string, int>, anns: seq<LabelAnnotation>) returns (r: Result<seq<int>>)
    ensures r == OneHot(labelToId, LayerLabels(anns))
  {
    var labelIds := Repeat(0, |labelToId|);
    for k := 0 to |anns|
      invariant OneHot(labelToId, LayerLabels(anns[..k])) == Success(labelIds)
    {
      assert anns[..k + 1][..k] == anns[..k];
      assert LayerLabels(anns[..k + 1]) == LayerLabels(anns[..k]) + anns[k].LabelList();
      var updated := SetLabels(labelToId, LayerLabels(anns[..k]), anns[k].LabelList(), labelIds);
      if updated.Failure? {
        LayerPrefix(anns, k + 1);
        OneHotAbort(labelToId, LayerLabels(anns), |LayerLabels(anns[..k + 1])|);
        return updated;
      }
      labelIds := updated.value;
    }
    assert anns[..|anns|] == anns;
    return Success(labelIds);
  }

  // ----- the module ----------------------------------------------------------------------------

  /** `TransformerTextClassificationTaskModule`: its label layer, its mode and the label vocabulary. */
  class TextClassifier {
    const layer: string
    const multiLabel: bool
    var labelToId: PyDict<string, int>
    var idToLabel: PyDict<int, string>

    constructor (layer: string, multiLabel: bool, labelToId: Option<PyDict<string, int>>)
      ensures this.layer == layer && this.multiLabel == multiLabel
      ensures this.labelToId == labelToId.GetOr([]) && idToLabel == Invert(this.labelToId)
    {
      this.layer := layer;
      this.multiLabel := multiLabel;
      this.labelToId := labelToId.GetOr([]);
      idToLabel := Invert(labelToId.GetOr([]));
    }

    /** The first loop of `prepare`: every label of every annotation, added when not yet seen. */
    method CollectLabels(docs: seq<TaskDocument>) returns (r: Result<seq<string>>)
      ensures r == PreparedLabels(docs, layer)
    {
      var labels: seq<string> := [];
      for i := 0 to |docs|
        invariant PreparedLabels(docs[..i], layer) == Success(labels)
      {
        assert docs[..i + 1][..i] == docs[..i];
        var annotations := LabelAnnotations(docs[i], layer);
        if annotations.None? {
          return Failure(TypeError(NOT_ITERABLE));
        }
        var anns := annotations.value;
        ghost var before := labels;
        for k := 0 to |anns|
          invariant labels == Seen(before, LayerLabels(anns[..k]))
        {
          var annotationLabels := anns[k].LabelList();
          assert anns[..k + 1][..k] == anns[..k];
          SeenConcat(before, LayerLabels(anns[..k]), annotationLabels);
          ghost var start := labels;
          for m := 0 to |annotationLabels|
            invariant labels == Seen(start, annotationLabels[..m])
          {
            assert annotationLabels[..m + 1][..m] == annotationLabels[..m];
            var name := annotationLabels[m];
            if name !in labels {
              labels := labels + [name];
            }
          }
          assert annotationLabels[..|annotationLabels|] == annotationLabels;
        }
        assert anns[..|anns|] == anns;
      }
      assert docs[..|docs|] == docs;
      return Success(labels);
    }

    /** The body of `encode_target`'s document loop. */
    method TargetOf(d: TaskDocument) returns (r: Result<seq<int>>)
      ensures r == DocumentTarget(d, layer, multiLabel, labelToId)
    {
      var annotations := LabelAnnotations(d, layer);
      if annotations.None? {
        return Failure(TypeError(if multiLabel then NOT_ITERABLE else TaskModule.NO_LEN));
      }
      var anns := annotations.value;
      if multiLabel {
        r := MultiLabelIds(labelToId, anns);
        return;
      }
      if |anns| != 1 || anns[0].MultiLabel? {
        return Failure(AssertionError(SINGLE_LABEL_ASSERTION));
      }
      var labelId := Lookup(labelToId, anns[0].tag);
      if labelId.Failure? {
        return Failure(labelId.error);
      }
      return Success([labelId.value]);
    }

    /** `encode_target`: the documents' targets in order; the first that fails aborts the loop. */
    method EncodeTarget(docs: seq<TaskDocument>) returns (r: Result<seq<seq<int>>>)
      ensures r == EncodedTargets(docs, layer, multiLabel, labelToId)
    {
      ghost var rs := DocumentTargets(docs, layer, multiLabel, labelToId);
      var target: seq<seq<int>> := [];
      for i := 0 to |docs|
        invariant Sequenced(rs[..i]) == Success(target)
      {
        var t := TargetOf(docs[i]);
        if t.Failure? {
          SequencedAbort(rs, i);
          return Failure(t.error);
        }
        SequencedStep(rs, i);
        target := target + [t.value];
      }
      assert rs[..|docs|] == rs;
      SequencedAt(rs);
      return Success(target);
    }

    /** `prepare`: collect the labels, give `O` the id 0, then number the labels from 1 with a
        counter; `id_to_label` becomes the inverse. */
    method Prepare(docs: seq<TaskDocument>) returns (o: Outcome)
      modifies this
      ensures o.Fail? <==> PreparedLabels(docs, layer).Failure?
      ensures o.Fail? ==> o.error == TypeError(NOT_ITERABLE) && labelToId == old(labelToId) && idToLabel == old(idToLabel)
      ensures o.Pass? ==> labelToId == Vocabulary(old(labelToId), PreparedLabels(docs, layer).value) &&
                          idToLabel == Invert(labelToId)
    {
      var labels := CollectLabels(docs);
      if labels.Failure? {
        return Fail(labels.error);
      }
      var vocabulary := NumberKeys(Put(labelToId, OUTSIDE, 0), labels.value);
      labelToId := vocabulary;
      idToLabel := Invert(labelToId);
      o := Pass;
    }
  }
}
