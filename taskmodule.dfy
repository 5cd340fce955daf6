/** The task-module protocol: `encode` turns documents into task encodings (model input, metadata,
    document and, on request, target), and `combine` groups the annotations decoded from model
    outputs by document and by layer name. The hooks a concrete task module supplies
    (`encode_input`, `encode_target`, `decoded_output_to_annotations`) are function parameters. */
module TaskModule {
  import opened Wrappers
  import opened PyLists
  import opened PyDicts

  /** `TaskEncoding(input, document, target, metadata)` */
  datatype TaskEncoding<D, I, M, T> = TaskEncoding(input: I, document: D, target: Option<T>, metadata: M)

  /** The constructor: a missing metadata dict becomes `empty` (`metadata or {}`). */
  function NewEncoding<D, I, M, T>(input: I, document: D, target: Option<T>, metadata: Option<M>, empty: M)
    : (e: TaskEncoding<D, I, M, T>)
    ensures e.input == input && e.document == document && e.target == target
    ensures e.metadata == if metadata.Some? then metadata.value else empty
  {
    TaskEncoding(input, document, target, metadata.GetOr(empty))
  }

  /** `encode`'s argument: one document or a list of them. */
  datatype Documents<D> = One(document: D) | Many(documents: seq<D>)

  function AsList<D>(docs: Documents<D>): (r: seq<D>)
    ensures docs.One? ==> r == [docs.document]
    ensures docs.Many? ==> r == docs.documents
  {
    match docs
    case One(d) => [d]
    case Many(ds) => ds
  }

  /** What `encode_input` returns: the inputs, the metadata (possibly None) and the documents the
      encodings belong to (None when they are the given ones). */
  datatype InputEncodings<D, I, M> = InputEncodings(inputs: seq<I>, metadata: Option<seq<M>>, newDocuments: Option<seq<D>>)

  const LENGTHS_MESSAGE := "'input_encoding', 'metadata', and 'documents' must be of same length."
  const TARGET_LENGTHS_MESSAGE := "'input_encoding', 'metadata', 'target', and 'documents' must be of same length."
  /** `len(None)` */
  const NO_LEN := "object of type 'NoneType' has no len()"

  /** The documents the encodings belong to. */
  function EncodedDocuments<D, I, M>(docs: Documents<D>, enc: InputEncodings<D, I, M>): seq<D> {
    if enc.newDocuments.Some? then enc.newDocuments.value else AsList(docs)
  }

  /** The index-wise zip of the parallel lists into task encodings. */
  function Zipped<D, I, M, T>(inputs: seq<I>, metadata: seq<M>, targets: Option<seq<T>>, docs: seq<D>, empty: M)
    : (r: seq<TaskEncoding<D, I, M, T>>)
    requires |metadata| == |inputs| && |docs| == |inputs|
    requires targets.Some? ==> |targets.value| == |inputs|
  {
    seq(|inputs|, i requires 0 <= i < |inputs| =>
      NewEncoding(inputs[i], docs[i], if targets.Some? then Some(targets.value[i]) else None, Some(metadata[i]), empty))
  }

  /** `encode(documents, encode_target)` with the module's `encode_input` and `encode_target`. */
  function Encode<D, I, M, T>(docs: Documents<D>, encodeTarget: bool,
                              encodeInput: seq<D> -> InputEncodings<D, I, M>,
                              encodeTargets: (seq<D>, seq<I>, Option<seq<M>>) -> Option<seq<T>>,
                              empty: M): (r: Result<seq<TaskEncoding<D, I, M, T>>>)
  {
    var enc := encodeInput(AsList(docs));
    var documents := EncodedDocuments(docs, enc);
    var target := if encodeTarget then encodeTargets(documents, enc.inputs, enc.metadata) else None;
    if enc.metadata.None? then Failure(TypeError(NO_LEN))
    else
      var metadata := enc.metadata.value;
      if target.None? then
        if |enc.inputs| == |metadata| && |enc.inputs| == |documents| then
          Success(Zipped(enc.inputs, metadata, None, documents, empty))
        else Failure(AssertionError(LENGTHS_MESSAGE))
      else if |enc.inputs| == |metadata| && |enc.inputs| == |target.value| && |enc.inputs| == |documents| then
        Success(Zipped(enc.inputs, metadata, target, documents, empty))
      else Failure(AssertionError(TARGET_LENGTHS_MESSAGE))
  }

  /** `encode` succeeds exactly when the parallel lists have one length; element `i` then carries
      the `i`-th input, metadata entry, document and target. A single document is encoded as a list
      of one, `new_documents` replaces the given documents, and targets are present only when asked
      for and produced. */
  lemma EncodeZips<D, I, M, T>(docs: Documents<D>, encodeTarget: bool,
                               encodeInput: seq<D> -> InputEncodings<D, I, M>,
                               encodeTargets: (seq<D>, seq<I>, Option<seq<M>>) -> Option<seq<T>>, empty: M)
    ensures var r := Encode(docs, encodeTarget, encodeInput, encodeTargets, empty);
            var enc := encodeInput(AsList(docs));
            var documents := EncodedDocuments(docs, enc);
            var target := if encodeTarget then encodeTargets(documents, enc.inputs, enc.metadata) else None;
            (enc.metadata.None? ==> r == Failure(TypeError(NO_LEN))) &&
            (enc.metadata.Some? ==>
              (r.Success? <==> |enc.metadata.value| == |enc.inputs| && |documents| == |enc.inputs| &&
                               (target.Some? ==> |target.value| == |enc.inputs|)) &&
              (r.Failure? ==> r.error == AssertionError(if target.Some? then TARGET_LENGTHS_MESSAGE else LENGTHS_MESSAGE))) &&
            (r.Success? ==> (|r.value| == |enc.inputs| &&
              forall i :: 0 <= i < |r.value| ==>
                r.value[i].input == enc.inputs[i] && r.value[i].metadata == enc.metadata.value[i] &&
                r.value[i].document == documents[i] &&
                r.value[i].target == (if target.Some? then Some(target.value[i]) else None)))
  {
  }

  /** Without `encode_target=True` the module's `encode_target` is never consulted: any other one
      gives the same encodings, none of which has a target. */
  lemma EncodeTargetOnlyOnRequest<D, I, M, T>(docs: Documents<D>, encodeInput: seq<D> -> InputEncodings<D, I, M>,
                                              f: (seq<D>, seq<I>, Option<seq<M>>) -> Option<seq<T>>,
                                              g: (seq<D>, seq<I>, Option<seq<M>>) -> Option<seq<T>>, empty: M)
    ensures Encode(docs, false, encodeInput, f, empty) == Encode(docs, false, encodeInput, g, empty)
    ensures var r := Encode(docs, false, encodeInput, f, empty);
            r.Success? ==> forall i :: 0 <= i < |r.value| ==> r.value[i].target.None?
  {
  }

  /** The annotations decoded for one encoding, as (layer name, annotation) pairs in yield order. */
  type Yielded<A> = seq<(string, A)>

  /** The annotations of `items` yielded for layer `name`, in order. */
  function Picked<A>(items: Yielded<A>, name: string): (r: seq<A>)
    ensures |r| <= |items|
    decreases |items|
  {
    if items == [] then []
    else
      var last := items[|items| - 1];
      Picked(items[..|items| - 1], name) + (if last.0 == name then [last.1] else [])
  }

  /** `predictions[doc][annotation_type].append(annotation)`, creating the list when it is new. */
  function AddAnnotation<A>(layers: PyDict<string, seq<A>>, item: (string, A)): PyDict<string, seq<A>> {
    Put(layers, item.0, Get(layers, item.0).GetOr([]) + [item.1])
  }

  /** The inner loop of `combine`: each yielded annotation in turn. */
  function AddAnnotations<A>(layers: PyDict<string, seq<A>>, items: Yielded<A>): PyDict<string, seq<A>>
    decreases |items|
  {
    if items == [] then layers
    else AddAnnotation(AddAnnotations(layers, items[..|items| - 1]), items[|items| - 1])
  }

  /** One document's entry in `combine`'s result, given what was grouped before. */
  function CombineStep<D(==), A>(predictions: PyDict<D, PyDict<string, seq<A>>>, doc: D, items: Yielded<A>)
    : PyDict<D, PyDict<string, seq<A>>>
  {
    Put(predictions, doc, AddAnnotations(Get(predictions, doc).GetOr([]), items))
  }

  /** `combine` over the (document, yielded annotations) pairs of the zipped encodings and outputs. */
  function Combined<D(==), A>(batch: seq<(D, Yielded<A>)>): PyDict<D, PyDict<string, seq<A>>>
    decreases |batch|
  {
    if batch == [] then []
    else
      var last := batch[|batch| - 1];
      CombineStep(Combined(batch[..|batch| - 1]), last.0, last.1)
  }

  /** Everything yielded for layer `name` of document `doc`, in encoding order and then yield order. */
  function Collected<D(==), A>(batch: seq<(D, Yielded<A>)>, doc: D, name: string): seq<A>
    decreases |batch|
  {
    if batch == [] then []
    else
      var last := batch[|batch| - 1];
      Collected(batch[..|batch| - 1], doc, name) + (if last.0 == doc then Picked(last.1, name) else [])
  }

  /** Appending the yielded annotations to a document's layers extends each layer by the annotations
      yielded for it; a layer appears exactly when it existed or something was yielded for it. */
  lemma {:induction false} AddAnnotationsGet<A>(layers: PyDict<string, seq<A>>, items: Yielded<A>, name: string)
    ensures Get(AddAnnotations(layers, items), name) ==
            if Get(layers, name).None? && Picked(items, name) == [] then None
            else Some(Get(layers, name).GetOr([]) + Picked(items, name))
    decreases |items|
  {
    if items == [] {
      assert Get(layers, name).GetOr([]) + [] == Get(layers, name).GetOr([]);
    } else {
      var init := items[..|items| - 1];
      var last := items[|items| - 1];
      var before := AddAnnotations(layers, init);
      var v := Get(before, last.0).GetOr([]) + [last.1];
      assert AddAnnotations(layers, items) == Put(before, last.0, v);
      AddAnnotationsGet(layers, init, name);
      var p := Picked(init, name);
      var base := Get(layers, name).GetOr([]);
      if last.0 != name {
        PutOther(before, last.0, v, name);
        assert Picked(items, name) == p + [];
        assert p + [] == p;
      } else {
        assert Picked(items, name) == p + [last.1];
        assert Get(before, name).GetOr([]) == base + p;
        assert v == base + (p + [last.1]);
      }
    }
  }

  lemma {:induction false} AddAnnotationsValid<A>(layers: PyDict<string, seq<A>>, items: Yielded<A>)
    requires Valid(layers)
    ensures Valid(AddAnnotations(layers, items))
    decreases |items|
  {
    if items != [] {
      var init := items[..|items| - 1];
      var last := items[|items| - 1];
      AddAnnotationsValid(layers, init);
      var before := AddAnnotations(layers, init);
      PutValid(before, last.0, Get(before, last.0).GetOr([]) + [last.1]);
    }
  }

  /** `combine` creates an entry for every encoded document, whether or not anything was decoded for
      it, and nothing else. */
  lemma {:induction false} CombinedKeys<D, A>(batch: seq<(D, Yielded<A>)>, doc: D)
    ensures Get(Combined(batch), doc).Some? <==> doc in DocsOf(batch)
    decreases |batch|
  {
    if batch != [] {
      var init := batch[..|batch| - 1];
      var last := batch[|batch| - 1];
      var before := Combined(init);
      var layers := AddAnnotations(Get(before, last.0).GetOr([]), last.1);
      assert Combined(batch) == Put(before, last.0, layers);
      assert DocsOf(batch) == DocsOf(init) + [last.0];
      CombinedKeys(init, doc);
      if last.0 != doc {
        PutOther(before, last.0, layers, doc);
      }
    }
  }

  /** The documents of the batch, in order. */
  function DocsOf<D, A>(batch: seq<(D, Yielded<A>)>): (r: seq<D>)
    ensures |r| == |batch| && forall i :: 0 <= i < |batch| ==> r[i] == batch[i].0
  {
    seq(|batch|, i requires 0 <= i < |batch| => batch[i].0)
  }

  /** The result of `combine` is a dict: no document occurs twice. */
  lemma {:induction false} CombinedValid<D, A>(batch: seq<(D, Yielded<A>)>)
    ensures Valid(Combined(batch))
    decreases |batch|
  {
    if batch != [] {
      var init := batch[..|batch| - 1];
      var last := batch[|batch| - 1];
      var before := Combined(init);
      CombinedValid(init);
      PutValid(before, last.0, AddAnnotations(Get(before, last.0).GetOr([]), last.1));
    }
  }

  /** Each document's layer `name` holds what was collected for it, and exists exactly when that is
      not empty. */
  lemma {:induction false} CombinedLayer<D, A>(batch: seq<(D, Yielded<A>)>, doc: D, name: string)
    requires Get(Combined(batch), doc).Some?
    ensures Get(Get(Combined(batch), doc).value, name) ==
              if Collected(batch, doc, name) == [] then None else Some(Collected(batch, doc, name))
    decreases |batch|
  {
    var init := batch[..|batch| - 1];
    var last := batch[|batch| - 1];
    var before := Combined(init);
    var oldLayers := Get(before, last.0).GetOr([]);
    var layers := AddAnnotations(oldLayers, last.1);
    assert Combined(batch) == Put(before, last.0, layers);
    if last.0 != doc {
      PutOther(before, last.0, layers, doc);
      CombinedLayer(init, doc, name);
      assert Collected(batch, doc, name) == Collected(init, doc, name) + [];
      assert Collected(batch, doc, name) == Collected(init, doc, name);
      assert Get(Combined(batch), doc) == Get(before, doc);
    } else {
      AddAnnotationsGet(oldLayers, last.1, name);
      var c := Collected(init, doc, name);
      assert Collected(batch, doc, name) == c + Picked(last.1, name);
      if Get(before, doc).Some? {
        CombinedLayer(init, doc, name);
        assert Get(oldLayers, name).GetOr([]) == c;
      } else {
        CollectedAbsent(init, doc, name);
        assert c == [] && oldLayers == [];
        assert Get(oldLayers, name).GetOr([]) == c;
      }
    }
  }

  /** Nothing is collected for a document no encoding belongs to. */
  lemma {:induction false} CollectedAbsent<D, A>(batch: seq<(D, Yielded<A>)>, doc: D, name: string)
    requires Get(Combined(batch), doc).None?
    ensures Collected(batch, doc, name) == []
    decreases |batch|
  {
    if batch != [] {
      var init := batch[..|batch| - 1];
      var last := batch[|batch| - 1];
      var before := Combined(init);
      var layers := AddAnnotations(Get(before, last.0).GetOr([]), last.1);
      PutOther(before, last.0, layers, doc);
      CollectedAbsent(init, doc, name);
    }
  }

  /** The (document, yielded annotations) pairs of `zip(encodings, decoded_outputs)`. */
  function Batch<D, I, M, T, O, A>(encodings: seq<TaskEncoding<D, I, M, T>>, outputs: seq<O>,
                                   toAnnotations: (O, TaskEncoding<D, I, M, T>) -> Yielded<A>)
    : (b: seq<(D, Yielded<A>)>)
    ensures |b| == if |encodings| < |outputs| then |encodings| else |outputs|
  {
    var n := if |encodings| < |outputs| then |encodings| else |outputs|;
    seq(n, i requires 0 <= i < n => (encodings[i].document, toAnnotations(outputs[i], encodings[i])))
  }

  /** One more yielded annotation extends the inner loop by one `AddAnnotation`. */
  lemma AddedPrefix<A>(layers: PyDict<string, seq<A>>, items: Yielded<A>, j: nat)
    requires j < |items|
    ensures AddAnnotations(layers, items[..j + 1]) == AddAnnotation(AddAnnotations(layers, items[..j]), items[j])
  {
    assert items[..j + 1][..j] == items[..j];
  }

  /** One more pair of the batch extends the outer loop by one `CombineStep`. */
  lemma CombinedPrefix<D, A>(batch: seq<(D, Yielded<A>)>, i: nat)
    requires i < |batch|
    ensures Combined(batch[..i + 1]) == CombineStep(Combined(batch[..i]), batch[i].0, batch[i].1)
  {
    assert batch[..i + 1][..i] == batch[..i];
  }

  /** `combine(encodings, decoded_outputs)`, with the module's `decoded_output_to_annotations`. */
  method Combine<D(==), I, M, T, O, A>(encodings: seq<TaskEncoding<D, I, M, T>>, outputs: seq<O>,
                                       toAnnotations: (O, TaskEncoding<D, I, M, T>) -> Yielded<A>)
      returns (predictions: PyDict<D, PyDict<string, seq<A>>>)
    ensures predictions == Combined(Batch(encodings, outputs, toAnnotations))
  {
    ghost var batch := Batch(encodings, outputs, toAnnotations);
    predictions := [];
    var i := 0;
    while i < |encodings| && i < |outputs|
      invariant 0 <= i <= |batch|
      invariant predictions == Combined(batch[..i])
    {
      var doc := encodings[i].document;
      var items := toAnnotations(outputs[i], encodings[i]);
      var layers := Get(predictions, doc).GetOr([]);
      for j := 0 to |items|
        invariant layers == AddAnnotations(Get(predictions, doc).GetOr([]), items[..j])
      {
        AddedPrefix(Get(predictions, doc).GetOr([]), items, j);
        layers := AddAnnotation(layers, items[j]);
      }
      assert items[..|items|] == items;
      CombinedPrefix(batch, i);
      predictions := Put(predictions, doc, layers);
      i := i + 1;
    }
    assert batch[..i] == batch;
  }
}
