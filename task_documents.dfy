/** The documents and tokenizer results the concrete task modules work on. A task-module document
    has a text and named layers of three kinds: labeled spans (`span_annotations(name)`), binary
    relations and document-level labels; a layer the document does not have is None. The tokenizer
    is external: for a text it gives the input ids, the word each token belongs to (None for special
    tokens), each token's character offsets, the special-tokens mask and the `char_to_token` table. */
module TaskDocuments {
  import opened Wrappers
  import opened Annotations

  datatype TaskDocument = TaskDocument(
    text: string,
    spans: map<string, seq<LabeledSpanAnnotation>>,
    relations: map<string, seq<RelationAnnotation>>,
    labels: map<string, seq<LabelAnnotation>>)

  /** `document.span_annotations(name)` */
  function SpanAnnotations(d: TaskDocument, name: string): (r: Option<seq<LabeledSpanAnnotation>>)
    ensures r.Some? <==> name in d.spans
    ensures r.Some? ==> r.value == d.spans[name]
  {
    if name in d.spans then Some(d.spans[name]) else None
  }

  /** `document.annotations(name)` on a relation layer. */
  function RelationAnnotations(d: TaskDocument, name: string): (r: Option<seq<RelationAnnotation>>)
    ensures r.Some? <==> name in d.relations
    ensures r.Some? ==> r.value == d.relations[name]
  {
    if name in d.relations then Some(d.relations[name]) else None
  }

  /** `document.label_annotations(name)` */
  function LabelAnnotations(d: TaskDocument, name: string): (r: Option<seq<LabelAnnotation>>)
    ensures r.Some? <==> name in d.labels
    ensures r.Some? ==> r.value == d.labels[name]
  {
    if name in d.labels then Some(d.labels[name]) else None
  }

  /** The message of the assertions that a document has a (non-empty) span layer. */
  function NoSpansMessage(name: string): string {
    "document has no span annotations with name '" + name + "'"
  }

  /** Iterating over None. */
  const NOT_ITERABLE := "'NoneType' object is not iterable"

  /** The model input the tokenizer returns once `offset_mapping` and `special_tokens_mask` have been
      popped: the input ids, `word_ids()` and the `char_to_token` table. */
  datatype Encoding = Encoding(inputIds: seq<int>, wordIds: seq<Option<nat>>, charToToken: map<int, nat>)

  /** `encoding.char_to_token(c)` */
  function CharToToken(e: Encoding, c: int): (r: Option<nat>)
    ensures r.Some? <==> c in e.charToToken
    ensures r.Some? ==> r.value == e.charToToken[c]
  {
    if c in e.charToToken then Some(e.charToToken[c]) else None
  }

  /** The tokenizer's whole result for one text. */
  datatype Tokenized = Tokenized(encoding: Encoding, offsetMapping: seq<(int, int)>, specialTokensMask: seq<bool>)

  /** The metadata of a text or token classification encoding: the popped offsets and special-tokens
      mask and, when the module encodes partitions, the partition's index. */
  datatype TokenMetadata = TokenMetadata(offsetMapping: seq<(int, int)>, specialTokensMask: seq<bool>,
                                         sentenceIndex: Option<nat>)
}
