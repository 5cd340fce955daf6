/** The CoNLL-2003 dataset fixture: `_generate_document` turns an example (an id, tokens and integer
    NER tags) into a prototype document with a `text`, an `id` and an `entities` layer of labeled
    spans targeting the text. The text is the tokens joined by single spaces; each token's character
    offsets are computed alongside; the BIO tag strings go to `bio_tags_to_spans` (a function
    parameter, since it is not part of this model), and each span of token indices it returns
    becomes a labeled span from its first token's start to its last token's end. */
module Conll2003 {
  import opened Wrappers
  import opened PyLists
  import opened Annotations
  import opened FieldValues
  import opened CoreModel
  import opened RecordLayers
  import opened Prototype

  const ENTITIES := "entities"

  /** `CoNLL2003Document`: the prototype's `text` and `id`, then `entities: AnnotationList[LabeledSpan]`
      with target `"text"`. */
  function ConllType(): (t: ProtoType)
    ensures LayerSet(t) == {ENTITIES} && TargetOf(t, ENTITIES) == Some(TEXT)
  {
    var t := DocTypeDecl([TEXT, ID, ENTITIES],
                         map[TEXT := Plain(None), ID := Plain(Some(NoneV)), ENTITIES := Layer(Some(TEXT), LabeledSpanClass)]);
    assert [TEXT, ID, ENTITIES][1..] == [ID, ENTITIES] && [ID, ENTITIES][1..] == [ENTITIES] && [ENTITIES][1..] == [];
    assert TEXT != ID && TEXT != ENTITIES && ID != ENTITIES;
    assert Distinct([ENTITIES]);
    assert Distinct([ID, ENTITIES]);
    assert Distinct(t.order);
    assert (set n | n in [TEXT, ID, ENTITIES]) == {TEXT, ID, ENTITIES};
    assert t.Valid() && ProtoShape(t);
    assert LayerSet(t) == {ENTITIES};
    t
  }

  // ---------------------------------------------------------------------------------------------
  // Token offsets

  /** The number of characters the tokens take in the joined text, each followed by its space. */
  function Width(tokens: seq<string>): (w: nat)
    ensures tokens != [] ==> w > 0
    decreases |tokens|
  {
    if tokens == [] then 0 else Width(tokens[..|tokens| - 1]) + |tokens[|tokens| - 1]| + 1
  }

  /** The offsets of token `j` in the joined text: it starts after the tokens before it and their
      spaces, and is as long as the token. */
  function Offset(tokens: seq<string>, j: nat): (o: (int, int))
    requires j < |tokens|
  {
    (Width(tokens[..j]), Width(tokens[..j]) + |tokens[j]|)
  }

  /** The number of iterations of `zip(tokens, ner_tags)`. */
  function ZipLength(tokens: seq<string>, nerTags: seq<int>): (n: nat)
    ensures n <= |tokens| && n <= |nerTags| && (n == |tokens| || n == |nerTags|)
  {
    if |tokens| <= |nerTags| then |tokens| else |nerTags|
  }

  /** The loop of `_generate_document` over `zip(tokens, ner_tags)`: `start` begins at 0, each token
      ends `len(token)` after its start, and the next one starts one after that end; each tag id is
      turned into its tag string. */
  method TokenOffsets(tokens: seq<string>, nerTags: seq<int>, intToStr: int -> string)
      returns (tokenOffsets: seq<(int, int)>, tagSequence: seq<string>)
    ensures |tokenOffsets| == |tagSequence| == ZipLength(tokens, nerTags)
    ensures forall j :: 0 <= j < |tokenOffsets| ==> tokenOffsets[j] == Offset(tokens, j)
    ensures forall j :: 0 <= j < |tagSequence| ==> tagSequence[j] == intToStr(nerTags[j])
  {
    var n := ZipLength(tokens, nerTags);
    var start := 0;
    tokenOffsets, tagSequence := [], [];
    for i := 0 to n
      invariant start == Width(tokens[..i])
      invariant |tokenOffsets| == |tagSequence| == i
      invariant forall j :: 0 <= j < i ==> tokenOffsets[j] == Offset(tokens, j)
      invariant forall j :: 0 <= j < i ==> tagSequence[j] == intToStr(nerTags[j])
    {
      var end := start + |tokens[i]|;
      tokenOffsets := tokenOffsets + [(start, end)];
      tagSequence := tagSequence + [intToStr(nerTags[i])];
      assert tokens[..i + 1][..i] == tokens[..i];
      start := end + 1;
    }
  }

  /** The offsets the loop computes, as a sequence. */
  function OffsetList(tokens: seq<string>, n: nat): (r: seq<(int, int)>)
    requires n <= |tokens|
    ensures |r| == n && forall j :: 0 <= j < n ==> r[j] == Offset(tokens, j)
  {
    seq(n, j requires 0 <= j < n => Offset(tokens, j))
  }

  /** The tag strings the loop computes, as a sequence. */
  function TagList(nerTags: seq<int>, n: nat, intToStr: int -> string): (r: seq<string>)
    requires n <= |nerTags|
    ensures |r| == n && forall j :: 0 <= j < n ==> r[j] == intToStr(nerTags[j])
  {
    seq(n, j requires 0 <= j < n => intToStr(nerTags[j]))
  }

  /** The first token starts at 0, and each further token starts one after the previous one ends. */
  lemma {:induction false} OffsetsChain(tokens: seq<string>, j: nat)
    requires j < |tokens|
    ensures j == 0 ==> Offset(tokens, j).0 == 0
    ensures j > 0 ==> Offset(tokens, j).0 == Offset(tokens, j - 1).1 + 1
    ensures Offset(tokens, j).1 - Offset(tokens, j).0 == |tokens[j]|
  {
    if j > 0 {
      assert tokens[..j][..j - 1] == tokens[..j - 1];
    }
  }

  // ---------------------------------------------------------------------------------------------
  // The joined text

  /** The width of two runs of tokens is the sum of their widths. */
  lemma {:induction false} WidthConcat(x: seq<string>, y: seq<string>)
    ensures Width(x + y) == Width(x) + Width(y)
    decreases |y|
  {
    if y == [] {
      assert x + y == x;
    } else {
      var y' := y[..|y| - 1];
      assert (x + y)[..|x + y| - 1] == x + y';
      WidthConcat(x, y');
    }
  }

  /** The joined text of some tokens is one character shorter than their width: there is no space
      after the last one. */
  lemma {:induction false} JoinLength(tokens: seq<string>)
    requires tokens != []
    ensures |Join(" ", tokens)| + 1 == Width(tokens)
    decreases |tokens|
  {
    if |tokens| > 1 {
      JoinLength(tokens[..|tokens| - 1]);
    } else {
      assert tokens[..0] == [];
    }
  }

  /** Splitting the tokens in two splits the joined text at a space. */
  lemma {:induction false} JoinSplit(tokens: seq<string>, k: nat)
    requires 0 < k < |tokens|
    ensures Join(" ", tokens) == Join(" ", tokens[..k]) + " " + Join(" ", tokens[k..])
    decreases |tokens|
  {
    var n := |tokens| - 1;
    var init := tokens[..n];
    if k == n {
      assert tokens[k..] == [tokens[n]];
    } else {
      JoinSplit(init, k);
      assert init[..k] == tokens[..k];
      assert tokens[k..][..|tokens[k..]| - 1] == init[k..];
      assert tokens[k..][|tokens[k..]| - 1] == tokens[n];
    }
  }

  /** The joined text holds the joined run of tokens `a` to `b` right after the tokens before `a`
      and their spaces. */
  lemma {:induction false} JoinAround(tokens: seq<string>, a: nat, b: nat) returns (pre: string, post: string)
    requires a <= b < |tokens|
    ensures Join(" ", tokens) == pre + Join(" ", tokens[a..b + 1]) + post
    ensures |pre| == Width(tokens[..a])
  {
    var mid := tokens[a..b + 1];
    var rest := tokens[a..];
    if b + 1 < |tokens| {
      JoinSplit(rest, b + 1 - a);
      assert rest[..b + 1 - a] == mid && rest[b + 1 - a..] == tokens[b + 1..];
      post := " " + Join(" ", tokens[b + 1..]);
    } else {
      assert rest == mid;
      post := "";
    }
    assert Join(" ", rest) == Join(" ", mid) + post;
    if a > 0 {
      JoinSplit(tokens, a);
      JoinLength(tokens[..a]);
      pre := Join(" ", tokens[..a]) + " ";
    } else {
      assert tokens[a..] == tokens;
      assert tokens[..a] == [];
      pre := "";
    }
  }

  /** In `" ".join(tokens)`, the text from the start of token `a` to the end of token `b` is those
      tokens joined by spaces. */
  lemma {:induction false} JoinedRun(tokens: seq<string>, a: nat, b: nat)
    requires a <= b < |tokens|
    ensures 0 <= Offset(tokens, a).0 <= Offset(tokens, b).1 <= |Join(" ", tokens)|
    ensures Join(" ", tokens)[Offset(tokens, a).0..Offset(tokens, b).1] == Join(" ", tokens[a..b + 1])
  {
    var mid := tokens[a..b + 1];
    var pre, post := JoinAround(tokens, a, b);
    assert tokens[..b + 1] == tokens[..a] + mid;
    WidthConcat(tokens[..a], mid);
    JoinLength(mid);
    assert tokens[..b + 1][..b] == tokens[..b];
    assert Offset(tokens, b).1 == |pre| + |Join(" ", mid)|;
    var text := pre + Join(" ", mid) + post;
    assert text[|pre|..|pre| + |Join(" ", mid)|] == Join(" ", mid);
  }

  /** `text[start:end]` is the token, for the offsets of every token. */
  lemma {:induction false} OffsetsCoverTokens(tokens: seq<string>, j: nat)
    requires j < |tokens|
    ensures Offset(tokens, j).1 <= |Join(" ", tokens)|
    ensures Join(" ", tokens)[Offset(tokens, j).0..Offset(tokens, j).1] == tokens[j]
  {
    JoinedRun(tokens, j, j);
    assert tokens[j..j + 1] == [tokens[j]];
  }

  // ---------------------------------------------------------------------------------------------
  // Entities

  /** `LabeledSpan(start=token_offsets[start][0], end=token_offsets[end][1], label=label)` for one
      `(label, (start, end))` that `bio_tags_to_spans` returns (Python indexing, so negative indices
      count from the end; the score keeps its default 1.0). An index out of range is an IndexError. */
  function EntityAt(tokenOffsets: seq<(int, int)>, span: (string, (int, int))): (r: Result<Annotation>)
    ensures r.Success? <==> Indexable(tokenOffsets, span)
    ensures r.Failure? ==> r.error == IndexError
  {
    var first :- GetIndex(tokenOffsets, span.1.0);
    var final :- GetIndex(tokenOffsets, span.1.1);
    Success(LabeledSpan(first.0, final.1, span.0, 1.0))
  }

  /** Both token indices of a span are valid Python indices into the offsets. */
  predicate Indexable(tokenOffsets: seq<(int, int)>, span: (string, (int, int))) {
    -|tokenOffsets| <= span.1.0 < |tokenOffsets| && -|tokenOffsets| <= span.1.1 < |tokenOffsets|
  }

  /** The labeled spans of `_generate_document`, one per span in order, until one fails. */
  function EntitySpans(tokenOffsets: seq<(int, int)>, spans: seq<(string, (int, int))>): (r: Result<seq<Annotation>>)
    ensures r.Failure? ==> r.error == IndexError
    ensures r.Success? ==> |r.value| == |spans|
    decreases |spans|
  {
    if spans == [] then Success([])
    else
      var init :- EntitySpans(tokenOffsets, spans[..|spans| - 1]);
      var entity :- EntityAt(tokenOffsets, spans[|spans| - 1]);
      Success(init + [entity])
  }

  /** The entities are built exactly when every span indexes the offsets, and then entity `i` is
      the one span `i` gives, with score 1.0. */
  lemma {:induction false} EntitySpansMembers(tokenOffsets: seq<(int, int)>, spans: seq<(string, (int, int))>)
    ensures EntitySpans(tokenOffsets, spans).Success? <==> forall i :: 0 <= i < |spans| ==> Indexable(tokenOffsets, spans[i])
    ensures EntitySpans(tokenOffsets, spans).Success? ==>
              forall i :: 0 <= i < |spans| ==> EntityAt(tokenOffsets, spans[i]).Success? &&
                                               EntitySpans(tokenOffsets, spans).value[i] == EntityAt(tokenOffsets, spans[i]).value
    decreases |spans|
  {
    if spans != [] {
      var init := spans[..|spans| - 1];
      EntitySpansMembers(tokenOffsets, init);
      assert forall i :: 0 <= i < |init| ==> init[i] == spans[i];
    }
  }

  /** One more span: the entities so far plus the one it gives, or an IndexError. */
  lemma {:induction false} EntitySpansStep(tokenOffsets: seq<(int, int)>, spans: seq<(string, (int, int))>, k: nat,
                                           built: seq<Annotation>)
    requires k < |spans| && EntitySpans(tokenOffsets, spans[..k]) == Success(built)
    ensures EntitySpans(tokenOffsets, spans[..k + 1]) ==
            if EntityAt(tokenOffsets, spans[k]).Success? then Success(built + [EntityAt(tokenOffsets, spans[k]).value])
            else Failure(IndexError)
  {
    assert spans[..k + 1][..k] == spans[..k];
  }

  /** Once a span fails to index the offsets, the whole list fails. */
  lemma {:induction false} EntitySpansAbort(tokenOffsets: seq<(int, int)>, spans: seq<(string, (int, int))>, k: nat)
    requires k <= |spans| && EntitySpans(tokenOffsets, spans[..k]).Failure?
    ensures EntitySpans(tokenOffsets, spans) == Failure(IndexError)
    decreases |spans| - k
  {
    if k < |spans| {
      assert spans[..k + 1][..k] == spans[..k];
      EntitySpansAbort(tokenOffsets, spans, k + 1);
    } else {
      assert spans[..k] == spans;
    }
  }

  /** The entities `_generate_document` appends for an example. */
  function ExampleEntities(tokens: seq<string>, nerTags: seq<int>, intToStr: int -> string,
                           bioToSpans: seq<string> -> seq<(string, (int, int))>): Result<seq<Annotation>>
  {
    var n := ZipLength(tokens, nerTags);
    EntitySpans(OffsetList(tokens, n), bioToSpans(TagList(nerTags, n, intToStr)))
  }

  /** An entity over tokens `a` to `b` (in order, both among the zipped tokens) covers exactly those
      tokens joined by spaces in the document's text. */
  lemma EntityCoversTokens(tokens: seq<string>, nerTags: seq<int>, intToStr: int -> string,
                           bioToSpans: seq<string> -> seq<(string, (int, int))>, i: nat)
    requires ExampleEntities(tokens, nerTags, intToStr, bioToSpans).Success?
    requires var spans := bioToSpans(TagList(nerTags, ZipLength(tokens, nerTags), intToStr));
             i < |spans| && 0 <= spans[i].1.0 <= spans[i].1.1 < ZipLength(tokens, nerTags)
    ensures var spans := bioToSpans(TagList(nerTags, ZipLength(tokens, nerTags), intToStr));
            var e := ExampleEntities(tokens, nerTags, intToStr, bioToSpans).value[i];
            e == LabeledSpan(Offset(tokens, spans[i].1.0).0, Offset(tokens, spans[i].1.1).1, spans[i].0, 1.0) &&
            SpanText(Join(" ", tokens), e) == Join(" ", tokens[spans[i].1.0..spans[i].1.1 + 1])
  {
    var n := ZipLength(tokens, nerTags);
    var spans := bioToSpans(TagList(nerTags, n, intToStr));
    var offsets := OffsetList(tokens, n);
    var a, b := spans[i].1.0, spans[i].1.1;
    EntitySpansMembers(offsets, spans);
    assert GetIndex(offsets, a).value == Offset(tokens, a) && GetIndex(offsets, b).value == Offset(tokens, b);
    var e := ExampleEntities(tokens, nerTags, intToStr, bioToSpans).value[i];
    assert e == LabeledSpan(Offset(tokens, a).0, Offset(tokens, b).1, spans[i].0, 1.0);
    JoinedRun(tokens, a, b);
  }

  // ---------------------------------------------------------------------------------------------
  // The document

  /** What `append` on the entities layer stores: each span with the text as its target. */
  function TextEntries(es: seq<Annotation>, text: string): (r: seq<Entry>)
    ensures |r| == |es| && forall i :: 0 <= i < |es| ==> r[i] == Entry(es[i], FieldValue(StrV(text)))
  {
    seq(|es|, i requires 0 <= i < |es| => Entry(es[i], FieldValue(StrV(text))))
  }

  lemma TextEntriesAppend(es: seq<Annotation>, a: Annotation, text: string)
    ensures TextEntries(es + [a], text) == TextEntries(es, text) + [Entry(a, FieldValue(StrV(text)))]
  {
  }

  /** The lists of a CoNLL document: its one layer. */
  function Single(entries: seq<Entry>): map<string, seq<Entry>> {
    map[ENTITIES := entries]
  }

  lemma SingleUpdate(entries: seq<Entry>, e: Entry)
    ensures Single(entries)[ENTITIES := Single(entries)[ENTITIES] + [e]] == Single(entries + [e])
  {
  }

  /** `document.entities.append(span)`: the span joins the layer with the text as its target. */
  method AppendEntity(document: Document, entity: Annotation, text: string, ghost built: seq<Annotation>)
    requires document.Valid() && document.docType == ConllType() && document.plain[TEXT] == StrV(text)
    requires document.Lists() == Single(TextEntries(built, text))
    modifies document.Repr
    ensures document.Valid() && document.Lists() == Single(TextEntries(built + [entity], text))
  {
    assert ListTarget(document.docType, document.plain, TargetOf(document.docType, ENTITIES)) ==
           Success(FieldValue(StrV(text)));
    var o := document.AppendTo(ENTITIES, entity);
    SingleUpdate(TextEntries(built, text), Entry(entity, FieldValue(StrV(text))));
    TextEntriesAppend(built, entity, text);
  }

  /** The loop of `_generate_document` over the spans, on the freshly initialised document: each
      entity is built from the offsets and appended to `document.entities`, whose target is the text. */
  method AppendEntities(document: Document, tokenOffsets: seq<(int, int)>, spans: seq<(string, (int, int))>,
                        text: string) returns (r: Result<seq<Annotation>>)
    requires document.Valid() && document.docType == ConllType() && document.plain[TEXT] == StrV(text)
    requires document.Lists() == Single([])
    modifies document.Repr
    ensures r == EntitySpans(tokenOffsets, spans)
    ensures r.Success? ==> document.Valid() && document.Lists() == Single(TextEntries(r.value, text))
  {
    var built := [];
    assert spans[..0] == [];
    for i := 0 to |spans|
      invariant document.Valid()
      invariant EntitySpans(tokenOffsets, spans[..i]) == Success(built)
      invariant document.Lists() == Single(TextEntries(built, text))
    {
      EntitySpansStep(tokenOffsets, spans, i, built);
      var entity := EntityAt(tokenOffsets, spans[i]);
      if entity.Failure? {
        EntitySpansAbort(tokenOffsets, spans, i + 1);
        return Failure(IndexError);
      }
      AppendEntity(document, entity.value, text, built);
      built := built + [entity.value];
    }
    assert spans[..|spans|] == spans;
    return Success(built);
  }

  /** `_generate_document(example, int_to_str)`: the offsets loop, `" ".join(tokens)`, the spans of
      the tag sequence, then `CoNLL2003Document(text=text, id=doc_id)` with each entity appended in
      span order. An entity whose token index is out of range is an IndexError. */
  method GenerateDocument(id: string, tokens: seq<string>, nerTags: seq<int>, intToStr: int -> string,
                          bioToSpans: seq<string> -> seq<(string, (int, int))>) returns (r: Result<Document>)
    ensures var spec := ExampleEntities(tokens, nerTags, intToStr, bioToSpans);
            (r.Success? <==> spec.Success?) && (r.Failure? ==> r.error == IndexError) &&
            (r.Success? ==> fresh(r.value) && r.value.Valid() && r.value.docType == ConllType() &&
                            r.value.plain == map[TEXT := StrV(Join(" ", tokens)), ID := StrV(id)] &&
                            r.value.Lists() == Single(TextEntries(spec.value, Join(" ", tokens))))
  {
    var tokenOffsets, tagSequence := TokenOffsets(tokens, nerTags, intToStr);
    var n := ZipLength(tokens, nerTags);
    assert tokenOffsets == OffsetList(tokens, n) && tagSequence == TagList(nerTags, n, intToStr);
    var text := Join(" ", tokens);
    var t := ConllType();
    var plain := map[TEXT := StrV(text), ID := StrV(id)];
    ProtoPlainSet(t);
    var document := new Document(t, plain);
    document.PostInit();
    assert EmptyLayers(t) == Single([]);
    var entities := AppendEntities(document, tokenOffsets, bioToSpans(tagSequence), text);
    if entities.Failure? {
      return Failure(entities.error);
    }
    return Success(document);
  }
}
