/** `text_based_document_to_token_based`: a text-based document becomes a token-based one. The result
    holds the tokens, the id and a copy of the metadata extended by the text and by whichever of the
    token offset mapping and the `char_to_token` function were given. Every layer whose targets
    include `"text"` is converted span by span: a character span `[s, e)` becomes the token span
    `[char_to_token(s), char_to_token(e - 1) + 1)`; a span whose start or last character maps to no
    token raises ValueError in strict mode and is otherwise recorded as removed. Each such result
    layer is extended by the converted spans, deduplicated and sorted by start. The override and
    removed maps are handed to `add_all_annotations_from_other`, which is not part of this model. */
module DocumentConversion {
  import opened Wrappers
  import opened PyLists
  import opened PyDicts
  import opened Annotations
  import opened FieldValues

  const TEXT_KEY := "text"
  const OFFSETS_KEY := "token_offset_mapping"
  const CHAR_TO_TOKEN_KEY := "char_to_token"

  const BOTH_NONE := "either token_offset_mapping or char_to_token must be provided to convert a text " +
                     "based document to token based, but both are None"
  const NO_TOKEN_SPAN := "cannot find token span for character span"

  /** A metadata value: one copied from the source document, or one the conversion stores. */
  datatype MetaValue =
    | Copied(value: Value)
    | TextMeta(text: string)
    | OffsetsMeta(offsets: seq<(int, int)>)
    | CharToTokenMeta(charToToken: int -> Option<int>)

  /** An annotation field of the source document: its name, the targets its field metadata lists,
      and the annotations it holds. */
  datatype AnnotationField = AnnotationField(name: string, targets: seq<string>, annotations: seq<Annotation>)

  datatype TextDocument = TextDocument(text: string, id: Option<string>, metadata: PyDict<string, MetaValue>,
                                       fields: seq<AnnotationField>)

  /** The result document: its tokens, id, metadata and the annotations of each of its layers. */
  datatype TokenDocument = TokenDocument(tokens: seq<string>, id: Option<string>, metadata: PyDict<string, MetaValue>,
                                         layers: map<string, seq<Annotation>>)

  // ---------------------------------------------------------------------------------------------
  // char_to_token

  /** Token `i`'s offsets cover character `c`. */
  predicate Covers(offset: (int, int), c: int) {
    offset.0 <= c < offset.1
  }

  /** `table[c] = v` for every `c` in `range(lo, hi)`, in that order. */
  function Assign(table: map<int, nat>, lo: int, hi: int, v: nat): map<int, nat>
    decreases hi - lo
  {
    if lo < hi then Assign(table[lo := v], lo + 1, hi, v) else table
  }

  /** After the assignments, the characters of `range(lo, hi)` map to `v` and every other keeps its
      entry. */
  lemma {:induction false} AssignFacts(table: map<int, nat>, lo: int, hi: int, v: nat, c: int)
    ensures c in Assign(table, lo, hi, v) <==> lo <= c < hi || c in table
    ensures c in Assign(table, lo, hi, v) ==> Assign(table, lo, hi, v)[c] == if lo <= c < hi then v else table[c]
    decreases hi - lo
  {
    if lo < hi {
      AssignFacts(table[lo := v], lo + 1, hi, v, c);
    }
  }

  /** The table the nested loops fill: for each token in turn, every character of its `[start, end)`
      is assigned the token's index, so later tokens win where offsets overlap. */
  function CharTable(offsets: seq<(int, int)>): map<int, nat>
    decreases |offsets|
  {
    if offsets == [] then map[]
    else
      var n := |offsets| - 1;
      Assign(CharTable(offsets[..n]), offsets[n].0, offsets[n].1, n)
  }

  /** A character is in the table exactly when some token covers it, and then it maps to the last
      token that does. */
  lemma {:induction false} CharTableCovers(offsets: seq<(int, int)>, c: int)
    ensures c in CharTable(offsets) <==> exists i :: 0 <= i < |offsets| && Covers(offsets[i], c)
    ensures c in CharTable(offsets) ==>
              CharTable(offsets)[c] < |offsets| && Covers(offsets[CharTable(offsets)[c]], c) &&
              forall j :: CharTable(offsets)[c] < j < |offsets| ==> !Covers(offsets[j], c)
    decreases |offsets|
  {
    if offsets != [] {
      var n := |offsets| - 1;
      var init := offsets[..n];
      CharTableCovers(init, c);
      AssignFacts(CharTable(init), offsets[n].0, offsets[n].1, n, c);
      assert forall i :: 0 <= i < n ==> init[i] == offsets[i];
      if !Covers(offsets[n], c) && exists i :: 0 <= i < |offsets| && Covers(offsets[i], c) {
        var i :| 0 <= i < |offsets| && Covers(offsets[i], c);
        assert i < n && Covers(init[i], c);
      }
    }
  }

  /** The nested loops of the conversion over `enumerate(token_offset_mapping)` and
      `range(start, end)`. */
  method CharToTokenTable(offsets: seq<(int, int)>) returns (table: map<int, nat>)
    ensures table == CharTable(offsets)
  {
    table := map[];
    for tokenIdx := 0 to |offsets|
      invariant table == CharTable(offsets[..tokenIdx])
    {
      var start, end := offsets[tokenIdx].0, offsets[tokenIdx].1;
      ghost var goal := Assign(table, start, end, tokenIdx);
      var charIdx := start;
      while charIdx < end
        invariant Assign(table, charIdx, end, tokenIdx) == goal
        decreases end - charIdx
      {
        table := table[charIdx := tokenIdx];
        charIdx := charIdx + 1;
      }
      assert offsets[..tokenIdx + 1][..tokenIdx] == offsets[..tokenIdx];
    }
    assert offsets[..|offsets|] == offsets;
  }

  /** The `char_to_token` the conversion uses: the one given, or `char_to_token_dict.get`. */
  datatype CharMapping = Given(f: int -> Option<int>) | Table(table: map<int, nat>)

  function Apply(m: CharMapping, c: int): (r: Option<int>)
    ensures m.Table? ==> (r.Some? <==> c in m.table) && (r.Some? ==> r.value == m.table[c])
  {
    match m
    case Given(f) => f(c)
    case Table(t) => if c in t then Some(t[c]) else None
  }

  /** Both the first and the last character of the span map to a token. */
  predicate Aligned(m: CharMapping, a: Annotation) {
    a.IsSpan() && Apply(m, a.start).Some? && Apply(m, a.end - 1).Some?
  }

  /** `char_span.copy(start=start_token_idx, end=end_token_idx_inclusive + 1)` */
  function TokenSpan(m: CharMapping, a: Annotation): (t: Annotation)
    requires Aligned(m, a)
    ensures t.IsSpan() && t.start == Apply(m, a.start).value && t.end == Apply(m, a.end - 1).value + 1
  {
    a.(start := Apply(m, a.start).value, end := Apply(m, a.end - 1).value + 1)
  }

  // ---------------------------------------------------------------------------------------------
  // One layer

  /** What the loop over one layer has built: `override_annotations[name]` (id to token span) and
      `removed_annotations[name]`. */
  datatype LayerOutcome = LayerOutcome(overrides: PyDict<int, Annotation>, removed: set<int>)

  /** One character span of the layer. An annotation without `start` is an AttributeError. */
  function SpanStep(m: CharMapping, hash: Annotation -> int, strict: bool, a: Annotation, prev: LayerOutcome)
    : Result<LayerOutcome>
  {
    if !a.IsSpan() then Failure(AttributeError("start"))
    else if !Aligned(m, a) then
      if strict then Failure(ValueError(NO_TOKEN_SPAN)) else Success(LayerOutcome(prev.overrides, prev.removed + {hash(a)}))
    else Success(LayerOutcome(Put(prev.overrides, hash(a), TokenSpan(m, a)), prev.removed))
  }

  /** The loop over the spans of one layer, until one fails. */
  function LayerConversion(m: CharMapping, hash: Annotation -> int, strict: bool, spans: seq<Annotation>)
    : (r: Result<LayerOutcome>)
    ensures r.Failure? ==> r.error == AttributeError("start") || (strict && r.error == ValueError(NO_TOKEN_SPAN))
    ensures r.Success? && strict ==> r.value.removed == {}
    decreases |spans|
  {
    if spans == [] then Success(LayerOutcome([], {}))
    else
      var prev :- LayerConversion(m, hash, strict, spans[..|spans| - 1]);
      SpanStep(m, hash, strict, spans[|spans| - 1], prev)
  }

  lemma LayerConversionStep(m: CharMapping, hash: Annotation -> int, strict: bool, spans: seq<Annotation>, k: nat,
                            prev: LayerOutcome)
    requires k < |spans| && LayerConversion(m, hash, strict, spans[..k]) == Success(prev)
    ensures LayerConversion(m, hash, strict, spans[..k + 1]) == SpanStep(m, hash, strict, spans[k], prev)
  {
    assert spans[..k + 1][..k] == spans[..k];
  }

  lemma {:induction false} LayerConversionAbortStep(m: CharMapping, hash: Annotation -> int, strict: bool,
                                                    spans: seq<Annotation>, k: nat)
    requires k < |spans| && LayerConversion(m, hash, strict, spans[..k]).Failure?
    ensures LayerConversion(m, hash, strict, spans[..k + 1]) == Failure(LayerConversion(m, hash, strict, spans[..k]).error)
  {
    assert spans[..k + 1][..k] == spans[..k];
  }

  /** Once a span fails, the layer fails with its error. */
  lemma {:induction false} LayerConversionAbort(m: CharMapping, hash: Annotation -> int, strict: bool,
                                                spans: seq<Annotation>, k: nat)
    requires k <= |spans| && LayerConversion(m, hash, strict, spans[..k]).Failure?
    ensures LayerConversion(m, hash, strict, spans) == Failure(LayerConversion(m, hash, strict, spans[..k]).error)
    decreases |spans| - k
  {
    if k < |spans| {
      LayerConversionAbortStep(m, hash, strict, spans, k);
      LayerConversionAbort(m, hash, strict, spans, k + 1);
    } else {
      assert spans[..k] == spans;
    }
  }

  /** The span converts: it has offsets and, in strict mode, aligns with the tokens. */
  predicate Convertible(m: CharMapping, strict: bool, a: Annotation) {
    a.IsSpan() && (strict ==> Aligned(m, a))
  }

  /** One span converts exactly when it is convertible, and is recorded as removed exactly when it
      does not align. */
  lemma SpanStepOutcome(m: CharMapping, hash: Annotation -> int, strict: bool, a: Annotation, prev: LayerOutcome)
    ensures SpanStep(m, hash, strict, a, prev).Success? <==> Convertible(m, strict, a)
    ensures SpanStep(m, hash, strict, a, prev).Success? ==>
              SpanStep(m, hash, strict, a, prev).value.removed == prev.removed + (if Aligned(m, a) then {} else {hash(a)})
  {
  }

  /** A layer converts exactly when every annotation is a span and, in strict mode, every span aligns
      with the tokens. */
  lemma {:induction false} LayerConversionSucceeds(m: CharMapping, hash: Annotation -> int, strict: bool,
                                                   spans: seq<Annotation>)
    ensures LayerConversion(m, hash, strict, spans).Success? <==>
            forall i :: 0 <= i < |spans| ==> Convertible(m, strict, spans[i])
    decreases |spans|
  {
    if spans != [] {
      var n := |spans| - 1;
      var init := spans[..n];
      LayerConversionSucceeds(m, hash, strict, init);
      var before := LayerConversion(m, hash, strict, init);
      if before.Success? {
        SpanStepOutcome(m, hash, strict, spans[n], before.value);
        assert LayerConversion(m, hash, strict, spans) == SpanStep(m, hash, strict, spans[n], before.value);
        if Convertible(m, strict, spans[n]) {
          forall i | 0 <= i < |spans| ensures Convertible(m, strict, spans[i]) {
            if i < n {
              assert init[i] == spans[i];
            }
          }
        }
      } else {
        var i :| 0 <= i < n && !Convertible(m, strict, init[i]);
        assert !Convertible(m, strict, spans[i]);
      }
    }
  }

  /** The spans recorded as removed are exactly the ids of the spans that do not align. */
  lemma LayerRemoved(m: CharMapping, hash: Annotation -> int, strict: bool, spans: seq<Annotation>)
    requires LayerConversion(m, hash, strict, spans).Success?
    ensures forall k :: k in LayerConversion(m, hash, strict, spans).value.removed <==>
              exists i :: 0 <= i < |spans| && !Aligned(m, spans[i]) && hash(spans[i]) == k
  {
    LayerRemovedSound(m, hash, strict, spans);
    LayerRemovedComplete(m, hash, strict, spans);
  }

  lemma {:induction false} LayerRemovedSound(m: CharMapping, hash: Annotation -> int, strict: bool,
                                             spans: seq<Annotation>)
    requires LayerConversion(m, hash, strict, spans).Success?
    ensures forall k :: k in LayerConversion(m, hash, strict, spans).value.removed ==>
              exists i :: 0 <= i < |spans| && !Aligned(m, spans[i]) && hash(spans[i]) == k
    decreases |spans|
  {
    if spans != [] {
      var n := |spans| - 1;
      var init := spans[..n];
      var prev := LayerConversion(m, hash, strict, init).value;
      LayerRemovedSound(m, hash, strict, init);
      SpanStepOutcome(m, hash, strict, spans[n], prev);
      var removed := LayerConversion(m, hash, strict, spans).value.removed;
      assert removed == prev.removed + (if Aligned(m, spans[n]) then {} else {hash(spans[n])});
      forall k | k in removed ensures exists i :: 0 <= i < |spans| && !Aligned(m, spans[i]) && hash(spans[i]) == k {
        if k in prev.removed {
          var i :| 0 <= i < n && !Aligned(m, init[i]) && hash(init[i]) == k;
          assert spans[i] == init[i];
        }
      }
    }
  }

  lemma {:induction false} LayerRemovedComplete(m: CharMapping, hash: Annotation -> int, strict: bool,
                                                spans: seq<Annotation>)
    requires LayerConversion(m, hash, strict, spans).Success?
    ensures forall i :: 0 <= i < |spans| && !Aligned(m, spans[i]) ==>
              hash(spans[i]) in LayerConversion(m, hash, strict, spans).value.removed
    decreases |spans|
  {
    if spans != [] {
      var n := |spans| - 1;
      var init := spans[..n];
      var prev := LayerConversion(m, hash, strict, init).value;
      LayerRemovedComplete(m, hash, strict, init);
      SpanStepOutcome(m, hash, strict, spans[n], prev);
      var removed := LayerConversion(m, hash, strict, spans).value.removed;
      assert removed == prev.removed + (if Aligned(m, spans[n]) then {} else {hash(spans[n])});
      forall i | 0 <= i < |spans| && !Aligned(m, spans[i]) ensures hash(spans[i]) in removed {
        if i < n {
          assert init[i] == spans[i];
        }
      }
    }
  }

  /** Every token span in the override map comes from an aligned span of the layer. */
  lemma {:induction false} LayerOverridesSound(m: CharMapping, hash: Annotation -> int, strict: bool,
                                               spans: seq<Annotation>)
    requires LayerConversion(m, hash, strict, spans).Success?
    ensures forall x :: x in Values(LayerConversion(m, hash, strict, spans).value.overrides) ==>
              exists i :: 0 <= i < |spans| && Aligned(m, spans[i]) && x == TokenSpan(m, spans[i])
    decreases |spans|
  {
    if spans != [] {
      var n := |spans| - 1;
      var init := spans[..n];
      LayerOverridesSound(m, hash, strict, init);
      assert forall i :: 0 <= i < |init| ==> init[i] == spans[i];
      var prev := LayerConversion(m, hash, strict, init).value;
      if Aligned(m, spans[n]) {
        PutValues(prev.overrides, hash(spans[n]), TokenSpan(m, spans[n]));
      }
    }
  }

  /** Distinct annotations of the layer have distinct ids. */
  predicate Injective(hash: Annotation -> int, spans: seq<Annotation>) {
    forall i, j :: 0 <= i < |spans| && 0 <= j < |spans| && hash(spans[i]) == hash(spans[j]) ==> spans[i] == spans[j]
  }

  /** When the ids are distinct, the override map holds every aligned span's token span under the
      span's id. */
  lemma {:induction false} LayerOverridesComplete(m: CharMapping, hash: Annotation -> int, strict: bool,
                                                  spans: seq<Annotation>)
    requires LayerConversion(m, hash, strict, spans).Success? && Injective(hash, spans)
    ensures forall i :: 0 <= i < |spans| && Aligned(m, spans[i]) ==>
              Get(LayerConversion(m, hash, strict, spans).value.overrides, hash(spans[i])) == Some(TokenSpan(m, spans[i]))
    decreases |spans|
  {
    if spans != [] {
      var n := |spans| - 1;
      var init := spans[..n];
      assert forall i :: 0 <= i < |init| ==> init[i] == spans[i];
      LayerOverridesComplete(m, hash, strict, init);
      var prev := LayerConversion(m, hash, strict, init).value;
      if Aligned(m, spans[n]) {
        forall i | 0 <= i < n && Aligned(m, spans[i]) && hash(spans[i]) != hash(spans[n])
          ensures Get(Put(prev.overrides, hash(spans[n]), TokenSpan(m, spans[n])), hash(spans[i])) ==
                  Some(TokenSpan(m, spans[i]))
        {
          PutOther(prev.overrides, hash(spans[n]), TokenSpan(m, spans[n]), hash(spans[i]));
        }
      }
    }
  }

  // ---------------------------------------------------------------------------------------------
  // sorted(set(values), key=start)

  /** The start a span is sorted by. */
  function Start(a: Annotation): int {
    if a.IsSpan() then a.start else 0
  }

  /** `set(values)`: each value once, kept where it first occurs. */
  function Unique(xs: seq<Annotation>): seq<Annotation>
    decreases |xs|
  {
    if xs == [] then []
    else
      var u := Unique(xs[..|xs| - 1]);
      var x := xs[|xs| - 1];
      if x in u then u else u + [x]
  }

  /** `Unique` keeps every value and drops every repetition. */
  lemma {:induction false} UniqueFacts(xs: seq<Annotation>)
    ensures forall x :: x in Unique(xs) <==> x in xs
    ensures Distinct(Unique(xs))
    decreases |xs|
  {
    if xs != [] {
      var init := xs[..|xs| - 1];
      var x := xs[|xs| - 1];
      UniqueFacts(init);
      assert xs == init + [x];
      if x !in Unique(init) {
        DistinctAppend(Unique(init), x);
      }
    }
  }

  lemma {:induction false} DistinctAppend(u: seq<Annotation>, x: Annotation)
    requires Distinct(u) && x !in u
    ensures Distinct(u + [x])
    decreases |u|
  {
    if u != [] {
      assert (u + [x])[1..] == u[1..] + [x];
      DistinctAppend(u[1..], x);
    }
  }

  /** Each span starts no later than every span after it. */
  predicate SortedFrom(s: seq<Annotation>) {
    s == [] || ((forall y :: y in s[1..] ==> Start(s[0]) <= Start(y)) && SortedFrom(s[1..]))
  }

  /** Insert `x` after the spans that start no later than it. */
  function Insert(x: Annotation, s: seq<Annotation>): seq<Annotation>
    decreases |s|
  {
    if s == [] then [x]
    else if Start(x) < Start(s[0]) then [x] + s
    else [s[0]] + Insert(x, s[1..])
  }

  lemma {:induction false} InsertMembers(x: Annotation, s: seq<Annotation>)
    ensures forall y :: y in Insert(x, s) <==> y == x || y in s
    decreases |s|
  {
    if s != [] && Start(x) >= Start(s[0]) {
      InsertMembers(x, s[1..]);
      assert s == [s[0]] + s[1..];
    }
  }

  /** Inserting into a sorted sequence without `x` keeps it sorted and free of repetitions. */
  lemma {:induction false} InsertKeeps(x: Annotation, s: seq<Annotation>)
    requires SortedFrom(s) && Distinct(s) && x !in s
    ensures SortedFrom(Insert(x, s)) && Distinct(Insert(x, s))
    decreases |s|
  {
    if s != [] {
      if Start(x) < Start(s[0]) {
        assert ([x] + s)[1..] == s;
      } else {
        InsertKeeps(x, s[1..]);
        InsertMembers(x, s[1..]);
        assert ([s[0]] + Insert(x, s[1..]))[1..] == Insert(x, s[1..]);
      }
    }
  }

  /** `sorted(..., key=lambda span: span.start)`: a stable insertion sort by start. */
  function Sort(xs: seq<Annotation>): seq<Annotation>
    decreases |xs|
  {
    if xs == [] then [] else Insert(xs[|xs| - 1], Sort(xs[..|xs| - 1]))
  }

  lemma {:induction false} SortMembers(xs: seq<Annotation>)
    ensures forall x :: x in Sort(xs) <==> x in xs
    decreases |xs|
  {
    if xs != [] {
      var init := xs[..|xs| - 1];
      SortMembers(init);
      InsertMembers(xs[|xs| - 1], Sort(init));
      assert xs == init + [xs[|xs| - 1]];
    }
  }

  /** Sorting a sequence without repetitions gives a sorted one without repetitions. */
  lemma {:induction false} SortKeeps(xs: seq<Annotation>)
    requires Distinct(xs)
    ensures SortedFrom(Sort(xs)) && Distinct(Sort(xs))
    decreases |xs|
  {
    if xs != [] {
      var init := xs[..|xs| - 1];
      DistinctInit(xs);
      SortKeeps(init);
      SortMembers(init);
      InsertKeeps(xs[|xs| - 1], Sort(init));
    }
  }

  lemma {:induction false} DistinctInit(xs: seq<Annotation>)
    requires Distinct(xs) && xs != []
    ensures Distinct(xs[..|xs| - 1]) && xs[|xs| - 1] !in xs[..|xs| - 1]
  {
    DistinctNoDuplicates(xs);
    DistinctNoDuplicates(xs[..|xs| - 1]);
  }

  lemma {:induction false} SortedFromPairs(s: seq<Annotation>)
    requires SortedFrom(s)
    ensures forall i, j :: 0 <= i < j < |s| ==> Start(s[i]) <= Start(s[j])
    decreases |s|
  {
    if s != [] {
      SortedFromPairs(s[1..]);
      forall i, j | 0 <= i < j < |s| ensures Start(s[i]) <= Start(s[j]) {
        assert s[j] == s[1..][j - 1];
        if i > 0 {
          assert s[i] == s[1..][i - 1];
        }
      }
    }
  }

  /** `sorted(set(values), key=lambda span: span.start)` */
  function SortedSpans(values: seq<Annotation>): seq<Annotation> {
    Sort(Unique(values))
  }

  /** The sorted spans hold each value exactly once, in order of start. */
  lemma SortedSpansFacts(values: seq<Annotation>)
    ensures forall x :: x in SortedSpans(values) <==> x in values
    ensures NoDuplicates(SortedSpans(values))
    ensures forall i, j :: 0 <= i < j < |SortedSpans(values)| ==> Start(SortedSpans(values)[i]) <= Start(SortedSpans(values)[j])
  {
    UniqueFacts(values);
    SortMembers(Unique(values));
    SortKeeps(Unique(values));
    SortedFromPairs(SortedSpans(values));
    DistinctNoDuplicates(SortedSpans(values));
  }

  /** With distinct ids, the spans added to a converted layer are exactly the token spans of its
      aligned character spans. */
  lemma LayerSpans(m: CharMapping, hash: Annotation -> int, strict: bool, spans: seq<Annotation>)
    requires LayerConversion(m, hash, strict, spans).Success? && Injective(hash, spans)
    ensures var added := SortedSpans(Values(LayerConversion(m, hash, strict, spans).value.overrides));
            forall x :: x in added <==> exists i :: 0 <= i < |spans| && Aligned(m, spans[i]) && x == TokenSpan(m, spans[i])
  {
    var d := LayerConversion(m, hash, strict, spans).value.overrides;
    SortedSpansFacts(Values(d));
    LayerOverridesSound(m, hash, strict, spans);
    LayerOverridesComplete(m, hash, strict, spans);
    forall i | 0 <= i < |spans| && Aligned(m, spans[i]) ensures TokenSpan(m, spans[i]) in Values(d) {
      GetInValues(d, hash(spans[i]));
    }
  }

  /** The body of the loop over one layer's spans. */
  method ConvertSpan(m: CharMapping, hash: Annotation -> int, strict: bool, a: Annotation, prev: LayerOutcome)
      returns (r: Result<LayerOutcome>)
    ensures r == SpanStep(m, hash, strict, a, prev)
  {
    if !a.IsSpan() {
      return Failure(AttributeError("start"));
    }
    var startTokenIdx := Apply(m, a.start);
    var endTokenIdxInclusive := Apply(m, a.end - 1);
    if startTokenIdx.None? || endTokenIdxInclusive.None? {
      assert !Aligned(m, a);
      if strict {
        return Failure(ValueError(NO_TOKEN_SPAN));
      }
      return Success(LayerOutcome(prev.overrides, prev.removed + {hash(a)}));
    }
    var tokenSpan := a.(start := startTokenIdx.value, end := endTokenIdxInclusive.value + 1);
    assert Aligned(m, a) && tokenSpan == TokenSpan(m, a);
    return Success(LayerOutcome(Put(prev.overrides, hash(a), tokenSpan), prev.removed));
  }

  /** The loop over the spans of one layer. */
  method ConvertLayer(m: CharMapping, hash: Annotation -> int, strict: bool, spans: seq<Annotation>)
      returns (r: Result<LayerOutcome>)
    ensures r == LayerConversion(m, hash, strict, spans)
  {
    var outcome := LayerOutcome([], {});
    assert spans[..0] == [];
    for i := 0 to |spans|
      invariant LayerConversion(m, hash, strict, spans[..i]) == Success(outcome)
    {
      LayerConversionStep(m, hash, strict, spans, i, outcome);
      var next := ConvertSpan(m, hash, strict, spans[i], outcome);
      if next.Failure? {
        LayerConversionAbort(m, hash, strict, spans, i + 1);
        return Failure(next.error);
      }
      outcome := next.value;
    }
    assert spans[..|spans|] == spans;
    return Success(outcome);
  }

  // ---------------------------------------------------------------------------------------------
  // The whole document

  /** What the loop over the text-span layers has built so far: the annotations of each layer of the
      result, and the two maps for `add_all_annotations_from_other`. */
  datatype Conversion = Conversion(layers: map<string, seq<Annotation>>,
                                   overrides: PyDict<string, PyDict<int, Annotation>>, removed: map<string, set<int>>)

  /** The outcome: the result document and the two maps. */
  datatype Converted = Converted(document: TokenDocument, overrides: PyDict<string, PyDict<int, Annotation>>,
                                 removed: map<string, set<int>>)

  function NoAttribute(key: string): string {
    "Document has no attribute '" + key + "'."
  }

  /** `removed_annotations[name].add(id)` for each id, on a `defaultdict(set)`. */
  function AddRemoved(removed: map<string, set<int>>, name: string, ids: set<int>): map<string, set<int>> {
    if ids == {} then removed
    else removed[name := (if name in removed then removed[name] else {}) + ids]
  }

  /** One text-span layer: convert its spans, then `result[name].extend(sorted spans)`; a layer the
      result type does not have is a KeyError. Nothing but that layer of the result changes. */
  function LayerStep(f: AnnotationField, m: CharMapping, hash: Annotation -> int, strict: bool, prev: Conversion)
    : (r: Result<Conversion>)
    ensures r.Success? ==> r.value.layers.Keys == prev.layers.Keys
    ensures r.Success? ==> forall n :: n in prev.layers && n != f.name ==>
                             r.value.layers[n] == prev.layers[n]
  {
    var outcome :- LayerConversion(m, hash, strict, f.annotations);
    if f.name !in prev.layers then Failure(KeyError(NoAttribute(f.name)))
    else
      var layers := prev.layers;
      Success(Conversion(layers[f.name := layers[f.name] + SortedSpans(Values(outcome.overrides))],
                         Put(prev.overrides, f.name, outcome.overrides),
                         AddRemoved(prev.removed, f.name, outcome.removed)))
  }

  /** The loop over the text-span layers, until one fails. The layer names stay as they were. */
  function LayersConverted(fields: seq<AnnotationField>, m: CharMapping, hash: Annotation -> int, strict: bool,
                           init: Conversion): (r: Result<Conversion>)
    ensures r.Success? ==> r.value.layers.Keys == init.layers.Keys
    decreases |fields|
  {
    if fields == [] then Success(init)
    else
      var prev :- LayersConverted(fields[..|fields| - 1], m, hash, strict, init);
      LayerStep(fields[|fields| - 1], m, hash, strict, prev)
  }

  lemma LayersConvertedStep(fields: seq<AnnotationField>, k: nat, m: CharMapping, hash: Annotation -> int,
                            strict: bool, init: Conversion, prev: Conversion)
    requires k < |fields| && LayersConverted(fields[..k], m, hash, strict, init) == Success(prev)
    ensures LayersConverted(fields[..k + 1], m, hash, strict, init) == LayerStep(fields[k], m, hash, strict, prev)
  {
    assert fields[..k + 1][..k] == fields[..k];
  }

  lemma {:induction false} LayersConvertedAbortStep(fields: seq<AnnotationField>, k: nat, m: CharMapping,
                                                    hash: Annotation -> int, strict: bool, init: Conversion, e: Error)
    requires k < |fields| && LayersConverted(fields[..k], m, hash, strict, init) == Failure(e)
    ensures LayersConverted(fields[..k + 1], m, hash, strict, init) == Failure(e)
  {
    assert fields[..k + 1][..k] == fields[..k];
  }

  /** Once a layer fails, the conversion fails with its error. */
  lemma {:induction false} LayersConvertedAbort(fields: seq<AnnotationField>, k: nat, m: CharMapping,
                                                hash: Annotation -> int, strict: bool, init: Conversion, e: Error)
    requires k <= |fields| && LayersConverted(fields[..k], m, hash, strict, init) == Failure(e)
    ensures LayersConverted(fields, m, hash, strict, init) == Failure(e)
    decreases |fields| - k
  {
    if k < |fields| {
      LayersConvertedAbortStep(fields, k, m, hash, strict, init, e);
      LayersConvertedAbort(fields, k + 1, m, hash, strict, init, e);
    } else {
      assert fields[..k] == fields;
    }
  }

  /** A layer that converts extends its result layer by its sorted token spans. */
  lemma LayerStepExtends(f: AnnotationField, m: CharMapping, hash: Annotation -> int, strict: bool, prev: Conversion)
    requires LayerStep(f, m, hash, strict, prev).Success?
    ensures LayerConversion(m, hash, strict, f.annotations).Success? && f.name in prev.layers
    ensures LayerStep(f, m, hash, strict, prev).value.layers[f.name] ==
            prev.layers[f.name] + SortedSpans(Values(LayerConversion(m, hash, strict, f.annotations).value.overrides))
  {
  }

  /** A conversion of all the layers went through all but the last. */
  lemma LayersConvertedLast(fields: seq<AnnotationField>, m: CharMapping, hash: Annotation -> int, strict: bool,
                            init: Conversion)
    requires fields != [] && LayersConverted(fields, m, hash, strict, init).Success?
    ensures LayersConverted(fields[..|fields| - 1], m, hash, strict, init).Success?
    ensures LayersConverted(fields, m, hash, strict, init) ==
            LayerStep(fields[|fields| - 1], m, hash, strict, LayersConverted(fields[..|fields| - 1], m, hash, strict, init).value)
  {
  }

  /** No two fields share a name, as in every dataclass. */
  predicate DistinctNames(fields: seq<AnnotationField>) {
    forall i, j :: 0 <= i < j < |fields| ==> fields[i].name != fields[j].name
  }

  /** Each converted layer holds what it held before plus its converted spans. */
  lemma {:induction false} LayerConvertedAt(fields: seq<AnnotationField>, k: nat, m: CharMapping,
                                            hash: Annotation -> int, strict: bool, init: Conversion)
    requires k < |fields| && DistinctNames(fields)
    requires LayersConverted(fields, m, hash, strict, init).Success?
    ensures LayerConversion(m, hash, strict, fields[k].annotations).Success? && fields[k].name in init.layers
    ensures LayersConverted(fields, m, hash, strict, init).value.layers[fields[k].name] ==
            init.layers[fields[k].name] + SortedSpans(Values(LayerConversion(m, hash, strict, fields[k].annotations).value.overrides))
    decreases |fields|, 1
  {
    if k < |fields| - 1 {
      LayerConvertedBefore(fields, k, m, hash, strict, init);
    } else {
      var before := fields[..k];
      LayersConvertedLast(fields, m, hash, strict, init);
      LayerStepExtends(fields[k], m, hash, strict, LayersConverted(before, m, hash, strict, init).value);
      LayerUnconverted(before, fields[k].name, m, hash, strict, init);
    }
  }

  /** A layer before the last is left alone by the last. */
  lemma {:induction false} LayerConvertedBefore(fields: seq<AnnotationField>, k: nat, m: CharMapping,
                                                hash: Annotation -> int, strict: bool, init: Conversion)
    requires k < |fields| - 1 && DistinctNames(fields)
    requires LayersConverted(fields, m, hash, strict, init).Success?
    ensures LayerConversion(m, hash, strict, fields[k].annotations).Success? && fields[k].name in init.layers
    ensures LayersConverted(fields, m, hash, strict, init).value.layers[fields[k].name] ==
            init.layers[fields[k].name] + SortedSpans(Values(LayerConversion(m, hash, strict, fields[k].annotations).value.overrides))
    decreases |fields|, 0
  {
    var n := |fields| - 1;
    var before := fields[..n];
    LayersConvertedLast(fields, m, hash, strict, init);
    assert before[k] == fields[k];
    assert DistinctNames(before);
    LayerConvertedAt(before, k, m, hash, strict, init);
    assert fields[k].name != fields[n].name;
  }

  /** A layer no field names still holds what it held at the start. */
  lemma {:induction false} LayerUnconverted(fields: seq<AnnotationField>, name: string, m: CharMapping,
                                            hash: Annotation -> int, strict: bool, init: Conversion)
    requires LayersConverted(fields, m, hash, strict, init).Success?
    requires name in init.layers && forall j :: 0 <= j < |fields| ==> fields[j].name != name
    ensures LayersConverted(fields, m, hash, strict, init).value.layers[name] == init.layers[name]
    decreases |fields|
  {
    if fields != [] {
      var n := |fields| - 1;
      LayersConvertedLast(fields, m, hash, strict, init);
      assert forall j :: 0 <= j < n ==> fields[..n][j] == fields[j];
      LayerUnconverted(fields[..n], name, m, hash, strict, init);
    }
  }

  /** The layers of the source whose targets include `"text"`, in field order. */
  function TextSpanLayers(fields: seq<AnnotationField>): seq<AnnotationField> {
    Filter(fields, (f: AnnotationField) => TEXT_KEY in f.targets)
  }

  /** `deepcopy(doc.metadata)` plus `"text"`, then the offset mapping and `char_to_token` each where
      given; every other key keeps its value. */
  function ResultMetadata(metadata: PyDict<string, MetaValue>, text: string, offsets: Option<seq<(int, int)>>,
                          charToToken: Option<int -> Option<int>>): (r: PyDict<string, MetaValue>)
    ensures Get(r, TEXT_KEY) == Some(TextMeta(text))
    ensures offsets.Some? ==> Get(r, OFFSETS_KEY) == Some(OffsetsMeta(offsets.value))
    ensures offsets.None? ==> Get(r, OFFSETS_KEY) == Get(metadata, OFFSETS_KEY)
    ensures charToToken.Some? ==> Get(r, CHAR_TO_TOKEN_KEY) == Some(CharToTokenMeta(charToToken.value))
    ensures charToToken.None? ==> Get(r, CHAR_TO_TOKEN_KEY) == Get(metadata, CHAR_TO_TOKEN_KEY)
    ensures forall k :: k != TEXT_KEY && k != OFFSETS_KEY && k != CHAR_TO_TOKEN_KEY ==> Get(r, k) == Get(metadata, k)
  {
    var withText := Put(metadata, TEXT_KEY, TextMeta(text));
    var withOffsets := if offsets.Some? then Put(withText, OFFSETS_KEY, OffsetsMeta(offsets.value)) else withText;
    var result := if charToToken.Some? then Put(withOffsets, CHAR_TO_TOKEN_KEY, CharToTokenMeta(charToToken.value)) else withOffsets;
    assert TEXT_KEY != OFFSETS_KEY && TEXT_KEY != CHAR_TO_TOKEN_KEY && OFFSETS_KEY != CHAR_TO_TOKEN_KEY;
    forall k ensures k != TEXT_KEY ==> Get(withText, k) == Get(metadata, k) {
      if k != TEXT_KEY { PutOther(metadata, TEXT_KEY, TextMeta(text), k); }
    }
    forall k ensures k != OFFSETS_KEY ==> Get(withOffsets, k) == Get(withText, k) {
      if k != OFFSETS_KEY && offsets.Some? { PutOther(withText, OFFSETS_KEY, OffsetsMeta(offsets.value), k); }
    }
    forall k ensures k != CHAR_TO_TOKEN_KEY ==> Get(result, k) == Get(withOffsets, k) {
      if k != CHAR_TO_TOKEN_KEY && charToToken.Some? {
        PutOther(withOffsets, CHAR_TO_TOKEN_KEY, CharToTokenMeta(charToToken.value), k);
      }
    }
    result
  }

  /** The layers of `result_document_type(...)`, all empty. */
  function EmptyLayers(resultLayers: set<string>): map<string, seq<Annotation>> {
    map n | n in resultLayers :: []
  }

  /** The `char_to_token` the conversion uses once one of the two is given. */
  function Mapping(offsets: Option<seq<(int, int)>>, charToToken: Option<int -> Option<int>>): CharMapping
    requires offsets.Some? || charToToken.Some?
  {
    if charToToken.Some? then Given(charToToken.value) else Table(CharTable(offsets.value))
  }

  /** `text_based_document_to_token_based(doc, tokens, result_document_type, token_offset_mapping,
      char_to_token, strict_span_conversion)` up to `add_all_annotations_from_other`; the result
      type's annotation fields are `resultLayers`. */
  function TokenBased(doc: TextDocument, tokens: seq<string>, resultLayers: set<string>,
                      offsets: Option<seq<(int, int)>>, charToToken: Option<int -> Option<int>>, strict: bool,
                      hash: Annotation -> int): (r: Result<Converted>)
    ensures offsets.None? && charToToken.None? ==> r == Failure(ValueError(BOTH_NONE))
    ensures r.Success? ==> r.value.document.tokens == tokens && r.value.document.id == doc.id &&
                           r.value.document.metadata == ResultMetadata(doc.metadata, doc.text, offsets, charToToken) &&
                           r.value.document.layers.Keys == resultLayers
  {
    if charToToken.None? && offsets.None? then Failure(ValueError(BOTH_NONE))
    else
      var layers := TextSpanLayers(doc.fields);
      var init := Conversion(EmptyLayers(resultLayers), [], map[]);
      var c :- LayersConverted(layers, Mapping(offsets, charToToken), hash, strict, init);
      Success(Converted(TokenDocument(tokens, doc.id, ResultMetadata(doc.metadata, doc.text, offsets, charToToken), c.layers),
                        c.overrides, c.removed))
  }

  /** The conversion, as the source writes it: metadata, the `char_to_token` table, then the loop over
      the text-span layers. */
  method ToTokenBased(doc: TextDocument, tokens: seq<string>, resultLayers: set<string>,
                 offsets: Option<seq<(int, int)>>, charToToken: Option<int -> Option<int>>, strict: bool,
                 hash: Annotation -> int) returns (r: Result<Converted>)
    ensures r == TokenBased(doc, tokens, resultLayers, offsets, charToToken, strict, hash)
  {
    var metadata := doc.metadata;
    metadata := Put(metadata, TEXT_KEY, TextMeta(doc.text));
    if offsets.Some? {
      metadata := Put(metadata, OFFSETS_KEY, OffsetsMeta(offsets.value));
    }
    if charToToken.Some? {
      metadata := Put(metadata, CHAR_TO_TOKEN_KEY, CharToTokenMeta(charToToken.value));
    }
    assert metadata == ResultMetadata(doc.metadata, doc.text, offsets, charToToken);
    var mapping: CharMapping;
    if charToToken.None? {
      if offsets.None? {
        return Failure(ValueError(BOTH_NONE));
      }
      var table := CharToTokenTable(offsets.value);
      mapping := Table(table);
    } else {
      mapping := Given(charToToken.value);
    }
    var layers := TextSpanLayers(doc.fields);
    var result := TokenDocument(tokens, doc.id, metadata, EmptyLayers(resultLayers));
    ghost var init := Conversion(result.layers, [], map[]);
    var overrides: PyDict<string, PyDict<int, Annotation>> := [];
    var removed: map<string, set<int>> := map[];
    assert layers[..0] == [];
    for i := 0 to |layers|
      invariant result.tokens == tokens && result.id == doc.id && result.metadata == metadata
      invariant LayersConverted(layers[..i], mapping, hash, strict, init) == Success(Conversion(result.layers, overrides, removed))
    {
      LayersConvertedStep(layers, i, mapping, hash, strict, init, Conversion(result.layers, overrides, removed));
      var name := layers[i].name;
      var outcome := ConvertLayer(mapping, hash, strict, layers[i].annotations);
      if outcome.Failure? {
        LayersConvertedAbort(layers, i + 1, mapping, hash, strict, init, outcome.error);
        return Failure(outcome.error);
      }
      overrides := Put(overrides, name, outcome.value.overrides);
      removed := AddRemoved(removed, name, outcome.value.removed);
      if name !in result.layers {
        LayersConvertedAbort(layers, i + 1, mapping, hash, strict, init, KeyError(NoAttribute(name)));
        return Failure(KeyError(NoAttribute(name)));
      }
      result := result.(layers := result.layers[name := result.layers[name] + SortedSpans(Values(outcome.value.overrides))]);
    }
    assert layers[..|layers|] == layers;
    return Success(Converted(result, overrides, removed));
  }

  /** The result layer of text layer `k` is the sorted, deduplicated set of its converted spans. */
  lemma ConvertedLayer(doc: TextDocument, tokens: seq<string>, resultLayers: set<string>,
                       offsets: Option<seq<(int, int)>>, charToToken: Option<int -> Option<int>>, strict: bool,
                       hash: Annotation -> int, k: nat)
    requires TokenBased(doc, tokens, resultLayers, offsets, charToToken, strict, hash).Success?
    requires k < |TextSpanLayers(doc.fields)| && DistinctNames(TextSpanLayers(doc.fields))
    ensures var f := TextSpanLayers(doc.fields)[k];
            var result := TokenBased(doc, tokens, resultLayers, offsets, charToToken, strict, hash).value.document;
            var conversion := LayerConversion(Mapping(offsets, charToToken), hash, strict, f.annotations);
            conversion.Success? && f.name in result.layers &&
            result.layers[f.name] == SortedSpans(Values(conversion.value.overrides))
  {
    var layers := TextSpanLayers(doc.fields);
    var f := layers[k];
    var init := Conversion(EmptyLayers(resultLayers), [], map[]);
    LayerConvertedAt(layers, k, Mapping(offsets, charToToken), hash, strict, init);
    assert init.layers[f.name] == [];
  }

  /** With distinct ids and layer names, every text-span layer of a successful conversion holds in the
      result exactly the token spans of its aligned character spans, each once and in order of start. */
  lemma ConvertedSpans(doc: TextDocument, tokens: seq<string>, resultLayers: set<string>,
                       offsets: Option<seq<(int, int)>>, charToToken: Option<int -> Option<int>>, strict: bool,
                       hash: Annotation -> int, k: nat)
    requires TokenBased(doc, tokens, resultLayers, offsets, charToToken, strict, hash).Success?
    requires k < |TextSpanLayers(doc.fields)| && DistinctNames(TextSpanLayers(doc.fields))
    requires Injective(hash, TextSpanLayers(doc.fields)[k].annotations)
    ensures var f := TextSpanLayers(doc.fields)[k];
            var m := Mapping(offsets, charToToken);
            var result := TokenBased(doc, tokens, resultLayers, offsets, charToToken, strict, hash).value.document;
            f.name in result.layers &&
            NoDuplicates(result.layers[f.name]) &&
            (forall i, j :: 0 <= i < j < |result.layers[f.name]| ==>
               Start(result.layers[f.name][i]) <= Start(result.layers[f.name][j])) &&
            forall x :: x in result.layers[f.name] <==>
              exists i :: 0 <= i < |f.annotations| && Aligned(m, f.annotations[i]) && x == TokenSpan(m, f.annotations[i])
  {
    var f := TextSpanLayers(doc.fields)[k];
    var m := Mapping(offsets, charToToken);
    ConvertedLayer(doc, tokens, resultLayers, offsets, charToToken, strict, hash, k);
    var outcome := LayerConversion(m, hash, strict, f.annotations).value;
    SortedSpansFacts(Values(outcome.overrides));
    LayerSpans(m, hash, strict, f.annotations);
  }
}
