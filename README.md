# pytorch-ie document graph, serialisers and task modules in Dafny

This project models the core of pytorch-ie, a library for information extraction. A document is a
typed record with plain fields (a text, an id, metadata) and annotation layers. Each layer may
target the text or another layer, so the layers form a dependency graph. Annotations are spans,
labeled spans, binary relations and document-level labels.

The model covers three designs of that document:

- the current one (`src/pytorch_ie/core/document.py`): a class-based document whose
  `AnnotationList`s hold gold annotations and a parallel `predictions` list, with a recursive
  topological sort over an artificial root, `asdict`/`fromdict` with an id-keyed accumulator, and
  `as_type`;
- the earlier `pytorch_ie.data` document (`src/pytorch_ie/data/document.py`), which walks the
  reverse target map depth-first from the text;
- the prototype of the dataset tests (`tests/data/test_new_document_and_datasets.py`).

On top of the documents it models:

- `PreparableMixin`, the prepare-once state machine of every module;
- the task-module protocol (`TaskModule.encode` and `combine`);
- the list logic of three task modules: token classification with BIO tags, relation
  classification with argument markers spliced into the token ids, and text classification with
  single-label and one-hot targets;
- the conversion of a text-based document into a token-based one;
- the CoNLL-2003 fixture that turns tokens and tags into a text with entity offsets.

## Layout

One module per source file, plus shared helpers:

- `Wrappers`: `Option`, `Result` and the Python exceptions raised.
- `PyLists`, `PyDicts`: Python list, slice, index and insertion-ordered dict semantics.
- `Annotations`, `FieldValues`: annotation values and the values plain fields and serialised
  documents carry.
- `DependencyGraph`, `CoreModel`, `CoreDocument`, `CoreRoundTrip`: the current document.
  `CoreRoundTrip` proves `fromdict(asdict(d)) == d`.
- `Traversal`, `RecordLayers`, `DataDocument`, `Prototype`: the two earlier designs.
  `PrototypeRoundTrip` proves the prototype's `fromdict(asdict(d)) == d`.
- `ModuleMixins`, `TaskModule`, `TaskDocuments`, `TokenClassification`,
  `RelationClassification`, `TextClassification`: the modules.
- `DocumentConversion`, `Conll2003`: the two offset-mapping routines.

Where the source changes state in place, the model uses classes with `modifies` clauses: the
annotation lists and documents, the preparable module, and the three task modules' `prepare` and
encoding loops. Each loop method is proved equal to a value-level function. The properties are
stated about those functions, as lemmas.

External pieces are parameters:

- the tokenizer: input ids, word ids, offsets, special-tokens mask and the `char_to_token` table of
  one text;
- the token vocabulary of the relation module;
- Python's `hash`, used as an annotation's `_id`: a function `hash: Annotation -> int`. The round
  trips require it to be injective on the document's annotations;
- `bio_tags_to_spans` and `int_to_str`.

Behaviour of the source that the model keeps as written:

- A cyclic document type does not fail at construction in `src/pytorch_ie/core/document.py`. It
  fails only in `fromdict`, and only for a cycle reachable from the artificial root.
- `tests/test_document.py:58-60` expects a reversed graph without an artificial root, which
  `src/pytorch_ie/core/document.py:178-195` does not build. That assertion is not modelled.
- In `tests/fixtures/datasets/conll2003.py`, `zip(tokens, ner_tags)` stops at the shorter list. So
  there are as many offsets as tokens only when the two lists have one length.

## Model

| member | source | states |
|---|---|---|
| Annotations.Annotation.LabelList | pytorch_ie/taskmodules/transformer_text_classification.py:88 | a multi-label annotation gives its own label list, any other labelled annotation the one-element list of its label |
| Annotations.SpanText | tests/data/test_new_document_and_datasets.py:210-211 | `Span.text()` is exactly `target[start:end]` when the offsets lie inside the target, and never longer than the target |
| Annotations.Fields | tests/data/test_new_document_and_datasets.py:225-231 | the field record of a relation (and only of a relation) is a relation record whose head and tail are the hashes of the head and tail annotations |
| Annotations.AsDict | tests/data/test_new_document_and_datasets.py:195-199 | the serialised annotation carries `hash(annotation)` as its id and its fields without the target |
| Annotations.Resolve | tests/data/test_new_document_and_datasets.py:239-240 | looking an id up in the accumulator succeeds exactly when the id is a key, and is a KeyError naming the id otherwise |
| Annotations.FromDict | tests/data/test_new_document_and_datasets.py:202-242 | rebuilding a non-relation always succeeds; rebuilding a relation succeeds exactly when both its head id and its tail id are in the accumulator |
| Annotations.AnnotationRoundTrip | tests/data/test_new_document_and_datasets.py:195-242 | rebuilding the serialised fields of an annotation gives the annotation back, provided a relation's head and tail are stored under their hashes |
| CoreDocument.Stamped | src/pytorch_ie/core/document.py:100-107 | appending annotations with a target value stores each of them, in order, next to that target |
| CoreDocument.Released | src/pytorch_ie/core/document.py:112-114 | clearing resets the target of every held annotation, in order, to None |
| CoreDocument.BaseAnnotationList.constructor | src/pytorch_ie/core/document.py:75-78 | a new list remembers its document and target name and holds nothing |
| CoreDocument.BaseAnnotationList.Append | src/pytorch_ie/core/document.py:100-103 | `append` adds the annotation at the end with the document attribute the list targets (None without a target); when that attribute cannot be read the list is unchanged and the error is returned |
| CoreDocument.BaseAnnotationList.Extend | src/pytorch_ie/core/document.py:105-107 | `extend` appends every annotation in order; with an unreadable target the first append fails and nothing is added; an empty extend changes nothing |
| CoreDocument.BaseAnnotationList.Clear | src/pytorch_ie/core/document.py:112-115 | `clear` empties the list and releases every held annotation with its target reset to None |
| CoreDocument.BaseAnnotationList.GetItem | src/pytorch_ie/core/document.py:94-95 | indexing follows Python: it succeeds exactly for `-len <= index < len`, negative indices count from the end, and is an IndexError otherwise |
| CoreDocument.BaseAnnotationList.GetSlice | src/pytorch_ie/core/document.py:94-95 | `list[start:stop]` is exactly the entries from the clamped start to the clamped stop (negative bounds counting from the end), and empty when the clamped bounds cross |
| CoreDocument.AnnotationList.constructor | src/pytorch_ie/core/document.py:119-121 | an annotation list is an empty gold list with a fresh, empty predictions list on the same document and target |
| CoreDocument.ListOf | src/pytorch_ie/core/document.py:195 | `list(set)` holds every element of the set exactly once |
| CoreDocument.RegisteredLayers | src/pytorch_ie/core/document.py:172-179 | after the first i fields, the recorded annotation fields are exactly the layers among them |
| CoreDocument.RegisteredNext | src/pytorch_ie/core/document.py:172-179 | the next field is declared and not yet recorded |
| CoreDocument.RegisteredTargets | src/pytorch_ie/core/document.py:181-183 | after the first i fields, `targeted` is exactly the set of targets of the recorded layers |
| CoreDocument.RegisteredGraph | src/pytorch_ie/core/document.py:181-186 | after the first i fields, the graph has an entry exactly for each recorded layer with a target, and that entry is `[target]` |
| CoreDocument.AllRegistered | src/pytorch_ie/core/document.py:171-189 | after all fields the loop has recorded the layer set, the targeted names and the layer graph |
| CoreDocument.Document.Lists | src/pytorch_ie/core/document.py:118-125 | the gold (or prediction) entries are given for exactly the document's layers |
| CoreDocument.Document.Value | src/pytorch_ie/core/document.py:162 | the value read for a field conforms to the field's declared kind |
| CoreDocument.Document.constructor | src/pytorch_ie/core/document.py:140-145 | the dataclass `__init__` sets the plain fields and leaves the graph, the field set and the layers empty |
| CoreDocument.Document.NewLayer | src/pytorch_ie/core/document.py:188-189 | `setattr(self, name, AnnotationList(...))` adds exactly the new layer with fresh lists |
| CoreDocument.Document.RegisterField | src/pytorch_ie/core/document.py:176-189 | one step of the field loop: a layer field is recorded, its target added and its edge appended; any other field is left alone |
| CoreDocument.Document.RegisterLayers | src/pytorch_ie/core/document.py:171-189 | the field loop of `__post_init__` records exactly the declared layers, the targeted names and the layer graph, each layer with fresh lists |
| CoreDocument.Document.PostInit | src/pytorch_ie/core/document.py:170-195 | `__post_init__` fails exactly when a layer named `_artificial_root` has a target (so the graph already holds that node), with that ValueError; otherwise the root lists every layer no layer targets, once each |
| CoreDocument.Document.Create | src/pytorch_ie/core/document.py:170-195 | `cls(**kwargs)` succeeds exactly when the value-level construction does, with the same error, and gives a fresh valid document whose root list is the untargeted layers |
| CoreDocument.Document.GetItem | src/pytorch_ie/core/document.py:159-162 | `doc[key]` is the layer for an annotation field and `KeyError("Document has no attribute 'key'.")` for any other name |
| CoreDocument.Document.Iter | src/pytorch_ie/core/document.py:164-165 | `iter(doc)` ranges exactly over the annotation field names |
| CoreDocument.Document.Len | src/pytorch_ie/core/document.py:167-168 | `len(doc)` is the number of annotation fields, the length of `iter(doc)` |
| CoreDocument.Document.AppendTo | src/pytorch_ie/core/document.py:277-281 | appending to a layer's gold or prediction list changes only that list, with the layer's resolved target; the other side is unchanged |
| CoreDocument.Document.AppendAll | src/pytorch_ie/core/document.py:277-281 | the append loops of `fromdict` leave the lists as the value-level `AppendEntries` says |
| CoreDocument.Document.EmptyLists | src/pytorch_ie/core/document.py:188-189 | a freshly created document holds empty lists on both sides |
| CoreDocument.Document.OneChanged | src/pytorch_ie/core/document.py:278 | changing one list changes only that entry of that side |
| CoreDocument.Document.OtherSide | src/pytorch_ie/core/document.py:278-281 | changing the lists of one side leaves the other side as it was |
| CoreDocument.Document.Populate | src/pytorch_ie/core/document.py:277-283 | appending the rebuilt gold annotations, then the rebuilt predictions, gives the lists the value-level `AppendStores` says |
| CoreDocument.Document.FromDict | src/pytorch_ie/core/document.py:216-283 | `fromdict` fails with the constructor's error when construction fails (among them the TypeError for a dict that gives `_annotation_graph` or `_annotation_fields` a value other than None), with the circular-dependency ValueError when the root reaches a cycle, and otherwise gives the document `FromDictSpec` describes |
| CoreDocument.Document.AsType | src/pytorch_ie/core/document.py:285-288 | `as_type` renames the keys of `asdict()` by the mapping (others kept) and deserialises them under the new type: the same errors (the constructor's, or the circular-dependency ValueError when the new root reaches a cycle), root list and result as `fromdict` of the renamed dict |
| CoreDocument.AddEdge | src/pytorch_ie/core/document.py:184-186 | `graph.setdefault(node, []).append(target)`: the node's list gains the target at the end, or is created as `[target]` |
| CoreDocument.CollectKwargs | src/pytorch_ie/core/document.py:220-226 | the keyword loop over `dataclasses.fields(cls)`, the inherited `init=False` fields first and then the declared ones, collects exactly the non-None values of the fields that are not layers |
| CoreDocument.RebuildGold | src/pytorch_ie/core/document.py:257-264 | the loop over one layer's `annotations` stores each rebuilt annotation under its popped `_id`, resolving against the gold store only |
| CoreDocument.RebuildPredictions | src/pytorch_ie/core/document.py:266-273 | the loop over one layer's `predictions` stores each rebuilt prediction under its `_id`, resolving against gold and predictions together |
| CoreDocument.Accumulated | src/pytorch_ie/core/document.py:239-275 | the loop over the dependency-ordered names fills both stores as the value-level `Accumulate` says, skipping non-layers and empty values |
| CoreModel.BuildAs | src/pytorch_ie/core/document.py:60-68 | `annotation_class.fromdict` gives an annotation of the layer's class; a record of another class is the TypeError of unexpected keyword arguments |
| CoreModel.LayerGraph | src/pytorch_ie/core/document.py:181-186 | the dependency graph has an entry exactly for each layer with a target, and that entry is `[target]` |
| CoreModel.RootClashIsGraphNode | src/pytorch_ie/core/document.py:191-194 | the `_artificial_root` check fires exactly when the registered graph already holds that node |
| CoreModel.ResolveTarget | src/pytorch_ie/core/document.py:101 | the target `append` sets is None without a target, the layer when the target is a layer, the plain value when it is a plain field, and an AttributeError for any other name |
| CoreModel.InitPlain | src/pytorch_ie/core/document.py:140-145 | the dataclass `__init__` succeeds exactly when every keyword names a plain field and every field without a default is given (a TypeError otherwise), and then holds the given values |
| CoreModel.Construct | src/pytorch_ie/core/document.py:170-228 | `cls(**kwargs)` succeeds exactly when `__init__` does and no layer named `_artificial_root` has a target; that case is the ValueError |
| CoreModel.EmptyLayers | src/pytorch_ie/core/document.py:188-189 | a new document holds an empty list for every layer and for nothing else |
| CoreModel.Serialise | src/pytorch_ie/core/document.py:208-211 | `asdict` changes a plain value only when it is the empty dict, which becomes None |
| CoreModel.Records | src/pytorch_ie/core/document.py:205-206 | `[v.asdict() for v in layer]` serialises every entry, in order |
| CoreModel.AsDictOf | src/pytorch_ie/core/document.py:197-213 | `asdict` has one item per field, in declaration order |
| CoreModel.Kwargs | src/pytorch_ie/core/document.py:220-226 | `cls_kwargs` holds exactly the plain fields and the two `init=False` fields `_annotation_graph` and `_annotation_fields` (lines 140-144) that the dict gives a non-None value, with those values |
| CoreModel.FieldKwargs | src/pytorch_ie/core/document.py:220-226 | the keywords the loop collects for given inherited `init=False` fields: exactly the non-None values the dict holds for them and for the plain fields |
| CoreModel.InternalFieldRefused | src/pytorch_ie/core/document.py:220-228 | a dict that gives `_annotation_graph` or `_annotation_fields` a non-None value makes `cls(**cls_kwargs)` raise TypeError, on any class that does not declare that name |
| CoreModel.PutNamesIn | src/pytorch_ie/core/document.py:260-269 | storing an item under a layer name keeps every stored name a layer name |
| CoreModel.AppendEntries | src/pytorch_ie/core/document.py:277-281 | the append loops keep the set of layers |
| CoreModel.Accumulate | src/pytorch_ie/core/document.py:239-275 | the loop over the dependency-ordered names as a value, filling the gold and prediction stores. It has no contract of its own; CoreModel.AccumulateNames (every stored item names a layer) and CoreRoundTrip.AccumulateFrom (on `asdict`'s dict it completes both stores) state its meaning, and CoreDocument.Accumulated proves that the loop computes it |
| CoreModel.AddLayer | src/pytorch_ie/core/document.py:246-273 | one name of that loop: a name that is not a layer, or a falsy value, leaves both stores alone; otherwise the gold loop runs and then the prediction loop. It has no contract of its own; CoreRoundTrip.AddLayerOfValue and CoreRoundTrip.AddLayerIndexed state what it adds for `asdict`'s records |
| CoreModel.AccumulateNames | src/pytorch_ie/core/document.py:241-273 | every item in the gold and prediction stores names a layer |
| CoreModel.AddGold | src/pytorch_ie/core/document.py:257-264 | the gold loop of one layer as a value. It has no contract of its own; CoreModel.AddGoldNames (it stores only items of that layer), CoreRoundTrip.GoldStep and CoreRoundTrip.AddGoldIndexed (on `asdict`'s records it stores each annotation under its hash) state its meaning, and CoreDocument.RebuildGold proves that the loop computes it |
| CoreModel.AddGoldNames | src/pytorch_ie/core/document.py:257-264 | rebuilding one layer's annotations stores only items of that layer |
| CoreModel.AddPredictions | src/pytorch_ie/core/document.py:266-273 | the prediction loop of one layer as a value, resolving against gold and predictions together. It has no contract of its own; CoreModel.AddPredictionsNames, CoreRoundTrip.PredictionStep and CoreRoundTrip.AddPredictionsIndexed state its meaning, and CoreDocument.RebuildPredictions proves that the loop computes it |
| CoreModel.AddPredictionsNames | src/pytorch_ie/core/document.py:266-273 | rebuilding one layer's predictions stores only items of that layer |
| CoreModel.ValuesNames | src/pytorch_ie/core/document.py:277-280 | `annotations.values()` of such a store yields only layer names |
| CoreModel.AppendStores | src/pytorch_ie/core/document.py:277-283 | appending both stores keeps the plain values and the layer set of the new document |
| CoreModel.Assemble | src/pytorch_ie/core/document.py:118-131 | a document state pairs each layer's gold entries with its prediction entries |
| CoreModel.FromDictSpec | src/pytorch_ie/core/document.py:216-283 | `fromdict` gives a document of the type, and fails with the construction error when `cls(**cls_kwargs)` fails, the keywords including any non-None `_annotation_graph` or `_annotation_fields` |
| CoreRoundTrip.HoldsGrow | src/pytorch_ie/core/document.py:239-273 | an annotation held by the items so far is still held once more items are added |
| CoreRoundTrip.KeyedPrefix | src/pytorch_ie/core/document.py:259-260 | distinct ids of a list of items carry over to its prefix |
| CoreRoundTrip.InjectivePrefixes | src/pytorch_ie/core/document.py:259-272 | injective ids (equal ids, equal annotations) carry over to prefixes of both stores |
| CoreRoundTrip.IndexedStores | src/pytorch_ie/core/document.py:259-264 | the store built from items with distinct ids is well formed and holds each item under its id |
| CoreRoundTrip.IndexedValid | src/pytorch_ie/core/document.py:259-264 | the store built from items with distinct ids has distinct keys |
| CoreRoundTrip.ValuesIndexed | src/pytorch_ie/core/document.py:277-280 | `store.values()` of that store gives back the items in insertion order |
| CoreRoundTrip.MergeStores | src/pytorch_ie/core/document.py:272 | `{**annotations, **predictions}` holds every annotation of either store under its id |
| CoreRoundTrip.Rebuild | src/pytorch_ie/core/document.py:54-68 | `fromdict` of the record `asdict` made of an annotation of the layer's class gives the annotation back, once a relation's head and tail are stored |
| CoreRoundTrip.RefsGrow | src/pytorch_ie/core/document.py:263-272 | the references of the remaining entries stay held when the store grows |
| CoreRoundTrip.PutItem | src/pytorch_ie/core/document.py:260-269 | storing an item under a new id appends it to the store |
| CoreRoundTrip.TailOfClass | src/pytorch_ie/core/document.py:255 | the entries of a layer after the first are all of the layer's class |
| CoreRoundTrip.AddGoldUnfold | src/pytorch_ie/core/document.py:257-264 | one iteration of the gold loop stores the rebuilt annotation under its popped id |
| CoreRoundTrip.AddPredictionsUnfold | src/pytorch_ie/core/document.py:266-273 | one iteration of the prediction loop stores the rebuilt prediction under its popped id |
| CoreRoundTrip.GoldStep | src/pytorch_ie/core/document.py:257-264 | on `asdict`'s records, the first gold iteration stores the first annotation under its hash |
| CoreRoundTrip.GoldRebuilt | src/pytorch_ie/core/document.py:263 | the first gold record is rebuilt against the gold-only store of the items before it |
| CoreRoundTrip.AddGoldIndexed | src/pytorch_ie/core/document.py:257-264 | the gold loop of one layer rebuilds all its annotations and stores each under its hash |
| CoreRoundTrip.PredictionStep | src/pytorch_ie/core/document.py:266-273 | on `asdict`'s records, the first prediction iteration stores the first prediction under its hash |
| CoreRoundTrip.PredictionRebuilt | src/pytorch_ie/core/document.py:272 | the first prediction record is rebuilt against the gold store merged with the predictions so far |
| CoreRoundTrip.MergedReferences | src/pytorch_ie/core/document.py:272 | the merged store holds a relation's head and tail when the gold items or the earlier predictions hold them |
| CoreRoundTrip.TagStep | src/pytorch_ie/core/document.py:260-261 | tagging a layer's entries with its name proceeds one entry at a time |
| CoreRoundTrip.PredictionRefsGrow | src/pytorch_ie/core/document.py:272 | the references of the remaining predictions stay held as predictions are added |
| CoreRoundTrip.AddPredictionsIndexed | src/pytorch_ie/core/document.py:266-273 | the prediction loop of one layer rebuilds all its predictions against gold and earlier predictions, and stores each under its hash |
| CoreRoundTrip.ItemsPrefix | src/pytorch_ie/core/document.py:241 | the items of a prefix of the order are a prefix of the items of the whole order |
| CoreRoundTrip.ItemsOrigin | src/pytorch_ie/core/document.py:241-273 | each accumulated item is an annotation at some position of its own layer, and that layer is in the order |
| CoreRoundTrip.ItemsHold | src/pytorch_ie/core/document.py:241-273 | every annotation of a layer in the order is among the accumulated items |
| CoreRoundTrip.NoDuplicatesInit | src/pytorch_ie/core/document.py:17 | a list without duplicates splits into a duplicate-free front and a last element not in it |
| CoreRoundTrip.KeyedItems | src/pytorch_ie/core/document.py:259-260 | with distinct ids on one side and each layer once in the order, the accumulated items have distinct ids |
| CoreRoundTrip.SameId | src/pytorch_ie/core/document.py:54-58 | under injective ids, two annotations of a document with the same `_id` are equal |
| CoreRoundTrip.BothOrigin | src/pytorch_ie/core/document.py:241-273 | an item of either store is an annotation at some position of a layer on some side |
| CoreRoundTrip.InjectiveItems | src/pytorch_ie/core/document.py:272 | with injective ids, items of the two stores that share an id hold the same annotation |
| CoreRoundTrip.GetAsDict | src/pytorch_ie/core/document.py:197-213 | `asdict` stores each field's data under the field's name |
| CoreRoundTrip.ConstructRestores | src/pytorch_ie/core/document.py:220-228 | `cls(**cls_kwargs)` on the serialised plain fields gives back their values (an empty dict comes back through its default), for a class that declares no field named `_annotation_graph` or `_annotation_fields` |
| CoreRoundTrip.GoldReferencesHeld | src/pytorch_ie/core/document.py:262-263 | the relations among the gold annotations of a layer refer to gold annotations of earlier layers in the order |
| CoreRoundTrip.PredictionReferencesHeld | src/pytorch_ie/core/document.py:271-272 | the relations among a layer's predictions refer to gold annotations up to that layer or to earlier predictions |
| CoreRoundTrip.TargetHeld | src/pytorch_ie/core/document.py:271-272 | an annotation of a layer earlier in the order is held by the gold items up to the current layer or the earlier predictions |
| CoreRoundTrip.ItemsStep | src/pytorch_ie/core/document.py:241 | the items grow by one layer's block per name of the order |
| CoreRoundTrip.PrefixIds | src/pytorch_ie/core/document.py:259-272 | distinct and injective ids carry over from all items to the items of a prefix of the order |
| CoreRoundTrip.SideOfClass | src/pytorch_ie/core/document.py:255 | every annotation of a layer, on either side, is of the layer's annotation class |
| CoreRoundTrip.AddLayerOfValue | src/pytorch_ie/core/document.py:246-273 | for a layer, the loop body runs the gold loop and then the prediction loop on the records `asdict` produced |
| CoreRoundTrip.AddLayerIndexed | src/pytorch_ie/core/document.py:246-273 | one name of the order adds that layer's gold annotations and predictions to the two stores |
| CoreRoundTrip.AccumulateFrom | src/pytorch_ie/core/document.py:241-273 | the loop over the order, from any position on, completes both stores |
| CoreRoundTrip.NamedConcat | src/pytorch_ie/core/document.py:277-281 | the items appended to a layer from two lists are those of the first list, then those of the second |
| CoreRoundTrip.NamedTag | src/pytorch_ie/core/document.py:277-281 | the items of one layer give back that layer's entries with their target, and nothing to another layer |
| CoreRoundTrip.AppendEntriesNamed | src/pytorch_ie/core/document.py:277-281 | the append loop succeeds and adds to each layer exactly the items named after it, in order |
| CoreRoundTrip.NamedItems | src/pytorch_ie/core/document.py:277-281 | the items of a layer among the order give back exactly its entries |
| CoreRoundTrip.NamedBlock | src/pytorch_ie/core/document.py:277-281 | one layer's block gives its own entries to that layer and nothing to another |
| CoreRoundTrip.NamedTagOther | src/pytorch_ie/core/document.py:277-281 | the items of another layer add nothing to a layer |
| CoreRoundTrip.LayersRestored | src/pytorch_ie/core/document.py:277-281 | appending all items of one side to the empty layers restores every layer's entries on that side |
| CoreRoundTrip.AccumulateAsDict | src/pytorch_ie/core/document.py:239-275 | on `asdict`'s output, the accumulation loop stores every gold annotation and every prediction under its id, layer by layer in the order |
| CoreRoundTrip.AppendStoresRestores | src/pytorch_ie/core/document.py:277-281 | the final append loops over the two stores restore the layers of both sides |
| CoreRoundTrip.AssembleLayers | src/pytorch_ie/core/document.py:118-131 | pairing each layer's gold annotations with its predictions gives the document back |
| CoreRoundTrip.FromDictAsDict | tests/test_document.py:84-110 | `fromdict(asdict(d)) == d` for any order that lists every layer once after its target, under distinct and injective ids, for a class that declares no field named `_annotation_graph` or `_annotation_fields` |
| CoreRoundTrip.OrderedIsSorted | src/pytorch_ie/core/document.py:7-30 | the order `_enumerate_dependencies` computes from the root lists each layer once, after the layer it targets |
| CoreRoundTrip.WalkStaysOrdered | src/pytorch_ie/core/document.py:17-28 | a chain of targets that starts at a layer of the computed order stays inside the order |
| CoreRoundTrip.ChainOrdered | src/pytorch_ie/core/document.py:181-195 | on a type where no chain of targets repeats a layer, every chain of layers ends inside the computed order, since walking back along the layers that target its start reaches a root layer |
| CoreRoundTrip.OrderedReachesAll | src/pytorch_ie/core/document.py:231-237 | on such a type the order `fromdict` computes from the root list holds every layer |
| CoreRoundTrip.FromDictOrderRestores | tests/test_document.py:84-110 | for the order `fromdict` computes from the root list `__post_init__` stores, on a type where no chain of targets repeats a layer and no field is named `_annotation_graph` or `_annotation_fields`, `fromdict(asdict(d)) == d` |
| DependencyGraph.ReachableThrough | src/pytorch_ie/core/document.py:22-27 | a node the dependencies of a start node reach is reached from the start nodes |
| DependencyGraph.ReachableAppended | src/pytorch_ie/core/document.py:20-28 | appending a start node after reachable nodes keeps every added node reachable |
| DependencyGraph.AddedStep | src/pytorch_ie/core/document.py:18-28 | appending a node after the nodes its dependencies added keeps the added nodes distinct, after their dependencies, off the current path and reachable |
| DependencyGraph.EnumerateDependencies | src/pytorch_ie/core/document.py:7-30 | on success the result extends `resolved`, holds every requested node, adds no node twice, adds only nodes reachable from the requested ones and off the current path, and places every added node after all of its dependencies; revisiting a node of the current path is the circular-dependency ValueError |
| DependencyGraph.ExtendKeepsDeps | src/pytorch_ie/core/document.py:20-30 | appending to `resolved` keeps every earlier node's dependencies before it |
| DependencyGraph.FirstIndexBefore | src/pytorch_ie/core/document.py:17 | a node listed before a position first occurs before it |
| DependencyGraph.WalkDescends | src/pytorch_ie/core/document.py:17-30 | along a walk from the start nodes, every node is in a dependency-sorted list and sits strictly before the nodes the walk passed earlier |
| DependencyGraph.SortedHasNoCycle | src/pytorch_ie/core/document.py:13-16 | a dependency-sorted list holding the start nodes rules out every cycle reachable from them |
| DependencyGraph.Enumerate | src/pytorch_ie/core/document.py:7-30 | the top-level call succeeds exactly when no cycle is reachable from the start nodes (unreachable cycles raise nothing); then it lists exactly the nodes reachable from the start nodes, each after its dependencies, once each; otherwise it is the ValueError naming the revisited node |
| Traversal.ReverseTargets | src/pytorch_ie/data/document.py:47-52 | the edge loop builds a reverse target map: each target lists exactly the layers that name it |
| Traversal.Dfs | src/pytorch_ie/data/document.py:8-14 | `_depth_first_search` leaves list and visited set alone for a visited node; otherwise it appends the node first (preorder), only extends the list and marks the node visited |
| Traversal.FreshStep | src/pytorch_ie/data/document.py:9-14 | the nodes a call appends were not visited and are appended once each |
| Traversal.VisitedStep | src/pytorch_ie/data/document.py:9-14 | the visited set after a call is the old one plus exactly the appended nodes |
| Traversal.ParentsStep | src/pytorch_ie/data/document.py:12-14 | every appended node after the first was reached from a node appended before it |
| Traversal.ClosedStep | src/pytorch_ie/data/document.py:12-14 | every neighbour of an appended node is appended or was already visited |
| Traversal.WalkInside | src/pytorch_ie/data/document.py:12-14 | every node of a walk from the start stays inside a list closed under neighbours |
| Traversal.ParentChainReachable | src/pytorch_ie/data/document.py:12-14 | a listed node whose parent chain leads back to the start is reachable from it |
| Traversal.Search | src/pytorch_ie/data/document.py:88-93 | the search from an empty list lists the start first and then exactly the nodes reachable from it, each once, each after a node it was reached from |
| RecordLayers.NoAnnotations | src/pytorch_ie/data/document.py:44-45 | a new document holds an empty list for every layer and for nothing else |
| RecordLayers.AnnotationRecords | src/pytorch_ie/data/document.py:63 | `[v.asdict() for v in layer]` serialises every annotation, in order |
| RecordLayers.ItemsOf | src/pytorch_ie/data/document.py:120-121 | a layer receives at most one annotation per accumulated item |
| RecordLayers.Appended | src/pytorch_ie/data/document.py:120-121 | the final append loop keeps the layers and adds to each exactly the annotations of the items that name it, in order |
| RecordLayers.ItemsOfMembers | src/pytorch_ie/data/document.py:120-121 | the annotations a layer receives are exactly those of the items naming it |
| RecordLayers.ItemsOfUnnamed | src/pytorch_ie/data/document.py:120-121 | a layer no item names receives nothing |
| RecordLayers.EdgesReversed | src/pytorch_ie/data/document.py:34-52 | reversing the `(field.name, target)` edges of all layers gives the reverse target map of the class |
| RecordLayers.Serialised | src/pytorch_ie/data/document.py:54-67 | `asdict` holds every field but `_annotation_targets` in declaration order: a layer as its list of annotation dicts, any other field copied verbatim |
| RecordLayers.UntargetedUnreached | src/pytorch_ie/data/document.py:88-101 | a layer without a target is never reached from `"text"`, so it is never rebuilt |
| DataDocument.Document.constructor | src/pytorch_ie/data/document.py:29-31 | the dataclass `__init__` sets the plain fields and an empty `_annotation_targets` |
| DataDocument.Document.PostInit | src/pytorch_ie/data/document.py:33-52 | `__post_init__` gives every layer an empty list constructed with the layer's own name as target, and the reverse target map of the edges |
| DataDocument.Document.AppendAll | src/pytorch_ie/data/document.py:120-121 | the final loop appends each accumulated annotation to the layer it names |
| DataDocument.Document.AsDict | src/pytorch_ie/data/document.py:54-67 | `asdict` lists the declared fields in order and leaves `_annotation_targets` out |
| DataDocument.DataKwargs | src/pytorch_ie/data/document.py:74-80 | `cls_kwargs` holds exactly the non-None values of the fields that are not layers, `_annotation_targets` among them |
| DataDocument.AddStored | src/pytorch_ie/data/document.py:96-118 | one name of the loop: a name that is not a layer, or a None or empty value, leaves the store alone; otherwise each record is rebuilt and stored under its popped `"id"`. It has no contract of its own; DataDocument.AccumulateStoredNames and DataDocument.Accumulated state its meaning |
| DataDocument.AccumulateStored | src/pytorch_ie/data/document.py:95-118 | the loop over the names the search listed, as a value. It has no contract of its own; DataDocument.AccumulateStoredNames (every stored item names a visited layer) states it, and DataDocument.Accumulated proves that the loop computes it |
| DataDocument.AccumulateStoredNames | src/pytorch_ie/data/document.py:95-118 | every accumulated item names a visited layer |
| DataDocument.Rebuilt | src/pytorch_ie/data/document.py:82-123 | the rebuilt document fits its class |
| DataDocument.UnvisitedEmpty | src/pytorch_ie/data/document.py:88-101 | a layer the search from `"text"` did not list stays empty |
| DataDocument.Accumulated | src/pytorch_ie/data/document.py:95-118 | the loop over the listed names stores each entry under its popped `"id"`, skipping non-layers and empty or None values |
| DataDocument.FromDict | src/pytorch_ie/data/document.py:69-123 | `fromdict` fails with the constructor's error when `cls(**cls_kwargs)` fails; otherwise the search runs over the new document's reverse target map and the result is the value-level `Rebuilt` document |
| Prototype.Minimal | tests/data/test_new_document_and_datasets.py:104-107 | the minimal prototype class, with only `text` and `id`, is well formed and has no layers |
| Prototype.ListTarget | tests/data/test_new_document_and_datasets.py:268 | `getattr(document, target)` is a TypeError for a None target, otherwise the layer or plain value of that name, and never "no target" on success |
| Prototype.Held | tests/data/test_new_document_and_datasets.py:258-259 | the annotations of a list are its entries without their targets |
| Prototype.HeldLayers | tests/data/test_new_document_and_datasets.py:258-259 | the compared content of every layer is its annotations without targets |
| Prototype.AnnotationList.constructor | tests/data/test_new_document_and_datasets.py:252-255 | a new list remembers its document and target and holds nothing |
| Prototype.AnnotationList.Append | tests/data/test_new_document_and_datasets.py:267-269 | `append` adds the annotation at the end with `getattr(document, target)` as its target; when that fails the list is unchanged and the error is returned |
| Prototype.AnnotationList.Clear | tests/data/test_new_document_and_datasets.py:274-277 | `clear` empties the list and releases every held annotation with its target reset to None |
| Prototype.AnnotationList.GetItem | tests/data/test_new_document_and_datasets.py:261-262 | indexing succeeds exactly for `-len <= idx < len` and gives the annotation at that position, and is an IndexError otherwise |
| Prototype.AnnotationList.Len | tests/data/test_new_document_and_datasets.py:264-265 | `len` is the number of held annotations |
| Prototype.AnnotationList.EqualsPositionwise | tests/data/test_new_document_and_datasets.py:258-259 | two lists are equal exactly when their target names agree and they hold equal annotations position by position, whatever targets those carry |
| Prototype.Document.Lists | tests/data/test_new_document_and_datasets.py:118 | the entries are given for exactly the document's layers |
| Prototype.Document.Value | tests/data/test_new_document_and_datasets.py:104-107 | the compared value of a document fits its class |
| Prototype.Document.EqualsByValue | tests/data/test_new_document_and_datasets.py:104-107 | two documents are equal exactly when their class and compared values agree |
| Prototype.Document.constructor | tests/data/test_new_document_and_datasets.py:104-107 | the dataclass `__init__` sets `text` and `id` and nothing else |
| Prototype.Document.NewLayer | tests/data/test_new_document_and_datasets.py:118 | `setattr(self, name, AnnotationList(self, target))` adds exactly the new, empty layer |
| Prototype.Document.PostInit | tests/data/test_new_document_and_datasets.py:109-125 | `__post_init__` gives every field but `text` and `id` an empty list and builds the reverse target map of the edges |
| Prototype.Document.MakeLayers | tests/data/test_new_document_and_datasets.py:110-118 | the field loop records exactly one `(name, target)` edge per layer and gives each layer an empty list |
| Prototype.Document.EmptyLists | tests/data/test_new_document_and_datasets.py:118 | lists that hold nothing are the empty layers |
| Prototype.Document.OneChanged | tests/data/test_new_document_and_datasets.py:176 | changing one layer's list changes only that layer |
| Prototype.Document.AppendTo | tests/data/test_new_document_and_datasets.py:176 | one append of `fromdict` adds the annotation to its layer with that layer's target, or changes nothing and fails |
| Prototype.Document.AppendAll | tests/data/test_new_document_and_datasets.py:175-176 | the final loop of `fromdict` leaves the lists the value-level `AppendedEntries` describes |
| Prototype.Document.AsDict | tests/data/test_new_document_and_datasets.py:127-140 | `asdict` lists the fields in declaration order |
| Prototype.AppendedEntries | tests/data/test_new_document_and_datasets.py:175-176 | appending in item order keeps the layers and gives each exactly the annotations of the items that name it |
| Prototype.HeldAppend | tests/data/test_new_document_and_datasets.py:269 | appending an entry to a layer appends its annotation to that layer's compared content |
| Prototype.ProtoPlain | tests/data/test_new_document_and_datasets.py:144 | `cls(text=dct["text"], id=dct.get("id"))` is a KeyError without `"text"` and otherwise takes `id` as None when absent |
| Prototype.AddProto | tests/data/test_new_document_and_datasets.py:153-173 | one name of the loop: a name that is not an annotation field, or a falsy value, leaves the accumulator alone; a value that is not a list is `Exception("Error")`; otherwise each record is rebuilt and stored under its popped `"id"`. It has no contract of its own; PrototypeRoundTrip.AddLayer and PrototypeRoundTrip.AddFilledLayer state what it adds |
| Prototype.AccumulateProto | tests/data/test_new_document_and_datasets.py:152-173 | the loop over the names the search listed, as a value. It has no contract of its own; Prototype.AccumulateProtoNames, Prototype.ProtoRebuiltHeld and PrototypeRoundTrip.AccumulateFrom state its meaning, and Prototype.Accumulated proves that the loop computes it |
| Prototype.AccumulateProtoNames | tests/data/test_new_document_and_datasets.py:152-173 | every accumulated item names a visited layer |
| Prototype.ProtoRebuilt | tests/data/test_new_document_and_datasets.py:142-178 | `fromdict` is a KeyError without `"text"`; otherwise the result has `text`, `id` and exactly the class's layers |
| Prototype.ProtoRebuiltHeld | tests/data/test_new_document_and_datasets.py:175-176 | the layers `fromdict` fills hold, in accumulator order, the rebuilt annotations, each in the layer it names |
| Prototype.ProtoRebuiltSteps | tests/data/test_new_document_and_datasets.py:152-178 | with the text present and the accumulation done, `fromdict` is the append loop on empty layers |
| Prototype.ProtoPlainSet | tests/data/test_new_document_and_datasets.py:104-112 | the plain fields of a prototype class are `text` and `id` |
| Prototype.Accumulated | tests/data/test_new_document_and_datasets.py:152-173 | the loop over the listed names stores each entry under its popped `"id"`, relations resolved against the annotations so far |
| Prototype.Populate | tests/data/test_new_document_and_datasets.py:148-178 | the loops after construction succeed exactly when the value-level `ProtoRebuilt` does, with the same error, and leave its lists |
| Prototype.FromDict | tests/data/test_new_document_and_datasets.py:142-178 | `MyDocument.fromdict` is a KeyError without `"text"`; otherwise the search runs over the reverse target map and the result matches `ProtoRebuilt` |
| PrototypeRoundTrip.VisitsTargetsFirst | tests/data/test_new_document_and_datasets.py:95-101 | in the order the depth-first search from `text` over the reverse target map builds, every layer's target is a declared field and, when that target is a layer, it comes earlier in the order |
| PrototypeRoundTrip.ItemsOrigin | tests/data/test_new_document_and_datasets.py:168-171 | every item the layers of an order contribute names a layer of that order and carries the annotation at some position of that layer |
| PrototypeRoundTrip.ItemsHold | tests/data/test_new_document_and_datasets.py:239-240 | every annotation of a layer among the names is carried by one of their items, so an id looked up in the accumulator finds it |
| PrototypeRoundTrip.KeyedItems | tests/data/test_new_document_and_datasets.py:170-171 | when no two annotation positions of the document share an id, no two items of the order share one, so no entry of the id-keyed accumulator is overwritten |
| PrototypeRoundTrip.KeyedBlockAdded | tests/data/test_new_document_and_datasets.py:170-171 | the annotations of a layer not yet seen keep the ids of the accumulated items distinct |
| PrototypeRoundTrip.ItemsPrefix | tests/data/test_new_document_and_datasets.py:153 | the items of a prefix of the order are a prefix of the items of the whole order |
| PrototypeRoundTrip.WrappedRecords | tests/data/test_new_document_and_datasets.py:137 | the records `asdict` gives a layer are its annotations' records, whatever targets the entries hold |
| PrototypeRoundTrip.RefsBefore | tests/data/test_new_document_and_datasets.py:236-240 | the head and tail of each relation of the layer at a position of the order are annotations of layers earlier in the order |
| PrototypeRoundTrip.AddLayer | tests/data/test_new_document_and_datasets.py:153-173 | one step of the accumulation loop: a layer with annotations adds each of them under its id, with relation arguments resolved; a plain field or an empty layer leaves the accumulator unchanged |
| PrototypeRoundTrip.AddFilledLayer | tests/data/test_new_document_and_datasets.py:159-171 | a layer with annotations adds each record, rebuilt into its annotation, under its id after the entries already there |
| PrototypeRoundTrip.AccumulateFrom | tests/data/test_new_document_and_datasets.py:152-173 | the accumulation loop from any position of the order on completes the accumulator to all items of the order |
| PrototypeRoundTrip.Accumulated | tests/data/test_new_document_and_datasets.py:152-173 | the accumulation loop over the whole search order succeeds and holds every annotation of every layer under its id, layer by layer in order |
| PrototypeRoundTrip.PlainRestored | tests/data/test_new_document_and_datasets.py:144 | `cls(text=dct["text"], id=dct.get("id"))` on the serialised document gives back its text and id |
| PrototypeRoundTrip.ItemsResolvable | tests/data/test_new_document_and_datasets.py:268 | `getattr(doc, target)` succeeds for the target of every item's layer on the rebuilt document |
| PrototypeRoundTrip.AppendedSucceeds | tests/data/test_new_document_and_datasets.py:175-176 | the append loop succeeds when `getattr` finds the target of every item's layer |
| PrototypeRoundTrip.AppendedFromEmpty | tests/data/test_new_document_and_datasets.py:175-176 | from lists without entries, the append loop succeeds and its lists hold exactly the appended annotations, each in its layer |
| PrototypeRoundTrip.ItemsOfItems | tests/data/test_new_document_and_datasets.py:175-176 | the items of the order that name one layer carry exactly that layer's annotations, in order, when the layer is in the order once, and nothing when it is not in the order |
| PrototypeRoundTrip.AppendedRestores | tests/data/test_new_document_and_datasets.py:175-176 | appending the items of an order that holds every layer once, to empty layers, gives the document's layers |
| PrototypeRoundTrip.LayersRestored | tests/data/test_new_document_and_datasets.py:175-176 | the append loop of `fromdict` on the accumulated items succeeds and gives every layer of the document its annotations back |
| PrototypeRoundTrip.Rebuilt | tests/data/test_new_document_and_datasets.py:142-178 | with the targets first in the order, `fromdict` on the serialised document succeeds with the document's text, id and layers |
| PrototypeRoundTrip.FromDictAsDict | tests/data/test_new_document_and_datasets.py:291-315 | `MyDocument.fromdict(doc.asdict()) == doc` and `fromdict(doc.asdict()).asdict() == doc.asdict()` for every prototype document of a declared class whose relations refer into their target layer, whose annotation positions have distinct ids, and whose layers the search from the text all reaches |
| ModuleMixins.Unset | src/pytorch_ie/core/module_mixins.py:75-77 | the attributes not prepared are exactly the listed ones that are None, and there are none of them exactly when the module is prepared |
| ModuleMixins.Settings | src/pytorch_ie/core/module_mixins.py:59 | the dict comprehension maps exactly the listed attributes, each to its value |
| ModuleMixins.PreparedAttributes | src/pytorch_ie/core/module_mixins.py:55-59 | `prepared_attributes` raises "The module is not prepared." exactly when the module is not prepared, and otherwise maps each listed attribute to its value |
| ModuleMixins.AssertIsPrepared | src/pytorch_ie/core/module_mixins.py:73-80 | `_assert_is_prepared` passes exactly when the module is prepared, and otherwise raises the message naming every attribute still None |
| ModuleMixins.NothingListed | src/pytorch_ie/core/module_mixins.py:45-53 | with an empty `PREPARED_ATTRIBUTES` the module is always prepared |
| ModuleMixins.PrepareWhenPrepared | src/pytorch_ie/core/module_mixins.py:86-98 | `prepare` on a prepared module leaves every attribute alone and skips `_prepare`, warns exactly when some attribute is listed, and runs `_post_prepare` |
| ModuleMixins.PrepareWhenUnprepared | src/pytorch_ie/core/module_mixins.py:93-98 | `prepare` on an unprepared module runs `_prepare` and then fails naming the attributes still None, or runs `_post_prepare` |
| ModuleMixins.PrepareOnce | src/pytorch_ie/core/module_mixins.py:86-98 | after a successful `prepare`, a second one changes no attribute whatever its `_prepare` would set |
| ModuleMixins.PostPrepareChecks | src/pytorch_ie/core/module_mixins.py:82-84 | `post_prepare` fails on an unprepared module without running `_post_prepare`, and runs it otherwise |
| ModuleMixins.Preparable.constructor | src/pytorch_ie/core/module_mixins.py:41-43 | a new module has the given attributes and has run neither hook nor warned |
| ModuleMixins.Preparable.PostPrepare | src/pytorch_ie/core/module_mixins.py:82-84 | the object's new state and outcome are those `PostPrepareStep` gives for the old state |
| ModuleMixins.Preparable.Prepare | src/pytorch_ie/core/module_mixins.py:86-99 | the object's new state and outcome are those `PrepareStep` gives for the old state |
| TaskModule.NewEncoding | pytorch_ie/taskmodules/taskmodule.py:18-29 | a `TaskEncoding` keeps input, document and target, and its metadata is `{}` when None is given |
| TaskModule.AsList | pytorch_ie/taskmodules/taskmodule.py:43-44 | a single document is encoded as a list of one, a list as it is |
| TaskModule.Encode | pytorch_ie/taskmodules/taskmodule.py:38-73 | `encode(documents, encode_target)` as a value. It has no contract of its own; TaskModule.EncodeZips states when it succeeds, its TypeError and AssertionError, and what element i carries, and TaskModule.EncodeTargetOnlyOnRequest that targets are built only on request |
| TaskModule.EncodeZips | pytorch_ie/taskmodules/taskmodule.py:40-73 | `encode` succeeds exactly when inputs, metadata, documents (and targets, when present) have one length, with the AssertionError otherwise; element i carries the i-th input, metadata, document and target; `new_documents` replaces the documents |
| TaskModule.EncodeTargetOnlyOnRequest | pytorch_ie/taskmodules/taskmodule.py:51-53 | without `encode_target=True` the module's `encode_target` is never consulted and no encoding has a target |
| TaskModule.Picked | pytorch_ie/taskmodules/taskmodule.py:106-111 | a layer receives at most one annotation per yielded pair |
| TaskModule.AddAnnotationsGet | pytorch_ie/taskmodules/taskmodule.py:106-111 | appending the yielded annotations extends each layer by exactly those yielded for it, in yield order; a layer exists exactly when it existed or something was yielded for it |
| TaskModule.AddAnnotationsValid | pytorch_ie/taskmodules/taskmodule.py:109-111 | the per-document dict keeps distinct layer names |
| TaskModule.Combined | pytorch_ie/taskmodules/taskmodule.py:97-112 | the dict `combine` builds, as a value. It has no contract of its own; TaskModule.CombinedKeys (its keys are exactly the batch's documents), TaskModule.CombinedValid (no key twice) and TaskModule.CombinedLayer (each layer holds what was collected for it) state its meaning, and TaskModule.Combine proves that the loop computes it |
| TaskModule.Collected | pytorch_ie/taskmodules/taskmodule.py:102-111 | the annotations one document gathers for one layer across the batch, in encoding order and then yield order. It has no contract of its own; TaskModule.CombinedLayer states that `combine` stores exactly this list, and TaskModule.CollectedAbsent that it is empty for a document no encoding belongs to |
| TaskModule.CombinedKeys | pytorch_ie/taskmodules/taskmodule.py:102-105 | `combine` creates an entry for every encoded document, even one with no annotations, and for nothing else |
| TaskModule.DocsOf | pytorch_ie/taskmodules/taskmodule.py:103 | the batch's documents, in encoding order |
| TaskModule.CombinedValid | pytorch_ie/taskmodules/taskmodule.py:102-105 | no document occurs twice among the keys of the result |
| TaskModule.CombinedLayer | pytorch_ie/taskmodules/taskmodule.py:102-112 | each document's layer holds the annotations collected for it in encoding order and then yield order, and exists exactly when that is not empty |
| TaskModule.CollectedAbsent | pytorch_ie/taskmodules/taskmodule.py:103-105 | nothing is collected for a document no encoding belongs to |
| TaskModule.Batch | pytorch_ie/taskmodules/taskmodule.py:103 | `zip(encodings, decoded_outputs)` is as long as the shorter list |
| TaskModule.Combine | pytorch_ie/taskmodules/taskmodule.py:97-112 | the loop of `combine` returns the value-level `Combined` of the zipped batch |
| TaskDocuments.SpanAnnotations | pytorch_ie/taskmodules/transformer_token_classification.py:86 | `document.span_annotations(name)` is the span layer of that name when there is one, and None otherwise |
| TaskDocuments.RelationAnnotations | pytorch_ie/taskmodules/transformer_re_text_classification.py:116 | `document.annotations(name)` on a relation layer is that layer when there is one, and None otherwise |
| TaskDocuments.LabelAnnotations | pytorch_ie/taskmodules/transformer_text_classification.py:84 | `document.label_annotations(name)` is the label layer of that name when there is one, and None otherwise |
| TaskDocuments.CharToToken | pytorch_ie/taskmodules/transformer_token_classification.py:179-180 | `encoding.char_to_token(c)` is the token of a covered character and None otherwise |
| TokenClassification.EntityLabels | pytorch_ie/taskmodules/transformer_token_classification.py:84-92 | the label set fails the assertion exactly when some document lacks the entity layer, and otherwise is exactly the labels of all documents' entities |
| TokenClassification.BioTags | pytorch_ie/taskmodules/transformer_token_classification.py:96-98 | two tags per label |
| TokenClassification.BioItems | pytorch_ie/taskmodules/transformer_token_classification.py:95-99 | the counter loop assigns ids to exactly the `B-`/`I-` tags of the labels |
| TokenClassification.TagParts | pytorch_ie/taskmodules/transformer_token_classification.py:98 | `f"{prefix}-{label}"` starts with the prefix and ends with the label |
| TokenClassification.BioItemAt | pytorch_ie/taskmodules/transformer_token_classification.py:95-99 | item 2i+p is the p-th prefix's tag of label i with id 2i+p+1 |
| TokenClassification.BioItemsValid | pytorch_ie/taskmodules/transformer_token_classification.py:95-99 | with distinct labels the tags are distinct and none of them is `O` |
| TokenClassification.BioItemsAt | pytorch_ie/taskmodules/transformer_token_classification.py:95-99 | label i's `B-` tag gets id 2i+1 and its `I-` tag 2i+2 |
| TokenClassification.Vocabulary | pytorch_ie/taskmodules/transformer_token_classification.py:94-99 | the `label_to_id` that `prepare` builds, as a value. It has no contract of its own; TokenClassification.VocabularyIds, TokenClassification.FreshVocabulary and TokenClassification.FreshVocabularyInverse state the ids it gives |
| TokenClassification.VocabularyIds | pytorch_ie/taskmodules/transformer_token_classification.py:94-99 | `prepare` gives `O` id 0 and, for the i-th label in sorted order, `B-` id 2i+1 and `I-` id 2i+2; every other key of a given `label_to_id` keeps its id |
| TokenClassification.FreshVocabulary | pytorch_ie/taskmodules/transformer_token_classification.py:94-99 | without a given `label_to_id` the vocabulary is `O` then the tags, numbered 0, 1, 2, ... |
| TokenClassification.FreshVocabularyInverse | pytorch_ie/taskmodules/transformer_token_classification.py:94-101 | then the ids are exactly 0..2n and `id_to_label` is the inverse of `label_to_id` |
| TokenClassification.Partitions | pytorch_ie/taskmodules/transformer_token_classification.py:114-121 | with a partition layer the partitions are that layer, which must be present and non-empty (the assertion otherwise); without one a single `FULL_DOCUMENT` span over the whole text |
| TokenClassification.EncodedInputs | pytorch_ie/taskmodules/transformer_token_classification.py:110-143 | the document loop of `encode_input` as a value. It has no contract of its own; TokenClassification.EncodedInputsLayout states its failure and layout, and TokenClassification.TokenClassifier.EncodeInput proves that the loop computes it |
| TokenClassification.EncodedInputsLayout | pytorch_ie/taskmodules/transformer_token_classification.py:110-143 | `encode_input` fails exactly when some document lacks its partitions; otherwise document i contributes one encoding per partition, in order, each with the document and, on the partition path, the partition index |
| TokenClassification.LayoutStep | pytorch_ie/taskmodules/transformer_token_classification.py:113-141 | the encodings of one more document follow those of the documents before it |
| TokenClassification.SlotKept | pytorch_ie/taskmodules/transformer_token_classification.py:139-141 | appending encodings keeps those already laid out |
| TokenClassification.OffsetPrefix | pytorch_ie/taskmodules/transformer_token_classification.py:113 | the position of a document's first encoding depends only on the documents before it |
| TokenClassification.OffsetPrefixAt | pytorch_ie/taskmodules/transformer_token_classification.py:113 | the same, at one document |
| TokenClassification.OffsetBelow | pytorch_ie/taskmodules/transformer_token_classification.py:113-141 | a document's encodings come before those of the next one |
| TokenClassification.InitialLabels | pytorch_ie/taskmodules/transformer_token_classification.py:166-199 | the initial labels have the length of `word_ids`: the pad id where the word id is None and the id of `O` elsewhere; a KeyError when `O` is needed and missing |
| TokenClassification.LastCover | pytorch_ie/taskmodules/transformer_token_classification.py:172-190 | the range found covers the position and is one of the ranges |
| TokenClassification.Marked | pytorch_ie/taskmodules/transformer_token_classification.py:188-190 | writing the tags of one token range, as a value. It has no contract of its own; TokenClassification.MarkedAt states what it writes and when it fails, and TokenClassification.TokenClassifier.MarkRange proves that the loop computes it |
| TokenClassification.MarkedAt | pytorch_ie/taskmodules/transformer_token_classification.py:188-190 | writing one range succeeds exactly when its tags are known and it fits the target; it writes `B-` at the first token, `I-` through the last, inclusive, and keeps every other position |
| TokenClassification.MarkedAllAt | pytorch_ie/taskmodules/transformer_token_classification.py:172-190 | the entity loop succeeds exactly when every range can be written; each position then holds the tag of the last range covering it, or its initial id |
| TokenClassification.PartitionRange | pytorch_ie/taskmodules/transformer_token_classification.py:173-186 | on the partition path an entity outside the partition, or whose first or last character maps to no token, is skipped; otherwise its offsets are taken relative to the partition start |
| TokenClassification.PlainRange | pytorch_ie/taskmodules/transformer_token_classification.py:207-209 | on the plain path an unaligned entity is not skipped: `None + 1` or `range(None, ...)` is a TypeError |
| TokenClassification.MarkedEntities | pytorch_ie/taskmodules/transformer_token_classification.py:172-190 | the entity loop of `encode_target` as a value. It has no contract of its own; TokenClassification.MarkedEntitiesRanges and TokenClassification.MarkedEntitiesAbort state its meaning, and TokenClassification.TokenClassifier.MarkEntities proves that the loop computes it |
| TokenClassification.MarkedEntitiesRanges | pytorch_ie/taskmodules/transformer_token_classification.py:172-190 | when the entity loop succeeds it is the loop over the ranges of the entities it does not skip |
| TokenClassification.MarkedEntitiesAbort | pytorch_ie/taskmodules/transformer_token_classification.py:172-190 | a failure on a prefix of the entities is the failure of the whole loop |
| TokenClassification.NonEmptySpans | pytorch_ie/taskmodules/transformer_token_classification.py:154-204 | `assert entities` fails on a missing layer and on an empty one, with the message naming the layer |
| TokenClassification.DocumentTarget | pytorch_ie/taskmodules/transformer_token_classification.py:153-213 | on the partition path the entity layer is checked first; on the plain path a missing encoding is an IndexError before that check; a built target has its encoding and a non-empty entity layer |
| TokenClassification.DocumentTargetAt | pytorch_ie/taskmodules/transformer_token_classification.py:165-213 | a built target has the length of `word_ids` and holds at each token the tag of the last entity range covering it, else the pad id for a special token and the id of `O` for a word token |
| TokenClassification.DocumentTargets | pytorch_ie/taskmodules/transformer_token_classification.py:153-194 | one outcome per document, position by position |
| TokenClassification.EncodedTargets | pytorch_ie/taskmodules/transformer_token_classification.py:151-215 | `encode_target` succeeds exactly when every document's target does, and gives one target per document, in order |
| TokenClassification.MaskedTags | pytorch_ie/taskmodules/transformer_token_classification.py:240-261 | the masked tag sequence is as long as the shorter of tags and mask |
| TokenClassification.MaskedTagsIgnoreSpecial | pytorch_ie/taskmodules/transformer_token_classification.py:240-261 | tags predicted at special tokens make no difference: they become `O` |
| TokenClassification.DecodedSpan | pytorch_ie/taskmodules/transformer_token_classification.py:246-272 | a span of token indices becomes `LabeledSpan(base + offsets[start][0], base + offsets[end][1], label)`, an IndexError when an index is outside the offsets |
| TokenClassification.CreatedAnnotations | pytorch_ie/taskmodules/transformer_token_classification.py:231-238 | on the partition path a missing or empty partition layer is the assertion, and a missing `sentence_index` a KeyError |
| TokenClassification.CreatedAnnotationsSpans | pytorch_ie/taskmodules/transformer_token_classification.py:226-272 | the yielded annotations are one labeled span per span of the masked tags, in order, into the entity layer, from the start of the first token to the end of the last, shifted by the partition start |
| TokenClassification.Padded | pytorch_ie/taskmodules/transformer_token_classification.py:296-305 | a padded target is as long as the batch (or its own length when longer); right padding keeps it as the prefix, left padding as the suffix, pad ids elsewhere |
| TokenClassification.CollatedTargets | pytorch_ie/taskmodules/transformer_token_classification.py:287-305 | `(input, None)` when the first encoding has no target; otherwise every target padded in order, and a later encoding without a target is a TypeError; `has_target` is read as "the target is not None" |
| TokenClassification.NumberTags | pytorch_ie/taskmodules/transformer_token_classification.py:95-99 | the counter loop of `prepare` merges the numbered tags into the vocabulary |
| TokenClassification.TokenClassifier.constructor | pytorch_ie/taskmodules/transformer_token_classification.py:47-76 | the deprecated `single_sentence` flag makes the sentence layer the partition layer; a missing `label_to_id` starts empty and `id_to_label` is its inverse |
| TokenClassification.TokenClassifier.CollectLabels | pytorch_ie/taskmodules/transformer_token_classification.py:84-92 | the first loop of `prepare` computes the value-level label set |
| TokenClassification.TokenClassifier.EncodeInput | pytorch_ie/taskmodules/transformer_token_classification.py:103-143 | `encode_input` returns the three lists the value-level `EncodedInputs` describes, or its assertion |
| TokenClassification.TokenClassifier.MarkRange | pytorch_ie/taskmodules/transformer_token_classification.py:188-211 | the innermost loop writes one range as the value-level `Marked` says |
| TokenClassification.TokenClassifier.MarkEntities | pytorch_ie/taskmodules/transformer_token_classification.py:172-211 | the entity loop resolves each entity's range, or skips it, and writes it as `MarkedEntities` says |
| TokenClassification.TokenClassifier.TargetOf | pytorch_ie/taskmodules/transformer_token_classification.py:153-213 | one iteration of the document loop gives the value-level `DocumentTarget` |
| TokenClassification.TokenClassifier.EncodeTarget | pytorch_ie/taskmodules/transformer_token_classification.py:145-215 | `encode_target` gives the value-level `EncodedTargets` |
| TokenClassification.TokenClassifier.Prepare | pytorch_ie/taskmodules/transformer_token_classification.py:83-101 | `prepare` fails before changing anything when a document lacks the entity layer; otherwise `label_to_id` becomes the vocabulary of the sorted labels and `id_to_label` its inverse |
| TextClassification.LayerLabelsMembers | pytorch_ie/taskmodules/transformer_text_classification.py:86-90 | a label is among a layer's labels exactly when one of its annotations carries it |
| TextClassification.PreparedLabels | pytorch_ie/taskmodules/transformer_text_classification.py:82-92 | the label set of `prepare`, without duplicates; iterating a missing label layer (None) is a TypeError, exactly when some document lacks it |
| TextClassification.PreparedLabelsMembers | pytorch_ie/taskmodules/transformer_text_classification.py:82-92 | the labels `prepare` collects are exactly those some annotation of some document carries |
| TextClassification.Vocabulary | pytorch_ie/taskmodules/transformer_text_classification.py:94-98 | the `label_to_id` that `prepare` builds, as a value. It has no contract of its own; TextClassification.VocabularyIds and TextClassification.FreshVocabulary state the ids it gives |
| TextClassification.VocabularyIds | pytorch_ie/taskmodules/transformer_text_classification.py:94-98 | `prepare` gives the i-th label id i+1 and `O` id 0 (unless `O` is itself a label, when it is renumbered like them); every other key keeps its id |
| TextClassification.FreshVocabulary | pytorch_ie/taskmodules/transformer_text_classification.py:94-100 | without a given `label_to_id` and with no label `O`, the ids are exactly 0..n, one per label, and `id_to_label` is the inverse |
| TextClassification.EncodedInput | pytorch_ie/taskmodules/transformer_text_classification.py:102-130 | `encode_input` gives one encoding per document with its popped offsets and special-tokens mask as metadata, and returns the documents unchanged |
| TextClassification.EncodeOnePerDocument | pytorch_ie/taskmodules/transformer_text_classification.py:102-130 | `encode` with this module gives exactly one task encoding per document, in order, each with its document's tokens |
| TextClassification.OneHot | pytorch_ie/taskmodules/transformer_text_classification.py:141-147 | the multi-label target loop as a value. It has no contract of its own; TextClassification.OneHotAt and TextClassification.OneHotAbort state its meaning |
| TextClassification.OneHotAt | pytorch_ie/taskmodules/transformer_text_classification.py:141-147 | the multi-label target succeeds exactly when every label has an id indexing a vector of length `len(label_to_id)`; it is then 1 exactly at those ids and 0 elsewhere |
| TextClassification.LayerLabelsConcat | pytorch_ie/taskmodules/transformer_text_classification.py:143-145 | the labels of two runs of annotations follow each other |
| TextClassification.OneHotAbort | pytorch_ie/taskmodules/transformer_text_classification.py:145-147 | a failure on a prefix of the labels is the failure of the whole loop |
| TextClassification.LayerPrefix | pytorch_ie/taskmodules/transformer_text_classification.py:143-145 | the labels of the first j annotations are a prefix of all the labels |
| TextClassification.DocumentTarget | pytorch_ie/taskmodules/transformer_text_classification.py:140-155 | a missing layer is a TypeError; in single-label mode the target is `[label_to_id[label]]` after asserting exactly one annotation that is not multi-label; in multi-label mode it is the 0/1 vector of the document's labels |
| TextClassification.DocumentTargets | pytorch_ie/taskmodules/transformer_text_classification.py:140 | one outcome per document, position by position |
| TextClassification.EncodedTargets | pytorch_ie/taskmodules/transformer_text_classification.py:139-157 | `encode_target` succeeds exactly when every document's target does, and gives one target per document, in order |
| TextClassification.KnownLabelsIndexable | pytorch_ie/taskmodules/transformer_text_classification.py:94-147 | on a fresh vocabulary the multi-label target of numbered labels succeeds |
| TextClassification.PreparedMultiLabelTargets | pytorch_ie/taskmodules/transformer_text_classification.py:81-147 | the targets of the documents a fresh multi-label module was prepared on cannot fail |
| TextClassification.Unbatched | pytorch_ie/taskmodules/transformer_text_classification.py:159-195 | `unbatch_output` raises NotImplementedError in multi-label mode; otherwise it is ONE output holding every batch row's label and probability |
| TextClassification.CreatedAnnotations | pytorch_ie/taskmodules/transformer_text_classification.py:197-209 | over an output of `unbatch_output` (one label string and one float per row): in multi-label mode one `Label` per row of the zipped lists; in single-label mode nothing for an empty output, and otherwise the first row raises: IndexError for an empty label, else the TypeError of subscripting a float |
| TextClassification.IntendedAnnotations | pytorch_ie/taskmodules/transformer_text_classification.py:202-209 | one `Label` per row of the zipped lists, in the configured layer, holding that row's label and probability |
| TextClassification.SingleLabelCreationFails | pytorch_ie/taskmodules/transformer_text_classification.py:186-209 | for every non-empty batch `unbatch_output` decodes, creating the annotations as written fails, while the intended decoding has one label per batch row |
| TextClassification.UnbatchedAnnotations | pytorch_ie/taskmodules/transformer_text_classification.py:186-209 | the intended decoding of `unbatch_output`'s result gives, per batch row, a `Label` in the layer whose label is `id_to_label` of the row's id and whose score is the row's probability |
| TextClassification.SetLabels | pytorch_ie/taskmodules/transformer_text_classification.py:145-147 | the inner loop sets the entry of each label in turn |
| TextClassification.MultiLabelIds | pytorch_ie/taskmodules/transformer_text_classification.py:142-147 | the multi-label loop over a document's annotations gives the value-level `OneHot` of its labels |
| TextClassification.TextClassifier.constructor | pytorch_ie/taskmodules/transformer_text_classification.py:41-74 | a missing `label_to_id` starts empty and `id_to_label` is its inverse |
| TextClassification.TextClassifier.CollectLabels | pytorch_ie/taskmodules/transformer_text_classification.py:82-92 | the first loop of `prepare` computes the value-level `PreparedLabels` |
| TextClassification.TextClassifier.TargetOf | pytorch_ie/taskmodules/transformer_text_classification.py:141-155 | the body of the document loop gives the value-level `DocumentTarget` |
| TextClassification.TextClassifier.EncodeTarget | pytorch_ie/taskmodules/transformer_text_classification.py:132-157 | `encode_target` gives the value-level `EncodedTargets` |
| TextClassification.TextClassifier.Prepare | pytorch_ie/taskmodules/transformer_text_classification.py:81-100 | `prepare` fails with the TypeError before changing anything when a layer is missing; otherwise `label_to_id` becomes the vocabulary of the collected labels and `id_to_label` its inverse |
| RelationClassification.MarkersDiffer | pytorch_ie/taskmodules/transformer_re_text_classification.py:91-96 | different (argument, boundary, type) keys give different marker strings |
| RelationClassification.BoundaryItems | pytorch_ie/taskmodules/transformer_re_text_classification.py:89-97 | the markers of one (argument, boundary) are one per entity type, or a single untyped one, each holding its key's marker |
| RelationClassification.ItemsConcat | pytorch_ie/taskmodules/transformer_re_text_classification.py:82-97 | joining two runs of marker assignments keeps the keys of both and their markers |
| RelationClassification.MarkerItems | pytorch_ie/taskmodules/transformer_re_text_classification.py:83-97 | the assignments come in loop order (head start, head end, tail start, tail end), each holding its key's marker |
| RelationClassification.ArgumentMarkers | pytorch_ie/taskmodules/transformer_re_text_classification.py:89-90 | `_create_argument_markers` fails (iterating None) exactly when markers carry types and there are no entity labels |
| RelationClassification.MergeMarkers | pytorch_ie/taskmodules/transformer_re_text_classification.py:82-97 | assigning those items gives a dict of exactly their keys, each holding its marker |
| RelationClassification.ArgumentMarkersKeys | pytorch_ie/taskmodules/transformer_re_text_classification.py:81-103 | with types the keys are (arg, pos, t) for every entity type t, holding `[H:t]`, `[/H:t]`, `[T:t]`, `[/T:t]`; without, (arg, pos) holding `[H]`, `[/H]`, `[T]`, `[/T]`; no other key |
| RelationClassification.UntypedMarkers | pytorch_ie/taskmodules/transformer_re_text_classification.py:95-97 | without types the markers are exactly `[H]`, `[/H]`, `[T]` and `[/T]` |
| RelationClassification.MarkerId | pytorch_ie/taskmodules/transformer_re_text_classification.py:204-229 | a boundary's marker id is `argument_markers_to_id[argument_markers[key]]`, the key typed by the argument's label exactly when markers carry types |
| RelationClassification.Spliced | pytorch_ie/taskmodules/transformer_re_text_classification.py:244-257 | `new_input_ids`, built from Python slices, as a value. It has no contract of its own; the `Spliced…` lemmas, among them RelationClassification.SplicedParts and RelationClassification.SplicedOffsets, state its pieces and where the markers land |
| RelationClassification.Inserted | pytorch_ie/taskmodules/transformer_re_text_classification.py:234-257 | the splice with the argument that starts first wrapped first, as a value. It has no contract of its own; RelationClassification.InsertedOffsets, RelationClassification.InsertedHoldsMarkers and RelationClassification.InsertedLayout state its meaning |
| RelationClassification.SplicedParts | pytorch_ie/taskmodules/transformer_re_text_classification.py:244-257 | where the spans do not overlap, Python's slices in the splice are plain slices |
| RelationClassification.SplicedPieces | pytorch_ie/taskmodules/transformer_re_text_classification.py:247-257 | the new ids are prefix + start marker + first span + end marker + middle + start marker + second span + end marker + suffix |
| RelationClassification.SplicedMarkers | pytorch_ie/taskmodules/transformer_re_text_classification.py:247-257 | the four markers sit at first.start, first.end + 1, second.start + 2 and second.end + 3 |
| RelationClassification.SplicedBefore | pytorch_ie/taskmodules/transformer_re_text_classification.py:248 | before the first span the ids are unchanged |
| RelationClassification.SplicedInFirst | pytorch_ie/taskmodules/transformer_re_text_classification.py:250 | inside the first span the ids move by one |
| RelationClassification.SplicedBetween | pytorch_ie/taskmodules/transformer_re_text_classification.py:252 | between the spans the ids move by two |
| RelationClassification.SplicedInSecond | pytorch_ie/taskmodules/transformer_re_text_classification.py:254 | inside the second span the ids move by three |
| RelationClassification.SplicedAfter | pytorch_ie/taskmodules/transformer_re_text_classification.py:256 | after the second span the ids move by four |
| RelationClassification.SliceMembers | pytorch_ie/taskmodules/transformer_re_text_classification.py:244-245 | the elements of a slice are elements of the list |
| RelationClassification.PrefixSplit | pytorch_ie/taskmodules/transformer_re_text_classification.py:247-256 | a prefix is an earlier prefix followed by the slice between |
| RelationClassification.UnmarkedSlice | pytorch_ie/taskmodules/transformer_re_text_classification.py:247-257 | deleting the markers from ids that hold none changes nothing |
| RelationClassification.UnmarkStep | pytorch_ie/taskmodules/transformer_re_text_classification.py:247-257 | deleting the markers across one marker and the slice after it extends the restored prefix |
| RelationClassification.SplicedUnmarked | pytorch_ie/taskmodules/transformer_re_text_classification.py:247-257 | deleting the four markers from the new ids gives back the old ids, when those hold no marker |
| RelationClassification.SplicedPlainAt | pytorch_ie/taskmodules/transformer_re_text_classification.py:247-257 | away from the four marker positions the new ids hold no marker |
| RelationClassification.FirstIndexIs | pytorch_ie/taskmodules/transformer_re_text_classification.py:262-265 | `list.index` finds the first position holding the element |
| RelationClassification.SplicedFirstIndex | pytorch_ie/taskmodules/transformer_re_text_classification.py:262-265 | with four distinct markers the old ids do not hold, each marker is first found at its own position |
| RelationClassification.SplicedOffsets | pytorch_ie/taskmodules/transformer_re_text_classification.py:262-268 | then the markers are first found at the positions the splice put them |
| RelationClassification.InsertedOffsets | pytorch_ie/taskmodules/transformer_re_text_classification.py:234-268 | the head and tail offsets in the new ids are (start, end + 1) for the argument wrapped first and (start + 2, end + 3) for the other |
| RelationClassification.PreparedLabels | pytorch_ie/taskmodules/transformer_re_text_classification.py:112-133 | the label sets the loop of `prepare` collects, without duplicates (a collected `no_relation` is kept here; its removal is part of the vocabulary, RelationClassification.RelationVocabularyIds); entity labels only with typed markers; iterating a missing layer is a TypeError |
| RelationClassification.PreparedRelationLabels | pytorch_ie/taskmodules/transformer_re_text_classification.py:127-136 | a relation label other than `no_relation` is collected exactly when some relation of some document carries it |
| RelationClassification.PreparedEntityLabels | pytorch_ie/taskmodules/transformer_re_text_classification.py:118-125 | with typed markers an entity label is collected exactly when some entity of some document carries it |
| RelationClassification.RelationVocabulary | pytorch_ie/taskmodules/transformer_re_text_classification.py:135-142 | the `label_to_id` that `prepare` builds, as a value. It has no contract of its own; RelationClassification.RelationVocabularyIds and RelationClassification.FreshRelationVocabulary state the ids it gives |
| RelationClassification.RelationVocabularyIds | pytorch_ie/taskmodules/transformer_re_text_classification.py:135-142 | `prepare` drops a collected `no_relation`, gives `no_relation` id 0 and every other collected label a distinct id in 1..n, the i-th one i+1; every other key keeps its id |
| RelationClassification.FreshRelationVocabulary | pytorch_ie/taskmodules/transformer_re_text_classification.py:138-144 | without a given `label_to_id` the ids are exactly 0..n, one per label, and `id_to_label` is the inverse |
| RelationClassification.TokenRange | pytorch_ie/taskmodules/transformer_re_text_classification.py:181-202 | an argument aligns exactly when both its first and its last character map to tokens, and its range is those two tokens |
| RelationClassification.InsertedHoldsMarkers | pytorch_ie/taskmodules/transformer_re_text_classification.py:247-257 | the four markers are elements of the new ids |
| RelationClassification.PairSpans | pytorch_ie/taskmodules/transformer_re_text_classification.py:204-232 | both arguments' markers are looked up (a KeyError when one is unknown) and their token ranges are `[start, end + 1)` |
| RelationClassification.MarkedPair | pytorch_ie/taskmodules/transformer_re_text_classification.py:231-272 | a marked pair fails exactly when a marker lookup does; it belongs to the document and its metadata holds exactly one head and one tail |
| RelationClassification.UnmarkedSwap | pytorch_ie/taskmodules/transformer_re_text_classification.py:234-237 | which argument is wrapped first does not matter to holding no marker |
| RelationClassification.InsertedLayout | pytorch_ie/taskmodules/transformer_re_text_classification.py:247-257 | where the spans do not overlap and the ids hold no marker, the new ids are four longer and deleting the markers gives back the old ids |
| RelationClassification.MarkedPairIds | pytorch_ie/taskmodules/transformer_re_text_classification.py:242-270 | the ids of a marked pair are the text's ids with the four markers inserted |
| RelationClassification.MarkedPairLayout | pytorch_ie/taskmodules/transformer_re_text_classification.py:242-257 | the same for a marked pair: four more ids, and the old ones back once the markers are deleted |
| RelationClassification.MarkedPairOffsets | pytorch_ie/taskmodules/transformer_re_text_classification.py:234-268 | with distinct markers, the offsets are where the markers sit; the head is wrapped first exactly when it starts strictly before the tail |
| RelationClassification.Candidate | pytorch_ie/taskmodules/transformer_re_text_classification.py:188-272 | a pair is encoded (or a marker lookup fails) exactly when head differs from tail, the document has no relations or one joins them, and the tail aligns; an encoded pair holds one head and one tail |
| RelationClassification.DocumentPairs | pytorch_ie/taskmodules/transformer_re_text_classification.py:157-180 | a document without the entity or the relation layer is a TypeError |
| RelationClassification.CandidateSelected | pytorch_ie/taskmodules/transformer_re_text_classification.py:188-202 | a tail step encodes a pair exactly when the pair is selected |
| RelationClassification.TailStepsSound | pytorch_ie/taskmodules/transformer_re_text_classification.py:188-272 | every pair the tail loop of an aligned head encodes is a selected pair with that head |
| RelationClassification.TailStepsComplete | pytorch_ie/taskmodules/transformer_re_text_classification.py:188-272 | every selected pair with an aligned head is encoded by that head's tail loop |
| RelationClassification.DocumentPairsSound | pytorch_ie/taskmodules/transformer_re_text_classification.py:156-272 | every pair a document's loops encode is a selected pair of two of its entities |
| RelationClassification.DocumentPairsComplete | pytorch_ie/taskmodules/transformer_re_text_classification.py:156-272 | every selected pair of two of a document's entities is encoded by its loops |
| RelationClassification.Unzipped | pytorch_ie/taskmodules/transformer_re_text_classification.py:270-272 | the three returned lists have one length, with the i-th pair's ids, metadata and document at i |
| RelationClassification.EncodedInput | pytorch_ie/taskmodules/transformer_re_text_classification.py:149-281 | `encode_input` gives the encoded pairs of all documents in order, as three parallel lists |
| RelationClassification.EncodedPairSound | pytorch_ie/taskmodules/transformer_re_text_classification.py:156-272 | each pair the document loop encodes belongs to one of the documents and is a selected pair of two different entities of it |
| RelationClassification.EncodedInputSound | pytorch_ie/taskmodules/transformer_re_text_classification.py:149-281 | each encoding belongs to one of the documents and holds a selected pair of two different entities of it; inputs, metadata and documents have one length |
| RelationClassification.EncodedInputComplete | pytorch_ie/taskmodules/transformer_re_text_classification.py:149-281 | every selected pair of two entities of a document is encoded: some encoding carries that document with that head and tail |
| RelationClassification.HeadTailPairs | pytorch_ie/taskmodules/transformer_re_text_classification.py:170 | `existing_head_tail` holds a pair exactly when some relation joins it |
| RelationClassification.TailLoop | pytorch_ie/taskmodules/transformer_re_text_classification.py:188-279 | the tail loop for one aligned head gives the value-level `TailSteps` |
| RelationClassification.HeadLoop | pytorch_ie/taskmodules/transformer_re_text_classification.py:180-279 | the head loop skips heads that do not align and gives the value-level `HeadSteps` |
| RelationClassification.UnzippedConcat | pytorch_ie/taskmodules/transformer_re_text_classification.py:270-272 | splitting concatenated pairs splits the three lists alike |
| RelationClassification.InsertMarkers | pytorch_ie/taskmodules/transformer_re_text_classification.py:149-281 | `_single_pair_insert_marker` returns the value-level `EncodedInput` |
| RelationClassification.HeadTailItems | pytorch_ie/taskmodules/transformer_re_text_classification.py:368-370 | the dict comprehension's items are the relations' (head, tail) pairs with their labels, in order |
| RelationClassification.UnrelatedPairLabel | pytorch_ie/taskmodules/transformer_re_text_classification.py:373 | a pair no relation joins is labelled `no_relation` |
| RelationClassification.RelatedPairLabel | pytorch_ie/taskmodules/transformer_re_text_classification.py:368-373 | a pair relations join gets the label of the last of them |
| RelationClassification.PairLabelKnown | pytorch_ie/taskmodules/transformer_re_text_classification.py:127-142 | after `prepare` collected a document's gold labels, each of its pairs has a label `label_to_id` knows |
| RelationClassification.ZippedLabelIds | pytorch_ie/taskmodules/transformer_re_text_classification.py:372-378 | the zip loop keeps the previous `label_ids` when there is no pair, raises NotImplementedError at the first pair in multi-label mode, and otherwise leaves `[label_to_id[label]]` of the last pair |
| RelationClassification.ZippedLabelIdsKnown | pytorch_ie/taskmodules/transformer_re_text_classification.py:372-378 | in single-label mode the zip loop succeeds exactly when every pair's label is known, and otherwise raises a KeyError |
| RelationClassification.DocumentLabelIds | pytorch_ie/taskmodules/transformer_re_text_classification.py:366-370 | a document without the relation layer is a TypeError |
| RelationClassification.MetadataAt | pytorch_ie/taskmodules/transformer_re_text_classification.py:364 | `metadata[i]` on None is a TypeError, otherwise Python indexing |
| RelationClassification.TargetsUpTo | pytorch_ie/taskmodules/transformer_re_text_classification.py:362-380 | after n documents there are n targets, the last being the current `label_ids` |
| RelationClassification.TargetStep | pytorch_ie/taskmodules/transformer_re_text_classification.py:363-380 | one turn of the loop appends the value `label_ids` holds afterwards |
| RelationClassification.EncodedTargets | pytorch_ie/taskmodules/transformer_re_text_classification.py:355-382 | `encode_target` gives one target per document |
| RelationClassification.ZippedAbortStep | pytorch_ie/taskmodules/transformer_re_text_classification.py:372-378 | a zip loop that has raised stays raised after one more pair |
| RelationClassification.ZippedAbort | pytorch_ie/taskmodules/transformer_re_text_classification.py:372-378 | once the zip loop has raised it stays raised |
| RelationClassification.ZipLoop | pytorch_ie/taskmodules/transformer_re_text_classification.py:372-378 | the zip loop of one document gives the value-level `ZippedLabelIds` over all its pairs |
| RelationClassification.TargetsAbortStep | pytorch_ie/taskmodules/transformer_re_text_classification.py:363-380 | a target loop that has raised stays raised after one more document |
| RelationClassification.TargetsAbort | pytorch_ie/taskmodules/transformer_re_text_classification.py:363-380 | once the target loop has raised it stays raised |
| RelationClassification.PairlessTarget | pytorch_ie/taskmodules/transformer_re_text_classification.py:372-380 | a document whose metadata holds no pair repeats the previous target, since `label_ids` keeps its value; as the first document it is an UnboundLocalError |
| RelationClassification.SinglePairStep | pytorch_ie/taskmodules/transformer_re_text_classification.py:372-380 | the target of a single-pair encoding with a known gold label is that label's id |
| RelationClassification.SinglePairTargets | pytorch_ie/taskmodules/transformer_re_text_classification.py:362-382 | single-pair encodings with known gold labels get one `[label_id]` each |
| RelationClassification.OneLabelPerEncoding | pytorch_ie/taskmodules/transformer_re_text_classification.py:362-382 | in single-label mode, when each encoding holds one pair with a known gold label, `encode_target` gives each the one-element list of that label's id |
| RelationClassification.MultiLabelTargets | pytorch_ie/taskmodules/transformer_re_text_classification.py:375-376 | multi-label `encode_target` always fails, with NotImplementedError when the first document has a pair |
| RelationClassification.EncodedGoldLabelKnown | pytorch_ie/taskmodules/transformer_re_text_classification.py:111-144 | after `prepare`, the gold label of a pair `encode_input` encoded has an id |
| RelationClassification.PreparedEncodedTargets | pytorch_ie/taskmodules/transformer_re_text_classification.py:111-382 | `prepare`, `encode_input` and single-label `encode_target` on the same documents: one target per encoding, the id of the pair's gold label (the last relation's label, or `no_relation`) |
| RelationClassification.OutputLength | pytorch_ie/taskmodules/transformer_re_text_classification.py:418 | `zip(heads, tails, labels, probabilities)` is as long as the shortest list |
| RelationClassification.PredictedItems | pytorch_ie/taskmodules/transformer_re_text_classification.py:418-428 | each zipped item, in order, with the relation it predicts |
| RelationClassification.CreatedRelations | pytorch_ie/taskmodules/transformer_re_text_classification.py:414-415 | `create_annotations_from_output` fails exactly in multi-label mode, with NotImplementedError |
| RelationClassification.CreatedRelationsMembers | pytorch_ie/taskmodules/transformer_re_text_classification.py:418-428 | in single-label mode a `BinaryRelation` is yielded into the relation layer exactly for the zipped items whose label is not `no_relation` |
| RelationClassification.Unbatched | pytorch_ie/taskmodules/transformer_re_text_classification.py:384-401 | `unbatch_output` raises NotImplementedError in multi-label mode; otherwise it fails exactly when a row's arg-max id has no label, and else is ONE output whose labels are `id_to_label` of every row's id and whose probabilities are the rows' probabilities |
| RelationClassification.UnbatchedRelations | pytorch_ie/taskmodules/transformer_re_text_classification.py:384-427 | decoding the output of `unbatch_output` yields, for every zipped pair whose row's label is not `no_relation`, a `BinaryRelation` of the pair's head and tail with `id_to_label` of the row's id as its label and the row's probability as its score |
| RelationClassification.TargetsStep | pytorch_ie/taskmodules/transformer_re_text_classification.py:363 | the target loop after document i is one more turn of it |
| RelationClassification.DocumentTarget | pytorch_ie/taskmodules/transformer_re_text_classification.py:364-380 | the loop body looks up the metadata, builds `head_tail_to_label`, runs the zip loop and appends `label_ids`, as `TargetStep` says |
| RelationClassification.AddUnseen | pytorch_ie/taskmodules/transformer_re_text_classification.py:123-133 | the inner loop adds each label not yet seen, as `Seen` says |
| RelationClassification.RelationClassifier.Create | pytorch_ie/taskmodules/transformer_re_text_classification.py:30-100 | building the module with typed markers and no entity labels is the TypeError of iterating `None`; any other settings build a module holding them, `label_to_id` (empty when none is given), its inverse and the argument markers |
| RelationClassification.RelationClassifier.constructor | pytorch_ie/taskmodules/transformer_re_text_classification.py:30-79 | `__init__` keeps the settings, starts `label_to_id` empty when none is given with `id_to_label` its inverse, and creates the argument markers |
| RelationClassification.RelationClassifier.CollectLabels | pytorch_ie/taskmodules/transformer_re_text_classification.py:112-133 | the label-collecting loop of `prepare` gives the value-level `PreparedLabels` |
| RelationClassification.RelationClassifier.Prepare | pytorch_ie/taskmodules/transformer_re_text_classification.py:111-147 | `prepare` fails with the TypeError before changing anything when a layer is missing; otherwise `label_to_id` is the relation vocabulary, `id_to_label` its inverse, and the markers are created again from the entity labels |
| RelationClassification.RelationClassifier.EncodeInput | pytorch_ie/taskmodules/transformer_re_text_classification.py:283-286 | `encode_input` is `_single_pair_insert_marker` with the module's markers |
| RelationClassification.RelationClassifier.EncodeTarget | pytorch_ie/taskmodules/transformer_re_text_classification.py:355-382 | `encode_target` gives the value-level `EncodedTargets` |
| DocumentConversion.AssignFacts | src/pytorch_ie/data/document_conversion.py:43-44 | after `char_to_token_dict[c] = token_idx` for every c in `range(start, end)`, exactly those characters map to the token and every other keeps its entry |
| DocumentConversion.CharTable | src/pytorch_ie/data/document_conversion.py:41-44 | the character-to-token table the nested loops fill, as a value. It has no contract of its own; DocumentConversion.CharTableCovers states which characters it maps and to which token |
| DocumentConversion.CharTableCovers | src/pytorch_ie/data/document_conversion.py:41-44 | a character is in the built table exactly when some token's offsets cover it, and then it maps to the last such token |
| DocumentConversion.CharToTokenTable | src/pytorch_ie/data/document_conversion.py:41-44 | the nested loops over `enumerate(token_offset_mapping)` and `range(start, end)` build that table |
| DocumentConversion.Apply | src/pytorch_ie/data/document_conversion.py:46-62 | the built `char_to_token` is `dict.get`: a token exactly for the characters in the table |
| DocumentConversion.TokenSpan | src/pytorch_ie/data/document_conversion.py:75 | the copied span starts at the start character's token and ends one after the last character's token |
| DocumentConversion.LayerConversion | src/pytorch_ie/data/document_conversion.py:60-76 | a layer fails only with the missing `start` or, in strict mode, the ValueError for an unaligned span; in strict mode nothing is removed |
| DocumentConversion.SpanStep | src/pytorch_ie/data/document_conversion.py:61-76 | one span of the layer loop, as a value. It has no contract of its own; DocumentConversion.SpanStepOutcome states when it converts the span and when it records the id as removed |
| DocumentConversion.LayerConversionStep | src/pytorch_ie/data/document_conversion.py:60-76 | one more span is one more step of the loop |
| DocumentConversion.LayerConversionAbortStep | src/pytorch_ie/data/document_conversion.py:60-76 | a layer that has failed stays failed after one more span |
| DocumentConversion.LayerConversionAbort | src/pytorch_ie/data/document_conversion.py:63-68 | once a span fails, the layer fails with its error |
| DocumentConversion.SpanStepOutcome | src/pytorch_ie/data/document_conversion.py:61-76 | one span converts exactly when it has offsets and, in strict mode, aligns; its id is recorded as removed exactly when it does not align |
| DocumentConversion.LayerConversionSucceeds | src/pytorch_ie/data/document_conversion.py:60-76 | a layer converts exactly when every annotation is a span and, in strict mode, every span aligns |
| DocumentConversion.LayerRemoved | src/pytorch_ie/data/document_conversion.py:73 | `removed_annotations[name]` holds exactly the ids of the spans that do not align |
| DocumentConversion.LayerRemovedSound | src/pytorch_ie/data/document_conversion.py:73 | every removed id is the id of an unaligned span |
| DocumentConversion.LayerRemovedComplete | src/pytorch_ie/data/document_conversion.py:73 | every unaligned span's id is removed |
| DocumentConversion.LayerOverridesSound | src/pytorch_ie/data/document_conversion.py:75-76 | every token span in `override_annotations[name]` is the token span of an aligned span of the layer |
| DocumentConversion.LayerOverridesComplete | src/pytorch_ie/data/document_conversion.py:75-76 | with distinct ids, every aligned span's token span is stored under its id |
| DocumentConversion.UniqueFacts | src/pytorch_ie/data/document_conversion.py:77 | `set(...)` keeps every value and drops every repetition |
| DocumentConversion.DistinctAppend | src/pytorch_ie/data/document_conversion.py:77 | appending a new value keeps a sequence free of repetitions |
| DocumentConversion.InsertMembers | src/pytorch_ie/data/document_conversion.py:78 | inserting into the sorted run adds exactly the new value |
| DocumentConversion.InsertKeeps | src/pytorch_ie/data/document_conversion.py:78 | inserting keeps the run sorted by start and free of repetitions |
| DocumentConversion.SortMembers | src/pytorch_ie/data/document_conversion.py:78 | `sorted(..., key=span.start)` keeps exactly the values |
| DocumentConversion.SortKeeps | src/pytorch_ie/data/document_conversion.py:78 | sorting values without repetitions gives a run sorted by start without repetitions |
| DocumentConversion.DistinctInit | src/pytorch_ie/data/document_conversion.py:77-78 | a sequence without repetitions splits into a shorter one and a new last value |
| DocumentConversion.SortedFromPairs | src/pytorch_ie/data/document_conversion.py:78 | a run sorted by start has every earlier span starting no later than every later one |
| DocumentConversion.SortedSpans | src/pytorch_ie/data/document_conversion.py:77-78 | `sorted(set(values), key=start)` as a value. It has no contract of its own; DocumentConversion.SortedSpansFacts states that it holds each value once, in order of start |
| DocumentConversion.SortedSpansFacts | src/pytorch_ie/data/document_conversion.py:77-78 | `sorted(set(values), key=start)` holds each value exactly once, in order of start |
| DocumentConversion.LayerSpans | src/pytorch_ie/data/document_conversion.py:75-78 | with distinct ids, the spans added to a layer are exactly the token spans of its aligned character spans |
| DocumentConversion.ConvertSpan | src/pytorch_ie/data/document_conversion.py:61-76 | the loop body over one span gives the value-level `SpanStep` |
| DocumentConversion.ConvertLayer | src/pytorch_ie/data/document_conversion.py:57-76 | the loop over one layer's spans gives the value-level `LayerConversion` |
| DocumentConversion.LayerStep | src/pytorch_ie/data/document_conversion.py:57-78 | `result[name].extend(...)` changes only that layer and keeps the layer names |
| DocumentConversion.LayersConverted | src/pytorch_ie/data/document_conversion.py:57-78 | the loop over the text-span layers keeps the result's layer names |
| DocumentConversion.LayersConvertedStep | src/pytorch_ie/data/document_conversion.py:57-78 | one more layer is one more step of the loop |
| DocumentConversion.LayersConvertedAbortStep | src/pytorch_ie/data/document_conversion.py:57-78 | a conversion that has failed stays failed after one more layer |
| DocumentConversion.LayersConvertedAbort | src/pytorch_ie/data/document_conversion.py:57-78 | once a layer fails, the conversion fails with its error |
| DocumentConversion.LayerStepExtends | src/pytorch_ie/data/document_conversion.py:77-78 | a layer that converts extends its result layer by its sorted token spans |
| DocumentConversion.LayersConvertedLast | src/pytorch_ie/data/document_conversion.py:57-78 | a successful conversion of all layers went through all but the last |
| DocumentConversion.LayerConvertedAt | src/pytorch_ie/data/document_conversion.py:57-78 | with distinct layer names, every converted layer holds what it held before plus its sorted token spans |
| DocumentConversion.LayerConvertedBefore | src/pytorch_ie/data/document_conversion.py:57-78 | a layer before the last is left alone by the last |
| DocumentConversion.LayerUnconverted | src/pytorch_ie/data/document_conversion.py:57-78 | a result layer no text-span field names keeps what it held at the start |
| DocumentConversion.ResultMetadata | src/pytorch_ie/data/document_conversion.py:25-32 | the result's metadata is the source's plus `text`, `token_offset_mapping` and `char_to_token` where given; every other key keeps its value |
| DocumentConversion.TokenBased | src/pytorch_ie/data/document_conversion.py:17-78 | both mappings None is the ValueError; a successful result has the tokens, the id, that metadata and exactly the result type's layers |
| DocumentConversion.ToTokenBased | src/pytorch_ie/data/document_conversion.py:17-78 | the imperative conversion gives the value-level `TokenBased` |
| DocumentConversion.ConvertedLayer | src/pytorch_ie/data/document_conversion.py:49-78 | with distinct layer names, each text-span layer of a successful result holds exactly its sorted converted spans |
| DocumentConversion.ConvertedSpans | src/pytorch_ie/data/document_conversion.py:49-78 | with distinct ids and layer names, each text-span layer of a successful result holds each token span of an aligned character span exactly once, no other, in order of start |
| Conll2003.ConllType | tests/fixtures/datasets/conll2003.py:7-9 | `CoNLL2003Document` has the one layer `entities`, targeting `text` |
| Conll2003.Width | tests/fixtures/datasets/conll2003.py:30-35 | tokens take a positive number of characters, each followed by its space |
| Conll2003.ZipLength | tests/fixtures/datasets/conll2003.py:30 | `zip(tokens, ner_tags)` stops at the shorter of the two |
| Conll2003.TokenOffsets | tests/fixtures/datasets/conll2003.py:27-35 | the loop gives one offset and one tag string per zipped pair, the j-th offset that of the j-th token and the j-th tag `int_to_str(ner_tags[j])` |
| Conll2003.OffsetList | tests/fixtures/datasets/conll2003.py:27-35 | the offsets, one per zipped token |
| Conll2003.TagList | tests/fixtures/datasets/conll2003.py:29-33 | the tag strings, one per zipped tag |
| Conll2003.OffsetsChain | tests/fixtures/datasets/conll2003.py:27-35 | the first token starts at 0, each next one a character after the previous end, and each is as long as its token |
| Conll2003.WidthConcat | tests/fixtures/datasets/conll2003.py:30-35 | the width of two runs of tokens is the sum of their widths |
| Conll2003.JoinLength | tests/fixtures/datasets/conll2003.py:37 | `" ".join(tokens)` is one character shorter than the tokens' width |
| Conll2003.JoinSplit | tests/fixtures/datasets/conll2003.py:37 | splitting the tokens in two splits the joined text at a space |
| Conll2003.JoinAround | tests/fixtures/datasets/conll2003.py:37 | the joined text holds the run of tokens a..b right after the width of the tokens before a |
| Conll2003.JoinedRun | tests/fixtures/datasets/conll2003.py:27-37 | from the start of token a to the end of token b the text is those tokens joined by spaces |
| Conll2003.OffsetsCoverTokens | tests/fixtures/datasets/conll2003.py:27-37 | `text[start:end]` is the token, for every token's offsets |
| Conll2003.EntityAt | tests/fixtures/datasets/conll2003.py:43-46 | an entity is built exactly when both token indices are valid Python indices, otherwise IndexError |
| Conll2003.EntitySpans | tests/fixtures/datasets/conll2003.py:42-47 | the entities, one per span, or IndexError |
| Conll2003.EntitySpansMembers | tests/fixtures/datasets/conll2003.py:42-47 | the entities are built exactly when every span indexes the offsets, entity i then being span i's labeled span with score 1.0 |
| Conll2003.EntitySpansStep | tests/fixtures/datasets/conll2003.py:42-47 | one more span adds its entity or fails with IndexError |
| Conll2003.EntitySpansAbort | tests/fixtures/datasets/conll2003.py:42-47 | once a span fails to index, the whole list fails |
| Conll2003.EntityCoversTokens | tests/fixtures/datasets/conll2003.py:27-47 | an entity over zipped tokens a..b is the labeled span of their offsets and covers exactly those tokens joined by spaces |
| Conll2003.TextEntries | tests/fixtures/datasets/conll2003.py:45-47 | the layer stores each appended span with the text as its target |
| Conll2003.TextEntriesAppend | tests/fixtures/datasets/conll2003.py:45-47 | appending one more span adds one entry |
| Conll2003.SingleUpdate | tests/fixtures/datasets/conll2003.py:45-47 | appending to the single layer is appending to its entries |
| Conll2003.AppendEntity | tests/fixtures/datasets/conll2003.py:45-47 | `document.entities.append(span)` adds the span with the text as target and keeps the document valid |
| Conll2003.AppendEntities | tests/fixtures/datasets/conll2003.py:42-47 | the loop over the spans fails exactly as `EntitySpans` does and otherwise leaves the layer holding those entities |
| Conll2003.GenerateDocument | tests/fixtures/datasets/conll2003.py:22-49 | `_generate_document` fails (IndexError) exactly when the entities cannot be built; otherwise a fresh valid document with the joined text, the id and those entities |


## Left out

- Python's real `hash` is replaced by a function parameter. Equal annotations get equal ids, so `fromdict` stores them in one accumulator slot. The round-trip lemmas therefore require distinct ids for distinct annotations.
- Object identity and aliasing: one annotation object held by two lists, or a `_target` shared by reference, is not modelled. An annotation's `_target` is stored beside it in its list. `==` on annotations is equality of values; in `src/pytorch_ie/core/document.py` it includes `_target`, in the prototype it does not.
- Set iteration order (`set(...)` of labels, edges and spans) is taken as first-seen or declaration order. Contracts state set-level facts wherever the source's result depends on it. `sorted` is modelled as a stable sort by its key.
- Logging: the warning `prepare` logs for a module that is already prepared (`src/pytorch_ie/core/module_mixins.py:86-92`) is recorded as an `AlreadyPrepared` warning holding the prepared settings. The other `logger.info` and `logger.warning` calls, among them the lenient-mode warning of the conversion (`src/pytorch_ie/data/document_conversion.py:70-72`) and the skipped-entity warning of the token module (`pytorch_ie/taskmodules/transformer_token_classification.py:183-185`), are not modelled; only what the code does next (the removed id, the skipped entity) is. The `warnings.warn` of the pipeline is not part of this model.
- PrototypeRoundTrip.FromDictAsDict: the round trip of `tests/data/test_new_document_and_datasets.py:291-315` is proved only for documents whose annotation positions all have distinct ids. A document holding one annotation twice is outside it: the id-keyed accumulator keeps one entry, so `fromdict` returns that layer shorter. The proof also requires relations to refer into their target layer and every layer to be reached by the search from the text; a layer the search misses comes back empty (`Prototype.ProtoRebuiltHeld`).
- The `datasets` builder, formatter and `Dataset.map` code of the dataset tests, and the builder base of the CoNLL fixture, are dataset-library plumbing.
- TaskModule.prepare is a no-op in the base class. Only the concrete modules' `prepare` is modelled.
- Tokenizer calls, `tokenizer.pad`, `add_tokens`, vocabulary lookups, and all `torch` and `numpy` tensor building are foreign calls. The tokenizer's outputs are parameters.
- `unbatch_output`: softmax, sigmoid, argmax and probabilities are floating-point numerics. The text and relation modules' `unbatch_output` (TextClassification.Unbatched, RelationClassification.Unbatched) is modelled from given arg-max ids and opaque probabilities: its multi-label `NotImplementedError` and the one flat output it returns otherwise. The token module's `unbatch_output` (`pytorch_ie/taskmodules/transformer_token_classification.py:217-224`), which has no error branch, is not part of this model; its decoding starts from the tags it returns.
- RelationClassification.CreatedRelations: the score of a created relation is the probability passed through unchanged. Multi-label decoding is only its `NotImplementedError`.
- The `collate` of the relation and text modules builds tensors only and is not modelled. TokenClassification.CollatedTargets states the token module's padding logic.
- `_config` of the relation module (`pytorch_ie/taskmodules/transformer_re_text_classification.py:105-109`) stores `label_to_id` under `entity_labels`. It only feeds the saved configuration and is not modelled.
- DocumentConversion: `add_all_annotations_from_other` (`src/pytorch_ie/data/document_conversion.py:80-85`) is not part of this model. The conversion stops at the override and removed maps it is given.
- DocumentConversion.TokenSpan: `Span.copy` is not part of this model. It is taken as a copy of the annotation with `start` and `end` replaced.
- DocumentConversion: the strict-mode ValueError carries a fixed message. The source interpolates the span, the text and the offset mapping.
- `bio_tags_to_spans` and the `pytorch_ie.annotations` classes are not part of this model. `bio_tags_to_spans` is a function parameter, and the annotation classes are the `Annotations` datatype.
- Annotations.FromDict: the core `Annotation.fromdict` (`src/pytorch_ie/core/document.py:60-68`) ignores its annotation store and passes the dictionary to the class. The model resolves a relation's `head` and `tail` ids against the store, as the prototype's `BinaryRelation.fromdict` (`tests/data/test_new_document_and_datasets.py:233-242`) does. For the core this is an assumption about the `pytorch_ie.annotations` classes, which are not part of this model.
- The pipeline, the data module, the metric interface, `WithDocumentTypeMixin.convert_dataset`, the model classes, `documents.py` and the examples are orchestration, declarations or library wiring, and are not modelled.
- Decoding with `inplace` is not part of this model.
- Field targets in the conversion: `src/pytorch_ie/data/document_conversion.py:52` reads `metadata["targets"]`, while `src/pytorch_ie/core/document.py:37-38` stores a field's targets under `target`; the model assumes each field carries the list of its targets and selects the layers whose list holds `"text"`.
- Document identity in `combine`: `combine` keys a Python dict by the document object; the model keys it by the document's value, so two equal documents of one batch share one entry.
- CoreDocument.BaseAnnotationList.GetSlice: only slices with both bounds given and no step are modelled; `__getitem__` passes any slice on to the list, and a step or an omitted bound is not part of this model.
- CoreRoundTrip.FromDictAsDict: the round trip is stated for a given order that lists every layer; CoreRoundTrip.FromDictOrderRestores discharges that for the order `fromdict` computes only on a type where no chain of targets repeats a layer. With a cycle the root list does not reach, `fromdict` raises nothing and returns the layers on that cycle empty; that case is outside both lemmas.
- Annotations: the span and relation layers of the task modules hold single-label annotations only. The multi-label branches `annotation.label if annotation.is_multilabel else [annotation.label]` for entity and relation labels (`pytorch_ie/taskmodules/transformer_re_text_classification.py:119-133`), and the AssertionError of `assert not head.is_multilabel` and `assert not tail.is_multilabel` (`pytorch_ie/taskmodules/transformer_re_text_classification.py:189-190`), are not part of this model.
- CoreModel.AddLayer: every truthy layer value that is not an annotations mapping is one TypeError with a fixed message. The source fails with whatever `value["annotations"]` raises for that value.
- DataDocument.AddStored: every truthy value that is not a list of records is one TypeError with a fixed message. The source's `dict(v)` raises ValueError or TypeError, depending on the value.
- Prototype.AddProto: a stored list whose items are not annotation records is one TypeError with a fixed message. The source's `dict(v)` raises ValueError or TypeError, depending on the item. The `Exception("Error")` for a value that is not a list is modelled as written.
- CoreModel.AsDictOf: `Document.fields()` (`src/pytorch_ie/core/document.py:147-153`) leaves out `_annotation_graph` and `_annotation_fields`, while `AsDictOf` lists every declared field. A class that redeclares one of those names is not modelled; the round-trip lemmas require that no declared field has either name (`CoreModel.OwnNames`).
- TokenClassification.CollatedTargets: `collate` tests `encodings[0].has_target`, an attribute the `TaskEncoding` of `pytorch_ie/taskmodules/taskmodule.py:18-29` does not define. The model reads it as "the encoding's target is not None".
- TaskDocuments.SpanAnnotations, TaskDocuments.RelationAnnotations, TaskDocuments.LabelAnnotations: `span_annotations`, `annotations` and `label_annotations` belong to a document class that is not part of this model. That they return None for a missing layer is an assumption, taken from the checks the task modules make on the result (`assert partitions_or_none` at `pytorch_ie/taskmodules/transformer_token_classification.py:115-118`).

## Findings

| source | as written | input that shows it | evidently intended | confidence | as-written member | corrected member |
|---|---|---|---|---|---|---|
| pytorch_ie/taskmodules/transformer_text_classification.py:202-209 | in single-label mode `create_annotations_from_output` takes `labels[0]` and `probabilities[0]` of every zipped row, while `unbatch_output` (lines 186-193) makes every row one label string and one float | the output `{"labels": ["positive"], "probabilities": [0.9]}` in single-label mode: `"positive"[0]` is `"p"`, and then `0.9[0]` raises TypeError | one `Label` per row holding the row's label and probability | not executed | TextClassification.SingleLabelCreationFails | TextClassification.IntendedAnnotations |
