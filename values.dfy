/** The values a document's plain (non-annotation) fields hold and that serialised documents carry:
    the JSON-like Python values, plus the two shapes a serialised annotation layer takes. */
module FieldValues {
  import opened Annotations

  datatype Value =
    | NoneV
    | BoolV(b: bool)
    | IntV(i: int)
    | StrV(s: string)
    | ListV(items: seq<Value>)
    | DictV(entries: map<string, Value>)
      /** `{"annotations": [...], "predictions": [...]}`, a serialised layer of the current document. */
    | LayerV(annotations: seq<AnnotationDict>, predictions: seq<AnnotationDict>)
      /** `[...]`, a serialised layer of the earlier document variants. */
    | RecordsV(records: seq<AnnotationDict>)

  /** Python truthiness, as tested by `if value is None or not value`. */
  predicate Truthy(v: Value) {
    match v
    case NoneV => false
    case BoolV(b) => b
    case IntV(i) => i != 0
    case StrV(s) => s != ""
    case ListV(items) => items != []
    case DictV(entries) => entries != map[]
    case LayerV(_, _) => true
    case RecordsV(records) => records != []
  }
}
