/** Parsed JSON documents.  Serialisation is canonical in the source (sorted
    keys, strict numbers), so equal documents and equal texts coincide. */
module JsonValue {
  /** A text that holds a lone surrogate, as an escape like "\ud800" produces.
      No UTF-8 encoding of it exists. */
  type LoneText = codePoints: seq<int> | HoldsSurrogate(codePoints) witness [0xD800]

  predicate IsSurrogate(x: int) {
    0xD800 <= x < 0xE000
  }

  predicate HoldsSurrogate(codePoints: seq<int>) {
    codePoints != [] && (IsSurrogate(codePoints[0]) || HoldsSurrogate(codePoints[1..]))
  }

  datatype Json =
    | Null
    | Bool(flag: bool)
    | Int(number: int)
    | Float(quantity: real)
    | Str(text: string)
    | IllFormed(codePoints: LoneText)
    | Arr(items: seq<Json>)
    | Obj(fields: map<string, Json>)
  {
    /** Both kinds of text are strings to a type test. */
    predicate IsText() {
      Str? || IllFormed?
    }
  }

  /** Can the document be written as UTF-8? */
  predicate Encodable(value: Json) {
    match value
    case IllFormed(_) => false
    case Arr(items) => forall i | 0 <= i < |items| :: Encodable(items[i])
    case Obj(fields) => forall k | k in fields :: Encodable(fields[k])
    case _ => true
  }
}
