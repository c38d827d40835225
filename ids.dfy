/**
 * Document identifiers. `new ObjectId(x)` either parses `x`, throws on a value it
 * cannot parse, or (for undefined and null) draws a new identifier. The parsing rules
 * are not modelled: they are a partial function supplied by the caller.
 */
module ObjectIds {
  import opened Wrappers
  import opened Json

  /** A document identifier; its representation is immaterial to the model. */
  datatype ObjectId = ObjectId(hex: string)

  /** What `new ObjectId(x)` yields. */
  datatype IdRef =
    | Parsed(id: ObjectId)  // x converted to this identifier
    | Generated             // x was undefined or null: a fresh identifier no stored document has
    | Invalid               // the constructor throws

  /** `new ObjectId(v)` with the parsing rules given by `parse`. */
  function ToObjectId(parse: Value -> Option<ObjectId>, v: Option<Value>): (r: IdRef)
    ensures r.Generated? <==> v.None? || v == Some(Null)
    ensures r.Parsed? ==> parse(v.value) == Some(r.id)
    ensures r.Invalid? ==> v.Some? && parse(v.value).None?
  {
    if v.None? || v.value.Null? then Generated
    else
      match parse(v.value)
      case Some(o) => Parsed(o)
      case None => Invalid
  }
}
