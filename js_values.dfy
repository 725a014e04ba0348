/** The JavaScript values the model cache passes around, and the two
    truthiness tests (`if (a && b)`, `a || b`) its decisions rest on. */
module JsValues {

  /** An optional value: `None` stands for JavaScript's null or undefined. */
  datatype Option<+T> = None | Some(value: T)

  /** A settled promise: `Ok` when it resolved, `Err` with the rejection reason. */
  datatype Result<+T> = Ok(value: T) | Err(reason: string)

  /** The record fetchMedia returns: the payload bytes and their MIME type. */
  datatype Media = Media(buffer: seq<bv8>, mimeType: string)

  /** What the application stores as a record's `modelConfig`: JavaScript
      null, a string (a configuration name or URL), or a media record. */
  datatype Value = Null | Str(s: string) | MediaValue(media: Media)

  /** JavaScript truthiness of a stored value: null and the empty string are
      falsy, every object is truthy. */
  predicate Truthy(v: Value) {
    match v
    case Null => false
    case Str(s) => s != ""
    case MediaValue(_) => true
  }

  /** `a || fallback` where `a` is an optional string. */
  function OrElse(a: Option<string>, fallback: string): string {
    if a.Some? && a.value != "" then a.value else fallback
  }

  /** The value stored for an optional media record: null when absent. */
  function AsValue(m: Option<Media>): Value {
    if m.Some? then MediaValue(m.value) else Null
  }
}
