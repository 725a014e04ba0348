/** fetchMedia: turns the answer to one network request into a portable
    `{buffer, type}` record, or null; it never rejects. */
module MediaFetch {
  import opened JsValues

  /** What `fetch(url)` settles to: a rejection (network failure), or a
      response with its status, its body bytes (None when reading the body
      as a blob or an array buffer fails) and its declared content type. */
  datatype Response =
    | NetworkError
    | Response(status: int, body: Option<seq<bv8>>, contentType: Option<string>)

  /** A response's ok flag: a status in the range 200 to 299. */
  predicate IsOk(status: int) {
    200 <= status <= 299
  }

  /** The type of the blob read from a response: its declared content type,
      the empty string when none was declared. */
  function BlobType(contentType: Option<string>): string {
    if contentType.Some? then contentType.value else ""
  }

  function FetchMedia(response: Response): (r: Option<Media>)
    ensures r.Some? <==> response.Response? && IsOk(response.status) && response.body.Some?
    ensures r.Some? ==> r.value.buffer == response.body.value
    ensures r.Some? && response.contentType.None? ==> r.value.mimeType == ""
    ensures r.Some? && response.contentType.Some? ==> r.value.mimeType == response.contentType.value
  {
    match response
    case NetworkError => None
    case Response(status, body, contentType) =>
      if !IsOk(status) then None
      else if body.None? then None
      else Some(Media(body.value, OrElse(Some(BlobType(contentType)), "")))
  }

  /** A response with status 404 yields null, not an error. */
  lemma NotFoundIsNull(body: Option<seq<bv8>>, contentType: Option<string>)
    ensures FetchMedia(Response(404, body, contentType)) == None
  {
  }
}
