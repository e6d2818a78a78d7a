/** How `Client._get` and `Client._post` turn an HTTP response into a Python
    value. The request itself (authentication, the network round trip) is not
    modelled; a response is abstracted to its status, its Content-Type header
    (absent or present) and its body text, and `json.loads` is the parameter
    `parse`, which answers None when it would raise. */
module Transport {
  import opened Values

  datatype Response = Response(status: int, contentType: Option<string>, body: string)

  /** What a request hands back to its caller. */
  datatype Decoded =
    | NoContent          // Python None, returned for a 204 reply to a POST
    | Parsed(json: Json) // json.loads of the body
    | Text(text: string) // the raw body

  const JSON_MEDIA_TYPE := "application/json"
  const NO_CONTENT := 204

  /** Python's `s.startswith(prefix)`: `s` is `prefix` followed by something. */
  function StartsWith(s: string, prefix: string): (b: bool)
    ensures b <==> exists rest :: s == prefix + rest
  {
    if |prefix| <= |s| && s[..|prefix|] == prefix then
      assert s == prefix + s[|prefix|..];
      true
    else false
  }

  /** The content-type rule both requests share. A response without the header
      answers None for `r['Content-Type']`, which has no `startswith`; a JSON
      media type yields the parsed body, anything else the body itself. */
  function ReadBody(r: Response, parse: string -> Option<Json>): (d: Result<Decoded>)
    ensures d.Ok? ==> !d.value.NoContent?
    ensures r.contentType.None? ==> d == Err(AttributeError("startswith"))
    ensures d.Ok? && d.value.Parsed? <==>
      r.contentType.Some? && StartsWith(r.contentType.value, JSON_MEDIA_TYPE) && parse(r.body).Some?
    ensures d.Ok? && d.value.Parsed? ==> parse(r.body) == Some(d.value.json)
    ensures d.Ok? && d.value.Text? <==>
      r.contentType.Some? && !StartsWith(r.contentType.value, JSON_MEDIA_TYPE)
    ensures d.Ok? && d.value.Text? ==> d.value.text == r.body
    ensures d == Err(ValueError) <==>
      r.contentType.Some? && StartsWith(r.contentType.value, JSON_MEDIA_TYPE) && parse(r.body).None?
  {
    match r.contentType
    case None => Err(AttributeError("startswith"))
    case Some(ct) =>
      if StartsWith(ct, JSON_MEDIA_TYPE) then
        match parse(r.body)
        case Some(j) => Ok(Parsed(j))
        case None => Err(ValueError)
      else Ok(Text(r.body))
  }

  /** `Client._get`: only the content-type rule applies; a GET never yields
      "no content", whatever its status. */
  function Get(r: Response, parse: string -> Option<Json>): (d: Result<Decoded>)
    ensures d.Ok? ==> !d.value.NoContent?
    ensures d.Ok? && d.value.Text? ==> d.value.text == r.body
  {
    ReadBody(r, parse)
  }

  /** `Client._post`: a 204 status yields "no content" before the headers are
      looked at; every other status falls back to the content-type rule. */
  function Post(r: Response, parse: string -> Option<Json>): (d: Result<Decoded>)
    ensures d == Ok(NoContent) <==> r.status == NO_CONTENT
    ensures r.status != NO_CONTENT ==> d == Get(r, parse)
  {
    if r.status == NO_CONTENT then Ok(NoContent) else ReadBody(r, parse)
  }

  /** The status of a GET reply never changes what the client returns. */
  lemma GetIgnoresStatus(r: Response, status: int, parse: string -> Option<Json>)
    ensures Get(r, parse) == Get(r.(status := status), parse)
  {
  }

  /** A 204 reply to a POST is "no content" even without a Content-Type header or
      with a JSON one, while the same reply to a GET is read through the
      content-type rule and fails without the header. */
  lemma NoContentOnlyForPost(r: Response, parse: string -> Option<Json>)
    requires r.status == NO_CONTENT
    ensures Post(r, parse) == Ok(NoContent)
    ensures Get(r, parse) != Ok(NoContent)
    ensures r.contentType.None? ==> Get(r, parse) == Err(AttributeError("startswith"))
  {
  }

  /** The Python value of a request's result: None for "no content", the
      document for a JSON reply, a str for a text reply. */
  function AsValue(d: Decoded): (v: Json)
    ensures d.NoContent? <==> v == JNull && !d.Parsed?
    ensures d.Parsed? ==> v == d.json
    ensures d.Text? ==> v == JStr(d.text)
  {
    match d
    case NoContent => JNull
    case Parsed(j) => j
    case Text(s) => JStr(s)
  }
}
