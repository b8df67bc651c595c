/** What the route handlers answer, and how a handler reads its query string. */
module Http {
  import opened Common
  import opened Strings

  /** Why a handler answered with `{ error }`: the schema rejected the body, the body was
      not JSON, the runtime raised an error of its own (`TypeError`, `RangeError`), or a
      given message. The wording of the first three comes from code outside this model. */
  datatype ErrorCause = SchemaRejected | MalformedJson | RuntimeError | Message(text: string)

  datatype Body<T> = Data(value: T) | ErrorBody(cause: ErrorCause)

  /** The response constructor throws a `RangeError` for a status outside 200 to 599. */
  predicate ValidStatus(status: int)
  {
    200 <= status <= 599
  }

  /** A null body status of the Fetch standard: a response with one may carry no body, so
      `NextResponse.json(body, { status })` throws a `TypeError` for it. */
  predicate NullBodyStatus(status: int)
  {
    status == 204 || status == 205 || status == 304
  }

  /** The statuses `NextResponse.json(body, { status })` accepts without throwing. */
  predicate JsonStatus(status: int)
  {
    ValidStatus(status) && !NullBodyStatus(status)
  }

  /** `NextResponse.json(body, { status })`. */
  datatype Response<T> = Response(status: int, body: Body<T>)

  /** The query part of a URL: after the first `?`, up to the first `#`. */
  function QueryOf(url: string): string
  {
    var q := IndexOf(url, '?');
    if q == |url| then ""
    else
      var rest := url[q + 1..];
      rest[..IndexOf(rest, '#')]
  }

  /** `URLSearchParams.get(key)` on a query: the value of the first `&`-separated pair whose
      name is `key` (percent- and plus-decoding are not modelled). */
  function LookupParam(query: string, key: string): Option<string>
    decreases |query|
  {
    if query == [] then None
    else
      var end := IndexOf(query, '&');
      var pair := query[..end];
      var eq := IndexOf(pair, '=');
      var name := pair[..eq];
      var value := if eq < |pair| then pair[eq + 1..] else "";
      if name == key then Some(value)
      else if end < |query| then LookupParam(query[end + 1..], key)
      else None
  }

  /** `new URL(request.url).searchParams.get(key)`. */
  function SearchParam(url: string, key: string): Option<string>
  {
    LookupParam(QueryOf(url), key)
  }
}
