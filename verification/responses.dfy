/**
  The HTTP response object the classifier inspects. Only the three attributes the
  classifier reads are modelled: `headers`, `status_code` and `text`. Each of them
  may be absent from the object, in which case reading it raises AttributeError.
 */
module Responses {

  /** One attribute of the response object: present with a value, or missing. */
  datatype Attr<+T> = Present(value: T) | Missing

  /**
    Response headers. The HTTP library looks header names up case-insensitively;
    here the names are stored already lower-cased, so a lookup uses the
    lower-cased name.
   */
  type Headers = map<string, string>

  datatype Response = Response(headers: Attr<Headers>, statusCode: Attr<int>, text: Attr<string>)

  const ServerHeaderName: string := "server"

  /** `headers.get(name, default)`: the header's value, or `default` when it is not sent. */
  function HeaderGet(h: Headers, name: string, default: string): string
  {
    if name in h then h[name] else default
  }

  /**
    `resp.headers.get('Server', '')`: Missing when the response has no `headers`
    attribute, otherwise the Server header or the empty string.
   */
  function ServerHeader(resp: Response): Attr<string>
  {
    match resp.headers
    case Present(h) => Present(HeaderGet(h, ServerHeaderName, ""))
    case Missing => Missing
  }
}
