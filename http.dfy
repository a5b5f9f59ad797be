/**
 * The HTTP vocabulary the login flow and the API glue share. Transport is not
 * modelled: a request is a record the client issues, and what comes back is an
 * Exchange, either a response or a transport failure (network, TLS, DNS, or a
 * target URL the client refuses).
 */
module Http {
  import opened Wrappers
  import opened Text

  const OK := 200
  const CREATED := 201
  const FOUND := 302
  const CONFLICT := 409

  /** A response as far as the client inspects it. */
  datatype Response = Response(
    status: int,
    location: Option<seq<byte>>,  // the `Location` header, raw
    text: seq<byte>,              // the body
    cookies: seq<string>          // the values of the cookies the response sets
  )

  datatype Exchange = Delivered(response: Response) | TransportFailed

  datatype Method = Get | Post | Delete

  datatype Body =
    | NoBody
    | Form(fields: seq<(string, string)>)  // `application/x-www-form-urlencoded`, in order
    | Json(object: map<string, string>)    // a JSON object of string values

  datatype Request = Request(verb: Method, url: string, query: seq<(string, string)>, body: Body)

  function GetRequest(url: string): Request {
    Request(Get, url, [], NoBody)
  }

  function FormPost(url: string, fields: seq<(string, string)>): Request {
    Request(Post, url, [], Form(fields))
  }

}
