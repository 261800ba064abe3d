/** The HTTP layer as both clients use it. Each client method sends requests
    through an abstract transport and then either calls `raise_for_status()`
    followed by `.json()`, or `raise_for_status()` alone followed by a fixed
    acknowledgement object. */
module Http {
  import opened Wrappers
  import opened Json

  datatype Verb = GET | POST | PUT | DELETE

  /** One outbound call: verb, absolute URL, query parameters (`params=`) and
      JSON body (`json=`); `body` is None when the call sends no body */
  datatype Request = Request(verb: Verb, url: string, params: Members, body: Option<Json>)

  /** What the transport yields for a request: a failure (network error or a
      non-2xx status that `raise_for_status()` turns into an exception, with
      its message), or a 2xx response whose body decodes, as `.json()` would,
      to a value or to a decoding error */
  datatype Response = Failed(message: string) | Received(body: Result<Json>)

  /** The remote service, seen as a function from request to response */
  type Transport = Request -> Response

  /** The requests a client method sent, in order, and what it returned or raised */
  datatype Exchange = Exchange(sent: seq<Request>, result: Result<Json>)

  /** `response.raise_for_status(); return response.json()` */
  function JsonBody(resp: Response): (r: Result<Json>)
    ensures resp.Failed? ==> r == Err(resp.message)
    ensures resp.Received? ==> r == resp.body
  {
    match resp
    case Failed(m) => Err(m)
    case Received(body) => body
  }

  /** `response.raise_for_status(); return ack`: the body is never decoded */
  function Acknowledge(resp: Response, ack: Json): (r: Result<Json>)
    ensures resp.Failed? ==> r == Err(resp.message)
    ensures resp.Received? ==> r == Ok(ack)
  {
    match resp
    case Failed(m) => Err(m)
    case Received(_) => Ok(ack)
  }

  /** A GET without query parameters */
  function Fetch(url: string): (r: Request)
    ensures r.verb == GET && r.url == url && r.params == [] && r.body == None
  {
    Request(GET, url, [], None)
  }

  /** A DELETE */
  function Remove(url: string): (r: Request)
    ensures r.verb == DELETE && r.url == url && r.params == [] && r.body == None
  {
    Request(DELETE, url, [], None)
  }

  /** A request whose `json=` is the dict `body` */
  function Send(verb: Verb, url: string, body: Members): (r: Request)
    ensures r.verb == verb && r.url == url && r.params == [] && r.body == Some(JObj(body))
  {
    Request(verb, url, [], Some(JObj(body)))
  }
}
