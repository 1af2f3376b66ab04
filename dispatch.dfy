/**
 * The request dispatcher both client generations share in substance: the
 * error kinds (sendgrid.go), the headers Send adds to a request, the
 * classification of the response status, and the exactly-one rule for a
 * contact search. The network, the JSON codec and the query encoder are
 * not modelled; they come in as function-valued parameters.
 */
module Dispatch {
  import opened Optional
  import opened Mail

  newtype byte = x: int | 0 <= x < 256

  type Bytes = seq<byte>

  /** Every error a client operation can return. */
  datatype Failure =
    | BadRequest
    | Forbidden
    | Unauthorized
    | ServiceError
    | NotFound
    | UnexpectedStatus(status: string)   // carries the response's status line
    | TransportError(cause: string)      // http.Client.Do or reading the body failed
    | CodecError(cause: string)          // a JSON encode or decode failed
  {
    /**
     * err.Error(): the five sentinels have fixed texts; an unexpected status
     * reads "Unexpected status code: " followed by the status line.
     */
    function Message(): (m: string)
      ensures UnexpectedStatus? ==> |m| >= 24 && m[..24] == "Unexpected status code: " && m[24..] == status
      ensures !UnexpectedStatus? && !TransportError? && !CodecError? ==> 0 < |m| < 24
    {
      match this
      case BadRequest => "Bad request"
      case Forbidden => "Forbidden"
      case Unauthorized => "Unauthorized"
      case ServiceError => "Service error"
      case NotFound => "Not found"
      case UnexpectedStatus(status) => "Unexpected status code: " + status
      case TransportError(cause) => cause
      case CodecError(cause) => cause
    }
  }

  /**
   * The text of an error the package makes itself tells which error it is:
   * no two sentinels share a text, and no sentinel reads like an
   * unexpected status.
   */
  lemma MessageIdentifies(f: Failure, g: Failure)
    requires !f.TransportError? && !f.CodecError? && !g.TransportError? && !g.CodecError?
    ensures f.Message() == g.Message() <==> f == g
  {
    if f.UnexpectedStatus? && g.UnexpectedStatus? && f.Message() == g.Message() {
      assert f.status == f.Message()[24..] == g.Message()[24..] == g.status;
    }
  }

  datatype Result<+T> = Ok(value: T) | Err(error: Failure)

  function ErrorOf<T>(r: Result<T>): Option<Failure> {
    if r.Ok? then None else Some(r.error)
  }

  /** What the transport reports for one request. */
  datatype Exchange =
    | Failed(cause: string)
    | Received(code: int, status: string, body: Bytes)

  /** http.Header: each key holds a list of values; Set replaces the list. */
  type Headers = map<string, seq<string>>

  /** A request URL, kept as the client's base and the path joined to it. */
  datatype Url = Url(base: string, path: string)

  /** A request as the transport receives it. */
  datatype Wire = Wire(verb: string, url: Url, headers: Headers, body: Option<Bytes>)

  type Transport = Wire -> Exchange

  type Params = map<string, seq<string>>

  /**
   * The library encoders and decoders: json.Marshal (indent false) and
   * json.MarshalIndent (indent true) of an email and of a contact upsert,
   * url.Values.Encode, and json.Unmarshal of a search response's result list.
   */
  datatype Codec = Codec(
    encodeEmail: (EmailValue, bool) -> Result<Bytes>,
    encodeStore: (StoreRequest, bool) -> Result<Bytes>,
    encodeQuery: Params -> string,
    decodeSearch: Bytes -> Result<seq<Contact>>)

  const ContactsPath := "/marketing/contacts"
  const SearchPath := "/marketing/contacts/search"
  const MailPath := "/mail/send"

  const Authorization := "Authorization"
  const ContentType := "Content-Type"
  const Json := "application/json"

  /** An *http.Request: the headers are what Send mutates. */
  class Request {
    const verb: string
    const url: Url
    const body: Option<Bytes>
    var headers: Headers

    /** http.NewRequest: a request with no headers yet. */
    constructor (verb: string, url: Url, body: Option<Bytes>)
      ensures this.verb == verb && this.url == url && this.body == body
      ensures headers == map[]
    {
      this.verb := verb;
      this.url := url;
      this.body := body;
      headers := map[];
    }

    /** The request as it stands, as the transport would receive it. */
    function ToWire(): Wire
      reads this
    {
      Wire(verb, url, headers, body)
    }
  }

  /** The request a client with this API key hands to the transport: a new request after Send. */
  function Outgoing(apikey: string, verb: string, url: Url, body: Option<Bytes>): Wire {
    Wire(verb, url, Decorate(map[], apikey, body.Some?), body)
  }

  /** Key k is present in both maps with the same values, or in neither. */
  predicate SameAt(h: Headers, r: Headers, k: string) {
    (k in h <==> k in r) && (k in h ==> h[k] == r[k])
  }

  /**
   * The headers Send leaves on a request: a bearer Authorization exactly
   * when there is an API key, a JSON Content-Type exactly when there is a
   * body, and every other header as it was.
   */
  function Decorate(h: Headers, apikey: string, hasBody: bool): (r: Headers)
    ensures apikey != "" ==> Authorization in r && r[Authorization] == ["Bearer " + apikey]
    ensures apikey == "" ==> SameAt(h, r, Authorization)
    ensures hasBody ==> ContentType in r && r[ContentType] == [Json]
    ensures !hasBody ==> SameAt(h, r, ContentType)
    ensures forall k :: k != Authorization && k != ContentType ==> SameAt(h, r, k)
  {
    var withAuth := if apikey != "" then h[Authorization := ["Bearer " + apikey]] else h;
    if hasBody then withAuth[ContentType := [Json]] else withAuth
  }

  /** A fresh request (no headers) carries only what Send adds. */
  lemma DecorateFresh(apikey: string, hasBody: bool)
    ensures var r := Decorate(map[], apikey, hasBody);
      (Authorization in r <==> apikey != "") && (ContentType in r <==> hasBody)
      && r.Keys <= {Authorization, ContentType}
  {
  }

  /** The status codes Send turns into a sentinel error. */
  const NamedStatus: map<int, Failure> :=
    map[400 := BadRequest, 401 := Unauthorized, 403 := Forbidden, 500 := ServiceError]

  /**
   * The tail of Send: a transport failure is passed on, a 2xx status gives
   * the body, 400/401/403/500 give their sentinel, and any other status an
   * unexpected-status error carrying the status line.
   */
  function Classify(x: Exchange): (r: Result<Bytes>)
    ensures x.Failed? ==> r == Err(TransportError(x.cause))
    ensures r.Ok? <==> x.Received? && 200 <= x.code < 300
    ensures r.Ok? ==> r.value == x.body
    ensures x.Received? && x.code == 400 ==> r == Err(BadRequest)
    ensures x.Received? && x.code == 401 ==> r == Err(Unauthorized)
    ensures x.Received? && x.code == 403 ==> r == Err(Forbidden)
    ensures x.Received? && x.code == 500 ==> r == Err(ServiceError)
    ensures x.Received? && !(200 <= x.code < 300) && x.code !in {400, 401, 403, 500}
      ==> r == Err(UnexpectedStatus(x.status))
  {
    match x
    case Failed(cause) => Err(TransportError(cause))
    case Received(code, status, body) =>
      if code >= 200 && code < 300 then Ok(body)
      else if code == 403 then Err(Forbidden)
      else if code == 401 then Err(Unauthorized)
      else if code == 400 then Err(BadRequest)
      else if code == 500 then Err(ServiceError)
      else Err(UnexpectedStatus(status))
  }

  /** Classification agrees with the table of named status codes. */
  lemma ClassifyByTable(x: Exchange)
    requires x.Received? && !(200 <= x.code < 300)
    ensures Classify(x) == Err(if x.code in NamedStatus then NamedStatus[x.code] else UnexpectedStatus(x.status))
  {
  }

  /** Each sentinel comes from its own status code and from no other exchange. */
  lemma SentinelFromItsCode(x: Exchange, code: int)
    requires code in NamedStatus
    ensures Classify(x) == Err(NamedStatus[code]) <==> x.Received? && x.code == code
  {
  }

  /**
   * Send, the same in both client generations: decorates the request in
   * place (HTTP headers are set, replacing any earlier value), exchanges
   * it, and classifies the reply.
   */
  method Send(apikey: string, req: Request, transport: Transport) returns (r: Result<Bytes>)
    modifies req
    ensures req.headers == Decorate(old(req.headers), apikey, req.body.Some?)
    ensures r == Classify(transport(req.ToWire()))
  {
    if apikey != "" {
      req.headers := req.headers[Authorization := ["Bearer " + apikey]];
    }
    if req.body.Some? {
      req.headers := req.headers[ContentType := [Json]];
    }
    r := Classify(transport(req.ToWire()));
  }

  /** http.NewRequest followed by Send: what goes out and what comes back. */
  method Perform(apikey: string, verb: string, url: Url, body: Option<Bytes>, transport: Transport)
    returns (reply: Result<Bytes>, sent: Wire)
    ensures sent == Outgoing(apikey, verb, url, body)
    ensures reply == Classify(transport(sent))
  {
    var req := new Request(verb, url, body);
    reply := Send(apikey, req, transport);
    sent := req.ToWire();
  }

  /** The search URL of both real clients: the query follows a '?', even when it is empty. */
  function SearchUrl(base: string, params: Params, codec: Codec): (u: Url)
    ensures u.base == base && |u.path| > |SearchPath| && u.path[..|SearchPath|] == SearchPath
    ensures u.path[|SearchPath|] == '?' && forall k :: 0 <= k < |SearchPath| ==> u.path[k] != '?'
    ensures u.path[|SearchPath| + 1..] == codec.encodeQuery(params)
  {
    Url(base, SearchPath + "?" + codec.encodeQuery(params))
  }

  /** A search succeeds only when it found exactly one contact, and gives that one. */
  function SoleContact(found: seq<Contact>): (r: Result<Contact>)
    ensures r.Ok? <==> |found| == 1
    ensures r.Ok? ==> r.value == found[0]
    ensures r.Err? ==> r.error == NotFound
  {
    if |found| != 1 then Err(NotFound) else Ok(found[0])
  }

  /**
   * The end of a contact search: a failed exchange is passed on, an
   * undecodable body is a codec error, and the decoded list must hold
   * exactly one contact.
   */
  function SearchReply(reply: Result<Bytes>, decode: Bytes -> Result<seq<Contact>>): (r: Result<Contact>)
    ensures reply.Err? ==> r == Err(reply.error)
    ensures r.Ok? <==> reply.Ok? && decode(reply.value).Ok? && |decode(reply.value).value| == 1
    ensures r.Ok? ==> r.value == decode(reply.value).value[0]
    ensures reply.Ok? && decode(reply.value).Err? ==> r == Err(decode(reply.value).error)
    ensures reply.Ok? && decode(reply.value).Ok? && |decode(reply.value).value| != 1 ==> r == Err(NotFound)
  {
    if reply.Err? then Err(reply.error)
    else
      var decoded := decode(reply.value);
      if decoded.Err? then Err(decoded.error) else SoleContact(decoded.value)
  }

}
