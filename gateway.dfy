/**
 * The base gateway (`AGateway`): the process-wide host address, the request
 * builder (host prefixing, query parameters, JSON body) and the classification
 * and decoding of responses.
 */
module Gateway {
  import opened Wrappers
  import opened JavaText

  datatype RequestType = GET | POST | DELETE

  /** `RestException`: every failure of the client carries one message. */
  datatype RestException = RestException(message: string)

  datatype Result<T> = Ok(value: T) | Err(error: RestException)

  const UriInitFailed := RestException("Failed to create HTTP request - URI syntax exception when initializing builder.")
  const UriBuildFailed := RestException("Failed to create HTTP request - URI syntax exception when building URI.")
  const SerializationFailed := RestException("Failed to create HTTP request - object serialization failed.")
  const NoResponse := RestException("Failed to execute HTTP request - no response.")
  const NoResponseEntity := RestException("Failed to execute HTTP request - no response entity.")
  const TransportFailed := RestException("Failed to execute HTTP request - I/O.")
  const DeserializationFailed := RestException("Failed to execute HTTP request - unable to deserialize response entity content.")

  const Scheme := "http://"
  const ContentType := "Content-Type"
  const ApplicationJson := "application/json"

  /** Status codes of section 15.3 of RFC 9110 that the client distinguishes. */
  const StatusOk := 200
  const StatusCreated := 201
  const StatusAccepted := 202
  const StatusNoContent := 204

  /** A built URI: the address handed to `URIBuilder` and the query parameters added to it, in the order added. */
  datatype Uri = Uri(address: string, query: seq<(string, string)>)

  datatype Request = Request(requestType: RequestType, uri: Uri, headers: map<string, string>, body: Option<string>)

  /** What the transport hands back: a status line and, unless the response has none, the entity text. */
  datatype HttpResponse = HttpResponse(status: int, entity: Option<string>)

  /** One round trip: no response object, an I/O fault, or a response. */
  datatype Exchange = Unanswered | IoFault | Responded(response: HttpResponse)

  /**
   * The libraries the gateway calls and the world behind them: whether
   * `new URIBuilder(address)` accepts an address, whether `build()` succeeds
   * once the parameters are added, and what executing a request yields.
   */
  datatype HttpLibrary = HttpLibrary(
    parses: string -> bool,
    builds: (string, map<string, string>) -> bool,
    execute: Request -> Exchange)

  /** The process-wide `_hostAddress`, shared by every gateway. */
  class HostConfig {
    var address: string

    ghost predicate Valid()
      reads this
    {
      address == "" || StartsWith(address, Scheme)
    }

    constructor ()
      ensures address == "" && Valid()
    {
      address := "";
    }

    /** `setHost`: stores the normalised address. */
    method SetHost(hostAddress: string)
      modifies this
      ensures address == NormalizeHost(hostAddress) && Valid()
    {
      var a := Trim(hostAddress);
      if EndsWith(a, "/") {
        a := Chop(a);
      }
      if !StartsWith(a, Scheme) {
        a := Scheme + a;
      }
      address := a;
    }
  }

  /** The host `setHost` stores: trimmed, at most one trailing "/" chopped, "http://" prepended when missing. */
  function NormalizeHost(hostAddress: string): (r: string)
    ensures StartsWith(r, Scheme)
    ensures |r| <= |hostAddress| + |Scheme|
  {
    var trimmed := Trim(hostAddress);
    var chopped := if EndsWith(trimmed, "/") then Chop(trimmed) else trimmed;
    if StartsWith(chopped, Scheme) then chopped else Scheme + chopped
  }

  /** `setHost` leaves an address unchanged exactly when it already has the scheme, no surrounding blanks and no trailing "/". */
  lemma NormalizeHostFixedPoint(x: string)
    ensures NormalizeHost(x) == x <==> StartsWith(x, Scheme) && Trim(x) == x && !EndsWith(x, "/")
  {
    if NormalizeHost(x) == x {
      StableHostIsNormal(x);
    }
  }

  lemma StableHostIsNormal(x: string)
    requires NormalizeHost(x) == x
    ensures StartsWith(x, Scheme) && Trim(x) == x && !EndsWith(x, "/")
  {
    assert StartsWith(x, Scheme);
    TrimKeepsPrefix(x, Scheme);
    var t := Trim(x);
    if EndsWith(t, "/") {
      ChoppedHostShrinks(x);
    } else {
      assert NormalizeHost(x) == t;
    }
  }

  /** When the trimmed address ends with "/", the stored host differs from the input. */
  lemma ChoppedHostShrinks(x: string)
    requires StartsWith(x, Scheme)
    requires EndsWith(Trim(x), "/")
    ensures NormalizeHost(x) != x
  {
    TrimKeepsPrefix(x, Scheme);
    var t := Trim(x);
    var c := Chop(t);
    assert |c| == |t| - 1 && c == t[..|c|];
    if |t| > |Scheme| {
      PrefixSurvivesCut(t, Scheme, |c|);
      assert NormalizeHost(x) == c;
    } else {
      SchemeOnlyHostMoves(x);
    }
  }

  /** An address that trims to the bare scheme is stored as "http://http:/". */
  lemma SchemeOnlyHostMoves(x: string)
    requires Trim(x) == Scheme
    ensures NormalizeHost(x) != x
  {
    assert Chop(Scheme) == "http:/";
    var y := NormalizeHost(x);
    assert y == Scheme + "http:/" && |y| == 13 && y[12] == '/';
  }

  /**
   * Normalising a stored host again changes it exactly when it ends with "/"
   * (only one slash was chopped) or with a blank the chop exposed.
   */
  lemma NormalizeHostIdempotence(x: string)
    ensures var y := NormalizeHost(x);
      NormalizeHost(y) == y <==> !EndsWith(y, "/") && !Trimmable(y[|y| - 1])
  {
    StoredHostStability(NormalizeHost(x));
  }

  /** A host that already has the scheme is left alone exactly when it ends with neither "/" nor a blank. */
  lemma StoredHostStability(y: string)
    requires StartsWith(y, Scheme)
    ensures NormalizeHost(y) == y <==> !EndsWith(y, "/") && !Trimmable(y[|y| - 1])
  {
    NormalizeHostFixedPoint(y);
    TrimKeepsPrefix(y, Scheme);
  }

  /** Only one slash is chopped: "a//" is stored as "http://a/", and storing that again gives "http://a". */
  lemma NormalizeHostChopsOneSlash()
    ensures NormalizeHost("a//") == "http://a/"
    ensures NormalizeHost("http://a/") == "http://a"
  {
    assert Trim("a//") == "a//";
    assert Chop("a//") == "a/";
    assert Trim("http://a/") == "http://a/";
    assert Chop("http://a/") == "http://a";
  }

  /** A lone slash is chopped to nothing, leaving the bare scheme. */
  lemma NormalizeHostSlashOnly()
    ensures NormalizeHost("/") == "http://"
  {
    assert Trim("/") == "/";
  }

  /** Chopping happens after trimming, so a blank before the slash stays: "a /" is stored as "http://a ". */
  lemma NormalizeHostExposesBlank()
    ensures NormalizeHost("a /") == "http://a "
  {
    assert Trim("a /") == "a /";
    assert Chop("a /") == "a ";
  }

  /** The host-prefix rule of `createURI`: the host is prepended unless the endpoint already starts with it. */
  function WithHost(host: string, endpoint: string): (r: string)
    ensures StartsWith(r, host)
    ensures r == endpoint <==> StartsWith(endpoint, host)
    ensures r != endpoint ==> r == host + endpoint
  {
    if StartsWith(endpoint, host) then endpoint else host + endpoint
  }

  /** Prefixing is applied at most once, and the initial empty host changes nothing. */
  lemma WithHostOnce(host: string, endpoint: string)
    ensures WithHost(host, WithHost(host, endpoint)) == WithHost(host, endpoint)
    ensures WithHost("", endpoint) == endpoint
  {
  }

  /** `q` adds every entry of `m` exactly once and nothing else. */
  ghost predicate ListsExactly(q: seq<(string, string)>, m: map<string, string>)
  {
    (forall i :: 0 <= i < |q| ==> q[i].0 in m && m[q[i].0] == q[i].1)
    && (forall i, j :: 0 <= i < j < |q| ==> q[i].0 != q[j].0)
    && (forall k :: k in m ==> exists i :: 0 <= i < |q| && q[i].0 == k)
  }

  /** `createURI`: prefix the host, start a `URIBuilder`, add each parameter in the map's iteration order, build. */
  method CreateURI(host: HostConfig, endpoint: string, params: map<string, string>, lib: HttpLibrary)
    returns (r: Result<Uri>)
    ensures var address := WithHost(host.address, endpoint);
      if !lib.parses(address) then r == Err(UriInitFailed)
      else if !lib.builds(address, params) then r == Err(UriBuildFailed)
      else r.Ok? && r.value.address == address && ListsExactly(r.value.query, params)
  {
    var address := endpoint;
    if !StartsWith(address, host.address) {
      address := host.address + address;
    }
    if !lib.parses(address) {
      return Err(UriInitFailed);
    }
    var query: seq<(string, string)> := [];
    var pending := params.Keys;
    while pending != {}
      invariant pending <= params.Keys
      invariant forall i :: 0 <= i < |query| ==> query[i].0 in params && params[query[i].0] == query[i].1 && query[i].0 !in pending
      invariant forall i, j :: 0 <= i < j < |query| ==> query[i].0 != query[j].0
      invariant forall k :: k in params && k !in pending ==> exists i :: 0 <= i < |query| && query[i].0 == k
      decreases pending
    {
      var k :| k in pending;
      ghost var before := query;
      query := query + [(k, params[k])];
      pending := pending - {k};
      forall k' | k' in params && k' !in pending
        ensures exists i :: 0 <= i < |query| && query[i].0 == k'
      {
        if k' == k {
          assert query[|query| - 1].0 == k';
        } else {
          var i :| 0 <= i < |before| && before[i].0 == k';
          assert query[i].0 == k';
        }
      }
    }
    if !lib.builds(address, params) {
      return Err(UriBuildFailed);
    }
    return Ok(Uri(address, query));
  }

  /** What a request carries as its body: nothing, an object the codec refused, or the object's JSON text. */
  datatype Payload = NoPayload | Unserializable | Json(text: string)

  /** Only a POST with an object gets a body; the object is serialised to find out which. */
  function PayloadOf<T>(kind: RequestType, obj: Option<T>, serialize: T -> Option<string>): (p: Payload)
    ensures p != NoPayload <==> kind == POST && obj.Some?
    ensures p.Json? ==> obj.Some? && serialize(obj.value) == Some(p.text)
    ensures p == Unserializable ==> obj.Some? && serialize(obj.value).None?
  {
    if kind == POST && obj.Some? then
      match serialize(obj.value)
      case Some(json) => Json(json)
      case None => Unserializable
    else
      NoPayload
  }

  /** A body travels only on a POST, always together with the JSON content type, and is the only header. */
  predicate WellShaped(request: Request)
  {
    (request.body.Some? <==> ContentType in request.headers)
    && (request.body.Some? ==> request.requestType == POST && request.headers == map[ContentType := ApplicationJson])
    && (request.body.None? ==> request.headers == map[])
  }

  /**
   * The outcome `createRequest` must produce for a method, the prefixed address,
   * the parameters and the payload: the first failing step's error, or a
   * request of exactly that shape.
   */
  ghost predicate Built(r: Result<Request>, kind: RequestType, address: string, params: map<string, string>, payload: Payload, lib: HttpLibrary)
  {
    if !lib.parses(address) then r == Err(UriInitFailed)
    else if !lib.builds(address, params) then r == Err(UriBuildFailed)
    else if payload == Unserializable then r == Err(SerializationFailed)
    else
      r.Ok? && r.value.requestType == kind && r.value.uri.address == address
      && ListsExactly(r.value.uri.query, params)
      && r.value.body == (if payload.Json? then Some(payload.text) else None)
      && WellShaped(r.value)
  }

  /** Every request the builder can return is well shaped, and GET and DELETE never carry a body. */
  lemma BuiltRequestShape(r: Result<Request>, kind: RequestType, address: string, params: map<string, string>, payload: Payload, lib: HttpLibrary)
    requires Built(r, kind, address, params, payload, lib) && r.Ok?
    ensures WellShaped(r.value) && r.value.requestType == kind
    ensures kind != POST ==> r.value.body.None?
    ensures r.value.body.Some? <==> payload.Json?
  {
  }

  /** `createRequest`: build the URI, pick the method, and for a POST with an object attach its JSON and the content type. */
  method CreateRequest<T>(host: HostConfig, kind: RequestType, endpoint: string, params: map<string, string>,
                          obj: Option<T>, serialize: T -> Option<string>, lib: HttpLibrary)
    returns (r: Result<Request>)
    ensures Built(r, kind, WithHost(host.address, endpoint), params, PayloadOf(kind, obj, serialize), lib)
    ensures r.Ok? ==> (r.value.body.Some? <==> kind == POST && obj.Some?)
  {
    var uri := CreateURI(host, endpoint, params, lib);
    if uri.Err? {
      return Err(uri.error);
    }
    var request := Request(kind, uri.value, map[], None);
    if kind == POST && obj.Some? {
      var json := serialize(obj.value);
      if json.None? {
        return Err(SerializationFailed);
      }
      request := request.(headers := request.headers[ContentType := ApplicationJson], body := Some(json.value));
    }
    return Ok(request);
  }

  /** `createGetRequest`: a GET carries no body whatever happens. */
  method CreateGetRequest(host: HostConfig, endpoint: string, params: map<string, string>, lib: HttpLibrary)
    returns (r: Result<Request>)
    ensures Built(r, GET, WithHost(host.address, endpoint), params, NoPayload, lib)
    ensures r.Ok? ==> r.value.body.None?
  {
    r := CreateRequest<RequestType>(host, GET, endpoint, params, None, m => None, lib);
  }

  /** `createPostRequest`: the object is always present, so a successful POST always carries its JSON. */
  method CreatePostRequest<T>(host: HostConfig, endpoint: string, params: map<string, string>,
                              obj: T, serialize: T -> Option<string>, lib: HttpLibrary)
    returns (r: Result<Request>)
    ensures Built(r, POST, WithHost(host.address, endpoint), params, PayloadOf(POST, Some(obj), serialize), lib)
    ensures r.Ok? ==> r.value.body == serialize(obj) && r.value.body.Some?
  {
    r := CreateRequest(host, POST, endpoint, params, Some(obj), serialize, lib);
  }

  /** `createDeleteRequest`: a DELETE carries no body whatever happens. */
  method CreateDeleteRequest(host: HostConfig, endpoint: string, params: map<string, string>, lib: HttpLibrary)
    returns (r: Result<Request>)
    ensures Built(r, DELETE, WithHost(host.address, endpoint), params, NoPayload, lib)
    ensures r.Ok? ==> r.value.body.None?
  {
    r := CreateRequest<RequestType>(host, DELETE, endpoint, params, None, m => None, lib);
  }

  predicate IsSuccess(status: int)
  {
    status == StatusOk || status == StatusCreated || status == StatusAccepted
  }

  /**
   * `executeWithResponse`: 204 yields "" even without an entity; otherwise a
   * missing entity fails; 200, 201 and 202 yield the entity text verbatim; any
   * other status fails with the entity text itself as the message.
   */
  function ExecuteWithResponse(x: Exchange): (r: Result<string>)
    ensures r.Ok? <==> x.Responded? && (x.response.status == StatusNoContent
                                        || (x.response.entity.Some? && IsSuccess(x.response.status)))
    ensures x.Responded? && x.response.status == StatusNoContent ==> r == Ok("")
    ensures x.Responded? && x.response.status != StatusNoContent && x.response.entity.None? ==> r == Err(NoResponseEntity)
    ensures r.Ok? && x.response.status != StatusNoContent ==> r.value == x.response.entity.value
    ensures x.Responded? && x.response.entity.Some? && x.response.status != StatusNoContent && !IsSuccess(x.response.status)
            ==> r == Err(RestException(x.response.entity.value))
    ensures x.Unanswered? ==> r == Err(NoResponse)
    ensures x.IoFault? ==> r == Err(TransportFailed)
  {
    match x
    case Unanswered => Err(NoResponse)
    case IoFault => Err(TransportFailed)
    case Responded(response) =>
      if response.status == StatusNoContent then Ok("")
      else if response.entity.None? then Err(NoResponseEntity)
      else if IsSuccess(response.status) then Ok(response.entity.value)
      else Err(RestException(response.entity.value))
  }

  /**
   * `executeWithObjectResponse`: a blank body is "no object" whatever the
   * decoder would say; otherwise the decoder's object, or an error when it fails.
   */
  function ExecuteWithObjectResponse<T>(x: Exchange, deserialize: string -> Option<T>): (r: Result<Option<T>>)
    ensures ExecuteWithResponse(x).Err? ==> r == Err(ExecuteWithResponse(x).error)
    ensures ExecuteWithResponse(x).Ok? && IsBlank(ExecuteWithResponse(x).value) ==> r == Ok(None)
    ensures ExecuteWithResponse(x).Ok? && !IsBlank(ExecuteWithResponse(x).value) ==>
              r == (match deserialize(ExecuteWithResponse(x).value)
                    case Some(v) => Ok(Some(v))
                    case None => Err(DeserializationFailed))
  {
    match ExecuteWithResponse(x)
    case Err(e) => Err(e)
    case Ok(text) =>
      if IsBlank(text) then Ok(None)
      else match deserialize(text)
        case Some(v) => Ok(Some(v))
        case None => Err(DeserializationFailed)
  }

  /** `executeWithListResponse`: a blank body is the empty list; otherwise the decoder's list, or an error when it fails. */
  function ExecuteWithListResponse<T>(x: Exchange, deserializeList: string -> Option<seq<T>>): (r: Result<seq<T>>)
    ensures ExecuteWithResponse(x).Err? ==> r == Err(ExecuteWithResponse(x).error)
    ensures ExecuteWithResponse(x).Ok? && IsBlank(ExecuteWithResponse(x).value) ==> r == Ok([])
    ensures ExecuteWithResponse(x).Ok? && !IsBlank(ExecuteWithResponse(x).value) ==>
              r == (match deserializeList(ExecuteWithResponse(x).value)
                    case Some(vs) => Ok(vs)
                    case None => Err(DeserializationFailed))
  {
    match ExecuteWithResponse(x)
    case Err(e) => Err(e)
    case Ok(text) =>
      if IsBlank(text) then Ok([])
      else match deserializeList(text)
        case Some(vs) => Ok(vs)
        case None => Err(DeserializationFailed)
  }

  /** A 204 and a blank 200 both decode to "nothing", never to an error, whatever the decoders do. */
  lemma EmptyResponsesDecodeToNothing<T>(x: Exchange, deserialize: string -> Option<T>, deserializeList: string -> Option<seq<T>>)
    requires x.Responded?
    requires x.response.status == StatusNoContent
             || (x.response.status == StatusOk && x.response.entity.Some? && IsBlank(x.response.entity.value))
    ensures ExecuteWithObjectResponse(x, deserialize) == Ok(None)
    ensures ExecuteWithListResponse(x, deserializeList) == Ok([])
  {
  }

  /** A non-success status fails both decoders with the server's text as the message, e.g. 404 "not found". */
  lemma ErrorStatusCarriesBody<T>(x: Exchange, deserialize: string -> Option<T>, deserializeList: string -> Option<seq<T>>)
    requires x.Responded? && x.response.entity.Some?
    requires x.response.status != StatusNoContent && !IsSuccess(x.response.status)
    ensures ExecuteWithObjectResponse(x, deserialize) == Err(RestException(x.response.entity.value))
    ensures ExecuteWithListResponse(x, deserializeList) == Err(RestException(x.response.entity.value))
  {
  }
}
