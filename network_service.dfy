/** The HTTP helper every screen uses: it builds a request (method, JSON content type,
    optional bearer token, optional body), sends it, and maps the exchange's outcome
    to a decoded value or to one `NetworkError`. URL parsing, the URL session, JSON
    encoding and decoding are inputs: whether the address parses, what the transport
    returned, and whether the body decoded. */
module Network {
  import opened Wrappers
  import SwiftInt

  datatype HTTPMethod = Get | Post | Put | Delete

  /** `HTTPMethod.rawValue`: the method's token as sent on the request line, in
      upper-case letters. */
  function RawValue(m: HTTPMethod): (raw: string)
    ensures 3 <= |raw| <= 6
    ensures forall i :: 0 <= i < |raw| ==> 'A' <= raw[i] <= 'Z'
  {
    match m
    case Get => "GET"
    case Post => "POST"
    case Put => "PUT"
    case Delete => "DELETE"
  }

  /** `HTTPMethod(rawValue:)`. */
  function FromRawValue(s: string): (m: Option<HTTPMethod>)
    ensures m.Some? ==> RawValue(m.value) == s
  {
    match s
    case "GET" => Some(Get)
    case "POST" => Some(Post)
    case "PUT" => Some(Put)
    case "DELETE" => Some(Delete)
    case _ => None
  }

  /** Each method's raw value reads back as that method, so no two methods share a raw
      value. */
  lemma RawValueRoundTrip(m: HTTPMethod)
    ensures FromRawValue(RawValue(m)) == Some(m)
  {
  }

  /** The underlying `Error` a transport failure carries, reduced to its domain and code. */
  datatype Cause = Cause(domain: string, code: int)

  /** `NetworkError`; `NetworkFailure` is the case written `networkError(Error)`. */
  datatype NetworkError =
    | InvalidURL
    | NoData
    | DecodingError
    | Unauthorized
    | ServerError(message: string)
    | NetworkFailure(cause: Cause)

  type Bytes = seq<bv8>
  type Headers = map<string, string>

  datatype URLRequest = URLRequest(url: string, httpMethod: string, headers: Headers, httpBody: Option<Bytes>)

  const BaseURL: string := "http://10.10.10.117:3001"

  /** What JSON-encoding the request body gave: nothing to encode, an encoding, or a
      failed encoding (which `try?` turns into no body). */
  datatype BodyEncoding = NoBody | Encoded(bytes: Bytes) | EncodingFailed

  /** Builds the request for an address that parsed: the method's raw value, a JSON
      content type, a bearer token when authentication is asked for (an empty one when
      no token is stored), and the encoded body if there is one. */
  method BuildRequest(url: string, m: HTTPMethod, body: BodyEncoding, requiresAuth: bool, storedToken: Option<string>)
    returns (request: URLRequest)
    ensures request.url == url
    ensures request.httpMethod == RawValue(m)
    ensures request.headers.Keys == if requiresAuth then {"Content-Type", "Authorization"} else {"Content-Type"}
    ensures request.headers["Content-Type"] == "application/json"
    ensures requiresAuth ==>
              request.headers["Authorization"] == "Bearer " + (if storedToken.Some? then storedToken.value else "")
    ensures request.httpBody == if body.Encoded? then Some(body.bytes) else None
  {
    request := URLRequest(url, "GET", map[], None);
    request := request.(httpMethod := RawValue(m));
    request := request.(headers := request.headers["Content-Type" := "application/json"]);
    if requiresAuth {
      var token := if storedToken.Some? then storedToken.value else "";
      request := request.(headers := request.headers["Authorization" := "Bearer " + token]);
    }
    match body {
      case NoBody =>
      case Encoded(bytes) => request := request.(httpBody := Some(bytes));
      case EncodingFailed => request := request.(httpBody := None);
    }
  }

  /** What the URL session gave back: a thrown error, a response that is not HTTP, or an
      HTTP status with the outcome of decoding the body as `T`. */
  datatype Transport<T> =
    | TransportFailed(cause: Cause)
    | NonHTTPResponse
    | HTTPResponse(statusCode: int, decoded: Option<T>)

  /** How the `do` block ends: with a value, or by throwing a `NetworkError`, a
      `DecodingError`, or some other error. */
  datatype Thrown<T> =
    | Returns(value: T)
    | ThrowsNetworkError(error: NetworkError)
    | ThrowsDecodingError
    | ThrowsOther(cause: Cause)

  const StatusHead: string := "Status code: "

  /** The message of the error for an unexpected HTTP status; the status can be read
      back from what follows the fixed head. */
  function StatusMessage(status: int): (message: string)
    ensures |StatusHead| < |message| && message[..|StatusHead|] == StatusHead
    ensures SwiftInt.ParseDecimal(message[|StatusHead|..]) == Some(status)
  {
    var message := StatusHead + SwiftInt.IntToString(status);
    assert message[|StatusHead|..] == SwiftInt.IntToString(status);
    SwiftInt.DecimalRoundTrip(status);
    message
  }

  /** The `do` block: a non-HTTP response throws `networkError` with an empty-domain,
      code -1 cause; 200...299 decodes the body; 401 is `unauthorized`; any other
      status is a server error naming it. */
  function Exchange<T>(t: Transport<T>): (outcome: Thrown<T>)
    ensures outcome.Returns? <==> t.HTTPResponse? && 200 <= t.statusCode <= 299 && t.decoded.Some?
    ensures outcome.ThrowsDecodingError? <==> t.HTTPResponse? && 200 <= t.statusCode <= 299 && t.decoded.None?
    ensures outcome.ThrowsOther? <==> t.TransportFailed?
    ensures t.TransportFailed? ==> outcome == ThrowsOther(t.cause)
    ensures t.NonHTTPResponse? ==> outcome == ThrowsNetworkError(NetworkFailure(Cause("", -1)))
    ensures t.HTTPResponse? && t.statusCode == 401 ==> outcome == ThrowsNetworkError(Unauthorized)
    ensures t.HTTPResponse? && !(200 <= t.statusCode <= 299) && t.statusCode != 401 ==>
              outcome == ThrowsNetworkError(ServerError(StatusMessage(t.statusCode)))
  {
    match t
    case TransportFailed(cause) => ThrowsOther(cause)
    case NonHTTPResponse => ThrowsNetworkError(NetworkFailure(Cause("", -1)))
    case HTTPResponse(status, decoded) =>
      if 200 <= status <= 299 then
        (match decoded
         case Some(v) => Returns(v)
         case None => ThrowsDecodingError)
      else if status == 401 then ThrowsNetworkError(Unauthorized)
      else ThrowsNetworkError(ServerError(StatusMessage(status)))
  }

  /** The three `catch` clauses: a `NetworkError` is rethrown as it is, a decoding
      error becomes `decodingError`, anything else is wrapped as `networkError`. */
  function Rewrap<T>(outcome: Thrown<T>): (r: Result<T, NetworkError>)
    ensures outcome.ThrowsNetworkError? ==> r == Failure(outcome.error)
    ensures outcome.Returns? <==> r.Success?
    ensures outcome.Returns? ==> r.value == outcome.value
    ensures outcome.ThrowsDecodingError? ==> r == Failure(DecodingError)
    ensures outcome.ThrowsOther? ==> r == Failure(NetworkFailure(outcome.cause))
  {
    match outcome
    case Returns(v) => Success(v)
    case ThrowsNetworkError(e) => Failure(e)
    case ThrowsDecodingError => Failure(DecodingError)
    case ThrowsOther(cause) => Failure(NetworkFailure(cause))
  }

  /** `request`: an address that does not parse fails with `invalidURL` and sends
      nothing; otherwise the built request is sent and the exchange classified. */
  method Request<T>(endpoint: string, m: HTTPMethod, body: BodyEncoding, requiresAuth: bool,
                    storedToken: Option<string>, urlParses: bool, transport: Transport<T>)
    returns (r: Result<T, NetworkError>, sent: Option<URLRequest>)
    ensures !urlParses ==> r == Failure(InvalidURL) && sent == None
    ensures urlParses ==> r == Rewrap(Exchange(transport)) && sent.Some?
    ensures sent.Some? ==> sent.value.url == BaseURL + endpoint && sent.value.httpMethod == RawValue(m)
    ensures sent.Some? ==>
              sent.value.headers.Keys == if requiresAuth then {"Content-Type", "Authorization"} else {"Content-Type"}
    ensures sent.Some? ==> sent.value.headers["Content-Type"] == "application/json"
    ensures sent.Some? && requiresAuth ==>
              sent.value.headers["Authorization"] == "Bearer " + (if storedToken.Some? then storedToken.value else "")
    ensures sent.Some? ==> sent.value.httpBody == if body.Encoded? then Some(body.bytes) else None
  {
    if !urlParses {
      return Failure(InvalidURL), None;
    }
    var request := BuildRequest(BaseURL + endpoint, m, body, requiresAuth, storedToken);
    sent := Some(request);
    r := Rewrap(Exchange(transport));
  }

  /** The whole classification of an exchange, status by status: success exactly for a
      2xx status whose body decoded, `decodingError` for a 2xx body that did not,
      `unauthorized` exactly for 401, a server error naming every other status (and
      from which the status can be read back), and `networkError` for a non-HTTP
      response or a transport failure. `invalidURL` and `noData` never come out of an
      exchange. */
  lemma ClassifyExchange<T>(t: Transport<T>)
    ensures var r := Rewrap(Exchange(t));
      && (r.Success? <==> t.HTTPResponse? && 200 <= t.statusCode <= 299 && t.decoded.Some?)
      && (r == Failure(DecodingError) <==> t.HTTPResponse? && 200 <= t.statusCode <= 299 && t.decoded.None?)
      && (r == Failure(Unauthorized) <==> t.HTTPResponse? && t.statusCode == 401)
      && (r.Failure? && r.error.ServerError? <==> t.HTTPResponse? && !(200 <= t.statusCode <= 299) && t.statusCode != 401)
      && (t.HTTPResponse? && !(200 <= t.statusCode <= 299) && t.statusCode != 401 ==>
            r == Failure(ServerError(StatusMessage(t.statusCode))))
      && (r.Failure? && r.error.NetworkFailure? <==> t.TransportFailed? || t.NonHTTPResponse?)
      && (t.TransportFailed? ==> r == Failure(NetworkFailure(t.cause)))
      && (t.NonHTTPResponse? ==> r == Failure(NetworkFailure(Cause("", -1))))
      && r != Failure(InvalidURL) && r != Failure(NoData)
  {
  }

  /** Different statuses give different server-error messages. */
  lemma StatusMessageInjective(a: int, b: int)
    ensures StatusMessage(a) == StatusMessage(b) ==> a == b
  {
    if StatusMessage(a) == StatusMessage(b) {
      assert StatusMessage(a)[|StatusHead|..] == StatusMessage(b)[|StatusHead|..];
    }
  }
}
