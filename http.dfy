/**
 * The abstract network shared by the three gateways: requests, responses, the
 * server that answers them, and the error taxonomy of the tools.
 */
module Http {
  import opened Wrappers
  import opened Json

  datatype Verb = HttpGet | HttpPost

  /** A query parameter value: the tools pass strings and integers. */
  datatype Param = Text(s: string) | Number(n: int)

  type Query = map<string, Param>

  /**
   * One outgoing HTTP request: `query` is the `params=` argument (absent when the
   * caller passes none), `form` the url-encoded body of a POST.
   */
  datatype Request = Request(
    verb: Verb,
    url: string,
    headers: map<string, string>,
    query: Option<Query>,
    form: map<string, string>)

  /** A response: its status code and its decoded JSON body. */
  datatype Response = Response(status: int, body: Value)

  /** The network: the response the upstream service gives to a request. */
  type Server = Request -> Response

  /** Every way a tool call fails. */
  datatype Error =
    | LastfmKeyMissing
    | LastfmHttp(status: int)
    | LastfmApi(code: Value, message: Option<Value>)
    | SpotifyCredentialsMissing
    | SpotifyAuth(status: int)
    | SpotifyHttp(status: int)
    | ClashHttp(status: int)
    /** A KeyError, TypeError or AttributeError raised on a body of unexpected shape. */
    | Malformed

  /** The outcome of a stateless call and the requests it issued, in order. */
  datatype Call<+T> = Call(result: Result<T, Error>, sent: seq<Request>)

  /** Python's `if not setting`: a configuration value counts only when set and non-empty. */
  predicate Given(setting: Option<string>) {
    setting.Some? && setting.value != ""
  }

  /** The status check shared by the Spotify and Clash of Clans gateways. */
  function CheckStatus(response: Response, failure: int -> Error): (r: Result<Value, Error>)
    ensures r.Success? <==> response.status == 200
    ensures r.Success? ==> r.value == response.body
    ensures r.Failure? ==> r.error == failure(response.status)
  {
    if response.status != 200 then Failure(failure(response.status)) else Success(response.body)
  }
}
