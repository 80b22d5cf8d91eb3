/**
 * The Last.fm gateway: every call carries the API key and `format=json` as query
 * parameters, and a failure is either an HTTP status other than 200 or a 200
 * response whose body reports an `error`.
 */
module Lastfm {
  import opened Wrappers
  import opened Json
  import opened Http

  const BaseUrl: string := "https://ws.audioscrobbler.com/2.0"

  /** The parameters every call starts from, before the caller's are merged in. */
  function BaseParams(apiKey: string): Query {
    map["api_key" := Text(apiKey), "format" := Text("json")]
  }

  /**
   * The query actually sent: the base parameters overridden by the caller's.
   * The caller's keys keep the caller's values; `api_key` and `format` keep
   * their base values unless the caller supplied them; nothing else is added.
   */
  function OutgoingQuery(apiKey: string, params: Query): (q: Query)
    ensures q.Keys == params.Keys + {"api_key", "format"}
    ensures forall k :: k in params ==> q[k] == params[k]
    ensures "api_key" !in params ==> q["api_key"] == Text(apiKey)
    ensures "format" !in params ==> q["format"] == Text("json")
  {
    BaseParams(apiKey) + params
  }

  /** The GET request sent for `params`. */
  function LastfmRequest(apiKey: string, params: Query): Request {
    Request(HttpGet, BaseUrl, map[], Some(OutgoingQuery(apiKey, params)), map[])
  }

  /**
   * Classifies a response: a status other than 200 fails with that status; a 200
   * body that holds `"error"` fails with the provider's code and message; any
   * other body is returned unchanged.
   */
  function Classify(response: Response): (r: Result<Value, Error>)
    ensures response.status != 200 ==> r == Failure(LastfmHttp(response.status))
    ensures response.status == 200 && response.body.Obj? && "error" in response.body.fields ==>
      r.Failure? && r.error.LastfmApi? && r.error.code == response.body.fields["error"]
      && (r.error.message.Some? <==> "message" in response.body.fields)
      && (r.error.message.Some? ==> r.error.message.value == response.body.fields["message"])
    ensures response.status == 200 && response.body.Obj? && "error" !in response.body.fields ==>
      r == Success(response.body)
    ensures r.Success? ==> r.value == response.body
    ensures response.status == 200 ==> (r.Success? <==> Contains(response.body, "error") == Some(false))
    ensures response.status == 200 && !response.body.Obj? && r.Failure? ==> r.error == Malformed
  {
    if response.status != 200 then
      Failure(LastfmHttp(response.status))
    else
      match Contains(response.body, "error")
      case None => Failure(Malformed)
      case Some(false) => Success(response.body)
      case Some(true) =>
        if response.body.Obj? then
          var fields := response.body.fields;
          Failure(LastfmApi(fields["error"], if "message" in fields then Some(fields["message"]) else None))
        else
          Failure(Malformed)
  }

  /**
   * One Last.fm call. Without a usable API key it fails before any request is
   * issued; otherwise it sends exactly one GET carrying the merged query and
   * classifies the answer.
   */
  function Fetch(apiKey: Option<string>, params: Query, server: Server): (c: Call<Value>)
    ensures !Given(apiKey) ==> c == Call(Failure(LastfmKeyMissing), [])
    ensures Given(apiKey) ==>
      && |c.sent| == 1
      && c.sent[0].verb == HttpGet
      && c.sent[0].url == BaseUrl
      && c.sent[0].query == Some(OutgoingQuery(apiKey.value, params))
      && c.result == Classify(server(c.sent[0]))
  {
    if !Given(apiKey) then
      Call(Failure(LastfmKeyMissing), [])
    else
      var request := LastfmRequest(apiKey.value, params);
      Call(Classify(server(request)), [request])
  }

  /** When the caller supplies neither `api_key` nor `format`, both are added with their base values. */
  lemma BaseKeysAdded(apiKey: string, params: Query)
    requires "api_key" !in params && "format" !in params
    ensures OutgoingQuery(apiKey, params) == params["api_key" := Text(apiKey)]["format" := Text("json")]
  {
  }

  /** `user.getInfo` for `username`. */
  function UserInfo(apiKey: Option<string>, server: Server, username: string): (c: Call<Value>)
    ensures !Given(apiKey) ==> c == Call(Failure(LastfmKeyMissing), [])
    ensures Given(apiKey) ==>
      c.sent == [Request(HttpGet, BaseUrl, map[], Some(map[
        "method" := Text("user.getInfo"), "user" := Text(username),
        "api_key" := Text(apiKey.value), "format" := Text("json")]), map[])]
      && c.result == Classify(server(c.sent[0]))
  {
    var params := map["method" := Text("user.getInfo"), "user" := Text(username)];
    BaseKeysAdded(if Given(apiKey) then apiKey.value else "", params);
    Fetch(apiKey, params, server)
  }

  /** `artist.getInfo` for `artistName`. */
  function ArtistInfo(apiKey: Option<string>, server: Server, artistName: string): (c: Call<Value>)
    ensures !Given(apiKey) ==> c == Call(Failure(LastfmKeyMissing), [])
    ensures Given(apiKey) ==>
      c.sent == [Request(HttpGet, BaseUrl, map[], Some(map[
        "method" := Text("artist.getInfo"), "artist" := Text(artistName),
        "api_key" := Text(apiKey.value), "format" := Text("json")]), map[])]
      && c.result == Classify(server(c.sent[0]))
  {
    var params := map["method" := Text("artist.getInfo"), "artist" := Text(artistName)];
    BaseKeysAdded(if Given(apiKey) then apiKey.value else "", params);
    Fetch(apiKey, params, server)
  }

  /** `track.getInfo` for the track `trackName` by `artistName`. */
  function TrackInfo(apiKey: Option<string>, server: Server, artistName: string, trackName: string): (c: Call<Value>)
    ensures !Given(apiKey) ==> c == Call(Failure(LastfmKeyMissing), [])
    ensures Given(apiKey) ==>
      c.sent == [Request(HttpGet, BaseUrl, map[], Some(map[
        "method" := Text("track.getInfo"), "artist" := Text(artistName), "track" := Text(trackName),
        "api_key" := Text(apiKey.value), "format" := Text("json")]), map[])]
      && c.result == Classify(server(c.sent[0]))
  {
    var params := map["method" := Text("track.getInfo"), "artist" := Text(artistName), "track" := Text(trackName)];
    BaseKeysAdded(if Given(apiKey) then apiKey.value else "", params);
    Fetch(apiKey, params, server)
  }

  /**
   * `user.getTopArtists` for `username`. The defaults are those of the tool;
   * `limit` is passed through unchecked, so a value outside 1..50 reaches Last.fm,
   * whose error comes back through `Classify`.
   */
  function UserTopArtists(
    apiKey: Option<string>, server: Server, username: string,
    period: string := "overall", limit: int := 50, page: int := 1): (c: Call<Value>)
    ensures !Given(apiKey) ==> c == Call(Failure(LastfmKeyMissing), [])
    ensures Given(apiKey) ==>
      c.sent == [Request(HttpGet, BaseUrl, map[], Some(map[
        "method" := Text("user.getTopArtists"), "user" := Text(username), "period" := Text(period),
        "limit" := Number(limit), "page" := Number(page),
        "api_key" := Text(apiKey.value), "format" := Text("json")]), map[])]
      && c.result == Classify(server(c.sent[0]))
  {
    var params := map[
      "method" := Text("user.getTopArtists"), "user" := Text(username), "period" := Text(period),
      "limit" := Number(limit), "page" := Number(page)];
    BaseKeysAdded(if Given(apiKey) then apiKey.value else "", params);
    Fetch(apiKey, params, server)
  }
}
