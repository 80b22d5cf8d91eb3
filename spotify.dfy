/**
 * The Spotify gateway: a client-credentials bearer token kept in a single cache
 * entry, reused while its expiry lies in the future and otherwise refreshed, and
 * resource calls under the Web API base that carry that token.
 */
module Spotify {
  import opened Wrappers
  import opened Json
  import opened Http

  const AuthUrl: string := "https://accounts.spotify.com/api/token"
  const ApiBase: string := "https://api.spotify.com/v1"
  /** The lifetime assumed when the token response gives none. */
  const DefaultLifetime: int := 3600
  /** Seconds taken off the declared lifetime before the token counts as expired. */
  const SafetyMargin: int := 60

  /** The client id and secret, as read from the environment. */
  datatype Credentials = Credentials(clientId: Option<string>, clientSecret: Option<string>)

  predicate Configured(c: Credentials) {
    Given(c.clientId) && Given(c.clientSecret)
  }

  /** The one cache entry: the token and the second at which it stops being reused. */
  datatype CachedToken = CachedToken(token: string, expiresAt: int)

  /**
   * The two clock readings of one token acquisition: when the cache is consulted,
   * and when the expiry of a freshly issued token is computed.
   */
  datatype Clock = Clock(lookup: int, issue: int)

  /** The outcome of a call through the cache: its result, the cache afterwards, the requests issued. */
  datatype Step<+T> = Step(result: Result<T, Error>, cache: Option<CachedToken>, sent: seq<Request>)

  /** The cached token is reused at `now`: the comparison is strict. */
  predicate Live(cache: Option<CachedToken>, now: int) {
    cache.Some? && cache.value.expiresAt > now
  }

  /** The client-credentials token request: a form POST to the token endpoint. */
  function AuthRequest(c: Credentials): (r: Request)
    requires Configured(c)
    ensures r.verb == HttpPost && r.url == AuthUrl && r.query == None && r.headers == map[]
    ensures r.form.Keys == {"grant_type", "client_id", "client_secret"}
    ensures r.form["grant_type"] == "client_credentials"
    ensures r.form["client_id"] == c.clientId.value && r.form["client_secret"] == c.clientSecret.value
  {
    Request(HttpPost, AuthUrl, map[], None, map[
      "grant_type" := "client_credentials",
      "client_id" := c.clientId.value,
      "client_secret" := c.clientSecret.value])
  }

  /** Python's `int(v)` on the decoded values it converts exactly; `None` for a TypeError. */
  function AsInt(v: Value): (r: Option<int>)
    ensures r.Some? <==> v.Int? || v.Bool?
    ensures v.Int? ==> r == Some(v.i)
    ensures v == Bool(true) ==> r == Some(1)
    ensures v == Bool(false) ==> r == Some(0)
  {
    match v
    case Int(i) => Some(i)
    case Bool(b) => Some(if b then 1 else 0)
    case _ => None
  }

  /**
   * `int(token_data.get("expires_in", 3600))`: the declared lifetime, 3600 only when
   * the key is absent (a declared 0 stays 0).
   */
  function Lifetime(body: Value): (r: Option<int>)
    ensures !body.Obj? ==> r == None
    ensures body.Obj? && "expires_in" !in body.fields ==> r == Some(DefaultLifetime)
    ensures body.Obj? && "expires_in" in body.fields ==> r == AsInt(body.fields["expires_in"])
  {
    match GetOr(body, "expires_in", Int(DefaultLifetime))
    case None => None
    case Some(v) => AsInt(v)
  }

  /**
   * The new cache entry built from a token response: the `access_token` with an expiry
   * of `issuedAt + lifetime - 60`; `None` when the body lacks either part.
   */
  function IssueToken(body: Value, issuedAt: int): (r: Option<CachedToken>)
    ensures r.Some? <==>
      Lifetime(body).Some? && body.Obj? && "access_token" in body.fields && body.fields["access_token"].Str?
    ensures r.Some? ==>
      && body.fields["access_token"] == Str(r.value.token)
      && r.value.expiresAt == issuedAt + Lifetime(body).value - SafetyMargin
  {
    match Lifetime(body)
    case None => None
    case Some(lifetime) =>
      var fields := body.fields;
      if "access_token" in fields && fields["access_token"].Str? then
        Some(CachedToken(fields["access_token"].s, issuedAt + lifetime - SafetyMargin))
      else
        None
  }

  /**
   * `_get_spotify_token` on the cache it finds. The credential check comes first;
   * a live entry is returned with no request and no change; otherwise exactly one
   * token request is made, a failure leaves the cache as it was, and a success
   * replaces the entry whole with the token it returns.
   */
  function Acquire(creds: Credentials, cache: Option<CachedToken>, clock: Clock, server: Server): (s: Step<string>)
    ensures !Configured(creds) ==> s == Step(Failure(SpotifyCredentialsMissing), cache, [])
    ensures Configured(creds) && Live(cache, clock.lookup) ==> s == Step(Success(cache.value.token), cache, [])
    ensures Configured(creds) && !Live(cache, clock.lookup) ==> s.sent == [AuthRequest(creds)]
    ensures Configured(creds) && !Live(cache, clock.lookup) && server(AuthRequest(creds)).status != 200 ==>
      s.result == Failure(SpotifyAuth(server(AuthRequest(creds)).status))
    ensures s.result.Success? ==> s.cache.Some? && s.cache.value.token == s.result.value
    ensures s.result.Failure? ==> s.cache == cache
    ensures s.sent != [] && s.result.Success? ==>
      && server(AuthRequest(creds)).status == 200
      && s.cache == IssueToken(server(AuthRequest(creds)).body, clock.issue)
  {
    if !Configured(creds) then
      Step(Failure(SpotifyCredentialsMissing), cache, [])
    else if Live(cache, clock.lookup) then
      Step(Success(cache.value.token), cache, [])
    else
      var request := AuthRequest(creds);
      var response := server(request);
      if response.status != 200 then
        Step(Failure(SpotifyAuth(response.status)), cache, [request])
      else
        match IssueToken(response.body, clock.issue)
        case None => Step(Failure(Malformed), cache, [request])
        case Some(entry) => Step(Success(entry.token), Some(entry), [request])
  }

  /** The resource request for `endpoint`, carrying the bearer token. */
  function ApiRequest(endpoint: string, params: Option<Query>, token: string): Request {
    Request(HttpGet, ApiBase + endpoint, map["Authorization" := "Bearer " + token], params, map[])
  }

  /**
   * `_spotify_get`: a token failure is the call's failure and no resource request
   * is made; otherwise one GET to `ApiBase + endpoint` with the token the cache now
   * holds, status 200 returning the body unchanged and any other status failing
   * with that status.
   */
  function Fetch(
    creds: Credentials, cache: Option<CachedToken>, clock: Clock, server: Server,
    endpoint: string, params: Option<Query>): (s: Step<Value>)
    ensures var t := Acquire(creds, cache, clock, server);
      t.result.Failure? ==> s == Step(Failure(t.result.error), t.cache, t.sent)
    ensures var t := Acquire(creds, cache, clock, server);
      t.result.Success? ==>
        && s.cache == t.cache
        && |s.sent| == |t.sent| + 1
        && s.sent[..|t.sent|] == t.sent
        && var call := s.sent[|t.sent|];
        && call.verb == HttpGet
        && call.url == ApiBase + endpoint
        && call.headers == map["Authorization" := "Bearer " + s.cache.value.token]
        && call.query == params
        && (s.result.Success? <==> server(call).status == 200)
        && (s.result.Success? ==> s.result.value == server(call).body)
        && (s.result.Failure? ==> s.result.error == SpotifyHttp(server(call).status))
  {
    var t := Acquire(creds, cache, clock, server);
    match t.result
    case Failure(e) => Step(Failure(e), t.cache, t.sent)
    case Success(token) =>
      var request := ApiRequest(endpoint, params, token);
      Step(CheckStatus(server(request), status => SpotifyHttp(status)), t.cache, t.sent + [request])
  }

  /** The `/search` query for artists matching `q`. */
  function ArtistSearch(q: string, limit: int): Query {
    map["q" := Text(q), "type" := Text("artist"), "limit" := Number(limit)]
  }

  /**
   * `artists.items` of a search response, with the defaults of the source
   * (`{}` and `[]`); `None` when a level is not a dict (an AttributeError).
   */
  function SearchItems(body: Value): (r: Option<Value>)
    ensures r.Some? <==> body.Obj? && ("artists" !in body.fields || body.fields["artists"].Obj?)
    ensures body.Obj? && "artists" !in body.fields ==> r == Some(Arr([]))
    ensures body.Obj? && "artists" in body.fields && body.fields["artists"].Obj? ==>
      var artists := body.fields["artists"].fields;
      r == Some(if "items" in artists then artists["items"] else Arr([]))
  {
    match GetOr(body, "artists", Obj(map[]))
    case None => None
    case Some(artists) => GetOr(artists, "items", Arr([]))
  }

  /** The search items form a non-empty list whose first element is a dict with a string `id`. */
  predicate HasFirstId(body: Value) {
    && SearchItems(body).Some?
    && var items := SearchItems(body).value;
    && items.Arr? && items.items != []
    && items.items[0].Obj? && "id" in items.items[0].fields
    && items.items[0].fields["id"].Str?
  }

  /**
   * The id of the best match of a search: `None` when there is no match (the items
   * are falsy), the first item's `id` when the items form a non-empty list whose
   * first element holds a string id, and a failure for any other shape.
   */
  function FirstArtistId(body: Value): (r: Result<Option<string>, Error>)
    ensures r == Success(None) <==> SearchItems(body).Some? && !Truthy(SearchItems(body).value)
    ensures HasFirstId(body) ==> r == Success(Some(SearchItems(body).value.items[0].fields["id"].s))
    ensures r.Success? && r.value.Some? ==> HasFirstId(body)
    ensures r.Failure? ==> r.error == Malformed
  {
    match SearchItems(body)
    case None => Failure(Malformed)
    case Some(items) =>
      if !Truthy(items) then Success(None)
      else if items.Arr? && items.items[0].Obj? && "id" in items.items[0].fields
              && items.items[0].fields["id"].Str? then
        Success(Some(items.items[0].fields["id"].s))
      else
        Failure(Malformed)
  }

  /** What a Python caller gets back from `response.json()`: a JSON `null` is `None`. */
  function Nullable(v: Value): (r: Option<Value>)
    ensures r.None? <==> v == Null
    ensures r.Some? ==> r.value == v
  {
    if v == Null then None else Some(v)
  }

  /**
   * `get_artist_details_by_name`: a search for `name` with limit 1; no match gives
   * `None` and no further request, a match gives the details of its id (`None`
   * again when those details are a JSON `null`).
   */
  function DetailsByName(
    creds: Credentials, cache: Option<CachedToken>, searchClock: Clock, detailsClock: Clock,
    server: Server, name: string): (s: Step<Option<Value>>)
    ensures var search := Fetch(creds, cache, searchClock, server, "/search", Some(ArtistSearch(name, 1)));
      search.result.Failure? ==> s == Step(Failure(search.result.error), search.cache, search.sent)
    ensures var search := Fetch(creds, cache, searchClock, server, "/search", Some(ArtistSearch(name, 1)));
      search.result.Success? && FirstArtistId(search.result.value) == Success(None) ==>
        s == Step(Success(None), search.cache, search.sent)
    ensures var search := Fetch(creds, cache, searchClock, server, "/search", Some(ArtistSearch(name, 1)));
      search.result.Success? && FirstArtistId(search.result.value).Failure? ==>
        s == Step(Failure(Malformed), search.cache, search.sent)
  {
    var search := Fetch(creds, cache, searchClock, server, "/search", Some(ArtistSearch(name, 1)));
    match search.result
    case Failure(e) => Step(Failure(e), search.cache, search.sent)
    case Success(body) =>
      match FirstArtistId(body)
      case Failure(e) => Step(Failure(e), search.cache, search.sent)
      case Success(None) => Step(Success(None), search.cache, search.sent)
      case Success(Some(id)) =>
        var details := Fetch(creds, search.cache, detailsClock, server, "/artists/" + id, None);
        var result := match details.result
          case Failure(e) => Failure(e)
          case Success(v) => Success(Nullable(v));
        Step(result, details.cache, search.sent + details.sent)
  }

  /**
   * A search without a match ends the call: the result is `None`, and every request
   * it made went to the token endpoint or to `/search`.
   */
  lemma NotFoundMakesNoDetailsCall(
    creds: Credentials, cache: Option<CachedToken>, searchClock: Clock, detailsClock: Clock,
    server: Server, name: string)
    requires var search := Fetch(creds, cache, searchClock, server, "/search", Some(ArtistSearch(name, 1)));
      search.result.Success? && SearchItems(search.result.value).Some?
      && !Truthy(SearchItems(search.result.value).value)
    ensures DetailsByName(creds, cache, searchClock, detailsClock, server, name).result == Success(None)
    ensures forall q :: q in DetailsByName(creds, cache, searchClock, detailsClock, server, name).sent ==>
      q.url == AuthUrl || q.url == ApiBase + "/search"
  {
  }

  /**
   * A search whose first item has id `id` is followed by exactly the details call
   * for `id` (with the cache the search left), whose outcome is the call's.
   */
  lemma MatchFetchesFirstId(
    creds: Credentials, cache: Option<CachedToken>, searchClock: Clock, detailsClock: Clock,
    server: Server, name: string, id: string)
    requires var search := Fetch(creds, cache, searchClock, server, "/search", Some(ArtistSearch(name, 1)));
      search.result.Success? && FirstArtistId(search.result.value) == Success(Some(id))
    ensures var search := Fetch(creds, cache, searchClock, server, "/search", Some(ArtistSearch(name, 1)));
      var details := Fetch(creds, search.cache, detailsClock, server, "/artists/" + id, None);
      var s := DetailsByName(creds, cache, searchClock, detailsClock, server, name);
      && s.sent == search.sent + details.sent
      && s.cache == details.cache
      && (details.result.Success? ==> s.result == Success(Nullable(details.result.value)))
      && (details.result.Failure? ==> s.result == Failure(details.result.error))
      && (details.result.Success? ==> s.sent[|s.sent| - 1].url == ApiBase + "/artists/" + id)
  {
  }

  /**
   * A search answer listing an artist with id `id` first leads to exactly one
   * resource request after the search, the details request for `/artists/<id>`
   * (when the token for it is obtained), and its body is what the call returns.
   */
  lemma FirstSearchItemFetched(
    creds: Credentials, cache: Option<CachedToken>, searchClock: Clock, detailsClock: Clock,
    server: Server, name: string, id: string, rest: seq<Value>, item: map<string, Value>)
    requires var search := Fetch(creds, cache, searchClock, server, "/search", Some(ArtistSearch(name, 1)));
      && search.result.Success?
      && search.result.value.Obj?
      && "artists" in search.result.value.fields
      && search.result.value.fields["artists"].Obj?
      && "items" in search.result.value.fields["artists"].fields
      && search.result.value.fields["artists"].fields["items"] == Arr([Obj(item)] + rest)
      && "id" in item && item["id"] == Str(id)
    ensures var search := Fetch(creds, cache, searchClock, server, "/search", Some(ArtistSearch(name, 1)));
      var details := Fetch(creds, search.cache, detailsClock, server, "/artists/" + id, None);
      var s := DetailsByName(creds, cache, searchClock, detailsClock, server, name);
      && s.sent == search.sent + details.sent
      && (details.result.Success? ==>
            && s.sent[|s.sent| - 1].url == ApiBase + "/artists/" + id
            && s.sent[|s.sent| - 1].query == None
            && s.result == Success(Nullable(details.result.value)))
      && (details.result.Failure? ==> s.result == Failure(details.result.error))
  {
  }

  /** A second acquisition before the first one's expiry reuses its token with no request. */
  lemma ReuseWithinWindow(creds: Credentials, cache: Option<CachedToken>, first: Clock, second: Clock, s1: Server, s2: Server)
    requires Acquire(creds, cache, first, s1).result.Success?
    requires second.lookup < Acquire(creds, cache, first, s1).cache.value.expiresAt
    ensures var a := Acquire(creds, cache, first, s1);
      Acquire(creds, a.cache, second, s2) == Step(a.result, a.cache, [])
  {
  }

  /** Once the expiry is reached (equality included), the next acquisition makes exactly one token request. */
  lemma RefreshWhenExpired(creds: Credentials, entry: CachedToken, clock: Clock, server: Server)
    requires Configured(creds) && entry.expiresAt <= clock.lookup
    ensures Acquire(creds, Some(entry), clock, server).sent == [AuthRequest(creds)]
    ensures Acquire(creds, Some(entry), clock, server).sent[0].url == AuthUrl
  {
  }

  /**
   * A successful refresh stores `issue + expires_in - 60`, with 3600 for a missing
   * `expires_in`, and returns the token it stored.
   */
  lemma RefreshStoresExpiry(creds: Credentials, cache: Option<CachedToken>, clock: Clock, server: Server, token: string)
    requires Configured(creds) && !Live(cache, clock.lookup)
    requires var response := server(AuthRequest(creds));
      response.status == 200 && response.body.Obj?
      && "access_token" in response.body.fields && response.body.fields["access_token"] == Str(token)
      && ("expires_in" in response.body.fields ==> response.body.fields["expires_in"].Int?)
    ensures var fields := server(AuthRequest(creds)).body.fields;
      var lifetime := if "expires_in" in fields then fields["expires_in"].i else DefaultLifetime;
      Acquire(creds, cache, clock, server) == Step(Success(token), Some(CachedToken(token, clock.issue + lifetime - SafetyMargin)), [AuthRequest(creds)])
  {
  }

  /**
   * A declared lifetime of at most 60 seconds gives a token already expired when
   * issued: an acquisition at that same second refreshes again.
   */
  lemma ShortLifetimeExpiredOnArrival(creds: Credentials, cache: Option<CachedToken>, clock: Clock, server: Server, next: Clock, later: Server)
    requires Acquire(creds, cache, clock, server).sent != []
    requires Acquire(creds, cache, clock, server).result.Success?
    requires Lifetime(server(AuthRequest(creds)).body).value <= SafetyMargin
    requires next.lookup == clock.issue
    ensures !Live(Acquire(creds, cache, clock, server).cache, clock.issue)
    ensures Acquire(creds, Acquire(creds, cache, clock, server).cache, next, later).sent == [AuthRequest(creds)]
  {
  }

  /** One `_get_spotify_token` call: its clock readings and the network it meets. */
  datatype Moment = Moment(clock: Clock, server: Server)

  /**
   * Successive acquisitions through one cache: the last call's result, the final
   * cache, and every request the calls issued, in order.
   */
  function Session(creds: Credentials, cache: Option<CachedToken>, moments: seq<Moment>): (s: Step<string>)
    requires moments != []
    decreases |moments|
  {
    var first := Acquire(creds, cache, moments[0].clock, moments[0].server);
    if |moments| == 1 then first
    else
      var rest := Session(creds, first.cache, moments[1..]);
      Step(rest.result, rest.cache, first.sent + rest.sent)
  }

  /**
   * At most one refresh per expiry window: once a call has obtained a token, every
   * later call consulting the cache before that token's expiry returns the same
   * token, and the whole session issues only the first call's requests.
   */
  lemma {:induction false} OneRefreshPerWindow(creds: Credentials, cache: Option<CachedToken>, moments: seq<Moment>)
    requires moments != []
    requires Acquire(creds, cache, moments[0].clock, moments[0].server).result.Success?
    requires forall i :: 1 <= i < |moments| ==>
      moments[i].clock.lookup < Acquire(creds, cache, moments[0].clock, moments[0].server).cache.value.expiresAt
    ensures var first := Acquire(creds, cache, moments[0].clock, moments[0].server);
      Session(creds, cache, moments) == first
    decreases |moments|
  {
    var first := Acquire(creds, cache, moments[0].clock, moments[0].server);
    if |moments| > 1 {
      var tail := moments[1..];
      ReuseWithinWindow(creds, cache, moments[0].clock, tail[0].clock, moments[0].server, tail[0].server);
      assert Acquire(creds, first.cache, tail[0].clock, tail[0].server) == Step(first.result, first.cache, []);
      forall i | 1 <= i < |tail|
        ensures tail[i].clock.lookup < Acquire(creds, first.cache, tail[0].clock, tail[0].server).cache.value.expiresAt
      {
        assert tail[i] == moments[i + 1];
      }
      OneRefreshPerWindow(creds, first.cache, tail);
      assert first.sent + [] == first.sent;
    }
  }

  /**
   * The Spotify client: the credentials it was configured with and the single
   * process-wide token cache entry, which only `GetToken` writes.
   */
  class Client {
    const credentials: Credentials
    var cache: Option<CachedToken>

    constructor(credentials: Credentials)
      ensures this.credentials == credentials && cache == None
    {
      this.credentials := credentials;
      cache := None;
    }

    /** `_get_spotify_token`. */
    method GetToken(clock: Clock, server: Server) returns (r: Result<string, Error>, sent: seq<Request>)
      modifies this
      ensures Step(r, cache, sent) == Acquire(credentials, old(cache), clock, server)
    {
      if !Configured(credentials) {
        return Failure(SpotifyCredentialsMissing), [];
      }
      if cache.Some? && cache.value.expiresAt > clock.lookup {
        return Success(cache.value.token), [];
      }
      var request := AuthRequest(credentials);
      var response := server(request);
      sent := [request];
      if response.status != 200 {
        return Failure(SpotifyAuth(response.status)), sent;
      }
      var entry := IssueToken(response.body, clock.issue);
      if entry.None? {
        return Failure(Malformed), sent;
      }
      cache := entry;
      r := Success(entry.value.token);
    }

    /** `_spotify_get`. */
    method Get(clock: Clock, server: Server, endpoint: string, params: Option<Query> := None)
      returns (r: Result<Value, Error>, sent: seq<Request>)
      modifies this
      ensures Step(r, cache, sent) == Fetch(credentials, old(cache), clock, server, endpoint, params)
    {
      var token, tokenSent := GetToken(clock, server);
      if token.Failure? {
        return Failure(token.error), tokenSent;
      }
      var request := ApiRequest(endpoint, params, token.value);
      var response := server(request);
      sent := tokenSent + [request];
      if response.status != 200 {
        r := Failure(SpotifyHttp(response.status));
      } else {
        r := Success(response.body);
      }
    }

    /** `search_artists_by_genre`: `/search` for `genre:"<genre>"`. */
    method SearchArtistsByGenre(clock: Clock, server: Server, genre: string, limit: int := 20)
      returns (r: Result<Value, Error>, sent: seq<Request>)
      modifies this
      ensures Step(r, cache, sent) ==
        Fetch(credentials, old(cache), clock, server, "/search", Some(map[
          "q" := Text("genre:\"" + genre + "\""), "type" := Text("artist"), "limit" := Number(limit)]))
    {
      r, sent := Get(clock, server, "/search", Some(ArtistSearch("genre:\"" + genre + "\"", limit)));
    }

    /** `get_artist_details`: `/artists/<id>` without parameters. */
    method GetArtistDetails(clock: Clock, server: Server, artistId: string)
      returns (r: Result<Value, Error>, sent: seq<Request>)
      modifies this
      ensures Step(r, cache, sent) == Fetch(credentials, old(cache), clock, server, "/artists/" + artistId, None)
    {
      r, sent := Get(clock, server, "/artists/" + artistId);
    }

    /** `get_artist_top_tracks`: `/artists/<id>/top-tracks` for a market, `US` by default. */
    method GetArtistTopTracks(clock: Clock, server: Server, artistId: string, market: string := "US")
      returns (r: Result<Value, Error>, sent: seq<Request>)
      modifies this
      ensures Step(r, cache, sent) ==
        Fetch(credentials, old(cache), clock, server, "/artists/" + artistId + "/top-tracks",
          Some(map["market" := Text(market)]))
    {
      r, sent := Get(clock, server, "/artists/" + artistId + "/top-tracks", Some(map["market" := Text(market)]));
    }

    /** `get_artist_albums`: `/artists/<id>/albums`, 20 albums by default. */
    method GetArtistAlbums(clock: Clock, server: Server, artistId: string, limit: int := 20, includeGroups: string := "album")
      returns (r: Result<Value, Error>, sent: seq<Request>)
      modifies this
      ensures Step(r, cache, sent) ==
        Fetch(credentials, old(cache), clock, server, "/artists/" + artistId + "/albums",
          Some(map["limit" := Number(limit), "include_groups" := Text(includeGroups)]))
    {
      r, sent := Get(clock, server, "/artists/" + artistId + "/albums",
        Some(map["limit" := Number(limit), "include_groups" := Text(includeGroups)]));
    }

    /** `search_artist_by_name`: `/search` for the name, 10 results by default. */
    method SearchArtistByName(clock: Clock, server: Server, artistName: string, limit: int := 10)
      returns (r: Result<Value, Error>, sent: seq<Request>)
      modifies this
      ensures Step(r, cache, sent) ==
        Fetch(credentials, old(cache), clock, server, "/search", Some(map[
          "q" := Text(artistName), "type" := Text("artist"), "limit" := Number(limit)]))
    {
      r, sent := Get(clock, server, "/search", Some(ArtistSearch(artistName, limit)));
    }

    /** `get_artist_details_by_name`: `None` is the not-found result. */
    method GetArtistDetailsByName(searchClock: Clock, detailsClock: Clock, server: Server, artistName: string)
      returns (r: Result<Option<Value>, Error>, sent: seq<Request>)
      modifies this
      ensures Step(r, cache, sent) ==
        DetailsByName(credentials, old(cache), searchClock, detailsClock, server, artistName)
    {
      var search, searchSent := SearchArtistByName(searchClock, server, artistName, limit := 1);
      if search.Failure? {
        return Failure(search.error), searchSent;
      }
      var id := FirstArtistId(search.value);
      if id.Failure? {
        return Failure(id.error), searchSent;
      }
      if id.value.None? {
        return Success(None), searchSent;
      }
      var details, detailsSent := GetArtistDetails(detailsClock, server, id.value.value);
      sent := searchSent + detailsSent;
      if details.Failure? {
        r := Failure(details.error);
      } else {
        r := Success(Nullable(details.value));
      }
    }
  }
}
