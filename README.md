# Music and Clash of Clans tool gateways: a verified model

The repository gives a language model a handful of tool functions that wrap
three REST APIs. This project models the deterministic logic of those tools:

- the **Last.fm gateway** (`_lastfm_get` and the four Last.fm tools). It checks the API key,
  merges `{api_key, format: "json"}` with the caller's parameters (the caller's
  values win), and classifies the answer. A status other than 200 is an HTTP error.
  A 200 body holding `"error"` is a provider error. Any other body is returned unchanged;
- the **Spotify token cache** (`_get_spotify_token`). This is a class `Spotify.Client` with one
  cache entry `{token, expiresAt}`. The credential check comes first. A cached
  token is reused while `expiresAt > now`. Otherwise one client-credentials request
  is made, and on success the entry is replaced whole by
  `{access_token, now + expires_in - 60}` (`expires_in` is 3600 when absent);
- the **Spotify gateway** (`_spotify_get` and the six Spotify tools). These are methods of the same
  class, because every call goes through the token cache. They include the
  two-step `get_artist_details_by_name`: a search with limit 1, then the details of
  the first match, or `None` when there is no match;
- the **Clash of Clans tools** (`get_clan_details`, `get_player_details`). `#` in a tag
  becomes `%23`, the tag is spliced into `/clans/` or `/players/`, and the call
  fails on any status other than 200.

The network is a parameter, `Http.Server = Request -> Response`: a response is a status plus a
decoded JSON value (`Json.Value`). Every operation returns the requests it
issued, in order. So "no request is made" and "exactly one refresh" are statements
about that list. The clock is an integer number of seconds. `_get_spotify_token` reads it
twice: once when it consults the cache (line 82) and once when it computes the new
expiry (line 101). `Spotify.Clock` holds both readings. Credentials are
`Option<string>` values. As in the source, an unset value and an empty one are both
treated as missing (`Http.Given`).

Python exceptions are `Failure` values of `Http.Error`. Where a response body has an
unexpected shape, the source raises a KeyError, TypeError or AttributeError; the
model returns `Malformed` at the same point.

In these details the model follows the code:

- the default lifetime of 3600 seconds applies only when `expires_in` is absent.
  A declared lifetime of 0 is kept, and the token is then expired 60 seconds
  before it was issued (`Spotify.Lifetime`, `Spotify.ShortLifetimeExpiredOnArrival`);
- the caller's parameters override `api_key` and `format`, because the merge puts
  the caller's dict last (`Lastfm.OutgoingQuery`);
- credentials that are set but empty count as missing, like unset ones;
- the Clash of Clans token is never checked. An unset token is sent as
  `Bearer None` (`Clash.Bearer`).

## Model

| member | source | states |
|---|---|---|
| Json.Contains | last-fm-spotify-agent/studio/lastfm_spotify_tools.py:55 | `"error" in data` is key membership on a dict, element membership on a list and a substring test on a string; on a number, boolean or null it is a TypeError |
| Json.OccursAt | last-fm-spotify-agent/studio/lastfm_spotify_tools.py:55 | the substring test used for a string body holds exactly when the key starts at some position of the string |
| Json.Truthy | last-fm-spotify-agent/studio/lastfm_spotify_tools.py:403 | `not artists` holds exactly for `null`, `false`, `0`, `""`, `[]` and `{}` |
| Json.GetOr | last-fm-spotify-agent/studio/lastfm_spotify_tools.py:402 | `.get(key, default)` gives the stored value when the key is present and the default otherwise; on a non-dict it is an AttributeError |
| Http.CheckStatus | last-fm-spotify-agent/studio/lastfm_spotify_tools.py:133-135 | success exactly when the status is 200; the body is then returned unchanged; otherwise the error carries that status |
| Lastfm.OutgoingQuery | last-fm-spotify-agent/studio/lastfm_spotify_tools.py:45-50 | the keys sent are the caller's plus `api_key` and `format`; every caller key keeps the caller's value; `api_key` is the configured key and `format` is `json` unless the caller supplied them |
| Lastfm.BaseKeysAdded | last-fm-spotify-agent/studio/lastfm_spotify_tools.py:45-50 | when the caller supplies neither base key, the query is the caller's map with `api_key` and `format=json` added |
| Lastfm.Classify | last-fm-spotify-agent/studio/lastfm_spotify_tools.py:51-57 | a non-200 status fails with that status; a 200 dict body with `error` fails with the provider's code and its message when present; any other 200 dict body is returned unchanged; on status 200 the call succeeds exactly when `"error" in data` is false, so a list or string without `error` is also returned unchanged; a 200 body that is not a dict and does not succeed (null, number, boolean, or a list or string holding `error`) fails as malformed, where the source raises TypeError or AttributeError |
| Lastfm.Fetch | last-fm-spotify-agent/studio/lastfm_spotify_tools.py:42-57 | a missing or empty API key fails with no request issued; otherwise exactly one GET to the Last.fm base URL with the merged query, classified as above |
| Lastfm.UserInfo | last-fm-spotify-agent/studio/lastfm_spotify_tools.py:143-159 | the only request sent carries exactly `method=user.getInfo`, `user`, `api_key` and `format=json` |
| Lastfm.ArtistInfo | last-fm-spotify-agent/studio/lastfm_spotify_tools.py:162-178 | the only request sent carries exactly `method=artist.getInfo`, `artist`, `api_key` and `format=json` |
| Lastfm.TrackInfo | last-fm-spotify-agent/studio/lastfm_spotify_tools.py:181-205 | the only request sent carries exactly `method=track.getInfo`, `artist`, `track`, `api_key` and `format=json` |
| Lastfm.UserTopArtists | last-fm-spotify-agent/studio/lastfm_spotify_tools.py:207-243 | the only request sent carries exactly `method=user.getTopArtists`, `user`, `period`, `limit`, `page`, `api_key` and `format=json`; the defaults are `overall`, 50 and 1 |
| Spotify.Lifetime | last-fm-spotify-agent/studio/lastfm_spotify_tools.py:97 | the lifetime is the declared `expires_in`, or 3600 only when the key is absent |
| Spotify.IssueToken | last-fm-spotify-agent/studio/lastfm_spotify_tools.py:96-102 | a new entry exists exactly when the body has a string `access_token` and a usable lifetime; the entry holds that token and expires at issue time + lifetime - 60 |
| Spotify.Acquire | last-fm-spotify-agent/studio/lastfm_spotify_tools.py:60-103 | missing credentials fail with no request, even over a live entry; a live entry is returned with no request and no change; otherwise exactly the one token request is made; a non-200 answer fails with its status; any failure leaves the cache as it was; a success returns the token the cache now holds, and after a refresh the entry is the one built from the answer |
| Spotify.ReuseWithinWindow | last-fm-spotify-agent/studio/lastfm_spotify_tools.py:82-83 | a second call before the first token's expiry returns the identical token, issues no request and leaves the cache unchanged |
| Spotify.RefreshWhenExpired | last-fm-spotify-agent/studio/lastfm_spotify_tools.py:82-92 | an entry whose expiry is at or before now (equality included) is refreshed with exactly one request, to the token endpoint |
| Spotify.RefreshStoresExpiry | last-fm-spotify-agent/studio/lastfm_spotify_tools.py:96-103 | a successful refresh replaces the entry with `{access_token, issue + expires_in - 60}` (3600 when absent) and returns that token |
| Spotify.ShortLifetimeExpiredOnArrival | last-fm-spotify-agent/studio/lastfm_spotify_tools.py:97-101 | with a declared lifetime of at most 60 the new entry is not live at its own issue time, and a call at that second refreshes again |
| Spotify.OneRefreshPerWindow | last-fm-spotify-agent/studio/lastfm_spotify_tools.py:82-103 | in any session of calls, once one call has obtained a token, the later calls made before its expiry return that token, and the session issues only the first call's requests |
| Spotify.Fetch | last-fm-spotify-agent/studio/lastfm_spotify_tools.py:106-135 | a token failure is the call's failure and no resource request follows; otherwise one GET to `https://api.spotify.com/v1` + endpoint with `Authorization: Bearer <cached token>` and the given parameters; the outcome is classified by status, and a 200 body is returned unchanged |
| Spotify.FirstArtistId | last-fm-spotify-agent/studio/lastfm_spotify_tools.py:402-407 | no match exactly when `artists.items` (defaults `{}` and `[]`) is falsy; when the items are a non-empty list whose first element is a dict with a string `id`, the result is that id, and only then is an id returned; any other shape fails as malformed |
| Spotify.DetailsByName | last-fm-spotify-agent/studio/lastfm_spotify_tools.py:381-408 | a failed search is the call's failure; a search without a match gives `None` with no request after the search and the cache the search left; a search body of unexpected shape fails as malformed with no further request |
| Spotify.NotFoundMakesNoDetailsCall | last-fm-spotify-agent/studio/lastfm_spotify_tools.py:400-404 | when the search's `artists.items` is falsy the result is `None`, and every request issued went to the token endpoint or to `/search` |
| Spotify.MatchFetchesFirstId | last-fm-spotify-agent/studio/lastfm_spotify_tools.py:406-408 | a match with id `id` is followed by exactly the details call for `/artists/<id>`, made with the cache the search left; that call's failure is returned, or its body (`None` for a JSON `null`) |
| Spotify.FirstSearchItemFetched | last-fm-spotify-agent/studio/lastfm_spotify_tools.py:400-408 | a search answer whose `artists.items` starts with a dict whose `id` is `id` leads to the requests of the search followed by those of the details call; its last request is the GET of `/artists/<id>` with no query, and its body is returned |
| Spotify.Nullable | last-fm-spotify-agent/studio/lastfm_spotify_tools.py:135 | the value a Python caller receives from `response.json()`: `None` exactly for a JSON `null`, the body itself otherwise |
| Spotify.SearchItems | last-fm-spotify-agent/studio/lastfm_spotify_tools.py:402 | `.get("artists", {}).get("items", [])`: defined exactly when the body is a dict and its `artists`, if present, is a dict; each absent level gives its default |
| Spotify.AsInt | last-fm-spotify-agent/studio/lastfm_spotify_tools.py:97 | the model's conversion of `expires_in`: integers are kept, `True` becomes 1 and `False` becomes 0, and every other value, numeric strings included, is treated as a failure |
| Spotify.AuthRequest | last-fm-spotify-agent/studio/lastfm_spotify_tools.py:85-92 | a POST to the token endpoint whose form holds exactly `grant_type=client_credentials`, `client_id` and `client_secret` |
| Spotify.Client.constructor | last-fm-spotify-agent/studio/lastfm_spotify_tools.py:16-20 | a new client holds its credentials and an empty cache |
| Spotify.Client.GetToken | last-fm-spotify-agent/studio/lastfm_spotify_tools.py:60-103 | the result, the requests and the new cache are those of `Acquire` on the old cache |
| Spotify.Client.Get | last-fm-spotify-agent/studio/lastfm_spotify_tools.py:106-135 | the result, the requests and the new cache are those of `Fetch` on the old cache |
| Spotify.Client.SearchArtistsByGenre | last-fm-spotify-agent/studio/lastfm_spotify_tools.py:251-276 | a `Fetch` of `/search` with `q=genre:"<genre>"`, `type=artist` and `limit` (20 by default) |
| Spotify.Client.GetArtistDetails | last-fm-spotify-agent/studio/lastfm_spotify_tools.py:279-295 | a `Fetch` of `/artists/<id>` with no parameters |
| Spotify.Client.GetArtistTopTracks | last-fm-spotify-agent/studio/lastfm_spotify_tools.py:298-317 | a `Fetch` of `/artists/<id>/top-tracks` with `market` (`US` by default) |
| Spotify.Client.GetArtistAlbums | last-fm-spotify-agent/studio/lastfm_spotify_tools.py:320-351 | a `Fetch` of `/artists/<id>/albums` with `limit` (20) and `include_groups` (`album`) |
| Spotify.Client.SearchArtistByName | last-fm-spotify-agent/studio/lastfm_spotify_tools.py:353-378 | a `Fetch` of `/search` with `q=<name>`, `type=artist` and `limit` (10 by default) |
| Spotify.Client.GetArtistDetailsByName | last-fm-spotify-agent/studio/lastfm_spotify_tools.py:381-408 | the result, the requests and the new cache are those of `DetailsByName` on the old cache, with the search made at limit 1 |
| Clash.EncodeTag | clash-of-clans-agent/clash_tools.py:25 | the encoded tag holds no `#`, and its length is the tag's length plus 2 for each `#` |
| Clash.EncodeAppend | clash-of-clans-agent/clash_tools.py:25 | encoding works character by character: the encoding of a concatenation is the concatenation of the encodings, so the other characters stay in order |
| Clash.EncodeWithoutHash | clash-of-clans-agent/clash_tools.py:25 | a tag without `#` is left unchanged |
| Clash.EncodeIdempotent | clash-of-clans-agent/clash_tools.py:25 | encoding an encoded tag changes nothing |
| Clash.DecodeEncode | clash-of-clans-agent/clash_tools.py:25 | reading `%23` back as `#` recovers any tag without `%` exactly |
| Clash.NoFragment | clash-of-clans-agent/clash_tools.py:32 | the request URL holds no `#`, so no part of the tag is cut off as a URL fragment |
| Clash.TagRecoverable | clash-of-clans-agent/clash_tools.py:32 | the URL is the base URL and resource path followed by a segment that reads back as the tag |
| Clash.ClanDetails | clash-of-clans-agent/clash_tools.py:12-37 | exactly one GET, with no query and no body, to `https://api.clashofclans.com/v1/clans/<encoded tag>` with `Authorization: Bearer <TOKEN>` and `Accept: application/json`; a 200 returns the body unchanged; any other status fails with that status |
| Clash.PlayerDetails | clash-of-clans-agent/clash_tools.py:40-65 | the same under `/players/<encoded tag>` |
| Clash.Bearer | clash-of-clans-agent/clash_tools.py:28 | the header value is `Bearer ` followed by the token, or by `None` when the token is unset |

## Left out

- The HTTP transport (`requests.get`, `requests.post`) and JSON decoding are not modelled. A response is given already decoded, so a body that is not JSON, and the exception `response.json()` would raise on it, are not modelled.
- Network and server failures below HTTP (timeouts, connection errors) are not modelled. The network is a function of the request, so within one call an identical request gets an identical answer. `Spotify.Session` gives each token call its own network.
- Exception message text, including the raw `response.text` in HTTP errors, is not modelled. Errors are tagged values that carry the status or the provider's code and message.
- Loading configuration from the environment (`load_dotenv`, `os.getenv`) is not modelled. Credentials and the Clash of Clans token are parameters.
- `datetime.now()` and `timedelta` are replaced by integer seconds passed in.
- JSON numbers are integers. Floats are not modelled.
- Spotify.AsInt: Python's `int()` also converts numeric strings (`int("3600")`, `int(" 60 ")`) and truncates floats; the model has no string-to-number parsing and no floats in `Json.Value`, so it keeps integers and booleans only and returns `None` for every other value.
- Spotify.Lifetime: Python's `int()` also accepts a numeric string or a float for `expires_in`. The model accepts integers and booleans only and treats every other value as a malformed response.
- Spotify.IssueToken: an expiry outside the range of Python's `datetime` (an `expires_in` of roughly 2.5e11 seconds or more) raises OverflowError in the source; the model caches it, because its clock is an unbounded integer.
- Spotify.IssueToken: a non-string `access_token` is treated as a malformed response. The source would cache it and format it with `str()` in the bearer header.
- Spotify.DetailsByName: `None` stands both for "no match" and for a details body that is JSON `null`, as in the source; the contract states the no-match case, and `MatchFetchesFirstId` states the `null` case.
- Spotify.FirstArtistId: a non-string artist `id` is treated as a malformed response. The source would format it with `str()` into the details path.
- The order of query parameters and their URL encoding by the HTTP library are not modelled. A query is a map.
- Concurrency is not modelled: parallel tool calls and the unguarded, unlocked shared token cache. Each call runs to completion before the next.
- The agent wiring (`lastfm_spotify_agent.py`, `coc_agent.py`: LLM clients, graphs, telemetry) is not part of this model. The tool functions in `coc_agent.py` are copies of those in `clash_tools.py` and are covered by `Clash`.
