/**
 * The Clash of Clans tools: a clan or player tag is escaped (`#` becomes `%23`)
 * and spliced into the resource path; the call succeeds only on status 200.
 */
module Clash {
  import opened Wrappers
  import opened Json
  import opened Http

  const BaseUrl: string := "https://api.clashofclans.com/v1"
  const ClansPath: string := "/clans/"
  const PlayersPath: string := "/players/"

  /**
   * `tag.replace("#", "%23")`: every `#` becomes `%23`, so the result holds no
   * `#` and is two characters longer for each `#` of the tag.
   */
  function EncodeTag(tag: string): (r: string)
    ensures '#' !in r
    ensures |r| == |tag| + 2 * multiset(tag)['#']
  {
    if tag == [] then []
    else
      assert tag == [tag[0]] + tag[1..];
      (if tag[0] == '#' then "%23" else [tag[0]]) + EncodeTag(tag[1..])
  }

  /** Encoding works character by character: it distributes over concatenation. */
  lemma {:induction false} EncodeAppend(a: string, b: string)
    ensures EncodeTag(a + b) == EncodeTag(a) + EncodeTag(b)
  {
    if a != [] {
      var head := if a[0] == '#' then "%23" else [a[0]];
      assert (a + b)[0] == a[0];
      assert (a + b)[1..] == a[1..] + b;
      assert EncodeTag(a + b) == head + EncodeTag(a[1..] + b);
      EncodeAppend(a[1..], b);
      assert EncodeTag(a) == head + EncodeTag(a[1..]);
    } else {
      assert a + b == b;
    }
  }

  /** A tag without `#` is sent as it is. */
  lemma {:induction false} EncodeWithoutHash(tag: string)
    requires '#' !in tag
    ensures EncodeTag(tag) == tag
  {
    if tag != [] {
      assert tag[0] in tag;
      assert forall c :: c in tag[1..] ==> c in tag;
      EncodeWithoutHash(tag[1..]);
    }
  }

  /** Encoding an encoded tag changes nothing. */
  lemma EncodeIdempotent(tag: string)
    ensures EncodeTag(EncodeTag(tag)) == EncodeTag(tag)
  {
    EncodeWithoutHash(EncodeTag(tag));
  }

  /** How the server reads the path segment back: every `%23` stands for `#`. */
  function DecodeTag(segment: string): string
    decreases |segment|
  {
    if segment == [] then []
    else if |segment| >= 3 && segment[..3] == "%23" then "#" + DecodeTag(segment[3..])
    else [segment[0]] + DecodeTag(segment[1..])
  }

  /** An escaped `#` at the front is read back as `#`. */
  lemma DecodeEscape(rest: string)
    ensures DecodeTag("%23" + rest) == "#" + DecodeTag(rest)
  {
  }

  /** Any character other than `%` at the front is read back as itself. */
  lemma DecodePlain(c: char, rest: string)
    requires c != '%'
    ensures DecodeTag([c] + rest) == [c] + DecodeTag(rest)
  {
  }

  /**
   * Encoding loses nothing: a tag without `%` (every tag the game issues) is read
   * back exactly by the server.
   */
  lemma {:induction false} DecodeEncode(tag: string)
    requires '%' !in tag
    ensures DecodeTag(EncodeTag(tag)) == tag
  {
    if tag != [] {
      assert tag[0] in tag;
      assert forall c :: c in tag[1..] ==> c in tag;
      var rest := EncodeTag(tag[1..]);
      DecodeEncode(tag[1..]);
      if tag[0] == '#' {
        DecodeEscape(rest);
      } else {
        DecodePlain(tag[0], rest);
      }
    }
  }

  /** `Authorization: Bearer <TOKEN>`; an unset token is formatted as `None`. */
  function Bearer(token: Option<string>): (r: string)
    ensures |r| >= 7 && r[..7] == "Bearer "
    ensures token.Some? ==> r[7..] == token.value
    ensures token.None? ==> r[7..] == "None"
  {
    "Bearer " + (if token.Some? then token.value else "None")
  }

  /** The GET request for a tag under `path` (clans or players). */
  function TagRequest(path: string, tag: string, token: Option<string>): Request {
    Request(HttpGet, BaseUrl + path + EncodeTag(tag),
      map["Authorization" := Bearer(token), "Accept" := "application/json"], None, map[])
  }

  /** The URL of a tag request holds no `#`, so no part of the tag is cut off as a fragment. */
  lemma NoFragment(path: string, tag: string, token: Option<string>)
    requires '#' !in path
    ensures '#' !in TagRequest(path, tag, token).url
  {
  }

  /** The path segment after `BaseUrl + path` reads back as the tag. */
  lemma TagRecoverable(path: string, tag: string, token: Option<string>)
    requires '%' !in tag
    ensures var url := TagRequest(path, tag, token).url;
      |BaseUrl + path| <= |url| && url[..|BaseUrl + path|] == BaseUrl + path
      && DecodeTag(url[|BaseUrl + path|..]) == tag
  {
    var url := TagRequest(path, tag, token).url;
    assert url[|BaseUrl + path|..] == EncodeTag(tag);
    DecodeEncode(tag);
  }

  /**
   * `get_clan_details`: exactly one GET to `BaseUrl/clans/<encoded tag>` with the
   * bearer and JSON accept headers; status 200 returns the body unchanged, any other
   * status fails with that status.
   */
  function ClanDetails(server: Server, token: Option<string>, clanTag: string): (c: Call<Value>)
    ensures |c.sent| == 1
    ensures c.sent[0].verb == HttpGet && c.sent[0].query == None && c.sent[0].form == map[]
    ensures c.sent[0].url == BaseUrl + ClansPath + EncodeTag(clanTag)
    ensures c.sent[0].headers == map["Authorization" := Bearer(token), "Accept" := "application/json"]
    ensures c.result.Success? <==> server(c.sent[0]).status == 200
    ensures c.result.Success? ==> c.result.value == server(c.sent[0]).body
    ensures c.result.Failure? ==> c.result.error == ClashHttp(server(c.sent[0]).status)
  {
    var request := TagRequest(ClansPath, clanTag, token);
    Call(CheckStatus(server(request), status => ClashHttp(status)), [request])
  }

  /** `get_player_details`: as `ClanDetails`, under `/players/`. */
  function PlayerDetails(server: Server, token: Option<string>, playerTag: string): (c: Call<Value>)
    ensures |c.sent| == 1
    ensures c.sent[0].verb == HttpGet && c.sent[0].query == None && c.sent[0].form == map[]
    ensures c.sent[0].url == BaseUrl + PlayersPath + EncodeTag(playerTag)
    ensures c.sent[0].headers == map["Authorization" := Bearer(token), "Accept" := "application/json"]
    ensures c.result.Success? <==> server(c.sent[0]).status == 200
    ensures c.result.Success? ==> c.result.value == server(c.sent[0]).body
    ensures c.result.Failure? ==> c.result.error == ClashHttp(server(c.sent[0]).status)
  {
    var request := TagRequest(PlayersPath, playerTag, token);
    Call(CheckStatus(server(request), status => ClashHttp(status)), [request])
  }
}
