/**
 * The proxy's front door (`Proxy.handler`): the routing decision for one
 * inbound request, and the handler that carries it out against the pool.
 */
module FrontDoor {
  import opened Wrappers
  import opened Text
  import opened Backend
  import opened Pool

  /** Which ranking a listing shows. */
  datatype Listing = AvailableServers | AllServers

  /** The handler's decision. */
  datatype Route =
    | NoContent                         // 204, no body
    | ListJson(which: Listing)          // 200, JSON array of `json()` records
    | ListTxt(which: Listing)           // 200, hrefs joined by newlines
    | NotFound                          // 404 "Not found"
    | Unavailable(retryAfter: int)      // 503 "No servers available", with `retry-after`
    | Forward(to: LicenseServer, path: string)   // relayed to `to` for `path`

  /** The four introspection paths, answered before any token check. */
  function ListingOf(url: string): Option<Route> {
    if url == "/servers/available.json" then Some(ListJson(AvailableServers))
    else if url == "/servers/available.txt" then Some(ListTxt(AvailableServers))
    else if url == "/servers/all.json" then Some(ListJson(AllServers))
    else if url == "/servers/all.txt" then Some(ListTxt(AllServers))
    else None
  }

  /** `originalUrl.split("/")[1]`: undefined when the URL has no "/". */
  function TokenOf(url: string): Option<string> {
    var parts := Split(url, '/');
    if |parts| > 1 then Some(parts[1]) else None
  }

  /** The token check passes: no tokens configured, or a non-empty token from the list. */
  predicate Authorized(tokens: seq<string>, token: Option<string>) {
    |tokens| == 0 || (token.Some? && token.value != [] && token.value in tokens)
  }

  /** `Math.round(d / 1000)` for an integer `d`: halves round up. */
  function RoundThousandths(d: int): (r: int)
    ensures 1000 * r - 500 <= d < 1000 * r + 500
  {
    (d + 500) / 1000
  }

  /** The `retry-after` seconds: the time until the next sweep is due, 0 before any sweep. */
  function RetryAfter(lastSweep: Option<int>, now: int): (r: int)
    ensures lastSweep == None ==> r == 0
    ensures lastSweep.Some? ==> 1000 * r - 500 <= now - lastSweep.value + IntervalDelay < 1000 * r + 500
    ensures lastSweep.Some? && now >= lastSweep.value ==> r >= 600
  {
    match lastSweep
    case None => 0
    case Some(t) => RoundThousandths(now - t + IntervalDelay)
  }

  /** The path handed to the backend: the token segment stripped when tokens are configured. */
  function ForwardPath(url: string, tokens: seq<string>, token: Option<string>): string {
    if |tokens| > 0 && token.Some? && token.value != [] then Slice(url, |token.value| + 1) else url
  }

  /** The routing cascade of `handler`, with `best()` and `lastChecked()` already read. */
  function Decide(url: Option<string>, tokens: seq<string>, best: LicenseServer?, lastSweep: Option<int>, now: int): Route {
    if url == Some("/") then NoContent
    else if url.Some? && ListingOf(url.value).Some? then ListingOf(url.value).value
    else if url.None? || url.value == [] then NotFound
    else
      var token := TokenOf(url.value);
      if !Authorized(tokens, token) then NotFound
      else if best == null then Unavailable(RetryAfter(lastSweep, now))
      else Forward(best, ForwardPath(url.value, tokens, token))
  }

  /** A URL the cascade passes on to the token check. */
  predicate Gated(url: Option<string>) {
    url.Some? && url.value != [] && url.value != "/" && ListingOf(url.value).None?
  }

  // ----- properties of the routing decision -----

  /** "/" and the four listings are answered whatever the tokens and the pool; a missing or empty URL gets 404. */
  lemma FixedRoutes(tokens: seq<string>, best: LicenseServer?, lastSweep: Option<int>, now: int)
    ensures Decide(Some("/"), tokens, best, lastSweep, now) == NoContent
    ensures Decide(Some("/servers/available.json"), tokens, best, lastSweep, now) == ListJson(AvailableServers)
    ensures Decide(Some("/servers/available.txt"), tokens, best, lastSweep, now) == ListTxt(AvailableServers)
    ensures Decide(Some("/servers/all.json"), tokens, best, lastSweep, now) == ListJson(AllServers)
    ensures Decide(Some("/servers/all.txt"), tokens, best, lastSweep, now) == ListTxt(AllServers)
    ensures Decide(None, tokens, best, lastSweep, now) == NotFound
    ensures Decide(Some(""), tokens, best, lastSweep, now) == NotFound
  {
  }

  /**
   * The decision for a proxied URL: authorization first, then availability,
   * then forwarding to the best backend.
   */
  lemma {:induction false} ProxiedRoute(url: Option<string>, tokens: seq<string>, best: LicenseServer?, lastSweep: Option<int>, now: int)
    requires Gated(url)
    ensures var r := Decide(url, tokens, best, lastSweep, now);
      var token := TokenOf(url.value);
      && (r == NotFound <==> !Authorized(tokens, token))
      && (r.Unavailable? <==> Authorized(tokens, token) && best == null)
      && (r.Unavailable? ==> r.retryAfter == RetryAfter(lastSweep, now))
      && (r.Forward? <==> Authorized(tokens, token) && best != null)
      && (r.Forward? ==> r.to == best)
  {
    assert url != Some("/");
  }

  /** Only the backend `best()` named is ever forwarded to. */
  lemma ForwardTarget(url: Option<string>, tokens: seq<string>, best: LicenseServer?, lastSweep: Option<int>, now: int)
    ensures var r := Decide(url, tokens, best, lastSweep, now);
      r.Forward? ==> best != null && r.to == best
  {
  }

  /** The only routes a proxied URL can take. */
  lemma ProxiedNeverListed(url: Option<string>, tokens: seq<string>, best: LicenseServer?, lastSweep: Option<int>, now: int)
    requires Gated(url)
    ensures var r := Decide(url, tokens, best, lastSweep, now);
      r.NotFound? || r.Unavailable? || r.Forward?
  {
  }

  /** With no tokens configured the request URL is forwarded unchanged. */
  lemma ForwardUnchangedWithoutTokens(url: string, best: LicenseServer, lastSweep: Option<int>, now: int)
    requires Gated(Some(url))
    ensures Decide(Some(url), [], best, lastSweep, now) == Forward(best, url)
  {
  }

  /**
   * For a URL that starts with "/", the token is the first path segment and
   * the forwarded path is what follows it: "/" + token + path is the URL.
   */
  lemma {:induction false} TokenStripping(url: string)
    requires |url| > 0 && url[0] == '/'
    ensures TokenOf(url).Some?
    ensures var t := TokenOf(url).value;
      && '/' !in t
      && "/" + t + Slice(url, |t| + 1) == url
      && (|t| + 1 < |url| ==> url[|t| + 1] == '/')
  {
    var rest := url[1..];
    assert url == [url[0]] + rest;
    assert Split(url, '/') == [[]] + Split(rest, '/');
    SplitHead(rest, '/');
    var t := Split(rest, '/')[0];
    assert TokenOf(url) == Some(t);
    assert rest[..|t|] == t;
    assert url[..|t| + 1] == "/" + t;
  }

  /** A forwarded, token-gated request goes to the URL with its token segment cut off. */
  lemma ForwardStripsToken(url: string, tokens: seq<string>, best: LicenseServer, lastSweep: Option<int>, now: int)
    requires Gated(Some(url)) && url[0] == '/' && |tokens| > 0
    requires Decide(Some(url), tokens, best, lastSweep, now).Forward?
    ensures var t := TokenOf(url).value;
      && t in tokens
      && "/" + t + Decide(Some(url), tokens, best, lastSweep, now).path == url
  {
    TokenStripping(url);
  }

  /** The token of "/" + t + "/" + rest is t, for a segment t without "/". */
  lemma TokenOfSegment(t: string, rest: string)
    requires '/' !in t
    ensures TokenOf("/" + t + "/" + rest) == Some(t)
  {
    SplitAfterPiece([], '/', t + "/" + rest);
    SplitAfterPiece(t, '/', rest);
    assert "/" + t + "/" + rest == [] + ['/'] + (t + ['/'] + rest);
  }

  /** A URL shorter than every listing path, other than "/" and "", reaches the token check. */
  lemma ShortGated(u: string)
    requires 1 < |u| < |"/servers/all.txt"|
    ensures Gated(Some(u))
  {
  }

  /** The token list ["abc"] with an empty pool: "/abc/foo" gets 503. */
  lemma TokenScenarioAccepted(lastSweep: Option<int>, now: int)
    ensures Decide(Some("/abc/foo"), ["abc"], null, lastSweep, now).Unavailable?
  {
    var u := "/abc/foo";
    TokenOfSegment("abc", "foo");
    assert u == "/" + "abc" + "/" + "foo";
    ShortGated(u);
    ProxiedRoute(Some(u), ["abc"], null, lastSweep, now);
  }

  /** The token list ["abc"]: "/xyz/foo" gets 404. */
  lemma TokenScenarioRejected(lastSweep: Option<int>, now: int)
    ensures Decide(Some("/xyz/foo"), ["abc"], null, lastSweep, now) == NotFound
  {
    var u := "/xyz/foo";
    TokenOfSegment("xyz", "foo");
    assert u == "/" + "xyz" + "/" + "foo";
    ShortGated(u);
    ProxiedRoute(Some(u), ["abc"], null, lastSweep, now);
  }

  // ----- listing bodies -----

  /** The hrefs of a ranking, in its order. */
  function Hrefs(list: seq<LicenseServer>): (r: seq<string>)
    ensures |r| == |list| && forall i :: 0 <= i < |list| ==> r[i] == list[i].url
  {
    seq(|list|, i requires 0 <= i < |list| => list[i].url)
  }

  /** The `.txt` listing: the hrefs joined by newlines. */
  function TxtBody(list: seq<LicenseServer>): string {
    Join(Hrefs(list), '\n')
  }

  /** A `.txt` listing splits back into the hrefs, in ranking order, when no href holds a newline. */
  lemma TxtBodyLists(list: seq<LicenseServer>)
    requires |list| > 0 && forall i :: 0 <= i < |list| ==> '\n' !in list[i].url
    ensures Split(TxtBody(list), '\n') == Hrefs(list)
  {
    SplitJoin(Hrefs(list), '\n');
  }

  /** An empty ranking lists as the empty text, which splits into one empty piece, not into no hrefs. */
  lemma EmptyTxtListing()
    ensures TxtBody([]) == ""
    ensures Split(TxtBody([]), '\n') == [""]
  {
  }

  /** The `.json` listing: one `json()` record per backend, in ranking order. */
  function JsonBody(list: seq<LicenseServer>): (r: seq<JsonView>)
    reads list
    ensures |r| == |list| && forall i :: 0 <= i < |list| ==> r[i] == list[i].Json()
  {
    seq(|list|, i requires 0 <= i < |list| reads list => list[i].Json())
  }

  /** What the handler writes as the response body. */
  datatype Body = Empty | JsonArray(items: seq<JsonView>) | PlainText(text: string) | Relay(reply: ProxyReply)

  /** The body of a listing, in the ranking's order. */
  function ListBody(list: seq<LicenseServer>, asJson: bool): Body
    reads list
  {
    if asJson then JsonArray(JsonBody(list)) else PlainText(TxtBody(list))
  }

  /** The proxy server: its configured tokens and its pool. */
  class Proxy {
    const tokens: seq<string>
    const servers: ServerManager

    constructor (tokens: seq<string>, servers: ServerManager)
      ensures this.tokens == tokens && this.servers == servers
    {
      this.tokens := tokens;
      this.servers := servers;
    }

    /**
     * `handler`: decide the route and carry it out. `upstream` is what
     * relaying would end with, used only when the request is forwarded.
     */
    method Handler(url: Option<string>, upstream: ProxyOutcome, now: int) returns (route: Route, status: int, body: Body)
      requires servers.Valid()
      modifies servers.servers, servers.servers[..]
      ensures servers.Valid()
      ensures route == Decide(url, tokens, old(servers.Best()), servers.lastChecked, now)
      ensures Answered(route, upstream, now, status, body)
      ensures Carried(route, upstream, now)
    {
      var best := servers.Best();
      route := Decide(url, tokens, best, servers.LastChecked(), now);
      ForwardTarget(url, tokens, best, servers.lastChecked, now);
      status, body := Answer(route, upstream, now);
    }

    /** The status and body written for a decided route, for the pool as it is after the call. */
    ghost predicate Answered(route: Route, upstream: ProxyOutcome, now: int, status: int, body: Body)
      reads servers, servers.servers, servers.servers[..]
    {
      && (route == NoContent ==> status == 204 && body == Empty)
      && (route == NotFound ==> status == 404 && body == PlainText("Not found"))
      && (route.Unavailable? ==> status == 503 && body == PlainText("No servers available"))
      && (route.ListJson? || route.ListTxt? ==> status == 200)
      && (route.ListJson? || route.ListTxt? ==>
           body == ListBody(if route.which == AvailableServers then servers.Available() else servers.servers[..], route.ListJson?))
      && (route.Forward? ==>
           && body == Relay(ProxyReplyOf(route.path, upstream))
           && status == (if body.reply.Relayed? then body.reply.status else 500))
    }

    /**
     * What carrying out a route does to the pool: a listing of all backends
     * sorts the array as `AllOrder()` ranked it, any other route leaves the
     * array alone, and every backend but a forward's target keeps its
     * record, wherever it now sits in the array.
     */
    twostate predicate Carried(route: Route, upstream: ProxyOutcome, now: int)
      reads servers, servers.servers, servers.servers[..], if route.Forward? then {route.to} else {}
    {
      && (route == ListJson(AllServers) || route == ListTxt(AllServers)
          ==> servers.servers[..] == Pick(old(servers.servers[..]), old(servers.AllOrder())))
      && (!(route == ListJson(AllServers) || route == ListTxt(AllServers))
          ==> servers.servers[..] == old(servers.servers[..]))
      && (route.Forward? ==> route.to.State() == Proxied(old(route.to.State()), route.path, upstream, now))
      && Kept(if route.Forward? then route.to else null)
    }

    /** Every backend of the pool other than `target` keeps its record. */
    twostate predicate Kept(target: LicenseServer?)
      reads servers, servers.servers, servers.servers[..]
    {
      forall o :: o in servers.servers[..] && o in old(servers.servers[..]) && o != target ==> o.State() == old(o.State())
    }

    /** Carries out a decided route. */
    method Answer(route: Route, upstream: ProxyOutcome, now: int) returns (status: int, body: Body)
      requires servers.Valid()
      requires route.Forward? ==> route.to in servers.servers[..]
      modifies servers.servers, servers.servers[..]
      ensures servers.Valid()
      ensures Answered(route, upstream, now, status, body)
      ensures Carried(route, upstream, now)
    {
      match route {
        case NoContent =>
          status, body := 204, Empty;
        case ListJson(_) =>
          status, body := AnswerListing(route, upstream, now);
        case ListTxt(_) =>
          status, body := AnswerListing(route, upstream, now);
        case NotFound =>
          status, body := 404, PlainText("Not found");
        case Unavailable(_) =>
          status, body := 503, PlainText("No servers available");
        case Forward(_, _) =>
          status, body := AnswerForward(route, upstream, now);
      }
    }

    /** A listing: `available()` leaves the pool's order alone, `all()` sorts it in place. */
    method AnswerListing(route: Route, upstream: ProxyOutcome, now: int) returns (status: int, body: Body)
      requires servers.Valid() && (route.ListJson? || route.ListTxt?)
      modifies servers.servers
      ensures servers.Valid()
      ensures Answered(route, upstream, now, status, body)
      ensures Carried(route, upstream, now)
    {
      status := 200;
      if route.which == AvailableServers {
        body := ListBody(servers.Available(), route.ListJson?);
      } else {
        body := ListAll(route.ListJson?);
      }
    }

    /** The `all()` listings: the array is sorted in place; each record moves unchanged. */
    method ListAll(asJson: bool) returns (body: Body)
      requires servers.Valid()
      modifies servers.servers
      ensures servers.Valid()
      ensures servers.servers[..] == Pick(old(servers.servers[..]), old(servers.AllOrder()))
      ensures forall k :: 0 <= k < servers.servers.Length ==>
        servers.servers[k].State() == old(servers.servers[servers.AllOrder()[k]].State())
      ensures body == ListBody(servers.servers[..], asJson)
    {
      ghost var order := servers.AllOrder();
      ghost var before := seq(servers.servers.Length, i requires 0 <= i < servers.servers.Length reads servers.servers, servers.servers[..] => servers.servers[i].State());
      var all := servers.All();
      forall k | 0 <= k < servers.servers.Length
        ensures servers.servers[k].State() == before[order[k]]
      {
        assert servers.servers[k] == old(servers.servers[order[k]]);
      }
      body := ListBody(all[..], asJson);
    }

    /** Relays one request through a backend of the pool; no other backend changes. */
    method AnswerForward(route: Route, upstream: ProxyOutcome, now: int) returns (status: int, body: Body)
      requires servers.Valid() && route.Forward? && route.to in servers.servers[..]
      modifies route.to
      ensures servers.Valid()
      ensures Answered(route, upstream, now, status, body)
      ensures Carried(route, upstream, now)
    {
      var reply := route.to.Proxy(route.path, upstream, now);
      status := if reply.Relayed? then reply.status else 500;
      body := Relay(reply);
    }
  }
}
