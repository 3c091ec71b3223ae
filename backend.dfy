/**
 * One JetBrains license server behind the proxy: its health record, the
 * classification of an `obtainTicket` reply, and the field updates made by a
 * health probe (`check`) and by a relayed client request (`proxy`).
 *
 * The transport is replaced by outcome values: what `fetch` or `http.request`
 * produced, with the elapsed time measured by the caller, and the reply body
 * already parsed by the XML library. Clock readings are integer milliseconds
 * passed in by the caller.
 */
module Backend {
  import opened Wrappers
  import opened Text

  /** The sentinel ping of a backend never measured (9e5 ms), which ranks it last. */
  const UnmeasuredPing := 900000

  /** The ticket action, relative to a backend's base URL. */
  const TicketAction := "rpc/obtainTicket.action"

  /** The endpoint whose replies are buffered and classified: "/rpc/obtainTicket.action". */
  const TicketEndpoint := "/" + TicketAction

  /** The fixed query of the probe, with its machine and product family identifiers and salt, up to the user name. */
  const ProbeQuery := "?machineId=bd212404-223e-47af-9735-a09ba863550e&productFamilyId=49c202d4-ac56-452b-bb84-735056242fb3&salt=1709279583227&userName="

  /**
   * The `ObtainTicketResponse` element as the XML library delivers it: each
   * child element, when present, is the list of its occurrences' texts.
   */
  datatype TicketResponse = TicketResponse(responseCode: Option<seq<string>>, message: Option<seq<string>>)

  /** The parser's verdict on a reply body: a document (whose root may be another element, or none) or an error. */
  datatype ParsedBody =
    | ParseError(msg: string)
    | Parsed(root: Option<TicketResponse>)

  /** What a health probe's `fetch` ended with. */
  datatype ProbeOutcome =
    | NetError(msg: string)                                  // `fetch` rejected
    | BodyError(ok: bool, elapsedMs: int, msg: string)       // headers arrived, reading the body failed
    | Response(ok: bool, elapsedMs: int, body: ParsedBody)   // a complete reply

  /** What relaying one client request ended with. */
  datatype ProxyOutcome =
    | SetupError(msg: string)                                            // `http.request` threw
    | ClientAborted(msg: string)                                         // the inbound request stream failed
    | Upstream(statusCode: Option<int>, elapsedMs: int, body: ParsedBody) // the backend answered

  /** What the client receives from a relayed request. */
  datatype ProxyReply =
    | ServerError                              // 500 "Server error"
    | Relayed(status: int, buffered: bool)     // the backend's status; body buffered or piped

  /** The result of `isAvailable`: the returned flag and the status text it leaves. */
  datatype Verdict = Verdict(available: bool, status: string)

  /** The five private fields of a backend, as one value. */
  datatype BackendState = BackendState(
    online: bool,
    available: bool,
    lastPing: int,
    lastStatus: string,
    lastChecked: Option<int>)

  /** The `available` getter: what the rest of the system sees. */
  predicate Exposed(s: BackendState) {
    s.online && s.available
  }

  /** The field initialisers. */
  function Initial(): (s: BackendState)
    ensures !s.online && !Exposed(s) && s.lastChecked == None
  {
    BackendState(false, false, UnmeasuredPing, "not checked", None)
  }

  /**
   * What every reachable state satisfies: there is always a status text,
   * and the availability flag can only have been set by a classification,
   * which stamped `lastChecked`. Pings are differences of wall-clock
   * readings and may be negative when the clock steps back.
   */
  ghost predicate Inv(s: BackendState) {
    && s.lastStatus != []
    && (s.lastChecked == None ==> !s.available)
  }

  /** `isObtainTicketRequest`: the path mentions the ticket endpoint. */
  predicate IsObtainTicketRequest(path: string) {
    Contains(path, TicketEndpoint)
  }

  /** The probe request path, with the two words `getWord` would have produced. */
  function ProbePath(userName: string, hostName: string): string {
    TicketAction + ProbeQuery + userName + "&hostName=" + hostName
  }

  /** The first element of an optional list, when there is one. */
  function First(list: Option<seq<string>>): Option<string> {
    if list.Some? && |list.value| > 0 then Some(list.value[0]) else None
  }

  /** `isAvailable` on a parsed body. It is total: a parse error becomes a verdict. */
  function Classify(body: ParsedBody): Verdict {
    match body
    case ParseError(msg) => Verdict(false, "error: " + msg)
    case Parsed(None) => Verdict(false, "unknown")
    case Parsed(Some(root)) =>
      var status :=
        match First(root.message)
        case Some(m) => if m != [] then "JB: " + m else "OK"
        case None => "unknown";
      Verdict(First(root.responseCode) == Some("OK"), status)
  }

  /** The private `available` setter: assigns the flag and stamps the time together. */
  function Assign(s: BackendState, available: bool, now: int): BackendState {
    s.(available := available, lastChecked := Some(now))
  }

  /** Classify a reply and record the verdict, as `this.available = await this.isAvailable(...)` does. */
  function Record(s: BackendState, body: ParsedBody, now: int): BackendState {
    var v := Classify(body);
    Assign(s.(lastStatus := v.status), v.available, now)
  }

  /** The state after `check()`; `now` is when the classification finished. */
  function Probed(s: BackendState, o: ProbeOutcome, now: int): BackendState {
    match o
    case NetError(msg) =>
      s.(lastStatus := "connection error: " + msg, online := false)
    case BodyError(ok, elapsed, msg) =>
      s.(online := ok, lastPing := elapsed, lastStatus := "connected")
       .(lastStatus := "connection error: " + msg, online := false)
    case Response(ok, elapsed, body) =>
      Record(s.(online := ok, lastPing := elapsed, lastStatus := "connected"), body, now)
  }

  /** The state after `proxy()` relayed a request for `path`. */
  function Proxied(s: BackendState, path: string, o: ProxyOutcome, now: int): BackendState {
    match o
    case SetupError(_) => s.(online := false)
    case ClientAborted(_) => s
    case Upstream(_, elapsed, body) =>
      if IsObtainTicketRequest(path) then Record(s.(online := true, lastPing := elapsed), body, now)
      else s.(online := true)
  }

  /** What the client of `proxy()` receives. */
  function ProxyReplyOf(path: string, o: ProxyOutcome): ProxyReply {
    match o
    case Upstream(status, _, _) => Relayed(status.GetOr(200), IsObtainTicketRequest(path))
    case _ => ServerError
  }

  /** The record `json()` builds. */
  datatype JsonView = JsonView(url: string, online: bool, available: bool, ping: Option<int>, status: string)

  function View(url: string, s: BackendState): (j: JsonView)
    ensures j.url == url && j.status == s.lastStatus
    ensures j.online == s.online
    ensures j.ping == None <==> !s.online
    ensures s.online ==> j.ping == Some(s.lastPing)
    ensures j.available ==> j.online
    ensures j.available == (s.online && s.available)
  {
    JsonView(url, s.online, Exposed(s), if s.online then Some(s.lastPing) else None, s.lastStatus)
  }

  // ----- properties of classification -----

  /** A body is classified available exactly when its first response code is "OK". */
  lemma ClassifyAvailable(body: ParsedBody)
    ensures Classify(body).available <==>
      body.Parsed? && body.root.Some? && body.root.value.responseCode.Some? &&
      |body.root.value.responseCode.value| > 0 && body.root.value.responseCode.value[0] == "OK"
  {
  }

  /** The status text `isAvailable` leaves, case by case. */
  lemma ClassifyStatus(body: ParsedBody)
    ensures body.ParseError? ==> Classify(body).status == "error: " + body.msg
    ensures body.Parsed? ==>
      var m := if body.root.Some? then body.root.value.message else None;
      Classify(body).status ==
        if m.None? || |m.value| == 0 then "unknown"
        else if m.value[0] == [] then "OK"
        else "JB: " + m.value[0]
  {
  }

  /** The status text reveals a parse failure and nothing else, and is never empty. */
  lemma {:induction false} ClassifyErrorStatus(body: ParsedBody)
    ensures StartsWith(Classify(body).status, "error: ") <==> body.ParseError?
    ensures Classify(body).status != []
    ensures Classify(body).available ==> body.Parsed?
  {
    var st := Classify(body).status;
    if body.Parsed? {
      assert st[0] in {'J', 'O', 'u'};
    }
  }

  /** A reply `<ObtainTicketResponse><responseCode>OK</responseCode></ObtainTicketResponse>`. */
  lemma ScenarioOk()
    ensures Classify(Parsed(Some(TicketResponse(Some(["OK"]), None)))) == Verdict(true, "unknown")
  {
  }

  /** A reply with code `ERROR_DETAILS` and message `No license`. */
  lemma ScenarioNoLicense()
    ensures var v := Classify(Parsed(Some(TicketResponse(Some(["ERROR_DETAILS"]), Some(["No license"])))));
      !v.available && v.status == "JB: No license"
  {
  }

  /** An empty message with an OK code gives the status "OK". */
  lemma ScenarioOkEmptyMessage()
    ensures Classify(Parsed(Some(TicketResponse(Some(["OK"]), Some([""]))))) == Verdict(true, "OK")
  {
  }

  // ----- properties of the probe -----

  /** The setter is the only writer of `lastChecked`, and it writes the flag with it. */
  lemma {:induction false} StampMovesWithFlag(s: BackendState, o: ProbeOutcome, p: string, q: ProxyOutcome, now: int)
    ensures var t := Probed(s, o, now);
      (t.available == s.available && t.lastChecked == s.lastChecked) ||
      (o.Response? && t.lastChecked == Some(now) && t.available == Classify(o.body).available)
    ensures var t := Proxied(s, p, q, now);
      (t.available == s.available && t.lastChecked == s.lastChecked) ||
      (q.Upstream? && IsObtainTicketRequest(p) && t.lastChecked == Some(now) && t.available == Classify(q.body).available)
  {
  }

  /** A network error takes the backend offline and leaves the flag, ping and stamp alone. */
  lemma ProbeNetError(s: BackendState, msg: string, now: int)
    ensures var t := Probed(s, NetError(msg), now);
      && !t.online && !Exposed(t)
      && t.lastStatus == "connection error: " + msg
      && t.available == s.available && t.lastPing == s.lastPing && t.lastChecked == s.lastChecked
  {
  }

  /**
   * A reply sets `online` from its success flag and the ping from the elapsed
   * time, even when not ok; the status is the classification's, never the
   * intermediate "connected".
   */
  lemma {:induction false} ProbeResponse(s: BackendState, ok: bool, elapsed: int, body: ParsedBody, now: int)
    ensures var t := Probed(s, Response(ok, elapsed, body), now);
      && t.online == ok && t.lastPing == elapsed
      && t.lastStatus == Classify(body).status && t.lastStatus != "connected"
      && t.available == Classify(body).available && t.lastChecked == Some(now)
      && (Exposed(t) <==> ok && Classify(body).available)
  {
    var st := Classify(body).status;
    ClassifyErrorStatus(body);
    assert st[0] != 'c' by {
      if body.ParseError? { assert st[0] == 'e'; } else { assert st[0] in {'J', 'O', 'u'}; }
    }
  }

  /** Every probe outcome keeps the invariant. */
  lemma {:induction false} ProbedKeepsInv(s: BackendState, o: ProbeOutcome, now: int)
    requires Inv(s)
    ensures Inv(Probed(s, o, now))
  {
    if o.Response? {
      ClassifyErrorStatus(o.body);
    }
  }

  /**
   * A relayed request marks the backend online once the backend answers; only
   * the ticket endpoint updates the ping, the flag and the stamp; a setup
   * failure takes it offline. The client gets 500 unless the backend
   * answered, and otherwise its status (200 when absent), buffered exactly
   * for ticket requests.
   */
  lemma ProxyEffects(s: BackendState, path: string, o: ProxyOutcome, now: int)
    ensures var t := Proxied(s, path, o, now);
      && (o.SetupError? ==> t == s.(online := false) && ProxyReplyOf(path, o) == ServerError)
      && (o.ClientAborted? ==> t == s && ProxyReplyOf(path, o) == ServerError)
      && (o.Upstream? ==> ProxyReplyOf(path, o).Relayed? && ProxyReplyOf(path, o).buffered == IsObtainTicketRequest(path))
      && (o.Upstream? && o.statusCode.Some? ==> ProxyReplyOf(path, o).status == o.statusCode.value)
      && (o.Upstream? && o.statusCode.None? ==> ProxyReplyOf(path, o).status == 200)
      && (o.Upstream? ==> t.online)
      && (o.Upstream? && !IsObtainTicketRequest(path) ==> t == s.(online := true))
      && (o.Upstream? && IsObtainTicketRequest(path) ==>
            t.lastPing == o.elapsedMs && t.available == Classify(o.body).available && t.lastChecked == Some(now))
  {
  }

  /** Every relay outcome keeps the invariant. */
  lemma {:induction false} ProxiedKeepsInv(s: BackendState, path: string, o: ProxyOutcome, now: int)
    requires Inv(s)
    ensures Inv(Proxied(s, path, o, now))
  {
    if o.Upstream? {
      ClassifyErrorStatus(o.body);
    }
  }

  /** The probe of a backend whose href ends in "/" is an `obtainTicket` request. */
  lemma ProbeIsTicketRequest(href: string, userName: string, hostName: string)
    requires |href| > 0 && href[|href| - 1] == '/'
    ensures IsObtainTicketRequest(href + ProbePath(userName, hostName))
  {
    var pre := href[..|href| - 1];
    var rest := ProbeQuery + userName + "&hostName=" + hostName;
    assert href == pre + "/";
    assert ProbePath(userName, hostName) == TicketAction + rest;
    assert href + ProbePath(userName, hostName) == pre + TicketEndpoint + rest;
    ContainsPiece(pre, TicketEndpoint, rest);
  }

  /**
   * A backend's health record. `url` is the href of its base URL; the five
   * fields are the source's private fields.
   */
  class LicenseServer {
    const url: string
    var online: bool
    var available: bool
    var lastPing: int
    var lastStatus: string
    var lastChecked: Option<int>

    /** The fields as one value. */
    function State(): BackendState
      reads this
    {
      BackendState(online, available, lastPing, lastStatus, lastChecked)
    }

    ghost predicate Valid()
      reads this
    {
      Inv(State())
    }

    constructor (url: string)
      ensures this.url == url && State() == Initial() && Valid()
    {
      this.url := url;
      online := false;
      available := false;
      lastPing := UnmeasuredPing;
      lastStatus := "not checked";
      lastChecked := None;
    }

    /** The public `available` getter. */
    function IsExposed(): (r: bool)
      reads this
      ensures r ==> online
      ensures r == Exposed(State())
    {
      online && available
    }

    /** The private `available` setter. */
    method SetAvailable(a: bool, now: int)
      requires Valid()
      modifies this
      ensures Valid()
      ensures State() == Assign(old(State()), a, now)
    {
      available := a;
      lastChecked := Some(now);
    }

    /** `isAvailable`: returns the verdict's flag and leaves its status text. */
    method IsAvailable(body: ParsedBody) returns (r: bool)
      requires Valid()
      modifies this
      ensures Valid()
      ensures r == Classify(body).available
      ensures State() == old(State()).(lastStatus := Classify(body).status)
    {
      ClassifyErrorStatus(body);
      match body {
        case ParseError(msg) =>
          lastStatus := "error: " + msg;
          return false;
        case Parsed(root) =>
          r := root.Some? && First(root.value.responseCode) == Some("OK");
          if root.Some? && root.value.message.Some? && |root.value.message.value| > 0 {
            if root.value.message.value[0] != [] {
              lastStatus := "JB: " + root.value.message.value[0];
            } else {
              lastStatus := "OK";
            }
          } else {
            lastStatus := "unknown";
          }
      }
    }

    /** `check()`: probe once and update the record. */
    method Check(o: ProbeOutcome, now: int)
      requires Valid()
      modifies this
      ensures Valid()
      ensures State() == Probed(old(State()), o, now)
    {
      ProbedKeepsInv(State(), o, now);
      match o {
        case NetError(msg) =>
          lastStatus := "connection error: " + msg;
          online := false;
        case BodyError(ok, elapsed, msg) =>
          online := ok;
          lastPing := elapsed;
          lastStatus := "connected";
          lastStatus := "connection error: " + msg;
          online := false;
        case Response(ok, elapsed, body) =>
          online := ok;
          lastPing := elapsed;
          lastStatus := "connected";
          var a := IsAvailable(body);
          SetAvailable(a, now);
      }
    }

    /** `proxy()`: relay one request for `path` and update the record. */
    method Proxy(path: string, o: ProxyOutcome, now: int) returns (reply: ProxyReply)
      requires Valid()
      modifies this
      ensures Valid()
      ensures State() == Proxied(old(State()), path, o, now)
      ensures reply == ProxyReplyOf(path, o)
    {
      ProxiedKeepsInv(State(), path, o, now);
      var isTicket := IsObtainTicketRequest(path);
      match o {
        case SetupError(_) =>
          reply := ServerError;
          online := false;
        case ClientAborted(_) =>
          reply := ServerError;
        case Upstream(status, elapsed, body) =>
          online := true;
          reply := Relayed(status.GetOr(200), isTicket);
          if isTicket {
            lastPing := elapsed;
            var a := IsAvailable(body);
            SetAvailable(a, now);
          }
      }
    }

    /** `json()`. */
    function Json(): (j: JsonView)
      reads this
      ensures j.url == url && j.status == lastStatus
      ensures j.online == online
      ensures j.ping == None <==> !online
      ensures online ==> j.ping == Some(lastPing)
      ensures j.available == (online && available)
    {
      View(url, State())
    }
  }
}
