# jb — a verified model of a failover proxy for JetBrains license servers

`jb` sits between JetBrains IDEs and a pool of JetBrains license servers.
Every ten minutes it probes each backend with an `obtainTicket` request, and
it keeps a health record for each one: online, ping, status text,
availability, and when it was last classified. It forwards each client
request to the available backend with the lowest ping. Optional URL tokens
gate access. Four introspection paths list the pool as JSON or as plain text.

This project models the three core classes in Dafny:

- `backend.dfy` (module `Backend`) models `LicenseServer`:
  - the health record is a class with the source's five private fields;
  - each field update is specified by a pure step function on a
    `BackendState` value: `Probed` for `check()` and `Proxied` for `proxy()`;
  - `Classify` models `isAvailable` on an already-parsed reply;
  - the invariant `Inv` holds in every reachable state.
- `pool.dfy` (module `Pool`) models `ServerManager` over an
  `array<LicenseServer>`:
  - the sweep `check()`;
  - the rankings `available()` and `best()`;
  - `all()`, which sorts the pool's own array in place. Its model is an
    insertion sort proved equal to the functional stable ranking.
- `ranking.dfy` (module `Ranking`) models the stable sort by ping on sequences
  of positions:
  - the order is ascending ping, with equal pings in array order;
  - any sequence sorted that way is equal to `Rank`, so every stable sort
    gives the same result. This includes the engine's own
    `Array.prototype.sort`, which ECMAScript 2019 requires to be stable.
- `front_door.dfy` (module `FrontDoor`) models `Proxy.handler`:
  - the routing cascade is a pure function `Decide`;
  - the `Proxy` class carries out the decided route against the pool.
- `text.dfy` (module `Text`) holds the JavaScript string operations the code
  relies on: `split` and `join` with a one-character separator, `includes`
  and `slice`.
- `wrappers.dfy` holds `Option`.

Three things outside the program become parameters, because the model cannot
run them:

- **Network results** are outcome values: `ProbeOutcome` for the probe's
  `fetch`, and `ProxyOutcome` for a relayed `http.request`.
- **Parsed XML** is the `ParsedBody` value that xml2js would deliver.
- **Clock readings** are integer milliseconds passed in by the caller. This
  covers the `Date.now()` pings and the `new Date()` stamps.

## Model

| member | source | states |
|---|---|---|
| Backend.Initial | src/LicenseServer.ts:33-73 | a fresh record is offline, not exposed as available, and never checked |
| Backend.Classify | src/LicenseServer.ts:168-183 | `isAvailable` on a parsed reply; its meaning is stated by `ClassifyAvailable`, `ClassifyStatus` and `ClassifyErrorStatus` below |
| Backend.View | src/LicenseServer.ts:140-142 | the JSON record carries the backend's url and status and its `online`; ping is null exactly when the backend is offline and is the last ping otherwise; `available` is the getter's `online && available`, so it implies online |
| Backend.ClassifyAvailable | src/LicenseServer.ts:171 | a reply counts as available iff it parsed, has the `ObtainTicketResponse` root, and its first `responseCode` is "OK" |
| Backend.ClassifyStatus | src/LicenseServer.ts:172-180 | the status is "error: " plus the message on a parse error; otherwise "unknown" without a first message, "OK" for an empty first message, else "JB: " plus the message |
| Backend.ClassifyErrorStatus | src/LicenseServer.ts:168-183 | the status starts with "error: " iff parsing failed; the status is never empty; an available verdict implies a parsed body |
| Backend.ScenarioOk | src/LicenseServer.ts:171-175 | an OK code without a message is available with status "unknown" |
| Backend.ScenarioNoLicense | src/LicenseServer.ts:171-173 | code ERROR_DETAILS with message "No license" is unavailable with status "JB: No license" |
| Backend.ScenarioOkEmptyMessage | src/LicenseServer.ts:172-174 | an OK code with an empty message is available with status "OK" |
| Backend.StampMovesWithFlag | src/LicenseServer.ts:75-78 | after a probe or a relay, the flag and `lastChecked` either both stay unchanged, or the setter ran: the stamp is now and the flag is the classification's |
| Backend.Probed | src/LicenseServer.ts:83-98 | the record after `check()`; `ProbeNetError` and `ProbeResponse` state the effect of each outcome, and `ProbedKeepsInv` that the invariant is kept |
| Backend.ProbeNetError | src/LicenseServer.ts:92-97 | a failed `fetch` takes the backend offline with status "connection error: …" and leaves the flag, the ping and the stamp alone |
| Backend.ProbeResponse | src/LicenseServer.ts:83-91 | a reply sets online from `ok` and the ping from the elapsed time; status and flag come from the classification (never "connected"); the stamp is now |
| Backend.ProbedKeepsInv | src/LicenseServer.ts:83-98 | every probe outcome preserves the record invariant |
| Backend.Proxied | src/LicenseServer.ts:103-138 | the record after `proxy()`; `ProxyEffects` states the effect of each outcome, and `ProxiedKeepsInv` that the invariant is kept |
| Backend.ProxyReplyOf | src/LicenseServer.ts:112-137 | what the client of `proxy()` receives; `ProxyEffects` and `Backend.LicenseServer.Proxy` state it: 500 on a setup throw or an inbound stream error, otherwise the backend's status, 200 when absent, buffered exactly for ticket requests |
| Backend.ProxyEffects | src/LicenseServer.ts:103-138 | a setup throw takes the backend offline, changes nothing else and answers 500; an inbound stream error answers 500 and leaves the record alone; any answer from the backend marks it online and is relayed with its status, 200 when absent, buffered exactly for ticket requests; only the ticket endpoint updates ping, flag and stamp |
| Backend.ProxiedKeepsInv | src/LicenseServer.ts:103-138 | every relay outcome preserves the record invariant |
| Backend.ProbePath | src/LicenseServer.ts:10-15 | the probe path: the ticket action, the fixed query with salt 1709279583227, and the two words; `ProbeIsTicketRequest` states that it is recognised as a ticket request |
| Backend.IsObtainTicketRequest | src/LicenseServer.ts:188-190 | a path is a ticket request when it includes "/rpc/obtainTicket.action"; `ContainsIff` characterises the inclusion |
| Backend.ProbeIsTicketRequest | src/LicenseServer.ts:10-15 | for a base href ending in "/", the probe URL is recognised as an `obtainTicket` request |
| Backend.LicenseServer.constructor | src/LicenseServer.ts:31-73 | the fields start at their initialisers: offline, unavailable, ping 9e5, "not checked", never checked |
| Backend.LicenseServer.IsExposed | src/LicenseServer.ts:62-64 | the public `available` getter is true only for an online backend whose flag is set |
| Backend.LicenseServer.SetAvailable | src/LicenseServer.ts:75-78 | the private setter writes the flag and stamps `lastChecked` with the current time, and changes nothing else; the record invariant is kept |
| Backend.LicenseServer.IsAvailable | src/LicenseServer.ts:168-183 | returns the classification's flag; changes only the status text, to the classification's; the record invariant is kept, since that text is never empty |
| Backend.LicenseServer.Check | src/LicenseServer.ts:83-98 | the new record is `Probed` of the old one and the outcome, and the invariant is kept |
| Backend.LicenseServer.Proxy | src/LicenseServer.ts:103-138 | the new record is `Proxied` of the old one; the client receives 500 unless the backend answered, and then its status (200 when absent), buffered exactly for ticket requests |
| Backend.LicenseServer.Json | src/LicenseServer.ts:140-142 | `json()` shows the url, the status and the online field; ping is null exactly when offline and the last ping otherwise; available is `online && available` |
| Text.ContainsIff | src/LicenseServer.ts:188-190 | `includes` holds exactly when the pattern occurs at some index |
| Text.ContainsPiece | src/LicenseServer.ts:188-190 | a string includes each piece it is made of |
| Text.Contains | src/LicenseServer.ts:189 | `includes`; `ContainsIff` states it holds exactly when the pattern occurs at some index |
| Text.Slice | src/Proxy.ts:81 | `slice(k)` is the suffix after the first k characters, and empty once k passes the end |
| Text.Split | src/Proxy.ts:64 | `split` always gives at least one piece; `SplitHead`, `SplitAfterPiece` and `JoinSplit` state what the pieces are |
| Text.Join | src/Proxy.ts:41 | `join`; `JoinSplit` and `SplitJoin` state that it undoes a split and is undone by one |
| Text.SplitHead | src/Proxy.ts:64 | the first piece of `split` is the longest prefix without the separator, followed by a separator or by the end |
| Text.SplitAfterPiece | src/Proxy.ts:64 | splitting `a + sep + b`, with `a` free of separators, gives `a` followed by the split of `b` |
| Text.JoinSplit | src/Proxy.ts:41 | joining the pieces of a split gives the original string back |
| Text.SplitJoin | src/Proxy.ts:41 | splitting a join of at least one separator-free piece gives the pieces back (`[].join` is "", which splits into one empty piece) |
| Ranking.Selected | src/ServerManager.ts:22 | `filter`: exactly the flagged positions, in increasing order |
| Ranking.Insert | src/ServerManager.ts:22 | stable insertion adds exactly the one position, as a multiset |
| Ranking.Rank | src/ServerManager.ts:22 | the ranking is a permutation of the positions ranked |
| Ranking.InsertOrdered | src/ServerManager.ts:22 | inserting a position later than all the others keeps the order (ping, then position) |
| Ranking.RankOrdered | src/ServerManager.ts:22 | stability: ranking positions given in array order sorts them by ping, with equal pings kept in array order |
| Ranking.OrderedUnique | src/ServerManager.ts:22 | two sorted permutations of the same positions are equal |
| Ranking.RankCharacterised | src/ServerManager.ts:29 | any stable sort of the positions equals `Rank` |
| Ranking.RankSelected | src/ServerManager.ts:21-23 | the ranking of the flagged positions holds exactly those positions, each once, stably sorted by ping |
| Ranking.RankFirstIsBest | src/ServerManager.ts:35-38 | the first ranked position is empty only when nothing is flagged; otherwise it is flagged and precedes every other flagged position |
| Ranking.SlowAvailableBeatsFastUnavailable | src/ServerManager.ts:21-23 | an available 50 ms backend ranks before an unavailable 10 ms one, and that one is filtered out |
| Pool.AvailableRanked | src/ServerManager.ts:21-23 | the backends at the ranked positions are exactly the exposed ones, sorted by ping |
| Pool.PickRanked | src/ServerManager.ts:22 | transfers membership and order from positions to the backends they name |
| Pool.ServerManager.constructor | src/ServerManager.ts:4-8 | the pool holds the given backends and has never swept: `lastChecked()` is none before the first sweep |
| Pool.ServerManager.LastChecked | src/ServerManager.ts:6-8 | `lastChecked()`; the constructor (none before the first sweep) and `Check` (the start of the latest sweep) state what it returns |
| Pool.ServerManager.Check | src/ServerManager.ts:13-16 | stamps the sweep time first, so `lastChecked()` is the start of the latest sweep; then probes each backend exactly once: each new record is `Probed` of its old record |
| Pool.ServerManager.AvailableOrder | src/ServerManager.ts:21-23 | `available()` as positions: exactly the exposed backends, stably by ping |
| Pool.ServerManager.Available | src/ServerManager.ts:21-23 | the backends at the positions `AvailableOrder()` ranks, so each exposed backend appears once, earlier in the array first among equal pings; every listed backend is in the pool and exposed; every exposed backend is listed; pings do not decrease |
| Pool.ServerManager.AllOrder | src/ServerManager.ts:28-30 | `all()` as positions: a permutation of all positions, stably by ping |
| Pool.ServerManager.Best | src/ServerManager.ts:35-38 | null iff no backend is exposed; otherwise the exposed backend with the lowest ping, the earliest in the array among equal pings |
| Pool.ServerManager.All | src/ServerManager.ts:28-30 | sorts the pool's own array in place into `AllOrder()`: a permutation, sorted by ping, and the same array is returned |
| Pool.ServerManager.InsertionSort | src/ServerManager.ts:29 | the in-place sort produces a stable ranking of the original array, tracked by a ghost permutation |
| Pool.ServerManager.Sink | src/ServerManager.ts:29 | one insertion step extends the sorted prefix by one backend and keeps the array a permutation |
| Pool.SortDone | src/ServerManager.ts:29 | the sorted array equals the original array picked at `Rank` positions; it stays duplicate-free and sorted, and every record stays valid |
| Pool.RearrangedSorted | src/ServerManager.ts:29 | an array that follows a ping-ordered permutation is sorted by ping |
| FrontDoor.RoundThousandths | src/Proxy.ts:75 | `Math.round(d / 1000)`: the nearest integer, with halves rounding up |
| FrontDoor.RetryAfter | src/Proxy.ts:75 | 0 before the first sweep; otherwise the rounded number of seconds until the next sweep, at least 600 when the clock has not gone back |
| FrontDoor.Decide | src/Proxy.ts:26-81 | the routing cascade; `FixedRoutes`, `ProxiedRoute`, `ForwardTarget` and `ProxiedNeverListed` state which route each URL takes |
| FrontDoor.ListingOf | src/Proxy.ts:33-55 | the four listing paths; `FixedRoutes` states that each is answered with its listing whatever the tokens and the pool |
| FrontDoor.Authorized | src/Proxy.ts:65 | the token test; `ProxiedRoute` states that a gated URL gets 404 exactly when it fails, and `ForwardStripsToken` that a forwarded request then carries a configured token |
| FrontDoor.FixedRoutes | src/Proxy.ts:27-62 | "/" gets 204, and the four listing paths are served before any token check; a request without a URL, or with the empty URL, gets 404 |
| FrontDoor.ProxiedRoute | src/Proxy.ts:57-81 | for any other URL: 404 iff the token check fails; 503 iff it passes and no backend is available; forwarding to `best()` otherwise |
| FrontDoor.ForwardTarget | src/Proxy.ts:71-81 | only the backend `best()` returned is ever forwarded to |
| FrontDoor.TokenOf | src/Proxy.ts:64 | the second piece of the URL split at "/", none when there is no "/"; `TokenStripping` and `TokenOfSegment` state it is the first path segment |
| FrontDoor.ForwardPath | src/Proxy.ts:81 | the path handed to the backend; `ForwardStripsToken` and `ForwardUnchangedWithoutTokens` state it drops "/token" when tokens are configured and keeps the URL otherwise |
| FrontDoor.ProxiedNeverListed | src/Proxy.ts:57-81 | a gated URL only ever gets 404, 503 or a forward |
| FrontDoor.ForwardUnchangedWithoutTokens | src/Proxy.ts:81 | with no tokens configured, the URL is forwarded unchanged |
| FrontDoor.TokenStripping | src/Proxy.ts:64 | for a URL starting with "/", the token is the first path segment, and "/" + token + the forwarded path is the URL |
| FrontDoor.ForwardStripsToken | src/Proxy.ts:64-81 | a forwarded token-gated request carries a configured token, and the backend receives the URL with "/token" cut off |
| FrontDoor.TokenOfSegment | src/Proxy.ts:64 | the token of "/t/rest" is t |
| FrontDoor.TokenScenarioAccepted | src/Proxy.ts:64-79 | tokens ["abc"], URL "/abc/foo", no backend available: 503 |
| FrontDoor.TokenScenarioRejected | src/Proxy.ts:64-68 | tokens ["abc"], URL "/xyz/foo": 404 |
| FrontDoor.TxtBody | src/Proxy.ts:39-43 | the hrefs joined by newlines; `TxtBodyLists` states that, for a non-empty ranking whose hrefs hold no newline, it splits back into the ranking's hrefs, and `EmptyTxtListing` that an empty ranking lists as "" |
| FrontDoor.Hrefs | src/Proxy.ts:41 | the `.map(s => s.url.href)` of lines 41 and 53; `TxtBodyLists` states that, for a non-empty ranking whose hrefs hold no newline, the `.txt` listing splits back into these hrefs, in ranking order |
| FrontDoor.JsonBody | src/Proxy.ts:35 | the `.map(s => s.json())` of lines 35 and 47; `FrontDoor.Proxy.Answer` fixes a `.json` listing's body as these records for `available()` or for the sorted array, and `Backend.LicenseServer.Json` states what each record holds |
| FrontDoor.TxtBodyLists | src/Proxy.ts:39-43 | for a non-empty ranking whose hrefs hold no newline, a `.txt` listing splits back into the ranking's hrefs, in order |
| FrontDoor.EmptyTxtListing | src/Proxy.ts:41 | with no backend to list, the `.txt` listing is "", and splitting it gives one empty piece rather than no hrefs |
| FrontDoor.Proxy.constructor | src/Proxy.ts:6-8 | the proxy holds its tokens and its pool |
| FrontDoor.Proxy.Handler | src/Proxy.ts:26-82 | the route is `Decide` of the URL, the tokens, `best()` and `lastChecked()`; status and body follow the route; only an `all()` listing reorders the array, into `AllOrder()`; every backend except a forward's target keeps its record, wherever it now sits |
| FrontDoor.Proxy.Answer | src/Proxy.ts:27-81 | carries out a decided route with the matching status and body; only an `all()` listing reorders the array; every backend except a forward's target keeps its record |
| FrontDoor.Proxy.AnswerListing | src/Proxy.ts:33-55 | status 200; the available listings leave the array alone; the all listings sort it in place; the body lists the ranking in order; no backend's record changes |
| FrontDoor.Proxy.ListAll | src/Proxy.ts:45-55 | the array becomes the old array picked at `AllOrder()`; the record now at position k is the old record at position `AllOrder()[k]`; the body lists the sorted array |
| FrontDoor.Proxy.AnswerForward | src/Proxy.ts:81 | relays through the target, whose new record is `Proxied` of its old one; no other backend changes |

## Left out

- `getWord` (`src/LicenseServer.ts:16-30`) spawns a shell over the system word list, with a random-UUID fallback. The two words are parameters of `ProbePath`.
- A ticket relay whose upstream body cannot be read has no outcome in the model. `readStream` rejects (`src/LicenseServer.ts:117`) after the backend was marked online and given the new ping (`:113`, `:116`). The record is then not re-classified, and the rejection goes unhandled. This is the relay's counterpart of `check()`'s `BodyError`.
- An inbound stream error after the backend has answered is not modelled. Then `res.writeHead(500)` (`src/LicenseServer.ts:127`) would run after the headers of `:114` were written. `ProxyOutcome` treats a client abort and a backend answer as exclusive.
- `fetch`, `http.request`, stream piping, `readStream` and xml2js parsing are I/O. The model takes their results as outcome values: `ProbeOutcome`, `ProxyOutcome` and `ParsedBody`.
- A reply whose `ObtainTicketResponse` root holds only text makes the `in` test throw a `TypeError`. The model takes that case as a `ParseError`, whose status is "error: " plus the message, as the source's is.
- Backend.Classify: has no outcome for a thrown value that is not an `Error`, which the source records as the bare status "error" (`src/LicenseServer.ts:180`). Only a foreign throw can produce one. That status is therefore unreachable in the model, and `ClassifyErrorStatus`, whose "starts with `error: `" covers every parse failure the model has, says nothing about it.
- Asynchronous failures of the outgoing relay request have no listener in `proxy()`, so they are not modelled. Only the synchronous throw (500 and offline) and an inbound stream error (500, record unchanged) are.
- The sweep's `Promise.all` runs the probes concurrently. The model probes one backend after another, each with its own outcome and finishing time. Interleavings between probes, relays and listings are not modelled.
- `setInterval`, `stop`, `start`, `http.createServer`, logging and `process.exit` are scheduling and process control. `src/cli.ts` and `webpack.config.cjs` are not part of this model.
- The `JSON.stringify` rendering and the response headers (`content-type`, the `retry-after` text) are left out. The model keeps the records, the joined text, the status codes and the retry-after number.
- URL parsing and `href` normalisation are left out: a backend's `url` is its href as a string.
- Pool.ServerManager.constructor: requires distinct backend objects whose records satisfy the invariant. The command line builds one new `LicenseServer` per URL, which meets this. The in-place sort and the per-backend frame reasoning rely on it.
- Clock values are unbounded integers, and `Date`'s millisecond arithmetic is exact at these magnitudes. A ping is a difference of two wall-clock readings, so it is an `int` that is negative when the clock steps back between them; the model allows such pings and the invariant does not bound them.

### Quirks of the code the model keeps, including where it departs from its own comments

- `check()` on a backend whose `fetch` rejects does not stamp `lastChecked`. Only the availability setter does. A backend that has always been unreachable therefore keeps `lastChecked` null even after sweeps.
- `all()` sorts the pool's own array in place and returns it. It is not a fresh copy, so a listing of all backends changes the array order. That in turn changes which backend wins a later tie in `best()`.
- A reply with code OK whose first `message` is missing gets the status "unknown". Only an empty first message gives "OK".
- The probe's `salt` query parameter is the fixed constant 1709279583227, not a time-based value.
- The retry-after value is `Math.round` of a difference of clock readings. It is negative if the clock went back far enough, so it is an `int`.
- When the reply headers arrive but reading the body fails, `check()` first records `online` from the response, the ping and "connected". The catch then overwrites the status and takes the backend offline, but the ping is kept. This is the `BodyError` outcome.
- A relayed request to a non-ticket path marks the backend online without re-classifying it. That can re-expose an availability flag left over from an older classification.
- The comment on the `lastPing` getter (`src/LicenseServer.ts:44-46`) promises 9e5 for a backend not detected online. But `check()` stores the measured time whenever a reply arrives, even when `response.ok` is false (`src/LicenseServer.ts:87-88`), so an offline backend carries a real ping. `ProbeResponse` states this: the ping is the elapsed time whatever `ok` is.
- The probe URL is the base href followed directly by `rpc/obtainTicket.action` (`src/LicenseServer.ts:86`). Only a base ending in "/" gives the ticket endpoint: `https://h/sub` gives `https://h/subrpc/obtainTicket.action`. `ProbeIsTicketRequest` therefore requires a trailing "/".
- The outgoing relay request has no `error` listener. An asynchronous relay failure, including the one `destroy()` raises after an inbound stream error (`src/LicenseServer.ts:125-126`), is an unhandled error event that can end the process, although the `catch` in `proxy()` (`src/LicenseServer.ts:132-137`) shows that a failed relay is meant to answer 500, not to end the process. The model leaves these failures out, as listed above.
