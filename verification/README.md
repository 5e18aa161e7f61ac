# Ping session state machine of the nodepay client

A Dafny model of the per-token session and ping logic of the nodepay client
(`main.py`). For each token, the client:

- creates a fresh browser id;
- fetches the account through a retrying API caller;
- if the account has a `uid`, pings a list of URLs once a minute.

A small set of process-wide variables tracks connection health:

- `status_connect`
- `RETRIES`
- `browser_id`
- `account_info`
- `last_ping_time`

The model is functional. The globals are one immutable `Connection.State`, and every
transition is a pure function. Network results, the clock and the fresh
uuid are passed in as parameters.

Modules:

- `Wrappers`: `Option` (Python's `None`) and `Result` (an operation that may raise).
- `Json`: decoded JSON values and the Python behaviours the client relies on:
  - truthiness;
  - `==` and `<` against integers, where `bool` counts as an `int`;
  - `dict.get`.
- `Api`: `valid_resp`, and `call_api` as a loop over per-attempt outcomes.
  Each backoff sleep is recorded as a delay instead of being waited out.
- `Connection`: the status enumeration, the state record, the initial
  globals, `handle_logout` and `handle_ping_fail`.
- `Ping`: one `ping` round over the ping URLs, and the `start_ping` loop as a
  finite sequence of clock ticks.
- `Profile`: `render_profile_info`, plus the two end-to-end scenarios.

The model keeps these behaviours exactly as the code has them:

- Both branches of `handle_ping_fail` set DISCONNECTED.
- Logout leaves the retry counter alone (main.py:149-153).
- A 403 that logs out in the middle of a round is overwritten to
  DISCONNECTED by the final `handle_ping_fail(None)` (main.py:136).
- After such a logout, later URLs in the same round are still called, with
  a `null` uid.
- A success after a 403 in the same round gives CONNECTED with empty
  account info.
- Entering the ping loop leaves the status at NONE_CONNECTION until the
  first ping.
- `account_info` is assigned before `.get("uid")` runs, so a session reply
  whose `data` is not a dict is still stored (main.py:60-62).
- `call_api` also sleeps after the last failed attempt, so a call whose
  attempts all fail waits 2^max_retries − 1 seconds (main.py:91).
- `RETRIES` starts at 120 (main.py:29).
- Account info can be empty while CONNECTED (`Ping.ConnectedAfterRevocation`)
  and non-empty while NONE_CONNECTION (`Profile.ScenarioConnects`).

## Model

| member | source | states |
|---|---|---|
| `Api.ValidResp` | main.py:46-49 | A body is accepted exactly when it is a non-empty object whose `code` compares as an integer ≥ 0; an accepted body is returned unchanged, every other body is an error |
| `Api.ValidRespIdempotent` | main.py:46-49 | Validating an accepted body a second time accepts it again with the same value (it is returned unchanged) |
| `Api.CallApi` | main.py:72-93 | Returns the body of the first accepted attempt among the first `maxRetries`; every earlier attempt was rejected and was followed by a sleep of 2^k; the result has `code ≥ 0`; it returns None exactly when all `maxRetries` attempts fail, and then it has slept 2^maxRetries − 1 seconds |
| `Api.BackoffTotal` | main.py:83-91 | Sleeping 2^0, …, 2^(n−1) totals 2^n − 1 seconds |
| `Api.DefaultAllFailWait` | main.py:72-93 | With the default three attempts an all-fail call waits 7 seconds |
| `Connection.StatusCode` | main.py:32-36 | Each status is stored as an integer in 1..3 |
| `Connection.StatusCodeInjective` | main.py:32-36 | Distinct statuses get distinct stored integers |
| `Connection.Init` | main.py:28-41 | Initially NONE_CONNECTION, counter 120, no browser id, empty account info, no ping time |
| `Connection.HandleLogout` | main.py:149-153 | Status NONE_CONNECTION and empty account info; counter, browser id and ping time unchanged |
| `Connection.LogoutIdempotent` | main.py:149-153 | Logging out twice equals logging out once |
| `Connection.HandlePingFail` | main.py:138-147 | The counter always grows by one; a response with code 403 logs out; anything else, including no response, gives DISCONNECTED with account info kept, whatever the counter |
| `Connection.PingFailIgnoresCounter` | main.py:144-147 | Two states differing only in the counter end in the same status and account info after a failure |
| `Connection.RevocationLogsOut` | main.py:141-143 | A 403 response yields exactly a logout plus one more counted failure |
| `Ping.TryEndpoints` | main.py:113-136 | A round ends CONNECTED with counter 0 or DISCONNECTED with a larger counter, never NONE_CONNECTION; browser id and ping time untouched; no more calls than URLs, the first URL always called when the account info is a dict; every payload carries the browser id and the round's timestamp |
| `Ping.PingRound` | main.py:105-136 | Within `PingInterval` of the last ping nothing changes and nothing is called; otherwise `now` is recorded and the status ends other than NONE_CONNECTION |
| `Ping.RevokesFails` | main.py:125-132 | A 403 reply is never a success, so it always goes through failure handling |
| `Ping.TryAllFail` | main.py:115-136 | Without a success every URL is called in order and the state is the failed-round state (counter + failures + 1, DISCONNECTED, account cleared iff some URL answered 403); each call carries the account's uid until a URL has answered 403, and `null` from then on |
| `Ping.TryFirstSuccess` | main.py:115-129 | When URL j is the first success, exactly URLs 0..j are called and the state is the succeeded-round state |
| `Ping.TryFirstSuccessIds` | main.py:115-132 | When URL j is the first success, each call up to j carries the account's uid until a URL has answered 403, and `null` from then on |
| `Ping.PingSucceeds` | main.py:108-129 | A non-debounced round whose first success is URL j: counter 0, CONNECTED, ping time `now`, calls to URLs 0..j in order and no later one, each carrying the uid until a URL has answered 403 and `null` after; account info cleared only if an earlier URL answered 403 |
| `Ping.PingFails` | main.py:108-136 | A non-debounced round with no success: every URL called in order, counter grows by the number of non-zero codes plus one, DISCONNECTED even after a mid-round 403, ping time `now`; calls after a 403 carry a `null` uid |
| `Ping.RevokedRoundKeepsCounting` | main.py:136-153 | A round with a 403 and no success ends DISCONNECTED with cleared account info, and the counter, not reset by the logout, has grown by at least two |
| `Ping.FirstUrlSucceeds` | main.py:115-129 | A first URL answering code 0 makes exactly one call and gives CONNECTED with counter 0 whatever the prior state |
| `Ping.DebounceTwice` | main.py:108-112 | A second ping less than 60 s after a real one calls nothing and changes nothing, while the first called a URL whenever there is one and the account info is a dict |
| `Ping.NonDictAccountCallsNothing` | main.py:116-136 | When account info is not a dict the payload cannot be built, no URL is called and the round ends in one `handle_ping_fail(None)` |
| `Ping.RevokedLogoutOverwritten` | main.py:124-147 | A 403 then a silent URL: final status DISCONNECTED with cleared account info, counter + 2, and the second call carries no uid |
| `Ping.ConnectedAfterRevocation` | main.py:124-153 | A 403 then a success: CONNECTED, counter 0, but account info already cleared, and the successful call carried no uid |
| `Ping.Run` | main.py:95-99 | Every iteration of the ping loop keeps the browser id and is followed by a `PingInterval` sleep, so each clock reading is at least that sleep after the previous one |
| `Ping.RunIsPingLoop` | main.py:95-99 | Each iteration is a `ping` round from the state the previous iteration left, at a clock reading taken after the previous iteration's sleep plus the busy time before this reading (the time the previous round's calls took) |
| `Ping.ScheduledPingsNeverDebounced` | main.py:95-112 | When the loop starts at least `PingInterval` after the last ping, every iteration passes the debounce and records its time |
| `Profile.RenderProfileInfo` | main.py:51-70 | The browser id is always replaced by the fresh one; no reply changes nothing else; pinging starts exactly when the reply is valid and its `data` is a dict with a truthy `uid`, and then the account info is that data and the status is unchanged; a rejected reply or one without `data` changes nothing but the browser id; `data` that is not a dict is stored but does not start pinging; the only status change is a logout |
| `Profile.NoUidLogsOut` | main.py:59-67 | A valid reply whose account data lacks a truthy `uid` logs out and never pings |
| `Profile.SessionReplyRevalidates` | main.py:56-59 | A reply `call_api` returns (code ≥ 0) passes the repeated `valid_resp` |
| `Profile.ScenarioConnects` | main.py:51-129 | Session reply `{code: 0, data: {uid: "u1"}}` starts the loop (still NONE_CONNECTION); a first ping URL answering `{code: 0}` gives CONNECTED, counter 0, one call with uid, browser id and timestamp |
| `Profile.ScenarioNoUid` | main.py:54-67 | Session reply `{code: 0, data: {}}` logs out and the loop never starts |

## Left out

- The HTTP plumbing is not modelled: the aiohttp session, the headers, TLS
  and the 10-second timeout (main.py:73-87). Each attempt's outcome is an
  input. `None` stands for a transport error, a non-2xx status or
  undecodable JSON.
- Real waiting is not modelled: `asyncio.sleep`, cancellation and the error
  handler of `start_ping` (main.py:95-103). Sleeps become recorded delays:
  the backoff delays of `Api.CallApi` and the `PingInterval` sleep of each
  `Ping.Run` iteration. The time a round's calls take is an input of each
  iteration. `Ping.Run` models a finite prefix of the endless loop.
- `uuid.uuid4()` is not modelled (main.py:43-44). The fresh browser id is a
  parameter.
- Float time is not modelled. `time.time()` becomes an integer `now`.
- Ping.TryEndpoints: the timestamp in every payload of a round is the round's
  `now`. The code reads the clock again for each URL (main.py:120).
- `DOMAIN_API` comes from a configuration module that is not part of this
  model. The ping URLs are a parameter. The session URL does not appear.
- Profile.RenderProfileInfo receives the session reply that `call_api` returns; it does not
  invoke `Api.CallApi` itself. `Profile.SessionReplyRevalidates` links the
  two. Likewise, `Ping.PingRound` receives each URL's `call_api` result.
- Logging, colours and the banner are not modelled (main.py:13-26). They
  have no behaviour.
- Token loading and the top-level token loop with its 10-second delay are
  not modelled (main.py:156-179). They are file I/O and orchestration.
- JSON numbers are integers only. Floats are not modelled.
- The exception types are not distinguished. `ValueError`, `TypeError`,
  `KeyError` and `AttributeError` all become one error, because every
  caller catches `Exception` alike.
