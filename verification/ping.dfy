/**
 One ping round (`ping`) and the periodic loop around it (`start_ping`).
 What `call_api` returns for each ping URL in a round is an input, as is the
 clock reading `now` (whole seconds).
 */
module Ping {
  import opened Wrappers
  import opened Json
  import opened Connection

  /** The protocol version every ping carries. */
  const Version: string := "2.2.7"

  /** A ping URL and what `call_api` returns for it in this round (None: it gave up). */
  datatype Endpoint = Endpoint(url: string, reply: Option<Object>)

  /** The ping body: account uid (`null` when there is none), browser id, timestamp and version. */
  datatype Payload = Payload(id: Value, browserId: Option<string>, timestamp: int, version: string)

  /** A request the round hands to `call_api`. */
  datatype Call = Call(url: string, payload: Payload)

  /** The state after a round and the calls it made, in order. */
  datatype Step = Step(state: State, calls: seq<Call>)

  /** The round is a no-op: a ping was attempted less than `PingInterval` seconds ago. */
  predicate Debounced(s: State, now: int) {
    s.lastPing.Some? && now - s.lastPing.value < PingInterval
  }

  /**
   The payload built for each URL. `account_info.get("uid")` raises when
   the stored account info is not a dict, and then no call is made.
   */
  function PingPayload(s: State, now: int): Option<Payload> {
    if s.accountInfo.Obj? then Some(Payload(Uid(s.accountInfo.fields), s.browserId, now, Version))
    else None
  }

  /** `account_info.get("uid")` as sent: a missing key is sent as `null`, like an explicit `null`. */
  function Uid(account: Object): Value {
    match Get(account, "uid")
    case Some(v) => v
    case None => Null
  }

  /** How the loop body of `ping` treats a URL's reply. */
  datatype Verdict =
    | Success
    | Failure(response: Object)
    | Skipped

  /**
   `code == 0` is a success, any other code a failure passed to
   `handle_ping_fail`; no reply (`None["code"]` raises) or a reply without
   `code` (`KeyError`) is caught and skipped.
   */
  function Classify(reply: Option<Object>): Verdict {
    match reply
    case None => Skipped
    case Some(response) =>
      if "code" !in response then Skipped
      else if EqualsInt(response["code"], 0) then Success
      else Failure(response)
  }

  /** The loop over the ping URLs and the final `handle_ping_fail(None)`. */
  function TryEndpoints(s: State, now: int, eps: seq<Endpoint>): (r: Step)
    ensures r.state.lastPing == s.lastPing && r.state.browserId == s.browserId
    ensures r.state.status == Connected || r.state.status == Disconnected
    ensures r.state.status == Connected ==> r.state.retries == 0
    ensures r.state.status == Disconnected ==> r.state.retries > s.retries
    ensures |r.calls| <= |eps|
    ensures s.accountInfo.Obj? && eps != [] ==> |r.calls| > 0 && r.calls[0].url == eps[0].url
    ensures forall c :: c in r.calls ==> c.payload.browserId == s.browserId && c.payload.timestamp == now
    decreases |eps|
  {
    if eps == [] then Step(HandlePingFail(s, None), [])
    else match PingPayload(s, now)
      case None => TryEndpoints(s, now, eps[1..])
      case Some(payload) =>
        var call := Call(eps[0].url, payload);
        match Classify(eps[0].reply)
        case Success => Step(s.(retries := 0, status := Connected), [call])
        case Failure(response) =>
          var rest := TryEndpoints(HandlePingFail(s, Some(response)), now, eps[1..]);
          Step(rest.state, [call] + rest.calls)
        case Skipped =>
          var rest := TryEndpoints(s, now, eps[1..]);
          Step(rest.state, [call] + rest.calls)
  }

  /** `ping`: debounce on the last ping time, record `now`, then try the URLs. */
  function PingRound(s: State, now: int, eps: seq<Endpoint>): (r: Step)
    ensures Debounced(s, now) ==> r == Step(s, [])
    ensures !Debounced(s, now) ==> r.state.lastPing == Some(now) && r.state.status != NoneConnection
    ensures r.state.browserId == s.browserId
  {
    if Debounced(s, now) then Step(s, [])
    else TryEndpoints(s.(lastPing := Some(now)), now, eps)
  }

  predicate Succeeds(e: Endpoint) {
    Classify(e.reply).Success?
  }

  predicate Fails(e: Endpoint) {
    Classify(e.reply).Failure?
  }

  /** The URL answered with 403, which makes `handle_ping_fail` log out. */
  predicate Revokes(e: Endpoint) {
    IsRevoked(e.reply)
  }

  predicate AnyRevokes(eps: seq<Endpoint>) {
    exists i :: 0 <= i < |eps| && Revokes(eps[i])
  }

  /** How many URLs in `eps` answered with a non-zero code. */
  function FailureCount(eps: seq<Endpoint>): nat {
    if eps == [] then 0 else (if Fails(eps[0]) then 1 else 0) + FailureCount(eps[1..])
  }

  /** The URLs a sequence of calls went to. */
  predicate CallsGoTo(calls: seq<Call>, eps: seq<Endpoint>) {
    |calls| == |eps| && forall i :: 0 <= i < |eps| ==> calls[i].url == eps[i].url
  }

  /** A 403 is never a success, so it always goes through failure handling. */
  lemma RevokesFails(e: Endpoint)
    requires Revokes(e)
    ensures Fails(e)
  {
  }

  lemma {:induction false} AnyRevokesCons(eps: seq<Endpoint>)
    requires eps != []
    ensures AnyRevokes(eps) <==> Revokes(eps[0]) || AnyRevokes(eps[1..])
  {
    if AnyRevokes(eps) && !Revokes(eps[0]) {
      var i :| 0 <= i < |eps| && Revokes(eps[i]);
      assert eps[1..][i - 1] == eps[i];
    }
    if AnyRevokes(eps[1..]) {
      var i :| 0 <= i < |eps[1..]| && Revokes(eps[1..][i]);
      assert eps[i + 1] == eps[1..][i];
    }
  }

  /** The state after a round in which no URL succeeded. */
  function FailedRoundState(s: State, eps: seq<Endpoint>): State {
    s.(status := Disconnected,
       retries := s.retries + FailureCount(eps) + 1,
       accountInfo := if AnyRevokes(eps) then EmptyObject else s.accountInfo)
  }

  /** The state after a round whose URL number `|before|` succeeded, `before` being the URLs tried first. */
  function SucceededRoundState(s: State, before: seq<Endpoint>): State {
    s.(status := Connected,
       retries := 0,
       accountInfo := if AnyRevokes(before) then EmptyObject else s.accountInfo)
  }

  lemma {:induction false} TryAllFail(s: State, now: int, eps: seq<Endpoint>)
    requires s.accountInfo.Obj?
    requires forall i :: 0 <= i < |eps| ==> !Succeeds(eps[i])
    ensures TryEndpoints(s, now, eps).state == FailedRoundState(s, eps)
    ensures CallsGoTo(TryEndpoints(s, now, eps).calls, eps)
    ensures forall i :: 0 <= i < |eps| ==>
      TryEndpoints(s, now, eps).calls[i].payload.id == (if AnyRevokes(eps[..i]) then Null else Uid(s.accountInfo.fields))
    decreases |eps|
  {
    if eps != [] {
      var rest := eps[1..];
      var r := TryEndpoints(s, now, eps);
      assert forall i :: 0 <= i < |rest| ==> !Succeeds(rest[i]) by {
        forall i | 0 <= i < |rest| ensures !Succeeds(rest[i]) {
          assert rest[i] == eps[i + 1];
        }
      }
      AnyRevokesCons(eps);
      assert !Succeeds(eps[0]);
      match Classify(eps[0].reply)
      case Failure(response) =>
        var s' := HandlePingFail(s, Some(response));
        assert Revokes(eps[0]) <==> IsRevoked(Some(response));
        TryAllFail(s', now, rest);
        PayloadIdsShift(s, s', now, eps, r.calls, TryEndpoints(s', now, rest).calls, |eps|);
      case Skipped =>
        assert !Revokes(eps[0]);
        TryAllFail(s, now, rest);
        PayloadIdsShift(s, s, now, eps, r.calls, TryEndpoints(s, now, rest).calls, |eps|);
    }
  }

  /**
   The inductive step of the payload ids of the first `n` calls of a round:
   the first call, then the rest from the state after it.
   */
  lemma PayloadIdsShift(s: State, s': State, now: int, eps: seq<Endpoint>, calls: seq<Call>, tail: seq<Call>, n: nat)
    requires 0 < n <= |eps| && s.accountInfo.Obj? && s'.accountInfo.Obj?
    requires s'.accountInfo == (if Revokes(eps[0]) then EmptyObject else s.accountInfo)
    requires calls == [Call(eps[0].url, PingPayload(s, now).value)] + tail
    requires |tail| >= n - 1
    requires forall i :: 0 <= i < n - 1 ==>
      tail[i].payload.id == (if AnyRevokes(eps[1..][..i]) then Null else Uid(s'.accountInfo.fields))
    ensures forall i :: 0 <= i < n ==>
      calls[i].payload.id == (if AnyRevokes(eps[..i]) then Null else Uid(s.accountInfo.fields))
  {
    forall i | 0 <= i < n
      ensures calls[i].payload.id == (if AnyRevokes(eps[..i]) then Null else Uid(s.accountInfo.fields))
    {
      if i == 0 {
        assert !AnyRevokes(eps[..0]);
      } else {
        assert calls[i] == tail[i - 1];
        assert eps[..i][1..] == eps[1..][..i - 1];
        assert eps[..i][0] == eps[0];
        AnyRevokesCons(eps[..i]);
        assert Uid(map[]) == Null;
      }
    }
  }

  lemma {:induction false} TryFirstSuccess(s: State, now: int, eps: seq<Endpoint>, j: nat)
    requires s.accountInfo.Obj?
    requires j < |eps| && Succeeds(eps[j])
    requires forall i :: 0 <= i < j ==> !Succeeds(eps[i])
    ensures TryEndpoints(s, now, eps).state == SucceededRoundState(s, eps[..j])
    ensures CallsGoTo(TryEndpoints(s, now, eps).calls, eps[..j + 1])
    decreases j
  {
    if j == 0 {
      assert !AnyRevokes(eps[..0]);
    } else {
      var rest := eps[1..];
      assert rest[j - 1] == eps[j];
      assert forall i :: 0 <= i < j - 1 ==> !Succeeds(rest[i]) by {
        forall i | 0 <= i < j - 1 ensures !Succeeds(rest[i]) {
          assert rest[i] == eps[i + 1];
        }
      }
      assert !Succeeds(eps[0]);
      assert eps[..j][1..] == rest[..j - 1];
      assert eps[..j + 1][1..] == rest[..j];
      AnyRevokesCons(eps[..j]);
      var call := Call(eps[0].url, PingPayload(s, now).value);
      match Classify(eps[0].reply)
      case Failure(response) =>
        var s' := HandlePingFail(s, Some(response));
        assert Revokes(eps[0]) <==> IsRevoked(Some(response));
        TryFirstSuccess(s', now, rest, j - 1);
        var tail := TryEndpoints(s', now, rest);
        assert TryEndpoints(s, now, eps) == Step(tail.state, [call] + tail.calls);
      case Skipped =>
        assert !Revokes(eps[0]);
        TryFirstSuccess(s, now, rest, j - 1);
        var tail := TryEndpoints(s, now, rest);
        assert TryEndpoints(s, now, eps) == Step(tail.state, [call] + tail.calls);
    }
  }

  /** In a round whose first success is URL `j`, each call up to `j` carries the uid until a URL has answered 403, and `null` from then on. */
  lemma {:induction false} TryFirstSuccessIds(s: State, now: int, eps: seq<Endpoint>, j: nat)
    requires s.accountInfo.Obj?
    requires j < |eps| && Succeeds(eps[j])
    requires forall i :: 0 <= i < j ==> !Succeeds(eps[i])
    ensures |TryEndpoints(s, now, eps).calls| > j
    ensures forall i :: 0 <= i <= j ==>
      TryEndpoints(s, now, eps).calls[i].payload.id == (if AnyRevokes(eps[..i]) then Null else Uid(s.accountInfo.fields))
    decreases j
  {
    var r := TryEndpoints(s, now, eps);
    if j == 0 {
      assert !AnyRevokes(eps[..0]);
    } else {
      var rest := eps[1..];
      assert rest[j - 1] == eps[j];
      assert forall i :: 0 <= i < j - 1 ==> !Succeeds(rest[i]) by {
        forall i | 0 <= i < j - 1 ensures !Succeeds(rest[i]) {
          assert rest[i] == eps[i + 1];
        }
      }
      assert !Succeeds(eps[0]);
      var call := Call(eps[0].url, PingPayload(s, now).value);
      match Classify(eps[0].reply)
      case Failure(response) =>
        var s' := HandlePingFail(s, Some(response));
        assert Revokes(eps[0]) <==> IsRevoked(Some(response));
        TryFirstSuccessIds(s', now, rest, j - 1);
        var tail := TryEndpoints(s', now, rest);
        assert r == Step(tail.state, [call] + tail.calls);
        PayloadIdsShift(s, s', now, eps, r.calls, tail.calls, j + 1);
      case Skipped =>
        assert !Revokes(eps[0]);
        TryFirstSuccessIds(s, now, rest, j - 1);
        var tail := TryEndpoints(s, now, rest);
        assert r == Step(tail.state, [call] + tail.calls);
        PayloadIdsShift(s, s, now, eps, r.calls, tail.calls, j + 1);
    }
  }

  /**
   A successful ping: URL `j` is the first to answer `code == 0`. The counter
   is reset, the status is CONNECTED, exactly the URLs up to `j` were called in
   order, and the only other change is the ping time (and the account info,
   when an earlier URL answered 403).
   */
  lemma PingSucceeds(s: State, now: int, eps: seq<Endpoint>, j: nat)
    requires !Debounced(s, now) && s.accountInfo.Obj?
    requires j < |eps| && Succeeds(eps[j])
    requires forall i :: 0 <= i < j ==> !Succeeds(eps[i])
    ensures PingRound(s, now, eps).state == SucceededRoundState(s.(lastPing := Some(now)), eps[..j])
    ensures CallsGoTo(PingRound(s, now, eps).calls, eps[..j + 1])
    ensures forall i :: 0 <= i <= j ==>
      PingRound(s, now, eps).calls[i].payload.id == (if AnyRevokes(eps[..i]) then Null else Uid(s.accountInfo.fields))
  {
    TryFirstSuccess(s.(lastPing := Some(now)), now, eps, j);
    TryFirstSuccessIds(s.(lastPing := Some(now)), now, eps, j);
  }

  /**
   A failed ping round: every URL is called in order, the counter grows by
   one per non-zero code plus one for the final `handle_ping_fail(None)`, and
   the status ends DISCONNECTED even when a 403 logged out along the way.
   */
  lemma PingFails(s: State, now: int, eps: seq<Endpoint>)
    requires !Debounced(s, now) && s.accountInfo.Obj?
    requires forall i :: 0 <= i < |eps| ==> !Succeeds(eps[i])
    ensures PingRound(s, now, eps).state == FailedRoundState(s.(lastPing := Some(now)), eps)
    ensures CallsGoTo(PingRound(s, now, eps).calls, eps)
    ensures forall i :: 0 <= i < |eps| ==>
      PingRound(s, now, eps).calls[i].payload.id == (if AnyRevokes(eps[..i]) then Null else Uid(s.accountInfo.fields))
  {
    TryAllFail(s.(lastPing := Some(now)), now, eps);
  }

  /** A 403 is one of the counted failures. */
  lemma {:induction false} RevocationIsCounted(eps: seq<Endpoint>)
    requires AnyRevokes(eps)
    ensures FailureCount(eps) >= 1
    decreases |eps|
  {
    AnyRevokesCons(eps);
    if Revokes(eps[0]) {
      RevokesFails(eps[0]);
    } else {
      RevocationIsCounted(eps[1..]);
    }
  }

  /**
   A round with a 403 and no success: the logout does not reset the counter,
   which keeps counting every failure of the round, the 403 included, plus the
   final one; the account info stays cleared while the status ends DISCONNECTED.
   */
  lemma RevokedRoundKeepsCounting(s: State, now: int, eps: seq<Endpoint>)
    requires !Debounced(s, now) && s.accountInfo.Obj?
    requires forall i :: 0 <= i < |eps| ==> !Succeeds(eps[i])
    requires AnyRevokes(eps)
    ensures PingRound(s, now, eps).state.retries == s.retries + FailureCount(eps) + 1 >= s.retries + 2
    ensures PingRound(s, now, eps).state.status == Disconnected
    ensures PingRound(s, now, eps).state.accountInfo == EmptyObject
  {
    PingFails(s, now, eps);
    RevocationIsCounted(eps);
  }

  /** A round whose first URL answers `code == 0` ends CONNECTED with a zero counter, whatever came before. */
  lemma FirstUrlSucceeds(s: State, now: int, eps: seq<Endpoint>)
    requires !Debounced(s, now) && s.accountInfo.Obj?
    requires eps != [] && Succeeds(eps[0])
    ensures PingRound(s, now, eps) == Step(s.(lastPing := Some(now), status := Connected, retries := 0), [Call(eps[0].url, PingPayload(s, now).value)])
  {
  }

  /** Two pings less than `PingInterval` apart: the second one calls nothing and changes nothing. */
  lemma DebounceTwice(s: State, t1: int, t2: int, eps1: seq<Endpoint>, eps2: seq<Endpoint>)
    requires !Debounced(s, t1) && t2 - t1 < PingInterval
    ensures PingRound(PingRound(s, t1, eps1).state, t2, eps2) == Step(PingRound(s, t1, eps1).state, [])
    ensures s.accountInfo.Obj? && eps1 != [] ==> |PingRound(s, t1, eps1).calls| > 0
  {
  }

  /**
   When the stored account info is not a dict, building each payload raises,
   so no URL is called and the round ends in `handle_ping_fail(None)`.
   */
  lemma {:induction false} NonDictAccountCallsNothing(s: State, now: int, eps: seq<Endpoint>)
    requires !s.accountInfo.Obj?
    ensures TryEndpoints(s, now, eps) == Step(HandlePingFail(s, None), [])
    decreases |eps|
  {
    if eps != [] {
      NonDictAccountCallsNothing(s, now, eps[1..]);
    }
  }

  /** A 403 followed by a silent URL: the logout is overwritten to DISCONNECTED, and the second call carries no uid. */
  lemma RevokedLogoutOverwritten()
    ensures var s := Init().(accountInfo := Obj(map["uid" := Str("u1")]), browserId := Some("b"));
            var eps := [Endpoint("p1", Some(map["code" := Num(403)])), Endpoint("p2", None)];
            var r := PingRound(s, 1000, eps);
            && r.state.status == Disconnected
            && r.state.accountInfo == EmptyObject
            && r.state.retries == InitialRetries + 2
            && |r.calls| == 2
            && r.calls[0].payload.id == Str("u1")
            && r.calls[1].payload.id == Null
  {
    var s := Init().(accountInfo := Obj(map["uid" := Str("u1")]), browserId := Some("b"));
    var eps := [Endpoint("p1", Some(map["code" := Num(403)])), Endpoint("p2", None)];
    assert Classify(eps[0].reply) == Failure(map["code" := Num(403)]);
    assert IsRevoked(eps[0].reply);
  }

  /** A 403 followed by a success: CONNECTED with the account info already cleared, and the successful call carried no uid. */
  lemma ConnectedAfterRevocation()
    ensures var s := Init().(accountInfo := Obj(map["uid" := Str("u1")]), browserId := Some("b"));
            var eps := [Endpoint("p1", Some(map["code" := Num(403)])), Endpoint("p2", Some(map["code" := Num(0)]))];
            var r := PingRound(s, 1000, eps);
            && r.state.status == Connected
            && r.state.accountInfo == EmptyObject
            && r.state.retries == 0
            && |r.calls| == 2
            && r.calls[1].payload.id == Null
  {
    var eps := [Endpoint("p1", Some(map["code" := Num(403)])), Endpoint("p2", Some(map["code" := Num(0)]))];
    assert Classify(eps[0].reply) == Failure(map["code" := Num(403)]);
    assert IsRevoked(eps[0].reply);
    assert Classify(eps[1].reply) == Success;
  }

  /**
   One iteration of `start_ping`: `busy` is the time that passes between the
   previous clock reading (or the loop's start) and this iteration's reading,
   beyond the sleep; `endpoints` is what the URLs answer.
   */
  datatype Tick = Tick(busy: nat, endpoints: seq<Endpoint>)

  /** An iteration as it happened: the clock reading, the round, and the sleep that follows it. */
  datatype Iteration = Iteration(now: int, step: Step, sleep: nat)

  /**
   The first `|ticks|` iterations of `start_ping`, starting at time `clock`:
   ping, then sleep `PingInterval`; the next iteration reads the clock after
   that sleep.
   */
  function Run(s: State, clock: int, ticks: seq<Tick>): (trace: seq<Iteration>)
    ensures |trace| == |ticks|
    ensures trace != [] ==> trace[0].now >= clock
    ensures forall k :: 0 <= k < |trace| ==> trace[k].step.state.browserId == s.browserId
    ensures forall k :: 0 <= k < |trace| ==> trace[k].sleep == PingInterval
    ensures forall k :: 0 <= k < |trace| - 1 ==> trace[k + 1].now >= trace[k].now + trace[k].sleep
    decreases |ticks|
  {
    if ticks == [] then []
    else
      var now := clock + ticks[0].busy;
      var first := PingRound(s, now, ticks[0].endpoints);
      [Iteration(now, first, PingInterval)] + Run(first.state, now + PingInterval, ticks[1..])
  }

  /** The state in which iteration `k` of a run starts. */
  function Before(s: State, trace: seq<Iteration>, k: nat): State
    requires k <= |trace|
  {
    if k == 0 then s else trace[k - 1].step.state
  }

  /** Iteration `k` of a run reads the clock after the previous iteration's sleep and its own busy time. */
  predicate ClockAt(clock: int, ticks: seq<Tick>, trace: seq<Iteration>, k: nat)
    requires k < |ticks| == |trace|
  {
    trace[k].now == (if k == 0 then clock else trace[k - 1].now + trace[k - 1].sleep) + ticks[k].busy
  }

  /** Iteration `k` of a run is a ping round from the state the previous iteration left. */
  predicate RoundAt(s: State, ticks: seq<Tick>, trace: seq<Iteration>, k: nat)
    requires k < |ticks| == |trace|
  {
    trace[k].step == PingRound(Before(s, trace, k), trace[k].now, ticks[k].endpoints)
  }

  lemma {:induction false} RunAt(s: State, clock: int, ticks: seq<Tick>, k: nat)
    requires k < |ticks|
    ensures ClockAt(clock, ticks, Run(s, clock, ticks), k)
    ensures RoundAt(s, ticks, Run(s, clock, ticks), k)
    decreases k
  {
    var trace := Run(s, clock, ticks);
    var now := clock + ticks[0].busy;
    var first := PingRound(s, now, ticks[0].endpoints);
    var tail := Run(first.state, now + PingInterval, ticks[1..]);
    assert trace == [Iteration(now, first, PingInterval)] + tail;
    if k > 0 {
      RunAt(first.state, now + PingInterval, ticks[1..], k - 1);
      assert trace[k] == tail[k - 1];
      assert ticks[k] == ticks[1..][k - 1];
      assert Before(s, trace, k) == Before(first.state, tail, k - 1);
      if k > 1 {
        assert trace[k - 1] == tail[k - 2];
      }
    }
  }

  /**
   Each iteration of a run is a ping round from the state the previous
   iteration left, at the clock reading after the previous sleep and the
   iteration's own busy time.
   */
  lemma RunIsPingLoop(s: State, clock: int, ticks: seq<Tick>)
    ensures forall k :: 0 <= k < |ticks| ==>
      ClockAt(clock, ticks, Run(s, clock, ticks), k) && RoundAt(s, ticks, Run(s, clock, ticks), k)
  {
    forall k | 0 <= k < |ticks|
      ensures ClockAt(clock, ticks, Run(s, clock, ticks), k) && RoundAt(s, ticks, Run(s, clock, ticks), k)
    {
      RunAt(s, clock, ticks, k);
    }
  }

  /**
   Under the loop's own schedule the debounce never fires: when the loop
   starts at least `PingInterval` after the last ping (or before any), every
   iteration is a real ping and records its time.
   */
  lemma {:induction false} ScheduledPingsNeverDebounced(s: State, clock: int, ticks: seq<Tick>)
    requires s.lastPing.Some? ==> clock - s.lastPing.value >= PingInterval
    ensures forall k :: 0 <= k < |ticks| ==>
      && !Debounced(Before(s, Run(s, clock, ticks), k), Run(s, clock, ticks)[k].now)
      && Run(s, clock, ticks)[k].step.state.lastPing == Some(Run(s, clock, ticks)[k].now)
    decreases |ticks|
  {
    if ticks != [] {
      var trace := Run(s, clock, ticks);
      var now := clock + ticks[0].busy;
      var first := PingRound(s, now, ticks[0].endpoints);
      ScheduledPingsNeverDebounced(first.state, now + PingInterval, ticks[1..]);
      var tail := Run(first.state, now + PingInterval, ticks[1..]);
      assert trace == [Iteration(now, first, PingInterval)] + tail;
      forall k | 0 <= k < |ticks|
        ensures !Debounced(Before(s, trace, k), trace[k].now) && trace[k].step.state.lastPing == Some(trace[k].now)
      {
        if k > 0 {
          assert trace[k] == tail[k - 1];
          assert Before(s, trace, k) == Before(first.state, tail, k - 1);
        }
      }
    }
  }
}
