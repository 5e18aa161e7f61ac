/**
 Session establishment (`render_profile_info`): a fresh browser id, the
 session call, then either the ping loop or a logout. The fresh id (a
 `uuid4` string) and what `call_api` returns for the session URL are inputs.
 */
module Profile {
  import opened Wrappers
  import opened Json
  import opened Api
  import opened Connection
  import opened Ping

  /** The state once the session call has been dealt with, and whether `start_ping` was entered. */
  datatype Session = Session(state: State, pinging: bool)

  /** The account data carries a truthy `uid`, the test that decides whether pinging starts. */
  predicate HasAccount(reply: Object) {
    "data" in reply && reply["data"].Obj? && HasTruthy(reply["data"].fields, "uid")
  }

  /**
   `render_profile_info`. Every exception on the way (an invalid response,
   a missing `data` key, `data` that is not a dict) is caught and logged;
   note that `account_info` is assigned before `.get("uid")` can raise.
   */
  function RenderProfileInfo(s: State, freshId: string, reply: Option<Object>): (r: Session)
    ensures r.state.browserId == Some(freshId)
    ensures r.state.retries == s.retries && r.state.lastPing == s.lastPing
    ensures reply.None? ==> r == Session(s.(browserId := Some(freshId)), false)
    ensures r.pinging <==> reply.Some? && ValidResp(Obj(reply.value)).Ok? && HasAccount(reply.value)
    ensures r.pinging ==> r.state == s.(browserId := Some(freshId), accountInfo := reply.value["data"])
    ensures reply.Some? && (ValidResp(Obj(reply.value)).Err? || "data" !in reply.value) ==>
      r == Session(s.(browserId := Some(freshId)), false)
    ensures reply.Some? && ValidResp(Obj(reply.value)).Ok? && "data" in reply.value && !reply.value["data"].Obj? ==>
      r == Session(s.(browserId := Some(freshId), accountInfo := reply.value["data"]), false)
    ensures r.state.status != s.status ==> !r.pinging && r.state.status == NoneConnection && r.state.accountInfo == EmptyObject
  {
    var withId := s.(browserId := Some(freshId));
    match reply
    case None => Session(withId, false)
    case Some(response) =>
      if ValidResp(Obj(response)).Err? then Session(withId, false)
      else if "data" !in response then Session(withId, false)
      else
        var withAccount := withId.(accountInfo := response["data"]);
        if !response["data"].Obj? then Session(withAccount, false)
        else if HasTruthy(response["data"].fields, "uid") then Session(withAccount, true)
        else Session(HandleLogout(withAccount), false)
  }

  /** A valid session reply whose account data is a dict without a truthy `uid` logs out and never pings. */
  lemma NoUidLogsOut(s: State, freshId: string, reply: Object)
    requires ValidResp(Obj(reply)).Ok?
    requires "data" in reply && reply["data"].Obj? && !HasTruthy(reply["data"].fields, "uid")
    ensures RenderProfileInfo(s, freshId, Some(reply)) == Session(HandleLogout(s).(browserId := Some(freshId)), false)
  {
  }

  /** Whatever `call_api` returns for the session URL passes the validation `render_profile_info` repeats. */
  lemma SessionReplyRevalidates(reply: Object)
    requires HasNonNegativeCode(reply)
    ensures ValidResp(Obj(reply)).Ok?
  {
  }

  /**
   Session fetch returns `{code: 0, data: {uid: "u1"}}`, the loop starts,
   and the first ping URL answers `{code: 0}`: CONNECTED with a zero counter.
   */
  lemma ScenarioConnects(freshId: string, now: int, pingUrl: string)
    ensures var session := RenderProfileInfo(Init(), freshId, Some(map["code" := Num(0), "data" := Obj(map["uid" := Str("u1")])]));
            var step := PingRound(session.state, now, [Endpoint(pingUrl, Some(map["code" := Num(0)]))]);
            && session.pinging
            && session.state.status == NoneConnection
            && step.state.status == Connected
            && step.state.retries == 0
            && step.calls == [Call(pingUrl, Payload(Str("u1"), Some(freshId), now, Version))]
  {
    var reply: Object := map["code" := Num(0), "data" := Obj(map["uid" := Str("u1")])];
    assert HasTruthy(reply["data"].fields, "uid");
    var session := RenderProfileInfo(Init(), freshId, Some(reply));
    var eps := [Endpoint(pingUrl, Some(map["code" := Num(0)]))];
    assert Classify(eps[0].reply) == Success;
    FirstUrlSucceeds(session.state, now, eps);
  }

  /** Session fetch returns `{code: 0, data: {}}`: logout, and the loop never starts. */
  lemma ScenarioNoUid(s: State, freshId: string)
    ensures var session := RenderProfileInfo(s, freshId, Some(map["code" := Num(0), "data" := EmptyObject]));
            && !session.pinging
            && session.state.status == NoneConnection
            && session.state.accountInfo == EmptyObject
  {
    NoUidLogsOut(s, freshId, map["code" := Num(0), "data" := EmptyObject]);
  }
}
