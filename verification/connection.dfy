/**
 The process-wide connection state the client keeps in module globals
 (`status_connect`, `RETRIES`, `browser_id`, `account_info`,
 `last_ping_time`), and the two transitions that act on it outside a ping
 round: failure handling and logout.
 */
module Connection {
  import opened Wrappers
  import opened Json

  /** Seconds between pings, also the debounce window. */
  const PingInterval: int := 60

  /** The value the retry counter starts from. */
  const InitialRetries: nat := 120

  /** The response code by which the service revokes a session. */
  const RevokedCode: int := 403

  datatype Status = Connected | Disconnected | NoneConnection

  /** `CONNECTION_STATES`: the integer each status is stored as. */
  function StatusCode(status: Status): (code: int)
    ensures 1 <= code <= 3
  {
    match status
    case Connected => 1
    case Disconnected => 2
    case NoneConnection => 3
  }

  /** Distinct statuses are stored as distinct integers, so the stored value identifies the status. */
  lemma StatusCodeInjective(a: Status, b: Status)
    ensures StatusCode(a) == StatusCode(b) ==> a == b
  {
  }

  /**
   The globals. `accountInfo` holds whatever the session call put there,
   which is normally a dict but need not be; `lastPing` is the time of the last
   attempted ping, absent until the first one.
   */
  datatype State = State(
    status: Status,
    retries: nat,
    browserId: Option<string>,
    accountInfo: Value,
    lastPing: Option<int>)

  /** The globals at import time. */
  function Init(): (s: State)
    ensures s.status == NoneConnection && s.retries == InitialRetries
    ensures s.browserId == None && s.accountInfo == EmptyObject && s.lastPing == None
  {
    State(NoneConnection, InitialRetries, None, EmptyObject, None)
  }

  /** `handle_logout`: drop the session; the retry counter, browser id and ping time stay. */
  function HandleLogout(s: State): (r: State)
    ensures r.status == NoneConnection && r.accountInfo == EmptyObject
    ensures r.retries == s.retries && r.browserId == s.browserId && r.lastPing == s.lastPing
  {
    s.(status := NoneConnection, accountInfo := EmptyObject)
  }

  /** Logging out twice is the same as logging out once. */
  lemma LogoutIdempotent(s: State)
    ensures HandleLogout(HandleLogout(s)) == HandleLogout(s)
  {
  }

  /** `response and response.get("code") == 403` */
  predicate IsRevoked(response: Option<Object>) {
    && response.Some?
    && |response.value| > 0
    && "code" in response.value
    && EqualsInt(response.value["code"], RevokedCode)
  }

  /**
   `handle_ping_fail`: count the failure; a 403 logs out, anything else
   (including no response at all) marks the connection DISCONNECTED. The
   `handle_ping_fail` branches on `RETRIES < 2`, but both branches assign the same
   status, and that is kept here.
   */
  function HandlePingFail(s: State, response: Option<Object>): (r: State)
    ensures r.retries == s.retries + 1
    ensures r.browserId == s.browserId && r.lastPing == s.lastPing
    ensures IsRevoked(response) ==> r.status == NoneConnection && r.accountInfo == EmptyObject
    ensures !IsRevoked(response) ==> r.status == Disconnected && r.accountInfo == s.accountInfo
  {
    var counted := s.(retries := s.retries + 1);
    if IsRevoked(response) then HandleLogout(counted)
    else if counted.retries < 2 then counted.(status := Disconnected)
    else counted.(status := Disconnected)
  }

  /** The status after a failure does not depend on how many failures came before. */
  lemma PingFailIgnoresCounter(s: State, t: State, response: Option<Object>)
    requires s.(retries := t.retries) == t
    ensures HandlePingFail(s, response).status == HandlePingFail(t, response).status
    ensures HandlePingFail(s, response).accountInfo == HandlePingFail(t, response).accountInfo
  {
  }

  /** A 403 forces logout whatever the counter says, and the failure is still counted. */
  lemma RevocationLogsOut(s: State, response: Option<Object>)
    requires IsRevoked(response)
    ensures HandlePingFail(s, response) == HandleLogout(s).(retries := s.retries + 1)
  {
  }
}
