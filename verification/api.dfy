/**
 The API caller: response validation (`valid_resp`) and the POST with
 bounded exponential-backoff retries (`call_api`). The network is abstracted
 away: each attempt's outcome is an input, and sleeps are recorded as delay
 values in seconds instead of being waited out.
 */
module Api {
  import opened Wrappers
  import opened Json

  /** The `ValueError("Invalid response")` (or `TypeError`) raised by `valid_resp`. */
  datatype Error = InvalidResponse

  /** The default `max_retries` of `call_api`. */
  const DefaultMaxRetries: nat := 3

  /** The body has a `code` field that compares as an integer and is not negative. */
  predicate HasNonNegativeCode(o: Object) {
    "code" in o && AsInt(o["code"]).Some? && AsInt(o["code"]).value >= 0
  }

  /**
   `valid_resp`: rejects a falsy body, a body without `code`, and one whose
   `code` is negative. A non-object body fails one of the first two tests or
   raises `TypeError`; a `code` that is not a number raises `TypeError` on the
   comparison. Either way the caller sees an exception.
   */
  function ValidResp(body: Value): (r: Result<Object, Error>)
    ensures r.Ok? <==> body.Obj? && |body.fields| > 0 && HasNonNegativeCode(body.fields)
    ensures r.Ok? ==> body == Obj(r.value)
  {
    if !Truthy(body) then Err(InvalidResponse)
    else if !body.Obj? then Err(InvalidResponse)
    else if "code" !in body.fields then Err(InvalidResponse)
    else match AsInt(body.fields["code"])
      case None => Err(InvalidResponse)
      case Some(code) => if code < 0 then Err(InvalidResponse) else Ok(body.fields)
  }

  /** An accepted body is handed back unchanged, so validating it a second time accepts it again. */
  lemma ValidRespIdempotent(body: Value)
    requires ValidResp(body).Ok?
    ensures ValidResp(Obj(ValidResp(body).value)) == ValidResp(body)
  {
  }

  /**
   The outcome of one attempt is accepted when the request went through
   (`Some`: no transport error, 2xx status, decodable JSON) and the body
   passes `valid_resp`.
   */
  predicate Accepts(outcome: Option<Value>) {
    outcome.Some? && ValidResp(outcome.value).Ok?
  }

  /** `2 ** k` */
  function Pow2(k: nat): (r: nat)
    ensures r >= 1
  {
    if k == 0 then 1 else 2 * Pow2(k - 1)
  }

  /** The schedule of sleeps after failed attempts 0, 1, ...: `2 ** attempt` each. */
  predicate IsBackoff(delays: seq<nat>) {
    forall j :: 0 <= j < |delays| ==> delays[j] == Pow2(j)
  }

  /** The total time spent sleeping. */
  function Total(delays: seq<nat>): nat {
    if delays == [] then 0 else Total(delays[..|delays| - 1]) + delays[|delays| - 1]
  }

  /** Sleeping through `n` backoff steps takes `2 ** n - 1` seconds. */
  lemma {:induction false} BackoffTotal(delays: seq<nat>)
    requires IsBackoff(delays)
    ensures Total(delays) == Pow2(|delays|) - 1
    decreases |delays|
  {
    if delays != [] {
      var prefix := delays[..|delays| - 1];
      assert IsBackoff(prefix) by {
        forall j | 0 <= j < |prefix| ensures prefix[j] == Pow2(j) {
          assert prefix[j] == delays[j];
        }
      }
      BackoffTotal(prefix);
    }
  }

  /** With the default three attempts, a run where every attempt fails waits 1 + 2 + 4 seconds. */
  lemma DefaultAllFailWait(delays: seq<nat>)
    requires IsBackoff(delays) && |delays| == DefaultMaxRetries
    ensures Total(delays) == 7
  {
    BackoffTotal(delays);
  }

  /**
   `call_api`: tries up to `maxRetries` times and returns the first accepted
   body. After every attempt that is not accepted it sleeps `2 ** attempt`
   seconds, the last failed attempt included; `delays` records those sleeps.
   `attempts[k]` is what attempt `k` would see.
   */
  method CallApi(attempts: seq<Option<Value>>, maxRetries: nat) returns (response: Option<Object>, delays: seq<nat>)
    requires |attempts| >= maxRetries
    ensures |delays| <= maxRetries && IsBackoff(delays)
    ensures forall j :: 0 <= j < |delays| ==> !Accepts(attempts[j])
    ensures response.Some? ==>
      |delays| < maxRetries && Accepts(attempts[|delays|]) && attempts[|delays|] == Some(Obj(response.value))
    ensures response.Some? ==> HasNonNegativeCode(response.value)
    ensures response.None? ==> |delays| == maxRetries && Total(delays) == Pow2(maxRetries) - 1
    ensures response.None? <==> forall k :: 0 <= k < maxRetries ==> !Accepts(attempts[k])
  {
    delays := [];
    var attempt := 0;
    while attempt < maxRetries
      invariant attempt <= maxRetries
      invariant |delays| == attempt
      invariant IsBackoff(delays)
      invariant forall j :: 0 <= j < attempt ==> !Accepts(attempts[j])
    {
      var outcome := attempts[attempt];
      if outcome.Some? {
        var checked := ValidResp(outcome.value);
        if checked.Ok? {
          response := Some(checked.value);
          return;
        }
      }
      delays := delays + [Pow2(attempt)];
      attempt := attempt + 1;
    }
    response := None;
    BackoffTotal(delays);
  }
}
