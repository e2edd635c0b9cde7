/** The policy-evaluation client: one POST of `{"input": {subject, action,
    resource}}` to the policy engine per attempt, retried with linear backoff on
    connect and read timeouts only, and the normalisation of the engine's
    `result` field into an allow flag plus the raw result and its rights. */
module OpaPolicyEval {
  import opened Values
  import Numerals

  /** What the caller asks the engine about. */
  datatype PolicyQuery = PolicyQuery(subject: Value, action: Value, resource: Value)

  /** The engine's decision endpoint, relative to its base URL. */
  const AllowPath := "/v1/data/mcp/authz/allow"

  /** The number of attempts `evaluate` makes when its caller does not say. */
  const DefaultRetries := 3

  /** Backoff is recorded in units of this many milliseconds. */
  const BackoffUnitMs := 200

  datatype Request = Request(url: string, body: Value)

  /** The POST that every attempt of one evaluation sends. */
  function PolicyRequest(opaUrl: string, query: PolicyQuery): Request {
    Request(
      opaUrl + AllowPath,
      Obj(map["input" := Obj(map["subject" := query.subject,
                                 "action" := query.action,
                                 "resource" := query.resource])]))
  }

  /** A decoded body that is not a JSON object (a list, text, a number, ...). */
  type NonObjectValue = v: Value | !v.Obj? witness Null

  /** The body of a response as the JSON decoder sees it. */
  datatype Body =
    | Object(data: map<string, Value>)
    | NonObject(value: NonObjectValue)
    | Undecodable

  /** What one attempt's POST comes back with. */
  datatype Outcome =
    | Response(status: nat, text: string, json: Body)
    | ConnectTimeout(message: string)
    | ReadTimeout(message: string)
    | OtherHttpError(message: string)

  predicate IsTimeout(o: Outcome) {
    o.ConnectTimeout? || o.ReadTimeout?
  }

  /** The engine and the network between it and the client: the outcome of
      attempt number `k` of posting a request. */
  type Network = (Request, nat) -> Outcome

  /** The second component of `evaluate`'s return value. */
  datatype Detail =
    | Engine(result: Value, rights: Value)
    | HttpStatus(status: nat, body: string)
    | TransportError(message: string)
    | Unreachable(retries: int, error: string)

  /** The pair `(allowed, detail)` that `evaluate` returns. */
  datatype Decision = Decision(allowed: bool, detail: Detail)

  /** One whole evaluation: how it ended (a decision, or an exception that
      escaped), how many POSTs it made, and the backoff sleeps in order, each
      in units of `BackoffUnitMs`. */
  datatype Run = Run(decision: Result<Decision>, attempts: nat, sleeps: seq<nat>)

  /** `data.get("result")`: a missing field reads as null. */
  function ResultField(data: map<string, Value>): Value {
    GetOr(data, "result", Null)
  }

  /** The decision taken from a 200 response whose body decoded to `data`. */
  function Normalize(data: map<string, Value>): Decision {
    var result := ResultField(data);
    var allowed :=
      if result.Obj? then Truthy(GetOr(result.fields, "allow", Bool(false))) || result.fields == map[]
      else Truthy(result);
    var rights := if result.Obj? && "rights" in result.fields then result.fields["rights"] else Null;
    Decision(allowed, Engine(result, rights))
  }

  /** How an attempt that did not time out ends the evaluation. */
  function Conclude(o: Outcome): Result<Decision>
    requires !IsTimeout(o)
  {
    match o
    case Response(status, text, json) =>
      if status == 200 then
        match json
        case Object(data) => Ok(Normalize(data))
        case NonObject(_) => Err(Uncaught("AttributeError"))
        case Undecodable => Err(Uncaught("JSONDecodeError"))
      else Ok(Decision(false, HttpStatus(status, text)))
    case OtherHttpError(message) => Ok(Decision(false, TransportError(message)))
  }

  /** `str(last_exc)`: the last timeout's message, or "None" when no attempt was made. */
  function ErrorText(lastError: Option<string>): string {
    match lastError
    case None => "None"
    case Some(message) => message
  }

  function Backoff(attempt: nat, run: Run): Run {
    run.(sleeps := [attempt] + run.sleeps)
  }

  /** The evaluation from attempt number `attempt` on, `lastError` being the
      message of the timeout before it, if any. */
  function EvaluateFrom(request: Request, retries: int, network: Network, attempt: nat, lastError: Option<string>): Run
    requires attempt >= 1
    decreases retries - attempt + 1
  {
    if attempt > retries then
      Run(Ok(Decision(false, Unreachable(retries, ErrorText(lastError)))), attempt - 1, [])
    else
      var o := network(request, attempt);
      if IsTimeout(o) then Backoff(attempt, EvaluateFrom(request, retries, network, attempt + 1, Some(o.message)))
      else Run(Conclude(o), attempt, [])
  }

  /** `evaluate(opa_url, subject, action, resource, retries)` as a value. */
  function Evaluation(opaUrl: string, query: PolicyQuery, retries: int, network: Network): Run {
    EvaluateFrom(PolicyRequest(opaUrl, query), retries, network, 1, None)
  }

  /** The second component of `evaluate`'s return value as the JSON-like
      dictionary the server hands on. */
  function DetailJson(d: Detail): (v: Value)
    ensures v.Obj?
  {
    match d
    case Engine(result, rights) =>
      Obj(map["result" := result, "rights" := rights])
    case HttpStatus(_, body) =>
      Obj(map["reason" := Str(Reason(d)), "body" := Str(body)])
    case TransportError(_) =>
      Obj(map["reason" := Str(Reason(d))])
    case Unreachable(_, error) =>
      Obj(map["reason" := Str(Reason(d)), "error" := Str(error)])
  }

  /** The backoff units `lo`, `lo + 1`, ..., `hi - 1`. */
  function Range(lo: nat, hi: nat): seq<nat>
    requires lo <= hi
  {
    seq(hi - lo, k requires 0 <= k < hi - lo => lo + k)
  }

  function Sum(s: seq<nat>): nat {
    if s == [] then 0 else Sum(s[..|s| - 1]) + s[|s| - 1]
  }

  /** The retry loop of `evaluate`: attempts `1..retries`, each a POST of the
      same request; a 200 response, any other status and any HTTP error other
      than a connect or read timeout end the loop at once; a timeout on attempt
      `k` is followed by a backoff of `k` units. */
  method Evaluate(opaUrl: string, subject: Value, action: Value, resource: Value, retries: int, network: Network)
    returns (decision: Result<Decision>, attempts: nat, sleeps: seq<nat>)
    ensures Run(decision, attempts, sleeps) == Evaluation(opaUrl, PolicyQuery(subject, action, resource), retries, network)
    ensures attempts <= Max(retries, 0)
    ensures sleeps == Range(1, |sleeps| + 1)
  {
    var request := PolicyRequest(opaUrl, PolicyQuery(subject, action, resource));
    ghost var whole := EvaluateFrom(request, retries, network, 1, None);
    var lastError: Option<string> := None;
    var attempt: nat := 1;
    sleeps := [];
    while attempt <= retries
      invariant 1 <= attempt && (attempt <= retries + 1 || attempt == 1)
      invariant sleeps == Range(1, attempt)
      invariant whole == EvaluateFrom(request, retries, network, attempt, lastError).(sleeps := sleeps + EvaluateFrom(request, retries, network, attempt, lastError).sleeps)
      decreases retries - attempt
    {
      var o := network(request, attempt);
      match o {
        case Response(status, text, json) =>
          if status == 200 {
            match json {
              case Object(data) => decision := Ok(Normalize(data));
              case NonObject(_) => decision := Err(Uncaught("AttributeError"));
              case Undecodable => decision := Err(Uncaught("JSONDecodeError"));
            }
          } else {
            decision := Ok(Decision(false, HttpStatus(status, text)));
          }
          attempts := attempt;
          return;
        case OtherHttpError(message) =>
          decision := Ok(Decision(false, TransportError(message)));
          attempts := attempt;
          return;
        case ConnectTimeout(message) =>
          lastError := Some(message);
        case ReadTimeout(message) =>
          lastError := Some(message);
      }
      ghost var rest := EvaluateFrom(request, retries, network, attempt + 1, lastError);
      assert sleeps + ([attempt] + rest.sleeps) == (sleeps + [attempt]) + rest.sleeps;
      sleeps := sleeps + [attempt];
      attempt := attempt + 1;
    }
    decision := Ok(Decision(false, Unreachable(retries, ErrorText(lastError))));
    attempts := attempt - 1;
  }

  // ------------------------------------------------------------------
  // Normalisation of the `result` field

  /** An object result allows exactly when its `allow` entry is truthy or the
      object is empty. */
  lemma NormalizeObjectResult(data: map<string, Value>)
    requires ResultField(data).Obj?
    ensures var m := ResultField(data).fields;
      Normalize(data).allowed <==> ("allow" in m && Truthy(m["allow"])) || m == map[]
  {
  }

  /** Any other result allows exactly when it is truthy, and carries no rights. */
  lemma NormalizeOtherResult(data: map<string, Value>)
    requires !ResultField(data).Obj?
    ensures Normalize(data).allowed == Truthy(ResultField(data))
    ensures Normalize(data).detail.rights == Null
    ensures "result" !in data || data["result"] == Null ==> !Normalize(data).allowed
    ensures forall b :: ResultField(data) == Bool(b) ==> Normalize(data).allowed == b
  {
  }

  /** The decision always carries the raw result; its rights are the result's
      `rights` entry when the result is an object holding one, and null otherwise. */
  lemma NormalizeRights(data: map<string, Value>)
    ensures Normalize(data).detail.Engine? && Normalize(data).detail.result == ResultField(data)
    ensures var result, rights := ResultField(data), Normalize(data).detail.rights;
      (result.Obj? && "rights" in result.fields ==> rights == result.fields["rights"]) &&
      (!(result.Obj? && "rights" in result.fields) ==> rights == Null)
  {
  }

  /** The rights of an object result do not depend on its `allow` entry. */
  lemma RightsIgnoreAllow(m: map<string, Value>, allow: Value)
    ensures Normalize(map["result" := Obj(m["allow" := allow])]).detail.rights
         == Normalize(map["result" := Obj(m)]).detail.rights
  {
  }

  lemma NormalizeExamples()
    ensures Normalize(map["result" := Obj(map[])]) == Decision(true, Engine(Obj(map[]), Null))
    ensures !Normalize(map["result" := Obj(map["allow" := Bool(false)])]).allowed
    ensures var r := Obj(map["allow" := Bool(true), "rights" := Str("rw")]);
      Normalize(map["result" := r]) == Decision(true, Engine(r, Str("rw")))
    ensures Normalize(map[]) == Decision(false, Engine(Null, Null))
    ensures Normalize(map["result" := Int(0)]).allowed == false
    ensures Normalize(map["result" := List([Null])]).allowed == true
  {
  }

  // ------------------------------------------------------------------
  // The retry loop

  predicate Exhausted(run: Run) {
    run.decision.Ok? && run.decision.value.detail.Unreachable?
  }

  /** Every evaluation from attempt `a` on: the sleeps are `a, a + 1, ...`, one
      per timed-out attempt; it either ends on the first attempt that did not
      time out, concluded by that attempt's outcome, or runs out of attempts
      and reports the engine unreachable with the last timeout's message. */
  lemma {:induction false} EvaluateFromShape(request: Request, retries: int, network: Network, a: nat, lastError: Option<string>)
    requires a >= 1
    ensures var run := EvaluateFrom(request, retries, network, a, lastError);
      && a - 1 <= run.attempts <= Max(retries, a - 1)
      && run.sleeps == Range(a, a + |run.sleeps|)
      && (forall k :: a <= k < a + |run.sleeps| ==> IsTimeout(network(request, k)))
      && (Exhausted(run) ==> run.attempts == Max(retries, a - 1) && |run.sleeps| == run.attempts - (a - 1))
      && (!Exhausted(run) ==>
            && a <= run.attempts
            && |run.sleeps| == run.attempts - a
            && !IsTimeout(network(request, run.attempts))
            && run.decision == Conclude(network(request, run.attempts)))
    ensures var run := EvaluateFrom(request, retries, network, a, lastError);
      Exhausted(run) && retries < a ==> run.decision == Ok(Decision(false, Unreachable(retries, ErrorText(lastError))))
    ensures var run := EvaluateFrom(request, retries, network, a, lastError);
      Exhausted(run) && a <= retries ==>
        IsTimeout(network(request, retries)) &&
        run.decision == Ok(Decision(false, Unreachable(retries, network(request, retries).message)))
    decreases retries - a + 1
  {
    if a <= retries {
      var o := network(request, a);
      if IsTimeout(o) {
        EvaluateFromShape(request, retries, network, a + 1, Some(o.message));
        var rest := EvaluateFrom(request, retries, network, a + 1, Some(o.message));
        assert [a] + Range(a + 1, a + 1 + |rest.sleeps|) == Range(a, a + 1 + |rest.sleeps|);
      }
    }
  }

  /** Conclusion never reports the engine unreachable. */
  lemma ConcludeIsNotUnreachable(o: Outcome)
    requires !IsTimeout(o)
    ensures !(Conclude(o).Ok? && Conclude(o).value.detail.Unreachable?)
  {
  }

  /** The first attempt that does not time out ends the call, after every
      earlier attempt timed out and was followed by its backoff: a 200 response
      (even a deny), any other status and any other HTTP error alike. */
  lemma StopsAtFirstNonTimeout(opaUrl: string, query: PolicyQuery, retries: int, network: Network, k: nat)
    requires 1 <= k <= retries
    requires forall j :: 1 <= j < k ==> IsTimeout(network(PolicyRequest(opaUrl, query), j))
    requires !IsTimeout(network(PolicyRequest(opaUrl, query), k))
    ensures var run := Evaluation(opaUrl, query, retries, network);
      run == Run(Conclude(network(PolicyRequest(opaUrl, query), k)), k, Range(1, k))
  {
    var request := PolicyRequest(opaUrl, query);
    EvaluateFromShape(request, retries, network, 1, None);
    ConcludeIsNotUnreachable(network(request, k));
  }

  /** What each kind of terminal outcome returns. */
  lemma ConcludeCases(o: Outcome)
    requires !IsTimeout(o)
    ensures o.Response? && o.status == 200 && o.json.Object? ==> Conclude(o) == Ok(Normalize(o.json.data))
    ensures o.Response? && o.status != 200 ==> Conclude(o) == Ok(Decision(false, HttpStatus(o.status, o.text)))
    ensures o.OtherHttpError? ==> Conclude(o) == Ok(Decision(false, TransportError(o.message)))
    ensures o.Response? && o.status == 200 && !o.json.Object? ==> Conclude(o).Err?
  {
  }

  /** An engine that times out on every attempt: exactly `retries` attempts
      (none when `retries <= 0`), a backoff of `k` units after each attempt `k`,
      and the unreachable decision carrying the last timeout's message. */
  lemma AllTimeouts(opaUrl: string, query: PolicyQuery, retries: int, network: Network)
    requires forall j :: 1 <= j <= retries ==> IsTimeout(network(PolicyRequest(opaUrl, query), j))
    ensures var run := Evaluation(opaUrl, query, retries, network);
      && run.attempts == Max(retries, 0)
      && run.sleeps == Range(1, Max(retries, 0) + 1)
      && Sum(run.sleeps) * 2 == Max(retries, 0) * (Max(retries, 0) + 1)
      && (retries <= 0 ==> run.decision == Ok(Decision(false, Unreachable(retries, "None"))))
      && (retries > 0 ==>
            IsTimeout(network(PolicyRequest(opaUrl, query), retries)) &&
            run.decision == Ok(Decision(false, Unreachable(retries, network(PolicyRequest(opaUrl, query), retries).message))))
  {
    var request := PolicyRequest(opaUrl, query);
    EvaluateFromShape(request, retries, network, 1, None);
    SumRange(Max(retries, 0));
  }

  lemma {:induction false} SumRange(n: nat)
    ensures Sum(Range(1, n + 1)) * 2 == n * (n + 1)
  {
    if n > 0 {
      SumRange(n - 1);
      var r, r' := Range(1, n + 1), Range(1, n);
      assert r[..n - 1] == r';
    }
  }

  /** An allow only ever comes from a 200 response whose body is an object and
      whose normalised result allows. */
  lemma AllowedOnlyOn200(opaUrl: string, query: PolicyQuery, retries: int, network: Network)
    ensures var run := Evaluation(opaUrl, query, retries, network);
      run.decision.Ok? && run.decision.value.allowed ==>
        && 1 <= run.attempts <= retries
        && var o := network(PolicyRequest(opaUrl, query), run.attempts);
           o.Response? && o.status == 200 && o.json.Object? && Normalize(o.json.data).allowed
  {
    EvaluateFromShape(PolicyRequest(opaUrl, query), retries, network, 1, None);
  }

  /** With the default of three attempts and an engine that never answers in
      time: three POSTs, backoffs of 200, 400 and 600 ms (1.2 s in all), and
      the unreachable reason naming the three attempts. */
  lemma DefaultRetriesAllTimeOut(opaUrl: string, query: PolicyQuery, network: Network)
    requires forall j :: 1 <= j <= DefaultRetries ==> IsTimeout(network(PolicyRequest(opaUrl, query), j))
    ensures var run := Evaluation(opaUrl, query, DefaultRetries, network);
      && run.attempts == 3
      && run.sleeps == [1, 2, 3]
      && Sum(run.sleeps) * BackoffUnitMs == 1200
      && run.decision.Ok? && !run.decision.value.allowed
      && DetailJson(run.decision.value.detail).fields["reason"] == Str("OPA unreachable after 3 attempts")
  {
    AllTimeouts(opaUrl, query, DefaultRetries, network);
    assert Range(1, 4) == [1, 2, 3];
    assert Numerals.IntToString(3) == "3";
  }

  /** The reason `DetailJson` gives a failure detail. */
  function Reason(d: Detail): string
    requires !d.Engine?
  {
    match d
    case HttpStatus(status, _) => "OPA HTTP " + Numerals.NatToString(status)
    case TransportError(message) => "OPA HTTP error: " + message
    case Unreachable(retries, _) => "OPA unreachable after " + Numerals.IntToString(retries) + " attempts"
  }

  /** Every failure detail, and no engine answer, carries a textual reason. */
  lemma DetailHasReason(d: Detail)
    ensures d.Engine? <==> "reason" !in DetailJson(d).fields
    ensures !d.Engine? ==> DetailJson(d).fields["reason"] == Str(Reason(d))
  {
  }

  /** Only the unreachable reason begins with "OPA unreachable after ", which
      sets running out of attempts apart from every other failure. */
  lemma UnreachableSentinel(d: Detail)
    requires !d.Engine?
    ensures d.Unreachable? <==> StartsWith(Reason(d), "OPA unreachable after ")
  {
    var reason := Reason(d);
    if d.Unreachable? {
      var prefix := "OPA unreachable after ";
      assert reason == prefix + (Numerals.IntToString(d.retries) + " attempts");
      assert reason[..|prefix|] == prefix;
    } else {
      assert reason[4] == 'H';
    }
  }

  /** The HTTP-status reason ends in the decimal status code, which parses
      back to the status. */
  lemma StatusReason(status: nat, body: string)
    ensures var reason := Reason(HttpStatus(status, body));
      StartsWith(reason, "OPA HTTP ") && Numerals.ParseInt(reason[9..]) == Some(status)
  {
    var reason := Reason(HttpStatus(status, body));
    assert reason[..9] == "OPA HTTP ";
    assert reason[9..] == Numerals.IntToString(status);
    Numerals.ParseIntOfIntToString(status);
  }
}
