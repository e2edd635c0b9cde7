/** The MCP server's request handling: the bearer-header check, the unused
    single-shot `opa_allow` normaliser, and the two tool endpoints, each a
    function from its inputs (the payload, the caller, the engine's answers,
    the files) to everything the request does and how it ends. */
module McpServer {
  import opened Values
  import Numerals
  import opened OpaPolicyEval
  import ExcelCsvReader

  /** Start-up configuration from the environment (`OPA_URL`, `DATA_DIR`). */
  datatype Config = Config(opaUrl: string, dataDir: string)

  /** The configuration when neither variable is set. */
  const DefaultConfig := Config("http://opa:8181", "/data")

  /** The caller as `verify_bearer_token` describes it. */
  datatype Subject = Subject(sub: string, role: string, token: string)

  function SubjectJson(subject: Subject): Value {
    Obj(map["sub" := Str(subject.sub), "role" := Str(subject.role), "token" := Str(subject.token)])
  }

  // ------------------------------------------------------------------
  // verify_bearer_token

  /** Lower-casing of one character; only ASCII letters change. */
  function LowerChar(c: char): char {
    if 'A' <= c <= 'Z' then (c as int + 32) as char else c
  }

  /** `s.lower()`, character by character. */
  function Lower(s: string): (r: string)
    ensures |r| == |s|
    ensures forall k :: 0 <= k < |s| ==> r[k] == LowerChar(s[k])
  {
    if s == [] then [] else [LowerChar(s[0])] + Lower(s[1..])
  }

  /** The position of the first `c` in `s`, if any. */
  function FirstIndexOf(s: string, c: char): (r: Option<nat>)
    ensures r.None? ==> forall k :: 0 <= k < |s| ==> s[k] != c
    ensures r.Some? ==> r.value < |s| && s[r.value] == c && forall k :: 0 <= k < r.value ==> s[k] != c
    decreases |s|
  {
    if s == [] then None
    else if s[0] == c then Some(0)
    else match FirstIndexOf(s[1..], c)
      case None => None
      case Some(i) => Some(i + 1)
  }

  /** `s.split(sep, 1)`: the text before the first `sep` and the text after
      it, or `s` alone when it holds no `sep`. */
  function SplitOnce(s: string, sep: char): (parts: seq<string>)
    ensures |parts| == 1 ==> parts[0] == s && sep !in s
    ensures |parts| == 2 ==> parts[0] + [sep] + parts[1] == s && sep !in parts[0]
    ensures |parts| == 1 || |parts| == 2
  {
    match FirstIndexOf(s, sep)
    case None => [s]
    case Some(i) =>
      assert s[..i] + [sep] + s[i + 1..] == s;
      [s[..i], s[i + 1..]]
  }

  const MissingBearer := HttpException(401, "Missing bearer token")

  /** The accepting header check of `verify_bearer_token`: present, and its
      first seven characters are "bearer " in any letter case. */
  predicate HasBearerScheme(header: string) {
    |header| >= 7 && forall k :: 0 <= k < 7 ==> LowerChar(header[k]) == "bearer "[k]
  }

  /** Under the scheme check the first space sits right after "bearer". */
  lemma FirstSpaceAfterScheme(header: string)
    requires HasBearerScheme(header)
    ensures FirstIndexOf(header, ' ') == Some(6)
  {
    assert forall k :: 0 <= k < 6 ==> header[k] != ' ';
    assert header[6] == ' ';
  }

  /** `verify_bearer_token(authorization)`. */
  function VerifyBearerToken(authorization: Option<string>): (r: Result<Subject>)
    ensures r.Ok? <==> authorization.Some? && HasBearerScheme(authorization.value)
    ensures r.Ok? ==> r.value == Subject("user-123", "admin", authorization.value[7..])
    ensures r.Err? ==> r.failure == MissingBearer
  {
    if authorization.None? || authorization.value == "" || !StartsWith(Lower(authorization.value), "bearer ") then
      Err(MissingBearer)
    else
      var header := authorization.value;
      FirstSpaceAfterScheme(header);
      var parts := SplitOnce(header, ' ');
      assert |parts| == 2 && parts[1] == header[7..];
      Ok(Subject("user-123", "admin", parts[1]))
  }

  /** The header a client builds from a token is accepted and yields that token. */
  lemma BearerRoundTrip(token: string)
    ensures VerifyBearerToken(Some("Bearer " + token)) == Ok(Subject("user-123", "admin", token))
  {
    var header := "Bearer " + token;
    assert header[7..] == token;
  }

  /** Everything after the first space is the token, spaces included. */
  lemma BearerAcceptExamples()
    ensures VerifyBearerToken(Some("Bearer a b")) == Ok(Subject("user-123", "admin", "a b"))
    ensures VerifyBearerToken(Some("Bearer ")) == Ok(Subject("user-123", "admin", ""))
  {
    BearerRoundTrip("a b");
    assert "Bearer " + "a b" == "Bearer a b";
    BearerRoundTrip("");
    assert "Bearer " + "" == "Bearer ";
  }

  /** The scheme is matched in any letter case. */
  lemma BearerUpperCase()
    ensures VerifyBearerToken(Some("BEARER x")) == Ok(Subject("user-123", "admin", "x"))
  {
    var h := "BEARER x";
    assert LowerChar(h[0]) == 'b' && LowerChar(h[1]) == 'e' && LowerChar(h[2]) == 'a';
    assert LowerChar(h[3]) == 'r' && LowerChar(h[4]) == 'e' && LowerChar(h[5]) == 'r';
    assert HasBearerScheme(h);
    assert h[7..] == "x";
  }

  /** No space after the scheme, another scheme, or no header: rejected. */
  lemma BearerRejectExamples()
    ensures VerifyBearerToken(Some("Bearer")) == Err(MissingBearer)
    ensures VerifyBearerToken(Some("Basic abc")) == Err(MissingBearer)
    ensures VerifyBearerToken(Some("")) == Err(MissingBearer)
    ensures VerifyBearerToken(None) == Err(MissingBearer)
  {
    assert LowerChar("Basic abc"[1]) != "bearer "[1];
  }

  // ------------------------------------------------------------------
  // opa_allow (defined in the server, called by nothing)

  /** The pair `(allowed, data)` that `opa_allow` returns. */
  datatype AllowAnswer = AllowAnswer(allowed: bool, data: Value)

  /** The name of the `httpx` exception a failed attempt raises. */
  function TransportException(o: Outcome): string
    requires !o.Response?
  {
    match o
    case ConnectTimeout(_) => "ConnectTimeout"
    case ReadTimeout(_) => "ReadTimeout"
    case OtherHttpError(_) => "HTTPError"
  }

  /** `opa_allow(subject, action, resource)`: one POST, no retry, no handling
      of transport errors; `result` must be `True` itself, or an object whose
      `allow` entry is `True` itself. */
  function OpaAllow(cfg: Config, query: PolicyQuery, network: Network): Result<AllowAnswer> {
    match network(PolicyRequest(cfg.opaUrl, query), 1)
    case Response(status, _, json) =>
      if status != 200 then
        Ok(AllowAnswer(false, Obj(map["reason" := Str("OPA error " + Numerals.NatToString(status))])))
      else
        (match json
         case Undecodable => Err(Uncaught("JSONDecodeError"))
         case NonObject(_) => Err(Uncaught("AttributeError"))
         case Object(data) =>
           if GetOr(data, "result", Null) == Bool(true) then Ok(AllowAnswer(true, Obj(data)))
           else
             var result := GetOr(data, "result", Obj(map[]));
             if result.Obj? then Ok(AllowAnswer(GetOr(result.fields, "allow", Null) == Bool(true), Obj(data)))
             else Err(Uncaught("AttributeError")))
    case other => Err(Uncaught(TransportException(other)))
  }

  /** On a 200 response with an object body: an allow exactly when `result`
      is `true` or an object whose `allow` is `true`; a missing `result` is a
      deny; any other `result` (false, null, a number, text, a list) makes the
      call fail. The body is returned as it came. */
  lemma OpaAllowOn200(cfg: Config, query: PolicyQuery, network: Network, text: string, data: map<string, Value>)
    requires network(PolicyRequest(cfg.opaUrl, query), 1) == Response(200, text, Object(data))
    ensures var r := OpaAllow(cfg, query, network);
      && (r.Ok? ==> r.value.data == Obj(data))
      && (r.Ok? && r.value.allowed <==>
            "result" in data &&
            (data["result"] == Bool(true) ||
             (data["result"].Obj? && "allow" in data["result"].fields && data["result"].fields["allow"] == Bool(true))))
      && ("result" !in data ==> r == Ok(AllowAnswer(false, Obj(data))))
      && (r.Err? <==> "result" in data && data["result"] != Bool(true) && !data["result"].Obj?)
  {
  }

  /** Any status other than 200 is a deny naming the status, never retried. */
  lemma OpaAllowNon200(cfg: Config, query: PolicyQuery, network: Network)
    requires var o := network(PolicyRequest(cfg.opaUrl, query), 1); o.Response? && o.status != 200
    ensures OpaAllow(cfg, query, network)
         == Ok(AllowAnswer(false, Obj(map["reason" := Str("OPA error " +
              Numerals.NatToString(network(PolicyRequest(cfg.opaUrl, query), 1).status))])))
  {
  }

  /** `opa_allow` is stricter than `evaluate`: whatever it allows, `evaluate`
      allows too when its first attempt gets the same answer. */
  lemma OpaAllowImpliesEvaluateAllows(cfg: Config, query: PolicyQuery, retries: int, network: Network)
    requires retries >= 1
    requires OpaAllow(cfg, query, network).Ok? && OpaAllow(cfg, query, network).value.allowed
    ensures var run := Evaluation(cfg.opaUrl, query, retries, network);
      run.attempts == 1 && run.decision.Ok? && run.decision.value.allowed
  {
  }

  /** The converse fails: results that `evaluate` reads as an allow and
      `opa_allow` does not (the empty object, a truthy non-boolean `allow`, a
      non-zero number). */
  lemma OpaAllowDiffersFromNormalize()
    ensures Normalize(map["result" := Obj(map[])]).allowed
    ensures Normalize(map["result" := Obj(map["allow" := Int(1)])]).allowed
    ensures Normalize(map["result" := Int(1)]).allowed
    ensures forall cfg: Config, query: PolicyQuery, network: Network ::
      network(PolicyRequest(cfg.opaUrl, query), 1) == Response(200, "", Object(map["result" := Obj(map[])])) ==>
        OpaAllow(cfg, query, network) == Ok(AllowAnswer(false, Obj(map["result" := Obj(map[])])))
    ensures forall cfg: Config, query: PolicyQuery, network: Network ::
      network(PolicyRequest(cfg.opaUrl, query), 1) == Response(200, "", Object(map["result" := Int(1)])) ==>
        OpaAllow(cfg, query, network) == Err(Uncaught("AttributeError"))
  {
  }

  // ------------------------------------------------------------------
  // Payload arguments

  /** Python's `int(v)` on a decoded JSON value. */
  function PyInt(v: Value): Result<int> {
    match v
    case Int(i) => Ok(i)
    case Bool(b) => Ok(if b then 1 else 0)
    case Str(s) =>
      (match Numerals.ParseInt(s)
       case Some(i) => Ok(i)
       case None => Err(Uncaught("ValueError")))
    case _ => Err(Uncaught("TypeError"))
  }

  /** `int(payload.get("max_rows", 1000))`. */
  function MaxRowsArg(payload: map<string, Value>): Result<int> {
    PyInt(GetOr(payload, "max_rows", Int(ExcelCsvReader.DefaultMaxRows)))
  }

  /** `source or ""`, which the path join needs as text. */
  function SourceArg(source: Value): Result<string> {
    if !Truthy(source) then Ok("")
    else if source.Str? then Ok(source.s)
    else Err(Uncaught("TypeError"))
  }

  /** `int()` strips a no-break space but not an ASCII file separator. */
  lemma PyIntWhiteSpace()
    ensures PyInt(Str("\U{00A0}5")) == Ok(5)
    ensures PyInt(Str("\U{001C}5")) == Err(Uncaught("ValueError"))
  {
    var s := "\U{00A0}5";
    assert s[1..] == "5";
    assert Numerals.Strip("5") == "5";
    var t := "\U{001C}5";
    assert Numerals.Strip(t) == t;
    assert !Numerals.IsDigit(t[0]);
  }

  /** `os.path.join(base, part)` with POSIX separators: an absolute `part`
      replaces `base`, otherwise `part` follows `base` with one separator. */
  function PathJoin(base: string, part: string): (path: string)
    ensures |part| <= |path| && path[|path| - |part|..] == part
    ensures StartsWith(part, "/") ==> path == part
    ensures !StartsWith(part, "/") ==> StartsWith(path, base) && |path| <= |base| + 1 + |part|
    ensures !StartsWith(part, "/") ==>
      path == if base == "" || base[|base| - 1] == '/' then base + part else base + "/" + part
  {
    if StartsWith(part, "/") then part
    else if base == "" || base[|base| - 1] == '/' then base + part
    else base + "/" + part
  }

  /** The data directory joined with a relative, a trailing-slash and an
      absolute source. */
  lemma PathJoinExamples()
    ensures PathJoin("/data", "public/sample.csv") == "/data/public/sample.csv"
    ensures PathJoin("/data/", "a.csv") == "/data/a.csv"
    ensures PathJoin("", "a.csv") == "a.csv"
    ensures PathJoin("/data", "/etc/passwd") == "/etc/passwd"
  {
    assert "public/sample.csv"[..1][0] != "/"[0];
    assert "/data" + "/" + "public/sample.csv" == "/data/public/sample.csv";
    assert "a.csv"[..1][0] != "/"[0];
    assert "/data/" + "a.csv" == "/data/a.csv";
    assert "" + "a.csv" == "a.csv";
    assert "/etc/passwd"[..1] == "/";
  }

  // ------------------------------------------------------------------
  // The excel_csv_reader endpoint

  /** Parsed rows of every file that exists, by path. */
  type Files = map<string, seq<ExcelCsvReader.Row>>

  datatype ReadCall = ReadCall(path: string, maxRows: int)

  datatype ReadResponse = ReadResponse(rows: seq<ExcelCsvReader.Row>, count: int)

  /** Everything one request to the CSV tool does: the policy queries it
      evaluates, the `read_csv` calls it makes, and how it ends. */
  datatype CsvToolRun = CsvToolRun(queries: seq<PolicyQuery>, readCalls: seq<ReadCall>, response: Result<ReadResponse>)

  const Forbidden := HttpException(403, "Forbidden by policy")

  /** The query the CSV tool asks about a path. */
  function ReadQuery(subject: Subject, path: string): PolicyQuery {
    PolicyQuery(SubjectJson(subject), Str("excel.read"), Obj(map["path" := Str(path)]))
  }

  /** The `excel_csv_reader` endpoint for an authenticated caller. */
  function ExcelCsvReaderHandler(cfg: Config, payload: map<string, Value>, subject: Subject, network: Network, files: Files): CsvToolRun {
    var source := GetOr(payload, "source", Null);
    match MaxRowsArg(payload)
    case Err(f) => CsvToolRun([], [], Err(f))
    case Ok(maxRows) =>
      match SourceArg(source)
      case Err(f) => CsvToolRun([], [], Err(f))
      case Ok(part) =>
        var path := PathJoin(cfg.dataDir, part);
        var query := ReadQuery(subject, path);
        match Evaluation(cfg.opaUrl, query, DefaultRetries, network).decision
        case Err(f) => CsvToolRun([query], [], Err(f))
        case Ok(decision) =>
          if !decision.allowed then CsvToolRun([query], [], Err(Forbidden))
          else
            var read := ExcelCsvReader.ReadCsvResult(path in files, if path in files then files[path] else [], maxRows);
            CsvToolRun([query], [ReadCall(path, maxRows)],
              match read
              case Err(f) => Err(f)
              case Ok(rows) => Ok(ReadResponse(rows, |rows|)))
  }

  /** `read_csv` runs only after an allow for the very path it reads: at most
      one policy query and at most one read per request, and a read only when
      that query's evaluation allowed. */
  lemma NoReadWithoutAllow(cfg: Config, payload: map<string, Value>, subject: Subject, network: Network, files: Files)
    ensures var run := ExcelCsvReaderHandler(cfg, payload, subject, network, files);
      && |run.queries| <= 1 && |run.readCalls| <= 1
      && (run.readCalls != [] ==>
            && |run.queries| == 1
            && run.queries[0] == ReadQuery(subject, run.readCalls[0].path)
            && var d := Evaluation(cfg.opaUrl, run.queries[0], DefaultRetries, network).decision;
               d.Ok? && d.value.allowed)
  {
  }

  /** Every non-allow, whatever its cause (a deny, an HTTP error, an engine
      that never answered), is the same 403 and reads nothing. */
  lemma DenyIsForbidden(cfg: Config, payload: map<string, Value>, subject: Subject, network: Network, files: Files, maxRows: int, part: string)
    requires MaxRowsArg(payload) == Ok(maxRows)
    requires SourceArg(GetOr(payload, "source", Null)) == Ok(part)
    requires var d := Evaluation(cfg.opaUrl, ReadQuery(subject, PathJoin(cfg.dataDir, part)), DefaultRetries, network).decision;
      d.Ok? && !d.value.allowed
    ensures ExcelCsvReaderHandler(cfg, payload, subject, network, files)
         == CsvToolRun([ReadQuery(subject, PathJoin(cfg.dataDir, part))], [], Err(Forbidden))
  {
  }

  /** An engine that times out on every attempt gets the caller a 403, not a
      separate "unavailable" answer. */
  lemma EngineDownIsForbidden(cfg: Config, payload: map<string, Value>, subject: Subject, network: Network, files: Files, maxRows: int, part: string)
    requires MaxRowsArg(payload) == Ok(maxRows)
    requires SourceArg(GetOr(payload, "source", Null)) == Ok(part)
    requires forall j :: 1 <= j <= DefaultRetries ==>
      IsTimeout(network(PolicyRequest(cfg.opaUrl, ReadQuery(subject, PathJoin(cfg.dataDir, part))), j))
    ensures ExcelCsvReaderHandler(cfg, payload, subject, network, files).response == Err(Forbidden)
    ensures ExcelCsvReaderHandler(cfg, payload, subject, network, files).readCalls == []
  {
  }

  /** On an allow: one read of the evaluated path with the requested limit;
      a missing file is a 400, otherwise the first `max_rows` rows in order,
      and `count` is the number of rows returned. */
  lemma AllowReadsOnce(cfg: Config, payload: map<string, Value>, subject: Subject, network: Network, files: Files, maxRows: int, part: string)
    requires MaxRowsArg(payload) == Ok(maxRows)
    requires SourceArg(GetOr(payload, "source", Null)) == Ok(part)
    requires var d := Evaluation(cfg.opaUrl, ReadQuery(subject, PathJoin(cfg.dataDir, part)), DefaultRetries, network).decision;
      d.Ok? && d.value.allowed
    ensures var path := PathJoin(cfg.dataDir, part);
      var run := ExcelCsvReaderHandler(cfg, payload, subject, network, files);
      && run.queries == [ReadQuery(subject, path)]
      && run.readCalls == [ReadCall(path, maxRows)]
      && (path !in files ==> run.response == Err(HttpException(400, "File not found")))
      && (path in files ==>
            && run.response.Ok?
            && run.response.value.count == |run.response.value.rows|
            && |run.response.value.rows| == Min(Max(maxRows, 0), |files[path]|)
            && run.response.value.rows == files[path][..|run.response.value.rows|])
  {
  }

  /** The query asks about "excel.read" on the data directory joined with the
      source (none reads as ""); an absolute source escapes the directory. */
  lemma ReadQueryPath(cfg: Config, payload: map<string, Value>, subject: Subject, network: Network, files: Files)
    ensures var run := ExcelCsvReaderHandler(cfg, payload, subject, network, files);
      run.queries != [] ==>
        && run.queries[0].action == Str("excel.read")
        && var source := GetOr(payload, "source", Null);
           && (!Truthy(source) ==> run.queries[0] == ReadQuery(subject, PathJoin(cfg.dataDir, "")))
           && (source.Str? && source.s != "" ==> run.queries[0] == ReadQuery(subject, PathJoin(cfg.dataDir, source.s)))
           && (source.Str? && StartsWith(source.s, "/") ==> run.queries[0] == ReadQuery(subject, source.s))
  {
  }

  /** A bad `max_rows` or a non-text `source` fails the request before any
      policy query; without `max_rows` the limit is 1000. */
  lemma ArgumentErrorsComeFirst(cfg: Config, payload: map<string, Value>, subject: Subject, network: Network, files: Files)
    ensures var run := ExcelCsvReaderHandler(cfg, payload, subject, network, files);
      (MaxRowsArg(payload).Err? || SourceArg(GetOr(payload, "source", Null)).Err?) ==>
        run.queries == [] && run.readCalls == [] && run.response.Err? && run.response.failure.Uncaught?
    ensures "max_rows" !in payload ==> MaxRowsArg(payload) == Ok(1000)
  {
  }

  // ------------------------------------------------------------------
  // The opa_policy_eval endpoint

  datatype EvalResponse = EvalResponse(allow: bool, engine: Value)

  datatype EvalToolRun = EvalToolRun(query: PolicyQuery, response: Result<EvalResponse>)

  /** The `opa_policy_eval` endpoint for an authenticated caller. */
  function OpaPolicyEvalHandler(cfg: Config, payload: map<string, Value>, subject: Subject, network: Network): EvalToolRun {
    var action := GetOr(payload, "action", Null);
    var resource := GetOr(payload, "resource", Obj(map[]));
    var query := PolicyQuery(SubjectJson(subject), if Truthy(action) then action else Str(""), resource);
    EvalToolRun(query,
      match Evaluation(cfg.opaUrl, query, DefaultRetries, network).decision
      case Err(f) => Err(f)
      case Ok(d) => Ok(EvalResponse(d.allowed, DetailJson(d.detail))))
  }

  /** The endpoint hands on `evaluate`'s answer unchanged, deny or not: it
      fails only when `evaluate` itself raised. Missing or falsy `action`
      reads as "" and a missing `resource` as the empty object. */
  lemma PolicyEvalPassesThrough(cfg: Config, payload: map<string, Value>, subject: Subject, network: Network)
    ensures var run := OpaPolicyEvalHandler(cfg, payload, subject, network);
      var d := Evaluation(cfg.opaUrl, run.query, DefaultRetries, network).decision;
      && (run.response.Ok? <==> d.Ok?)
      && (d.Ok? ==> run.response.value == EvalResponse(d.value.allowed, DetailJson(d.value.detail)))
      && (run.response.Err? ==> run.response.failure.Uncaught?)
    ensures var query := OpaPolicyEvalHandler(cfg, payload, subject, network).query;
      && query.subject == SubjectJson(subject)
      && ("action" !in payload ==> query.action == Str(""))
      && ("action" in payload && !Truthy(payload["action"]) ==> query.action == Str(""))
      && ("action" in payload && Truthy(payload["action"]) ==> query.action == payload["action"])
      && ("resource" !in payload ==> query.resource == Obj(map[]))
      && ("resource" in payload ==> query.resource == payload["resource"])
  {
  }
}
