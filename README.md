# Policy-gated tools of the MCP server, in Dafny

This project models the policy-gated tool path of the MCP server. Every tool
request asks an Open Policy Agent (OPA) engine whether the caller may act on a
resource, and reads a CSV file only after an allow. The model covers:

- **The policy-evaluation client** (`evaluate`, module `OpaPolicyEval`). It
  POSTs `{"input": {subject, action, resource}}` to
  `<OPA_URL>/v1/data/mcp/authz/allow` up to `retries` times (3 by default).
  Only connect and read timeouts are retried, and the timeout on attempt `k`
  is followed by a backoff of `k` × 200 ms. A 200 response ends the call with
  the normalised `result`. Any other status, and any other HTTP error, ends it
  with a deny naming the cause. Running out of attempts gives the
  "OPA unreachable after N attempts" deny.
  The loop is the method `Evaluate`. It is proved equal to the recursive
  function `EvaluateFrom` (wrapped as `Evaluation`), and the lemmas state the
  retry behaviour about that function.
  The network is a parameter `Network = (Request, nat) -> Outcome`: the outcome
  of attempt `k` for the request posted. An outcome is a response (status,
  text, decoded body), a connect timeout, a read timeout or another HTTP error.
  Sleeps are recorded as whole multiples of 200 ms.
- **`read_csv`** (module `ExcelCsvReader`). The method `ReadCsv` runs the
  existence check and then the append loop that stops at `max_rows`. It is
  proved against the recursive `TakeRows`. Whether the file exists and the rows
  of the parsed file are inputs.
- **The server module** (`main.py`, module `McpServer`):
  - `verify_bearer_token`, with its exact accept and reject rules;
  - the unused `opa_allow` normaliser, compared with `evaluate`'s;
  - the `excel_csv_reader` and `opa_policy_eval` endpoints.

  Each endpoint is a function from the payload, the caller, the network and the
  files to a record of everything the request does: the policy queries
  evaluated, the `read_csv` calls made, and the response or error. So "no read
  without an allow" is a statement about that record.

Decoded JSON is the datatype `Values.Value`. Python's `None` is `Null`, and
`bool(v)` is `Values.Truthy`. A request that raises is
`Err(HttpException(status, detail))` for an intended `HTTPException`, and
`Err(Uncaught(name))` for any other exception that escapes. The web framework
answers the second kind with status 500.

Behaviour of the code worth noting:

- The CSV tool has two outcomes of the policy gate. An allow reads the file.
  Every non-allow becomes the same 403, an unreachable engine included
  (`EngineDownIsForbidden`).
- A non-200 status is a deny whose reason names the status.
- A result that is neither a boolean nor an object is read with `bool()`. A
  non-empty list, a non-zero number or non-empty text therefore allows.
- The reasons read "OPA HTTP …", "OPA HTTP error: …" and "OPA unreachable after
  N attempts".
- The backoff also follows the final timed-out attempt, so three timeouts sleep
  200 + 400 + 600 ms = 1.2 s.
- `rights` is handed on whatever its type.

## Model

| member | source | states |
|---|---|---|
| `OpaPolicyEval.PolicyRequest` | services/mcp-server/app/mcp/tools/opa_policy_eval.py:11-13 | Models the POST `evaluate` sends: the URL `<opa_url>/v1/data/mcp/authz/allow` and the body `{"input": {"subject", "action", "resource"}}`. Every attempt of `EvaluateFrom` posts this same request |
| `OpaPolicyEval.Normalize` | services/mcp-server/app/mcp/tools/opa_policy_eval.py:18-27 | Models the normalisation of a 200 body's `result` into `(allowed, {"result", "rights"})`. Its behaviour is stated by `NormalizeObjectResult`, `NormalizeOtherResult` and `NormalizeRights` |
| `OpaPolicyEval.Conclude` | services/mcp-server/app/mcp/tools/opa_policy_eval.py:15-33 | Models how one attempt that did not time out ends the call: a 200 is normalised, another status or HTTP error is a deny, and a body that is not an object or does not decode raises. Stated by `ConcludeCases` and `ConcludeIsNotUnreachable` |
| `OpaPolicyEval.EvaluateFrom` | services/mcp-server/app/mcp/tools/opa_policy_eval.py:8-34 | Models the retry loop from a given attempt on, as recursion. Stated by `EvaluateFromShape`, `StopsAtFirstNonTimeout`, `AllTimeouts` and `AllowedOnlyOn200`; the loop `Evaluate` is proved equal to it |
| `OpaPolicyEval.Evaluation` | services/mcp-server/app/mcp/tools/opa_policy_eval.py:6-34 | Models `evaluate` itself: `EvaluateFrom` from attempt 1 with no earlier error. Stated by `AllTimeouts` and `DefaultRetriesAllTimeOut` |
| `OpaPolicyEval.Evaluate` | services/mcp-server/app/mcp/tools/opa_policy_eval.py:6-34 | The retry loop returns exactly the decision, attempt count and backoff sleeps of the function `Evaluation`; it makes at most `max(retries, 0)` attempts, and its sleeps are 1, 2, … units of 200 ms in order |
| `OpaPolicyEval.EvaluateFromShape` | services/mcp-server/app/mcp/tools/opa_policy_eval.py:8-34 | Every evaluation sleeps once per timed-out attempt, for that attempt's number. It either ends on the first attempt that did not time out, concluded by that attempt's outcome, or runs out after all `retries` attempts with the unreachable decision carrying the last timeout's message (or the text of the last error before the loop) |
| `OpaPolicyEval.StopsAtFirstNonTimeout` | services/mcp-server/app/mcp/tools/opa_policy_eval.py:15-33 | When attempts `1..k-1` time out and attempt `k` does not, the call makes exactly `k` attempts and sleeps `1..k-1` units. It ends with that attempt's conclusion, a 200 deny included, and makes no further attempt |
| `OpaPolicyEval.ConcludeCases` | services/mcp-server/app/mcp/tools/opa_policy_eval.py:15-33 | A 200 response with an object body yields the normalised decision. Any other status yields `(False, HttpStatus(status, text))` and any other HTTP error `(False, TransportError(message))`. A 200 body that is not a JSON object raises |
| `OpaPolicyEval.ConcludeIsNotUnreachable` | services/mcp-server/app/mcp/tools/opa_policy_eval.py:15-33 | An attempt that does not time out never produces the unreachable decision |
| `OpaPolicyEval.AllTimeouts` | services/mcp-server/app/mcp/tools/opa_policy_eval.py:6-34 | If every attempt times out, exactly `max(retries, 0)` attempts are made. The sleeps are `1..retries` units, totalling `retries·(retries+1)/2`. The result is `(False, Unreachable(retries, str(last timeout)))`, with error "None" when `retries <= 0` |
| `OpaPolicyEval.SumRange` | services/mcp-server/app/mcp/tools/opa_policy_eval.py:31 | The backoff units 1..n add up to n·(n+1)/2 |
| `OpaPolicyEval.DefaultRetriesAllTimeOut` | services/mcp-server/app/mcp/tools/opa_policy_eval.py:6-34 | With the default of 3 attempts all timing out: 3 attempts, sleeps of 200, 400 and 600 ms (1200 ms in all), a deny, and the reason "OPA unreachable after 3 attempts" |
| `OpaPolicyEval.AllowedOnlyOn200` | services/mcp-server/app/mcp/tools/opa_policy_eval.py:15-27 | `allowed` is True only when the last attempt got a 200 response whose object body normalises to an allow, within the first `retries` attempts |
| `OpaPolicyEval.NormalizeObjectResult` | services/mcp-server/app/mcp/tools/opa_policy_eval.py:19-20 | For an object `result`, allowed holds exactly when its `allow` entry is present and truthy, or the object is empty |
| `OpaPolicyEval.NormalizeOtherResult` | services/mcp-server/app/mcp/tools/opa_policy_eval.py:18-22 | For any other `result`, allowed is its truthiness. A missing or null result is a deny, a boolean gives itself, and rights is null |
| `OpaPolicyEval.NormalizeRights` | services/mcp-server/app/mcp/tools/opa_policy_eval.py:24-27 | The decision always carries the raw result. Rights equals `result["rights"]` when `result` is an object with that key, and is null otherwise |
| `OpaPolicyEval.RightsIgnoreAllow` | services/mcp-server/app/mcp/tools/opa_policy_eval.py:24-26 | The rights of an object result are the same whatever its `allow` entry is |
| `OpaPolicyEval.NormalizeExamples` | services/mcp-server/app/mcp/tools/opa_policy_eval.py:18-27 | `{}` gives (True, null rights), `{"allow": False}` a deny, and `{"allow": True, "rights": "rw"}` (True, "rw"). A missing result, `0` and `[null]` give a deny, a deny and an allow |
| `OpaPolicyEval.DetailJson` | services/mcp-server/app/mcp/tools/opa_policy_eval.py:27-34 | Models the dictionaries `evaluate` returns as its second component: `{"result", "rights"}`, `{"reason", "body"}`, `{"reason"}` and `{"reason", "error"}`. Its own ensures: always an object. Stated by `DetailHasReason`, `UnreachableSentinel` and `StatusReason` |
| `OpaPolicyEval.Reason` | services/mcp-server/app/mcp/tools/opa_policy_eval.py:28-34 | Models the reason strings "OPA HTTP <status>", "OPA HTTP error: <exc>" and "OPA unreachable after <retries> attempts". Stated by `DetailHasReason`, `UnreachableSentinel` and `StatusReason` |
| `OpaPolicyEval.DetailHasReason` | services/mcp-server/app/mcp/tools/opa_policy_eval.py:27-34 | Each failure detail's dictionary has a textual `reason` ("OPA HTTP <status>", "OPA HTTP error: <exc>", "OPA unreachable after <retries> attempts"), and an engine answer has none |
| `OpaPolicyEval.UnreachableSentinel` | services/mcp-server/app/mcp/tools/opa_policy_eval.py:28-34 | A failure's reason begins with "OPA unreachable after " exactly when the engine was unreachable |
| `OpaPolicyEval.StatusReason` | services/mcp-server/app/mcp/tools/opa_policy_eval.py:28 | The non-200 reason is "OPA HTTP " followed by the decimal status, which parses back to the status |
| `ExcelCsvReader.ReadCsvResult` | services/mcp-server/app/mcp/tools/excel_csv_reader.py:7-17 | Models `read_csv` as a value: a 400 "File not found" for a missing path, otherwise the kept rows of `TakeRows`. The method `ReadCsv` is proved equal to it; stated by `SmallFileReadWhole`, `NonPositiveLimitReadsNothing` and `LimitMonotone` |
| `ExcelCsvReader.TakeRows` | services/mcp-server/app/mcp/tools/excel_csv_reader.py:13-16 | The rows kept from index `i` on are a prefix of the remaining rows, in order, of length `min(max(max_rows - i, 0), n)` |
| `ExcelCsvReader.ReadCsv` | services/mcp-server/app/mcp/tools/excel_csv_reader.py:7-17 | A missing file is a 400 "File not found", raised before any row is read. Otherwise the result is the first `min(max(max_rows, 0), n)` parsed rows, in order |
| `ExcelCsvReader.SmallFileReadWhole` | services/mcp-server/app/mcp/tools/excel_csv_reader.py:13-17 | A file with no more rows than `max_rows` is returned whole |
| `ExcelCsvReader.NonPositiveLimitReadsNothing` | services/mcp-server/app/mcp/tools/excel_csv_reader.py:14-15 | With `max_rows <= 0` an existing file yields no rows |
| `ExcelCsvReader.LimitMonotone` | services/mcp-server/app/mcp/tools/excel_csv_reader.py:13-16 | A larger limit returns an extension of what a smaller one returns |
| `McpServer.Lower` | services/mcp-server/app/main.py:18 | Lower-casing keeps the length and maps each character on its own |
| `McpServer.SplitOnce` | services/mcp-server/app/main.py:20 | `split(" ", 1)` gives either the whole text, when it has no separator, or the text before the first separator and the rest, which join back to the input |
| `McpServer.FirstSpaceAfterScheme` | services/mcp-server/app/main.py:18-20 | When the header passes the scheme check, its first space is at position 6 |
| `McpServer.HasBearerScheme` | services/mcp-server/app/main.py:17 | Models the accept test `authorization.lower().startswith("bearer ")` pointwise: at least seven characters, whose lower-case forms spell "bearer ". Stated by `VerifyBearerToken`, `FirstSpaceAfterScheme` and the `Bearer…` example lemmas |
| `McpServer.VerifyBearerToken` | services/mcp-server/app/main.py:17-22 | The header is accepted exactly when it is present and its first seven characters are "bearer " in any letter case. It is then `{"sub": "user-123", "role": "admin"}` with the token everything after the first space. Otherwise it is 401 "Missing bearer token" |
| `McpServer.BearerRoundTrip` | services/mcp-server/app/main.py:17-22 | "Bearer " followed by any token is accepted and gives back that token unchanged |
| `McpServer.BearerAcceptExamples` | services/mcp-server/app/main.py:20 | "Bearer a b" gives token "a b" and "Bearer " gives token "" |
| `McpServer.BearerUpperCase` | services/mcp-server/app/main.py:18 | "BEARER x" is accepted with token "x" |
| `McpServer.BearerRejectExamples` | services/mcp-server/app/main.py:18-19 | "Bearer" (no space), "Basic abc", an empty header and no header are 401 |
| `McpServer.OpaAllow` | services/mcp-server/app/main.py:24-34 | Models `opa_allow`: one POST, a non-200 deny, identity checks against `True`, and every transport error escaping. Stated by `OpaAllowOn200`, `OpaAllowNon200`, `OpaAllowImpliesEvaluateAllows` and `OpaAllowDiffersFromNormalize` |
| `McpServer.OpaAllowOn200` | services/mcp-server/app/main.py:32-34 | On a 200 object body `opa_allow` allows exactly when `result` is `true`, or when it is an object whose `allow` is `true`. A missing result and an object whose `allow` is not `true` are denies. Any other non-object result (false, null, a number, text, a list) raises. The body is returned as it came |
| `McpServer.OpaAllowNon200` | services/mcp-server/app/main.py:30-31 | A non-200 status is `(False, {"reason": "OPA error <status>"})` |
| `McpServer.OpaAllowImpliesEvaluateAllows` | services/mcp-server/app/main.py:24-34 | Whatever `opa_allow` allows, `evaluate` also allows on its first attempt when it gets the same answer |
| `McpServer.OpaAllowDiffersFromNormalize` | services/mcp-server/app/main.py:33 | The converse fails. `{}`, `{"allow": 1}` and `1` are allows for `evaluate`. `opa_allow` denies `{}` and raises on `1` |
| `McpServer.PyInt` | services/mcp-server/app/main.py:43 | Models `int()` on a decoded value: integers as themselves, booleans as 0 or 1, text through `Numerals.ParseInt` (else `ValueError`), anything else `TypeError`. Stated by `ParseIntOfIntToString` and `PyIntWhiteSpace` |
| `McpServer.PyIntWhiteSpace` | services/mcp-server/app/main.py:43 | A no-break space before the digits is stripped, while an ASCII file separator (U+001C) makes `int()` raise `ValueError` |
| `McpServer.MaxRowsArg` | services/mcp-server/app/main.py:43 | Models `int(payload.get("max_rows", 1000))`. Stated by `ArgumentErrorsComeFirst` |
| `McpServer.SourceArg` | services/mcp-server/app/main.py:42-44 | Models `source or ""` as the text `os.path.join` needs: "" for a falsy source, the text itself, and `TypeError` for any other truthy value. Stated by `ReadQueryPath` and `ArgumentErrorsComeFirst` |
| `McpServer.PathJoin` | services/mcp-server/app/main.py:44 | The joined path ends with the source. An absolute source replaces the data directory. A relative one follows the directory directly when the directory is empty or ends in `/`, and after one `/` otherwise |
| `McpServer.PathJoinExamples` | services/mcp-server/app/main.py:44 | `/data` joined with `public/sample.csv` is `/data/public/sample.csv`. A trailing `/` is not doubled, an empty directory adds nothing, and `/etc/passwd` replaces the directory |
| `McpServer.ReadQuery` | services/mcp-server/app/main.py:44-45 | Models the policy question the CSV tool asks: the caller, the action "excel.read" and the resource `{"path": path}`. Stated by `ReadQueryPath`, `NoReadWithoutAllow` and `AllowReadsOnce` |
| `McpServer.ExcelCsvReaderHandler` | services/mcp-server/app/main.py:40-49 | Models the `excel_csv_reader` endpoint as the record of its queries, reads and response. Stated by `NoReadWithoutAllow`, `DenyIsForbidden`, `EngineDownIsForbidden`, `AllowReadsOnce`, `ReadQueryPath` and `ArgumentErrorsComeFirst` |
| `McpServer.NoReadWithoutAllow` | services/mcp-server/app/main.py:44-48 | A CSV request makes at most one policy query and at most one read. It reads only after the query for the very path read was evaluated and allowed |
| `McpServer.DenyIsForbidden` | services/mcp-server/app/main.py:45-47 | Any non-allow is 403 "Forbidden by policy" with no read: a deny, an HTTP error and an unreachable engine alike |
| `McpServer.EngineDownIsForbidden` | services/mcp-server/app/main.py:45-47 | An engine that times out on all three attempts gets the caller a 403 and no read |
| `McpServer.AllowReadsOnce` | services/mcp-server/app/main.py:48-49 | On an allow there is exactly one read, of the evaluated path with the requested `max_rows`. A missing file is a 400. Otherwise the rows are the first `max_rows` of the file, in order, and `count` equals their number |
| `McpServer.ReadQueryPath` | services/mcp-server/app/main.py:42-45 | The query has action "excel.read" on `{"path": join(DATA_DIR, source or "")}`: the joined directory for a missing or falsy source, the directory joined with the text for any non-empty text source. An absolute source is evaluated as itself |
| `McpServer.ArgumentErrorsComeFirst` | services/mcp-server/app/main.py:42-44 | A malformed `max_rows` (below CPython's 4300-digit limit, see "## Left out") or a non-text truthy `source` fails the request before any policy query or read. A missing `max_rows` means 1000 |
| `McpServer.OpaPolicyEvalHandler` | services/mcp-server/app/main.py:51-56 | Models the `opa_policy_eval` endpoint: the query it builds and the response it returns. Stated by `PolicyEvalPassesThrough` |
| `McpServer.PolicyEvalPassesThrough` | services/mcp-server/app/main.py:53-56 | The endpoint returns `{"allow", "engine"}` exactly as `evaluate` decided, and never a 403. It fails only when `evaluate` raised. A missing or falsy action is sent as "" and a missing resource as `{}` |
| `Numerals.ParseInt` | services/mcp-server/app/main.py:43 | Models `int()` on text, without CPython's 4300-digit limit: surrounding white space, an optional sign and one or more ASCII digits, `None` where Python raises `ValueError`. Stated by `ParseIntOfIntToString` and `McpServer.PyIntWhiteSpace` |
| `Numerals.IntToString` | services/mcp-server/app/mcp/tools/opa_policy_eval.py:28-34 | Models the decimal formatting of an integer in the f-strings at lines 28 and 34. Its own ensures give a non-empty text with a leading `-` exactly for a negative number; `ParseIntOfIntToString` gives it back through `ParseInt` |
| `Numerals.ParseIntOfNatToString` | services/mcp-server/app/main.py:43 | Parsing with `ParseInt` (`int()` without its 4300-digit limit) the decimal text of a non-negative integer gives it back |
| `Numerals.ParseIntOfNegative` | services/mcp-server/app/main.py:43 | Parsing with `ParseInt` (`int()` without its 4300-digit limit) a minus sign followed by the decimal text of a positive integer gives its negation |
| `Numerals.ParseIntOfIntToString` | services/mcp-server/app/main.py:43 | Parsing with `ParseInt` (`int()` without its 4300-digit limit) the decimal text of any integer gives the integer back |

## Left out

- HTTP, the async client and real time are left out. Attempts are the
  `Network` parameter and sleeps are recorded durations. The per-attempt
  `timeout` (2.0 s, and 5 s in `opa_allow`) is only handed to the HTTP client,
  so it is not modelled.
- JSON decoding is left out. A 200 body arrives as an object, as a decoded
  non-object (which raises `AttributeError`) or as undecodable (which raises
  `JSONDecodeError`). Decoded values have no floating-point numbers, so `int()`
  of a float in `max_rows` is not modelled.
- `PyInt` models Python's `int()` on text as surrounding white space (every
  character among space, `\t`, `\n`, `\r`, `\x0b` and `\f`, and the non-ASCII
  characters `str.isspace()` accepts: U+0085, U+00A0, U+1680, U+2000–U+200A,
  U+2028, U+2029, U+202F, U+205F and U+3000), a sign and
  ASCII digits. Underscores between digits and non-ASCII digits, which
  Python also accepts, are read as a `ValueError`.
- `PyInt`: CPython's limit of 4300 digits on `int()` of text is not modelled.
  Longer digit strings parse, so a `max_rows` of that length, which makes
  Python raise `ValueError` before any policy query, reaches the query and the
  read in the model. `ArgumentErrorsComeFirst` holds only up to that limit.
- `Lower` changes ASCII letters only. No non-ASCII character lower-cases to a
  letter of "bearer " or to a space, so the accept rule and the token are the
  same as Python's.
- Environment variables are left out. `OPA_URL` and `DATA_DIR` are the
  `Config` parameter, with `DefaultConfig` holding the defaults. `AUTH_ISSUER_URL`
  and `JWT_AUDIENCE` are unused by the code.
- The FastAPI app, `Depends` injection and `/healthz` are left out. The
  endpoints take an already-verified `Subject`.
- The CSV parser and `os.path.exists` are left out. The files are a map from
  path to parsed rows, and a path exists when it is a key. Failures of `open`
  on an existing path (a directory, no permission) are not modelled.
- `Uncaught` records only the exception's class name, not its message. An
  httpx error other than a connect or read timeout is recorded as `HTTPError`,
  its base class.
- Concurrency between requests is left out. Each evaluation is independent and
  its attempts are sequential, which the model's sequence of attempts reflects.
- The auth server, the Streamlit pages and the diagram scripts are not part of
  this model. They have no policy logic.
