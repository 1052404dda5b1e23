# orchestrator-client in Dafny

A model of the Ruby client for the orchestrator agent's execution API. The
client keeps a registry of named configurations. For each call it signs a
request with HMAC-SHA256 over `timestamp.body` and sends it to the agent. It
then turns the HTTP status into a decoded JSON value or a typed error.

- `execute` posts an execution and propagates the error taxonomy.
- `wait`, `fetch_tasks` and `fetch_task` are best-effort. Every
  `StandardError` becomes `nil`, or `[]` for the task list.

Modules, one per concern:

| module | models |
|---|---|
| `Wrappers` | `Option` |
| `Decimal` | `Integer#to_s` and `String#to_i`, with the round trip between them that makes a fresh signature verify |
| `Json` | decoded JSON values with String or Symbol keys; `Hash#[]`, `Hash#[]=` and `deep_symbolize_keys` |
| `Errors` | `Client::Error` and its subclasses, placed in the part of Ruby's exception hierarchy the client rescues; `rescue C` catches exactly the classes `IsA(_, C)` |
| `Hmac` | `Client::HMAC.sign` and `verify?` |
| `Settings` | `Client::Config` and its defaults |
| `HttpClient` | `Client::HTTP`. The status tables and rescue clauses are functions of the transport's outcome. `request` is a method that copies the signing headers onto the request in a loop. The four operations are methods tied to those functions. |
| `Client` | the module-level registry `@clients` as a class with a `map` field, and the delegating client API |

Collaborators the client only calls are parameters:
- `JSON.parse`, `JSON.dump` and `OpenSSL::HMAC.hexdigest` come in a `Codec`. The digest is known only to return 64 lowercase hex digits.
- The network round trip is a function from the prepared request to an `Outcome`: a response with status text and body, or a raised exception.
- `Time.now.to_i` is an integer argument `now`.
- `ENV` is a map argument.

## Model

| member | source | states |
|---|---|---|
| `Decimal.ToIOfIntToString` | lib/client/hmac.rb:19-32 | `to_i` reads back exactly the integer `to_s` wrote, including negative ones |
| `Decimal.IntToStringInjective` | lib/client/hmac.rb:19 | two clock readings with the same rendering are equal |
| `Decimal.DecimalPrefixRead` | lib/client/hmac.rb:32 | digits behind an optional `0d`/`0D` prefix read as the digits alone |
| `Decimal.ToIOfDecimalPrefix` | lib/client/hmac.rb:32 | a timestamp header `"0d<digits>"` reads as the number the digits spell |
| `Decimal.ToIOfSignedDecimalPrefix` | lib/client/hmac.rb:32 | the prefix may follow a minus sign: `"-0D<digits>"` reads as minus that number |
| `Json.Lookup` | lib/client/http.rb:106 | `hash[key]` finds a value exactly when the key is present, and that entry is in the hash |
| `Json.Store` | lib/client/http.rb:157 | `memo[k] = v` adds `k` to the key set; a new key is appended at the end; no entry appears except `k => v` |
| `Json.StoreInPlace` | lib/client/http.rb:157 | overwriting a key already present keeps the length and every other entry at its position, and (in a hash without duplicate keys) puts `k => v` where `k` was |
| `Json.StoreThenLookup` | lib/client/http.rb:157 | after `memo[k] = v`, `k` reads as `v` and every other key reads as before |
| `Json.StoreKeepsKeysDistinct` | lib/client/http.rb:157 | a store keeps the hash free of duplicate keys |
| `Json.StoreAll` | lib/client/http.rb:156-158 | `each_with_object` yields the union of both key sets and only entries from the two inputs |
| `Json.StoreAllKeepsKeysDistinct` | lib/client/http.rb:156-158 | the rebuilt hash has no duplicate key |
| `Json.StoreAllAppends` | lib/client/http.rb:156-158 | entries whose keys are all new are stored in order, as an append |
| `Json.SymbolizeKeysShape` | lib/client/http.rb:151-162 | arrays keep their length; hashes keep their keys up to `to_sym`; scalars are returned unchanged |
| `Json.SymbolizeKeysSymbolizes` | lib/client/http.rb:151-162 | every hash in the result, at every depth, has distinct Symbol keys |
| `Json.SymbolizedIsFixpoint` | lib/client/http.rb:151-162 | a value already in that form is returned unchanged |
| `Json.SymbolizeKeysIdempotent` | lib/client/http.rb:151-162 | `deep_symbolize_keys` applied twice equals applied once |
| `Json.SymbolizeKeysKeepsEntries` | lib/client/http.rb:151-162 | a hash with distinct key names (any parsed hash) loses no entry, and its order is kept |
| `Errors.Superclass` | lib/client/errors.rb:4-14 | only the root class has no superclass |
| `Errors.Ancestors` | lib/client/errors.rb:4-14 | every ancestor chain starts at the class itself and ends at `Exception` |
| `Errors.AncestorsFollowSuperclass` | lib/client/errors.rb:4-14 | the chain is the declared superclass relation followed up to the root |
| `Errors.KindIsClientError` | lib/client/errors.rb:5-14 | every taxonomy class is a `Client::Error` |
| `Errors.KindIsStandardError` | lib/client/errors.rb:4-14 | every taxonomy class is a `StandardError`, so the best-effort rescues catch it |
| `Errors.ClientAncestors` | lib/client/errors.rb:4-14 | a taxonomy class inherits only from taxonomy classes, `StandardError` and `Exception` |
| `Errors.BadGatewayIsServerError` | lib/client/errors.rb:10-11 | `BadGateway < ServerError < Error` |
| `Errors.KindNesting` | lib/client/errors.rb:5-14 | among distinct kinds other than `Error`, one inherits from another only for BadGateway under ServerError, in both directions of the iff |
| `Errors.IsATransitive` | lib/client/errors.rb:4-14 | inheritance is transitive |
| `Errors.IsAAntisymmetric` | lib/client/errors.rb:4-14 | two classes that inherit from each other are the same |
| `Errors.TransportClassesAreForeign` | lib/client/http.rb:57-60 | timeout and socket classes are unrelated to the taxonomy in both directions |
| `Hmac.Sign` | lib/client/hmac.rb:18-27 | exactly three headers; the caller verbatim; the timestamp is the decimal clock reading and reads back as it; the signature is the digest of `ts + "." + body` and has 64 characters |
| `Hmac.Verify` | lib/client/hmac.rb:31-38 | a verified request has its timestamp within the skew and carries a 64-character signature header equal to the digest of the re-rendered timestamp, a dot and the body |
| `Hmac.StaleHeadersRejected` | lib/client/hmac.rb:32-34 | a timestamp more than `skew` from `now` gives false whatever the signature |
| `Hmac.SignThenVerify` | lib/client/hmac.rb:18-38 | headers signed at `t` verify at `now` iff `t` is within `skew` of `now`, for any caller passed to the verifier |
| `Hmac.DefaultWindow` | lib/client/hmac.rb:31 | with the default skew the window is 300 seconds either side |
| `Hmac.OtherBodyRejected` | lib/client/hmac.rb:36-37 | a signature made over another body fails whenever the digest separates the two payloads |
| `Settings.EnvironmentSetsOnlyHostAndSecret` | lib/client/config.rb:13-21 | any two environments give configurations that differ at most in host and secret; the skew is always 300 |
| `Settings.UnrelatedVariablesIgnored` | lib/client/config.rb:14-15 | setting any variable other than `ORCH_AGENT_HOST` and `HMAC_SECRET` changes nothing, and the environment restricted to those two gives the same configuration |
| `Settings.SetVariablesWin` | lib/client/config.rb:14-15 | a set variable, even the empty string, overrides the built-in default |
| `HttpClient.NormalizedBase` | lib/client/http.rb:195-197 | the base ends in `/`; it extends the configured base by at most that slash; a base already ending in `/` is kept |
| `HttpClient.SymbolizeAll` | lib/client/http.rb:106 | every task is `deep_symbolize_keys` of the corresponding input element, and so has distinct Symbol keys at every depth |
| `HttpClient.ParseMessage` | lib/client/http.rb:190-193 | a value is the raw body or a truthy field; an error is either a parse failure outside `StandardError` or the TypeError/NoMethodError of indexing a non-hash |
| `HttpClient.ParseMessageOfHash` | lib/client/http.rb:190-193 | for a hash body: a truthy `message` field, else the raw body |
| `HttpClient.ParseMessageFallsBack` | lib/client/http.rb:191-192 | a body that fails to parse (rescued), or parses to null/false, gives the raw body |
| `HttpClient.ParseMessageRaisesOnArray` | lib/client/http.rb:192 | `json['message']` on an array or integer raises TypeError |
| `HttpClient.BestEffort` | lib/client/http.rb:86-88 | a `StandardError` becomes the fallback; a value or a non-`StandardError` passes through unchanged, and the only error left is such a non-`StandardError` |
| `HttpClient.StatusKindsAreStatusKinds` | lib/client/http.rb:42-53 | no status maps to Timeout, ConnectionError, BadGateway, Error or UnexpectedResponse; ServerError iff 500..599 |
| `HttpClient.RaiseWithMessage` | lib/client/http.rb:42-53 | `raise kind, parse_message(res)` always raises, and what it raises is a `StandardError` or the parser's own exception |
| `HttpClient.RescueKeepsTaxonomyErrors` | lib/client/http.rb:57-60 | `execute`'s rescue clauses pass every taxonomy error through |
| `HttpClient.RescueTransportOutcomes` | lib/client/http.rb:57-60 | the rescue clauses either keep the result or yield Timeout("request timed out") or ConnectionError with the original message |
| `HttpClient.ExecuteOnStatusOutcomes` | lib/client/http.rb:37-56 | value iff 200/202 and the body parses, and then it is the parsed body; otherwise a parse error, a `parse_message` error or a status kind |
| `HttpClient.RescueTransportKeeps` | lib/client/http.rb:57-60 | an exception of none of the four transport classes passes the rescue clauses unchanged |
| `HttpClient.RescueTransportOfParserError` | lib/client/http.rb:57-60 | a `JSON::ParserError` is not one of the transport classes and passes unchanged |
| `HttpClient.ExecuteOnSuccessStatus` | lib/client/http.rb:37-60 | on 200 and 202 `execute` gives what parsing the body gives, through the rescue clauses |
| `HttpClient.ExecuteParseFailure` | lib/client/http.rb:37-60 | on 200 and 202 a parse failure whose class is not a transport class (a `JSON::ParserError` in particular) propagates unchanged |
| `HttpClient.ExecuteOnErrorStatus` | lib/client/http.rb:42-53 | a status with a kind raises that kind with `parse_message`'s result |
| `HttpClient.ExecuteSucceeds` | lib/client/http.rb:37-41 | `execute` returns a value iff 200 or 202 with a parsable body, and the value is the parsed body (String keys) |
| `HttpClient.ExecuteStatusError` | lib/client/http.rb:42-53 | 401/403/404/409/422/5xx raise the matching kind with the extracted message |
| `HttpClient.ExecuteUnauthorizedMessage` | lib/client/http.rb:42-43 | a 401 with body `{"message":"nope"}` raises Unauthorized("nope") |
| `HttpClient.ExecuteUnexpectedStatus` | lib/client/http.rb:54-55 | any other status raises UnexpectedResponse("HTTP <code text>: <body>") |
| `HttpClient.ExecuteTransportFailure` | lib/client/http.rb:57-60 | open/read timeouts become Timeout("request timed out"); refused connections and socket errors become ConnectionError(message); other non-taxonomy exceptions propagate unchanged |
| `HttpClient.ExecuteNeverBadGateway` | lib/client/http.rb:37-60 | `execute` itself never raises BadGateway |
| `HttpClient.WaitOnStatusOutcomes` | lib/client/http.rb:76-85 | value iff 200/202 and the body parses, with Symbol keys; otherwise a `StandardError` or the parser's own error |
| `HttpClient.WaitOutcomes` | lib/client/http.rb:64-89 | `wait` gives a value iff 200/202 with a parsable body, and the value is deep-symbolized; it raises only non-`StandardError` exceptions from the transport or the parser; otherwise nil |
| `HttpClient.WaitDegradesToNil` | lib/client/http.rb:78-88 | with every failure a `StandardError` and a status other than 200/202, `wait` returns nil |
| `HttpClient.FetchTasksOnStatusOutcomes` | lib/client/http.rb:101-113 | a value only on 200; otherwise a `StandardError` or the parser's own error |
| `HttpClient.FetchTasksOfHash` | lib/client/http.rb:104-106 | on 200 with a hash body: `Array(body['tasks'])` deep-symbolized; no `tasks` gives `[]`; an array of tasks is mapped element-wise |
| `HttpClient.FetchTasksOnStatusOfHash` | lib/client/http.rb:104-106 | the 200 branch on a hash body is `Array(body['tasks'])` deep-symbolized |
| `HttpClient.FetchTasksOutcomes` | lib/client/http.rb:91-117 | raises only non-`StandardError` exceptions from the transport or the parser; a non-empty list only on 200; a `StandardError` from the transport, a 200 whose body fails to parse with a `StandardError`, and a 200 whose `body['tasks']` raises all give `[]` |
| `HttpClient.FetchTasksSymbolized` | lib/client/http.rb:104-116 | every task returned has distinct Symbol keys at every depth |
| `HttpClient.FetchTasksOnStatusSymbolized` | lib/client/http.rb:103-113 | before the rescue, a value has Symbol keys throughout |
| `HttpClient.FetchTasksOnStatusFailures` | lib/client/http.rb:103-113 | a 200 with a `StandardError` parse failure or an unindexable body, and any other status whose parse failures are `StandardError`s, fail with a `StandardError` |
| `HttpClient.FetchTasksDegradesToEmpty` | lib/client/http.rb:103-116 | those same cases give `[]`: a 200 whose body fails to parse with a `StandardError`, or parses to nil, an array or an integer so that `body['tasks']` raises; any other status when the parse errors are `StandardError`s |
| `HttpClient.FetchTaskOnStatusOutcomes` | lib/client/http.rb:132-143 | value iff 200 and the body parses, with Symbol keys; otherwise a `StandardError` or the parser's own error |
| `HttpClient.FetchTaskOutcomes` | lib/client/http.rb:119-147 | `fetch_task` gives a value iff 200 with a parsable body; 401, 404 and other statuses give nil; raises only non-`StandardError` exceptions from the transport or the parser |
| `HttpClient.FieldsWithBody` | lib/client/http.rb:182-184 | a request with a body carries every signing header unchanged plus `Content-Type: application/json`, and nothing else |
| `HttpClient.ExecuteRequestShape` | lib/client/http.rb:19-36 | POST to `<base>/executions`; query `async=1` iff async; the dumped execution as body; per-call timeouts, else the configured ones |
| `HttpClient.ExecuteRequestHeaders` | lib/client/http.rb:23-36 | exactly the three signing headers plus `Content-Type`; caller verbatim; the timestamp reads back as the clock reading; the signature verifies within the skew |
| `HttpClient.SignedGetShape` | lib/client/http.rb:69-75 | the GETs carry exactly the three headers signed over `""`, no body, and the configured timeouts |
| `HttpClient.LookupTargets` | lib/client/http.rb:67-123 | targets are `<base>/executions/wait/<key>`, `<base>/executions/fetch_tasks` and `<base>/executions/fetch_task?task=<name>` |
| `HttpClient.Http.constructor` | lib/client/http.rb:11-14 | the client is bound to the given config |
| `HttpClient.Http.Request` | lib/client/http.rb:164-188 | the sent request carries every signing header unchanged, `Content-Type: application/json` exactly when there is a body, and the per-call timeouts or else the configured ones; the response is the transport's |
| `HttpClient.Http.Execute` | lib/client/http.rb:19-61 | sends `ExecuteRequest` and returns `ExecuteResult` of the outcome |
| `HttpClient.Http.Wait` | lib/client/http.rb:64-89 | a blank key gives nil and sends nothing; otherwise sends `WaitRequest` and returns `WaitResult` |
| `HttpClient.Http.FetchTasks` | lib/client/http.rb:91-117 | sends `FetchTasksRequest` and returns `FetchTasksResult` |
| `HttpClient.Http.FetchTask` | lib/client/http.rb:119-147 | a blank name gives nil and sends nothing; otherwise sends `FetchTaskRequest` and returns `FetchTaskResult` |
| `Client.NamesAreSymbols` | lib/client.rb:20-26 | a String name and the Symbol of the same name configure and find the same entry |
| `Client.ConfigureTouchesOneEntry` | lib/client.rb:19-22 | `configure` adds only the named key; every other entry is unchanged; the named entry is the block's result on the previous or a new config |
| `Client.ConfigureWithIdentity` | lib/client.rb:19-22 | a block that changes nothing leaves an existing entry as it was and creates a missing one as `Config.new` |
| `Client.FindOtherAfterConfigure` | lib/client.rb:19-27 | configuring one name does not change what another name finds |
| `Client.Registry.constructor` | lib/client.rb:10 | the registry starts empty |
| `Client.Registry.DefaultConfig` | lib/client.rb:14-16 | `config` returns the `:default` entry, created as `Config.new` from the environment of the moment on first use, and changes nothing else |
| `Client.Registry.Configure` | lib/client.rb:19-22 | the registry becomes `Configured(old registry, name, block, environment)`, whose effect `ConfigureTouchesOneEntry` states |
| `Client.Registry.Get` | lib/client.rb:25-27 | `self[name]` finds exactly the entry under `name.to_sym`, and otherwise raises RuntimeError "No client configured for <inspect>" |
| `Client.Registry.All` | lib/client.rb:30-32 | `all` lists exactly the names `self[]` finds, each with the config `self[]` returns, under its String or Symbol spelling |
| `Client.Registry.HttpFor` | lib/client.rb:61-64 | a fresh HTTP client bound to the named config, or RuntimeError "Client not configured: <inspect>" |
| `Client.Registry.Execute` | lib/client.rb:36-45 | unknown names raise and send nothing; otherwise sends the request the named config makes, with the keyword defaults passed through, and returns `execute`'s result |
| `Client.Registry.FetchTasks` | lib/client.rb:47-49 | same delegation for `fetch_tasks` |
| `Client.Registry.FetchTask` | lib/client.rb:51-53 | same delegation for `fetch_task`, including its blank-name guard |
| `Client.Registry.Wait` | lib/client.rb:55-57 | same delegation for `wait`, including its blank-key guard |

## Left out

- Logging. Every `@logger` call is left out, and the logger is assumed present. With a nil logger, a best-effort rescue would itself raise NoMethodError.
- The network, TLS and `Net::HTTP` objects. The transport is a function from the prepared request to its outcome. The `respond_to?(:write_timeout)` test is taken as true. The unsupported-method `ArgumentError` in `request` is unreachable, since only GET and POST are issued.
- `HttpClient.Http.Wait`: `URI.join` raises `URI::InvalidURIError` for an idempotency key with a space, a non-ASCII character or one of `"`, `<`, `>` and similar; the code then rescues it and returns nil without sending, while the model sends `WaitRequest`. A `#` in the key starts a fragment that the model keeps in the path. URI syntax is not modelled.
- `HttpClient.Http.Execute`: a configured `host_base` that `URI.join` rejects makes `execute` raise `URI::InvalidURIError` (and the best-effort operations return nil or `[]`); the model treats every base as valid.
- General URI resolution. `URI.join` is modelled only for the relative references the client uses: plain path segments, appended after the normalised base. `URI.encode_www_form` is kept as the list of name-value pairs before encoding. An idempotency key containing `/`, `?` or `%` is not resolved the way `URI.join` would.
- JSON text. Parsing and dumping are abstract functions. `JSON.parse(..., symbolize_names: true)` is modelled as parsing followed by `deep_symbolize_keys`. The two agree for the duplicate-free hashes the parser returns.
- HMAC and SHA-256. They are an abstract digest of 64 lowercase hex digits, so no claim is made about forging signatures. The digest string comparison is plain equality, as in the code.
- `String#to_i` with underscores between digits (`"1_000"`) is not modelled. The model stops at the first non-digit. The optional `0d`/`0D` prefix after the sign is modelled.
- Header names are case-sensitive map keys here. `Net::HTTP` treats them case-insensitively, which changes nothing for the fixed names used.
- Exception messages are kept as the object passed to `raise`. Ruby's `to_s` rendering of a non-String message is not modelled. The interpreter's own wording for TypeError and NoMethodError is approximated.
- `Client.Registry.All`: Ruby returns the live `@clients` hash, so a caller can change the registry through it; the model returns the map as a value.
- Ruby blocks and shared objects. `Config` is a value. `configure` applies a function from the stored config to its replacement, instead of yielding the shared mutable object. So aliasing between a yielded config and later reads is not modelled, and neither is the block's own return value, which `configure` returns.
- `Client.Inspect` quotes a String name without escaping, and renders every Symbol as `:name`. Ruby quotes symbols such as `:"a b"`.
- `wait` sends one request and returns, as the code does. The surrounding documentation speaks of polling `/executions/status/:idem_key` until done. The request specs expect that path and a repeated poll. Both disagree with the code, and the model follows the code.
