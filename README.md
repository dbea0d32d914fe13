# go-ise client core in Dafny

A model of the request engine of the Cisco ISE REST client `client.go`:

- **Configuration.** `NewClient` writes its defaults (timeout 60 s, 3 retries,
  backoff delays 2 s to 60 s, factor 3) and then applies the client modifiers
  in order. `NewReq` builds a request for `Url + uri` with a basic-auth `Authorization` header, JSON
  `Accept`/`Content-Type` headers and payload logging on, then applies the
  request modifiers in order.
- **Backoff.** `Backoff(attempts)` refuses once `attempts >= MaxRetries`.
  Otherwise it sleeps `j * (min(max, min * factor^attempts) - min) + min`
  seconds, with the jitter `j = rand/2 + 0.5`.
- **Retry loop.** `Do` reads the request body once and resends it on every
  attempt. Each attempt ends in a connection error, a body-read error or a
  response. A 2xx response ends the loop. Any other outcome calls `Backoff`,
  and then either gives up or, for connection errors, read errors and statuses
  408 and 502..504, tries again. A non-2xx status that is not retryable
  still sleeps once before `Do` returns it while budget remains, because
  `Backoff` runs before the status is classified.
- **Verbs.** `Get`, `Delete`, `Post` and `Put` build a request and call `Do`.

Modules:

- `BackoffPolicy` (backoff.dfy): the delay formula over reals, with its bounds,
  monotonicity and saturation.
- `Retry` (retry.dfy): the outcome, error and event datatypes. It holds
  `Exchange`, a pure function that gives the result and the event trace of the
  loop from the transport's answers. It also holds `Stop`, the attempt at which
  the loop ends, and the lemmas about both.
- `Config` (config.dfy): the settings and request values, the modifiers as
  data, their folds, and the last-write-wins lemmas.
- `Format` (format.dfy): Go's `%v` for an `int`, used in the status error text,
  and its parser.
- `Ise` (client.dfy): the classes `Client` and `Req`. Their fields are updated
  in place by the constructors and modifiers. The class also has the methods
  `Backoff`, `Settle` (one pass of the loop after the transport call), `Do`
  and the verbs. `Do` is a loop with an attempt counter, proved
  equal to `Exchange`.

The transport and the random source are parameters:

- `transport(k)` is how attempt `k` ends;
- `rnd(k)` is the `rand.Float64()` draw of the backoff after attempt `k`.

`Do` returns a ghost trace of `Send` and `Sleep` events. Each `Sleep` event is
the one the `Backoff` call of that attempt returns for the sleep it performs:
`Sleep(k, draw)` lasts `Delay(p, k, draw)` seconds by the contract of `Backoff`.

## Model

| member | source | states |
|---|---|---|
| Ise.Client.constructor | client.go:52-77 | the settings are the defaults with every modifier applied in order; `Insecure` stays false |
| Config.Modified | client.go:94-118 | the settings after one client modifier: its own field written, nothing else |
| Ise.Client.Apply | client.go:86-119 | each client modifier writes its own field and leaves every other field as it was |
| Config.LastWriteWins | client.go:73-75 | after the modifiers, each field holds the value of the last modifier of its kind, or its earlier value if there is none; URL and credentials are untouched |
| Config.DefaultsOfNewClient | client.go:57-71 | with no modifiers, timeout 60, MaxRetries 3, min delay 2, max delay 60, factor 3 |
| Ise.Req.constructor | client.go:123-130 | a new request has target, verb and body as given, the credentials as its `Authorization` header, JSON Accept and Content-Type, and payload logging on |
| Ise.Req.Apply | client.go:131-133 | one request modifier sets one header or the logging flag and nothing else |
| Config.NewRequest | client.go:123-130 | the request before its modifiers: target `Url + uri`, basic-auth and JSON headers, logging on |
| Ise.Client.NewReq | client.go:122-135 | the request is the client's initial request for `Url + uri` with the request modifiers applied in order |
| Config.NewRequestShape | client.go:123-133 | the target is the base URL and the path joined verbatim; `Authorization` carries the client's credentials, Accept and Content-Type stay JSON, and logging stays on, unless a modifier last set them otherwise |
| Config.ReqLastWriteWins | client.go:131-133 | request modifiers leave verb, URL and body alone; each header, `Authorization` included, and the logging flag hold the last value written |
| Ise.Client.Backoff | client.go:239-260 | returns false without sleeping exactly when `attempts >= MaxRetries`; otherwise sleeps once, for the jittered clamped exponential delay of its draw, returns that sleep as an event, and returns true |
| BackoffPolicy.Ceiling | client.go:250-253 | the exponential delay `min * factor^attempts`, clamped to the maximum |
| BackoffPolicy.Delay | client.go:249-254 | the jittered delay `(draw/2 + 0.5) * (ceiling - min) + min` |
| BackoffPolicy.CeilingBounds | client.go:249-253 | the clamped delay is `min(max, min * factor^attempts)` and lies in `[min, max]` |
| BackoffPolicy.DelayBounds | client.go:249-254 | for a draw in `[0, 1)` the delay lies in the upper half of `[min, min(max, min * factor^attempts)]`, so within `[min, max]` |
| BackoffPolicy.CeilingMonotone | client.go:250-253 | the clamped delay never shrinks as attempts grow |
| BackoffPolicy.CeilingBeyond | client.go:250-253 | from any attempt `n` with `n * min * (factor - 1) > max` on, the clamped delay equals the maximum |
| BackoffPolicy.CeilingSaturates | client.go:250-253 | with a positive minimum and a factor above one, some attempt exists from which the clamped delay is the maximum |
| Ise.Client.Settle | client.go:159-205 | after one transport call: goes round again exactly for a transient outcome with budget left; otherwise returns the verdict of that outcome; the sleep its `Backoff` call returns exists exactly when it goes round again or the outcome is a non-2xx status with budget left, and is for this attempt's draw |
| Ise.Client.Do | client.go:142-209 | the result and the error are those of `Exchange` on the request as sent; the trace of its sends and of the sleeps its `Backoff` calls return is `Exchange`'s trace |
| Retry.Exchange | client.go:151-206 | the loop from a given attempt as a function of the transport's answers: its result, error and trace (its properties are the lemmas below) |
| Retry.Verdict | client.go:161-208 | what the loop returns when an outcome is its last: an empty document with the transport or read error, the document alone for a 2xx status, or the document with a status error |
| Retry.Error.Text | client.go:196 | the text of each error; for a status error `HTTP Request failed: StatusCode <code>, Message: <message>` |
| Retry.Stop | client.go:151-206 | the loop's last attempt is the first attempt from the start that is not transient or has no budget left |
| Retry.ExchangeContinues | client.go:159-199 | a connection error, read error, or status 408 or 502..504 with budget left leads to one sleep and a resend at the next attempt |
| Retry.ExchangeEnds | client.go:159-205 | any other outcome ends the loop with its verdict, after one sleep exactly for a non-2xx status with budget left |
| Retry.LastAttemptDecides | client.go:151-208 | what `Do` returns depends only on the outcome of the stopping attempt |
| Retry.EventSchedule | client.go:151-206 | the trace alternates a send and a sleep for every attempt before the last, then the last send, plus one sleep exactly when the last is a non-2xx status with budget left |
| Retry.CallsPerRun | client.go:151-161 | the number of transport calls is the number of attempts up to the stopping one |
| Retry.CallBudget | client.go:143-161 | between 1 and `MaxRetries + 1` transport calls, exactly one when `MaxRetries <= 0`, and every call carries the same request and body |
| Retry.SleepsWithinBounds | client.go:249-257 | with sane settings and draws in `[0, 1)`, every sleep of `Do` lasts between the minimum and maximum delay |
| Retry.NoErrorIffSuccess | client.go:188-208 | `Do` returns no error exactly when its last attempt is a 2xx response, and then returns that response's document |
| Retry.SuccessEndsLoop | client.go:188-190 | a 2xx response ends the loop at once with its document, no error, one call and no sleep |
| Retry.FatalStatusNotResent | client.go:192-204 | a non-2xx status outside 408 and 502..504 is returned with its document and message, never resent, after one sleep exactly when budget remains |
| Retry.TransientExhaustsBudget | client.go:159-199 | if every attempt fails transiently, there are `MaxRetries + 1` calls (one when `MaxRetries <= 0`) and the last outcome's verdict is returned: an empty document with the transport or read error, or the last document with its status and message |
| Retry.NoBudgetSingleAttempt | client.go:241-244 | with `MaxRetries <= 0` there is one call, no sleep, and its outcome decides the result |
| Retry.StatusTextRoundTrip | client.go:196 | the status error text keeps the status code and the message, whatever the message holds |
| Format.DecimalRoundTrip | client.go:196 | the `%v` text of every status code parses back to that code |
| Ise.Client.Get | client.go:213-216 | `Do` applied to a GET request for the path with no body |
| Ise.Client.Delete | client.go:219-222 | `Do` applied to a DELETE request for the path with no body |
| Ise.Client.Post | client.go:226-229 | `Do` applied to a POST request for the path whose body is the data |
| Ise.Client.Put | client.go:233-236 | `Do` applied to a PUT request for the path whose body is the data |

## Left out

- HTTP transport, TLS configuration and the enforcement of `http.Client.Timeout`: I/O. The timeout is only a stored setting, and the transport's answers are the parameter `transport`.
- `defer httpRes.Body.Close()`: resource release, which does not change the result.
- `time.Sleep` and `rand.Float64`: a sleep is a ghost `Sleep` event; each draw is `rnd(k)`, assumed to be in `[0, 1)` only where the delay bounds need it.
- Float64 rounding, `math.Pow` error and the `time.Duration` conversions: the delay is computed in seconds over mathematical reals.
- `Ise.Client.Backoff`: takes `attempts` as a `nat`, because `Do` only ever passes non-negative counts.
- The gjson document model: a `Res` carries its raw text and the string that the query `ERSResponse.messages.0.title` yields ("" if absent). Parsing is not modelled: an attempt ends in a connection error, a body-read error, or a status with its parsed document.
- All logging, and with it the effect of `LogPayload`. The flag is stored and can be changed, but nothing reads it.
- The `Insecure` modifier: it writes into the foreign transport's TLS configuration and never touches the `Insecure` field.
- Request modifiers are arbitrary functions in the source; the model has two kinds, setting a header and setting the logging flag. req.go, where `Req` is declared, is not part of this model.
- Header names are used as given; Go's canonicalisation of header keys is not modelled.
- An unparsable `Url + uri`: `http.NewRequest` then returns a nil request and `SetBasicAuth` on it panics. The model does not capture this panic; its `NewReq` always builds the request.
- Errors from reading the request body, which the source ignores: the body is always read in full.
- `Config.BasicAuth`: the `Authorization` value is `Basic usr:pwd` without the base64 encoding of `usr:pwd`.
- The re-wrapping of the body in a fresh reader on every attempt: it appears only as every `Send` event carrying the same bytes.
- Trailing-slash normalisation of the base URL is described for the library, but the code concatenates `Url + uri` verbatim. The model follows the code.
- `Post` returning a Location header, which some callers expect: the code returns only the result and the error.
