# Forked Alertmanager (remote secondary mode) and InfluxQL request building

This project models two parts of Grafana in Dafny and proves properties about them.

**The remote-secondary forked Alertmanager** (module `Remote`). This is the coordinator Grafana uses while it migrates alerting from its internal Alertmanager to a remote one.
- Every business operation goes to the internal engine.
- `ApplyConfig` also runs a routine that either:
  - bootstraps a remote engine that is not ready, or
  - re-syncs a ready one with `CompareAndSendConfiguration` and `CompareAndSendState` once `syncInterval` has elapsed since `lastSync`.
- Remote errors only decide whether `lastSync` advances. They are never returned.

The coordinator is a class:
- `lastSync` is a mutable field.
- `syncInterval` and the logger are constants.
- A ghost log `calls` records every engine operation the coordinator invokes, with its arguments (module `Notifier`).

The engines are oracles. Each method takes, as parameters, the answers the engines give to the operations it may invoke. `RemoteReplies` holds the remote engine's answers during one `ApplyConfig`. The routine's decision table is the function `RemoteSync`, and `ApplyConfig` is proved against it. `Replay` folds `RemoteSync` over a sequence of calls, and the lemmas about `lastSync` over many calls are stated over it.

Time is modelled as follows:
- A reading is an integer number of nanoseconds since Go's zero `time.Time` (`ZeroTime`), which is what an unset `lastSync` holds.
- `time.Since` is `Since(now, t)`. It saturates at the bounds of the 64-bit `time.Duration`, as `Time.Sub` does. This is why a first call to a ready remote engine is always due.
- The clock reading is the parameter `now`.

**InfluxQL request construction and error routing** (module `InfluxQL`).
- `CreateRequest` is a pure function. It returns the URL parse error, `ErrInvalidHttpMode`, or an abstract request: method, URL with path and query parameters, optional form body, optional Content-Type.
- `Query` is a method with a loop, proved against the fold `Collect`.
  - A parse, build or request-construction error aborts the batch with an empty response.
  - An execution error is stored as the response of the query's RefID.

The parser, query builder, URL parser and `execute` are function-valued fields of `Backend`.

How the code differs from a plain reading of its intent:
- `createRequest` starts from the query parameters already present in the datasource URL. So the lemmas say that `rp` (and, with POST, `q`) are carried over from that URL when the function does not set them. `rp` is absent exactly when no policy is sent only if the datasource URL has no `rp` of its own.
- `ApplyConfig` reads the clock twice in the source: once for the interval check and once when it sets `lastSync`. The model uses one reading for both.

## Model

| member | source | states |
|---|---|---|
| `Remote.Validate` | pkg/services/ngalert/remote/remote_secondary_forked_alertmanager.go:39-44 | A configuration fails validation exactly when its logger is nil, and the error is "logger cannot be nil". |
| `Remote.RemoteSecondaryForkedAlertmanager.New` | pkg/services/ngalert/remote/remote_secondary_forked_alertmanager.go:46-56 | Construction returns the validation error and no coordinator exactly when validation fails. Otherwise it returns a fresh coordinator with the given interval and logger, `lastSync` at the zero time, and an empty call log. |
| `Remote.RemoteSecondaryForkedAlertmanager.constructor` | pkg/services/ngalert/remote/remote_secondary_forked_alertmanager.go:50-55 | Stores the configured interval and logger and leaves `lastSync` at the zero time. |
| `Remote.RemoteSync` | pkg/services/ngalert/remote/remote_secondary_forked_alertmanager.go:64-95 | Decision table properties. Readiness is always probed first. The remote ApplyConfig is invoked iff the engine is not ready. Each compare-and-send call is invoked iff the engine is ready and the sync is due. `lastSync` either stays or becomes `now`, and it changes only after full remote success. A ready engine that is not due gets only the readiness probe. |
| `Remote.NotReadyBootstraps` | pkg/services/ngalert/remote/remote_secondary_forked_alertmanager.go:68-75 | A not-ready remote engine gets exactly the probe and one ApplyConfig, with no compare-and-send. `lastSync` becomes `now` iff that ApplyConfig succeeds. |
| `Remote.DueSyncCallsBoth` | pkg/services/ngalert/remote/remote_secondary_forked_alertmanager.go:78-93 | When a ready engine is due, both compare-and-send calls are made whatever either returns. `lastSync` becomes `now` iff both succeed. |
| `Remote.ZeroIntervalAlwaysDue` | pkg/services/ngalert/remote/remote_secondary_forked_alertmanager.go:78 | With an interval of 0, every call is due on a clock that does not run backwards. |
| `Remote.FirstReadyCallIsDue` | pkg/services/ngalert/remote/remote_secondary_forked_alertmanager.go:78 | With `lastSync` at the zero time, the saturated elapsed time makes a sync due for every interval, for any present-day clock reading. |
| `Remote.FailedSyncRetriedNextCall` | pkg/services/ngalert/remote/remote_secondary_forked_alertmanager.go:78-93 | After a due sync whose compare-and-send failed, even partly, the next call to a ready engine at a later clock reading retries both compare-and-send calls, whatever the interval. |
| `Remote.ReplayLastSyncFromSuccess` | pkg/services/ngalert/remote/remote_secondary_forked_alertmanager.go:68-93 | After any sequence of calls, `lastSync` is either its initial value or the clock reading of a call whose remote side fully succeeded. |
| `Remote.ReplayLastSyncMonotone` | pkg/services/ngalert/remote/remote_secondary_forked_alertmanager.go:68-93 | On a non-decreasing clock, `lastSync` never decreases and never passes the latest clock reading. |
| `Remote.BootstrapThenTooSoon` | pkg/services/ngalert/remote/forked_alertmanager_test.go:28-41 | With a 10-minute interval, a call to a not-ready engine bootstraps it and records the time. A call one second later to the now-ready engine only probes it and keeps `lastSync`. |
| `Remote.RemoteSecondaryForkedAlertmanager.ApplyConfig` | pkg/services/ngalert/remote/remote_secondary_forked_alertmanager.go:60-101 | Returns exactly the internal engine's error. The new `lastSync` is that of `RemoteSync`. The internal engine's history grows by one ApplyConfig and the remote engine's by `RemoteSync`'s calls. Only the per-engine order is fixed, because the two sides run concurrently. |
| `Remote.RemoteSecondaryForkedAlertmanager.SyncRemote` | pkg/services/ngalert/remote/remote_secondary_forked_alertmanager.go:64-95 | The remote routine invokes exactly the calls of `RemoteSync`, all on the remote engine and in that order. The new `lastSync` is that of `RemoteSync`. |
| `Remote.RemoteSecondaryForkedAlertmanager.SaveAndApplyConfig` | pkg/services/ngalert/remote/remote_secondary_forked_alertmanager.go:104-106 | Only the internal engine is called, with the same document. Its error is returned unchanged. `lastSync` is outside the frame. |
| `Remote.RemoteSecondaryForkedAlertmanager.SaveAndApplyDefaultConfig` | pkg/services/ngalert/remote/remote_secondary_forked_alertmanager.go:109-111 | Only the internal engine is called. Its error is returned unchanged. |
| `Remote.RemoteSecondaryForkedAlertmanager.GetStatus` | pkg/services/ngalert/remote/remote_secondary_forked_alertmanager.go:113-115 | Only the internal engine is called. Its status is returned unchanged. |
| `Remote.RemoteSecondaryForkedAlertmanager.CreateSilence` | pkg/services/ngalert/remote/remote_secondary_forked_alertmanager.go:117-119 | Only the internal engine is called, with the same silence. Its id and error are returned unchanged. |
| `Remote.RemoteSecondaryForkedAlertmanager.DeleteSilence` | pkg/services/ngalert/remote/remote_secondary_forked_alertmanager.go:121-123 | Only the internal engine is called, with the same id. Its error is returned unchanged. |
| `Remote.RemoteSecondaryForkedAlertmanager.GetSilence` | pkg/services/ngalert/remote/remote_secondary_forked_alertmanager.go:125-127 | Only the internal engine is called, with the same id. Its silence and error are returned unchanged. |
| `Remote.RemoteSecondaryForkedAlertmanager.ListSilences` | pkg/services/ngalert/remote/remote_secondary_forked_alertmanager.go:129-131 | Only the internal engine is called, with the same filter. Its silences and error are returned unchanged. |
| `Remote.RemoteSecondaryForkedAlertmanager.GetAlerts` | pkg/services/ngalert/remote/remote_secondary_forked_alertmanager.go:133-135 | Only the internal engine is called, with the same three flags, filter and receiver. Its alerts and error are returned unchanged. |
| `Remote.RemoteSecondaryForkedAlertmanager.GetAlertGroups` | pkg/services/ngalert/remote/remote_secondary_forked_alertmanager.go:137-139 | Only the internal engine is called, with the same arguments. Its groups and error are returned unchanged. |
| `Remote.RemoteSecondaryForkedAlertmanager.PutAlerts` | pkg/services/ngalert/remote/remote_secondary_forked_alertmanager.go:141-143 | Only the internal engine is called, with the same alerts. Its error is returned unchanged. |
| `Remote.RemoteSecondaryForkedAlertmanager.GetReceivers` | pkg/services/ngalert/remote/remote_secondary_forked_alertmanager.go:145-147 | Only the internal engine is called. Its receivers and error are returned unchanged. |
| `Remote.RemoteSecondaryForkedAlertmanager.TestReceivers` | pkg/services/ngalert/remote/remote_secondary_forked_alertmanager.go:149-151 | Only the internal engine is called, with the same parameters. Its result (possibly nil) and error are returned unchanged. |
| `Remote.RemoteSecondaryForkedAlertmanager.TestTemplate` | pkg/services/ngalert/remote/remote_secondary_forked_alertmanager.go:153-155 | Only the internal engine is called, with the same parameters. Its result (possibly nil) and error are returned unchanged. |
| `Remote.RemoteSecondaryForkedAlertmanager.CleanUp` | pkg/services/ngalert/remote/remote_secondary_forked_alertmanager.go:157-160 | Only the internal engine is asked to clean up. |
| `Remote.RemoteSecondaryForkedAlertmanager.StopAndWait` | pkg/services/ngalert/remote/remote_secondary_forked_alertmanager.go:162-166 | Stops the internal engine, then the remote one, and invokes nothing else. No final sync is sent. |
| `Remote.RemoteSecondaryForkedAlertmanager.Ready` | pkg/services/ngalert/remote/remote_secondary_forked_alertmanager.go:168-171 | Returns the internal engine's readiness. Only the internal engine is asked; the remote one is not consulted. |
| `InfluxQL.JoinQuery` | pkg/tsdb/influxdb/influxql/influxql.go:77 | `path.Join(dir, "query")`: the result ends in `query`. What precedes it is empty for an empty dir, and otherwise is dir without its trailing slashes followed by one slash. |
| `InfluxQL.CreateRequest` | pkg/tsdb/influxdb/influxql/influxql.go:71-97 | A URL parse error is returned as it is. If the URL parses, the call fails iff `httpMode` is neither `GET` nor `POST`, and then with `ErrInvalidHttpMode`. |
| `InfluxQL.RequestPath` | pkg/tsdb/influxdb/influxql/influxql.go:76-82 | For a URL with a host, a relative path gets a leading slash, as `URL.String` writes it and the request re-parses it. An absolute path, or a path with no host and no scheme, is unchanged. URLs with a scheme and an empty host, and opaque URLs, are outside the model (see "## Left out"). |
| `InfluxQL.CreateRequestTarget` | pkg/tsdb/influxdb/influxql/influxql.go:76-114 | For a hierarchical URL that has a host, the request keeps the URL's scheme and host. Its path is the URL path joined with `query`, made absolute. Its parameters are `QueryParams` written over the datasource URL's own, for the chosen method. |
| `InfluxQL.CreateRequestHostOnly` | pkg/tsdb/influxdb/influxql/influxql.go:76-82 | A datasource URL with a host and an empty path, such as `http://localhost:8086`, is queried at `/query`. |
| `InfluxQL.QueryParams` | pkg/tsdb/influxdb/influxql/influxql.go:98-108 | The parameters always hold `db = [DbName]` and `epoch = ["ms"]`. |
| `InfluxQL.QueryParamsKeepOthers` | pkg/tsdb/influxdb/influxql/influxql.go:98-108 | Every parameter of the datasource URL other than `db`, `epoch`, `rp` and `q` is kept unchanged. No parameter beyond those four is added. |
| `InfluxQL.QueryParamsQueryText` | pkg/tsdb/influxdb/influxql/influxql.go:107-111 | For GET, `q = [query]`. For POST, the URL keeps exactly the `q` the datasource URL had, if any. |
| `InfluxQL.QueryParamsRetentionPolicy` | pkg/tsdb/influxdb/influxql/influxql.go:102-106 | `rp = [policy]` when the policy is neither empty nor `default`. Otherwise `rp` is present iff the datasource URL had one, with its value. |
| `InfluxQL.CreateRequestGet` | pkg/tsdb/influxdb/influxql/influxql.go:82-86 | GET always succeeds on a parsed URL. It has `q = [query]` as a URL parameter, no body and no Content-Type. |
| `InfluxQL.CreateRequestPost` | pkg/tsdb/influxdb/influxql/influxql.go:87-112 | POST always succeeds on a parsed URL. The query is only in the form body `{q: [query]}`, with Content-Type `application/x-www-form-urlencoded`. The URL gets no `q` of its own. |
| `InfluxQL.Prepare` | pkg/tsdb/influxdb/influxql/influxql.go:37-57 | A parse error, then a build error, then a `createRequest` error is returned as it is. Otherwise the prepared query is the parsed one with the incoming RefID and the built text, keeping its retention policy. Its request is `CreateRequest` of that text and that policy. |
| `InfluxQL.Answer` | pkg/tsdb/influxdb/influxql/influxql.go:59-65 | An execution error becomes a response holding only that error. A successful execution's response is kept as it is. |
| `InfluxQL.CollectPrefixFailure` | pkg/tsdb/influxdb/influxql/influxql.go:36-57 | Once a prefix of the batch fails, the whole batch fails with that error, so later queries are never looked at. |
| `InfluxQL.CollectFailure` | pkg/tsdb/influxdb/influxql/influxql.go:36-57 | The batch fails iff some query fails to be prepared. |
| `InfluxQL.CollectFirstError` | pkg/tsdb/influxdb/influxql/influxql.go:36-57 | A failing batch returns the error of the first query that could not be prepared. Every earlier query was prepared. |
| `InfluxQL.CollectKeys` | pkg/tsdb/influxdb/influxql/influxql.go:47-65 | On success, the responses are keyed by exactly the incoming RefIDs. |
| `InfluxQL.CollectLastWins` | pkg/tsdb/influxdb/influxql/influxql.go:59-66 | On success, a RefID's response is the answer to the last query with that RefID. |
| `InfluxQL.ExecuteErrorRecorded` | pkg/tsdb/influxdb/influxql/influxql.go:59-65 | An execution error does not abort the batch. It is stored as `DataResponse{Error}` under the query's RefID. |
| `InfluxQL.Query` | pkg/tsdb/influxdb/influxql/influxql.go:30-69 | On a preparation error: an empty response and that error. Otherwise: the per-RefID responses of `Collect` and a nil error. |

## Left out

- The remote-primary forked Alertmanager: its source is not part of this model, only its tests are.
- Concurrency in `ApplyConfig`: the goroutine and the `sync.WaitGroup` are not modelled. The remote routine and the internal call are modelled one after the other. `ApplyConfig`'s contract fixes only each engine's own history. The race on `lastSync` between overlapping calls is not modelled.
- The clock: it is the parameter `now`, one reading per call.
  - The source reads the clock once for the interval check and again when it sets `lastSync`; the model uses `now` for both.
  - Go's monotonic clock readings are not modelled.
- Logging (`fam.log`, `logger.Debug/Info`, dev-mode query logging) is not modelled. It has no effect on results.
- `context.Context` propagation and cancellation are not modelled.
- The engines themselves are not modelled. Their answers are method parameters.
- Sending configuration and state to the remote engine on shutdown is not done by the source, which leaves it as a TODO. The model does not add it.
- `execute` is represented by `Backend.execute` and not modelled: it is the HTTP client, response-body parsing, tracing and the streaming-parser feature flag.
- `url.Parse`, `url.Values.Encode`, form encoding and `http.NewRequestWithContext` are abstract.
  - `NewRequestWithContext`'s own error is not modelled. It arises only for a URL that does not re-parse.
- Canonicalisation of `http.Header` keys is not modelled. The header is the `contentType` field.
- `models.Query`: only `Policy`, `RawQuery` and `RefID` are modelled. The other fields and the rest of `models.go` are plain declarations.
- RequestPath, CreateRequestTarget: two URL shapes that `url.Parse` accepts are not modelled. For a URL with a scheme and an empty host, such as `http://`, Go writes `http://query`, so the re-parsed request takes the joined path as its host. For an opaque URL, such as `localhost:8086` typed without a scheme, `URL.String` writes only the opaque part and the joined path is dropped. The `URL` datatype has no opaque part, and for both shapes the model keeps the host and the joined path as they were.
- JoinQuery: models `path.Join(dir, "query")` only for the part of `path.Clean` that drops trailing slashes. `.`, `..` and doubled slashes inside the path are not normalised.
