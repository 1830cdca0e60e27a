# 3x-ui inbound handling: a Dafny model

This project models the self-contained decision logic of the 3x-ui panel (the
web panel that manages an Xray proxy). It covers:

- the generic slice combinators `xs.Map` and `xs.Filter`;
- the database env-file loader (`KEY=VALUE` lines loaded into the process
  environment) and the Postgres override of the default database configuration;
- the per-cycle decisions of the Xray traffic job: which accounting calls,
  warnings, restart request, external inform call and websocket broadcasts one
  run emits, and in what order;
- the inbound controller handlers that validate a request, build or normalise
  an inbound record, call the inbound service, and decide on a restart and a
  broadcast:
  - create, update, add a client and update a client;
  - list the user's inbounds and the client IP list;
  - the two traffic resets and inbound import;
- the two inbound-to-DTO projections, the controller's and the job's.

Services, gin binding, the session, `json.Valid`, `json.Unmarshal`,
`strconv.Atoi` and time formatting become function-typed parameters or given
outcomes. Every effect besides the HTTP response is recorded, in order, as an
`Event`: a service call, `SetToNeedRestart`, a websocket broadcast, an external
inform call or a logged warning. A Go nil pointer is `Option.None`.

Modules:

- `Wrappers`, `Text` (the `strings` and `fmt` helpers used) and `Model` (the
  `model.Inbound` and `xray.ClientTraffic` records) are support modules.
- `Slices` models `pkg/x/xs/slice.go`.
- `DatabaseEnv` models `database/env.go`.
- `TrafficJob` models `web/job/xray_traffic_job.go`.
- `Web` holds what the controllers share: responses, errors, message keys,
  events and the JSON-field checks.
- One module per controller file: `InboundCreate`, `InboundUpdate`,
  `InboundAddClient`, `InboundUpdateClient`, `InboundList`, `InboundDto` and
  `InboundController` (for `web/controller/inbound.go`).

## Model

| member | source | states |
|---|---|---|
| Slices.Map | pkg/x/xs/slice.go:3-9 | The result has the input's length and element i is `iteratee(collection[i], i)`, so an empty input gives an empty result. The loop builds exactly `Mapped`. |
| Slices.Filter | pkg/x/xs/slice.go:11-19 | The appending loop builds exactly `Filtered`. That is no longer than the input, and every element it holds satisfies the predicate. |
| Slices.FilteredIsSubsequence | pkg/x/xs/slice.go:13-17 | Each kept element is the input element at a strictly increasing index that satisfies the predicate. The result is an order-preserving subsequence. |
| Slices.FilteredKeepsExactly | pkg/x/xs/slice.go:13-17 | Every value occurs in the result exactly as often as in the input when it satisfies the predicate, and never otherwise. |
| Slices.FilteredFullLength | pkg/x/xs/slice.go:11-19 | The result is as long as the input if and only if every element satisfies the predicate. |
| Slices.FilteredAllKept | pkg/x/xs/slice.go:13-17 | When every element satisfies the predicate, the result is the input itself. |
| Slices.FilteredIdempotent | pkg/x/xs/slice.go:13-17 | Filtering the result again with the same predicate changes nothing. |
| Slices.FilteredNoMatch | pkg/x/xs/slice.go:11-19 | With no element satisfying the predicate, the result is empty. |
| Text.TrimSpace | database/env.go:27 | The result has no leading or trailing white space and is no longer than the input. |
| Text.TrimSpaceCutsSpaces | database/env.go:27 | The trimmed string is a contiguous slice of the input, and only white space is cut on either side. |
| Text.TrimSpaceIdempotent | database/env.go:27-35 | Trimming a trimmed string changes nothing. |
| Text.CutFirst | database/env.go:32-33 | There is no split exactly when the separator is absent. Otherwise the input is head + separator + tail, with no separator in the head. |
| Text.FormatIntRoundTrip | web/controller/inbound_create.go:82-86 | The decimal text of a port reads back as the same integer. |
| DatabaseEnv.ProcessEnv.Setenv | database/env.go:36 | `os.Setenv` succeeds exactly for an acceptable key and value and then sets the key. A rejected call changes nothing. |
| DatabaseEnv.ParseLine | database/env.go:27-35 | A line yields nothing exactly when it is blank after trimming, starts with `#`, or has no `=`. The key holds no `=`, and key and value are trimmed. |
| DatabaseEnv.ParseLineSplitsAtFirstEquals | database/env.go:27-35 | A line that yields a pair is split at the first `=` of the trimmed line. The key and value are the trimmed text before and after it. |
| DatabaseEnv.ParseLineOfAssignment | database/env.go:32-35 | `key=value` parses back to that key and value, even when the value holds `=`, because only the first `=` splits. |
| DatabaseEnv.LastAssignmentWins | database/env.go:26-38 | Over the parsed lines: for a repeated key, the last line that sets it decides the key's value. |
| DatabaseEnv.LastLineWins | database/env.go:26-38 | The same over the raw lines: the last line that sets a key decides its value after the whole file is processed. |
| DatabaseEnv.ParseLinesAt | database/env.go:26-35 | Each line is parsed on its own, whatever comes before it. |
| DatabaseEnv.ApplyLinesSnoc | database/env.go:26-37 | Processing one more line means applying that line to the environment built so far. |
| DatabaseEnv.UnassignedKeyKept | database/env.go:26-38 | Over the parsed lines: a key that no line sets keeps its prior value, or stays unset. |
| DatabaseEnv.ScanLine | database/env.go:27-37 | One scanned line changes the environment exactly as `ApplyLine` says. |
| DatabaseEnv.LoadEnvFile | database/env.go:14-41 | A missing file is no error and sets nothing. An unopenable file sets nothing and reports its error. Otherwise the environment becomes the lines applied in order and the scanner's error is returned. |
| DatabaseEnv.OverridePostgres | database/env.go:60-82 | Each non-empty variable replaces its Postgres field. `DB_PORT` does so only when it parses, and every other field keeps its default. |
| DatabaseEnv.ApplyEnvOverrides | database/env.go:52-83 | A non-empty `DB_TYPE` replaces the type. The Postgres settings are overridden only when the resulting type is PostgreSQL. The SQLite settings never change. |
| DatabaseEnv.GetDatabaseConfig | database/env.go:44-86 | The env file is loaded first and its failure is only a warning. The configuration is overridden from the updated environment, and the error is always nil. |
| InboundDto.ToInboundDTO | web/controller/inbound_dto.go:34-56 | Every model field lands in its DTO field, so the DTO gives back the inbound. The three JSON blocks become strings with identical text. |
| InboundDto.ToInboundDTOPtr | web/controller/inbound_dto.go:58-63 | nil gives the zero DTO, which is what the zero inbound projects to. A non-nil pointer gives the projection of the pointee. |
| InboundDto.ToInboundDTOInjective | web/controller/inbound_dto.go:34-56 | Distinct inbounds never share a DTO. |
| TrafficJob.ToInboundDTO | web/job/xray_traffic_job.go:39-62 | Every field is copied, `Protocol` as its string name, and the inbound is recoverable from the DTO and its owner. |
| TrafficJob.ToInboundDTOPtr | web/job/xray_traffic_job.go:64-69 | nil gives the zero DTO. Otherwise the result is the projection of the pointee. |
| TrafficJob.ToInboundDTOInjective | web/job/xray_traffic_job.go:39-62 | Two inbounds of the same owner with the same DTO are equal. |
| TrafficJob.Reconcile | web/job/xray_traffic_job.go:93-108 | The accounting steps emit exactly `AccountingEvents`: both AddTraffic calls with their warnings, the inform step, and at most one restart request. |
| TrafficJob.InboundDtos | web/job/xray_traffic_job.go:141-144 | One DTO per fetched inbound, in order, each the pointer projection. |
| TrafficJob.Publish | web/job/xray_traffic_job.go:110-151 | The publishing steps emit exactly `PublishingEvents`. The DTO list matches the inbound list element by element, and is empty when that list is nil. |
| TrafficJob.Run | web/job/xray_traffic_job.go:85-152 | A run emits accounting then publishing, or nothing when Xray is down or the traffic read fails. Its DTO list is as in `Publish`. |
| TrafficJob.SilentUnlessProceeds | web/job/xray_traffic_job.go:86-92 | When Xray is not running or the traffic fetch fails, nothing is accounted, requested or broadcast. |
| TrafficJob.BothAccounted | web/job/xray_traffic_job.go:93-100 | Both AddTraffic calls happen, inbound first, even when the inbound one failed. |
| TrafficJob.RestartIffNeeded | web/job/xray_traffic_job.go:106-108 | The restart is requested if and only if the run proceeds and either AddTraffic asked for it. |
| TrafficJob.RestartAtMostOnce | web/job/xray_traffic_job.go:106-108 | No run holds two restart requests. |
| TrafficJob.InformIffEnabled | web/job/xray_traffic_job.go:101-105 | The external API is informed if and only if the run proceeds and the setting reads true, and always with the batch just read. |
| TrafficJob.BroadcastsWhenProceeding | web/job/xray_traffic_job.go:112-151 | A proceeding run broadcasts the traffic, with an empty last-online map when that read failed. An inbound or outbound list is broadcast if and only if its read returned a non-nil list. |
| TrafficJob.WarnsExactly | web/job/xray_traffic_job.go:94-128 | A warning is logged if and only if a proceeding run meets the corresponding failure. |
| TrafficJob.ReconcilesBeforePublishing | web/job/xray_traffic_job.go:93-151 | No accounting call, inform call or restart request follows a broadcast. |
| Web.CheckJsonFields | web/controller/inbound_create.go:44-55 | A field is accepted when it is empty or valid JSON. The first rejected field, in the order settings, stream settings, sniffing, is the one reported, and none is reported if and only if all pass. |
| Web.CheckClientRequest | web/controller/inbound_add_client.go:25-32 | A non-positive id is reported first. Then settings that are empty or not valid JSON are reported. Nothing is reported if and only if both checks pass. |
| Web.EmptySettingsTreatedDifferently | web/controller/inbound_add_client.go:29-32 | Empty settings pass the inbound check but fail the client check. |
| Web.ClientCarrierUnique | web/controller/inbound_add_client.go:34-35 | The record handed to the client services is determined by the id and the settings. |
| InboundCreate.TagFor | web/controller/inbound_create.go:82-86 | The tag starts with `inbound-`. It holds a colon if and only if the listen address is specific. |
| InboundCreate.WildcardTagsAgree | web/controller/inbound_create.go:82-83 | All four wildcard listen addresses give `inbound-<port>`. |
| InboundCreate.TagIdentifiesEndpoint | web/controller/inbound_create.go:82-86 | Equal tags mean equal ports and the same wildcard status. They also mean equal listen addresses when the address is specific. |
| InboundCreate.CreatedFromUnique | web/controller/inbound_create.go:59-86 | The created record is determined by the request and the session user. |
| InboundCreate.NewInbound | web/controller/inbound_create.go:59-86 | The record carries the request fields and the session user. It has id 0, `AllTime` 0, no client stats, and the tag rule's tag. |
| InboundCreate.PublishUserInbounds | web/controller/inbound_create.go:99-102 | The user's inbounds are fetched and then broadcast as DTOs, one per inbound and in order. No restart is requested. |
| InboundCreate.CreateAccepted | web/controller/inbound_create.go:57-102 | The service gets the record built from the request. Its error is reported and nothing follows. On success the created DTO is returned, a restart is requested if and only if the service asked, and the broadcast comes last. |
| InboundCreate.AddInbound | web/controller/inbound_create.go:34-103 | A binding or JSON error is reported with no service call. A service error is reported with no restart or broadcast. On success the created DTO is returned, a restart is requested if and only if the service asked, and the user's inbounds are broadcast, mapped in order. |
| InboundUpdate.ChosenBinding | web/controller/inbound_update.go:36-45 | The JSON binder is used exactly when the Content-Type starts with `application/json`. Otherwise the form binder is used. |
| InboundUpdate.JsonContentTypeExtended | web/controller/inbound_update.go:36-37 | Any Content-Type that extends `application/json`, such as one with a charset, still selects the JSON binder. |
| InboundUpdate.UpdatedFromUnique | web/controller/inbound_update.go:58-75 | The updated record is determined by the request and the path id. |
| InboundUpdate.BindInboundUpdate | web/controller/inbound_update.go:33-78 | The result fails if and only if binding fails or a JSON field is rejected, and it carries that error. Otherwise the record holds the request and the path id, with owner, `AllTime`, tag and client stats zero. |
| InboundUpdate.UpdateInbound | web/controller/inbound_update.go:81-105 | A path id that does not parse is reported before binding. A binding or JSON error is reported with no service call. On success the updated DTO is returned, and a restart is requested if and only if the update succeeded and asked for one. |
| InboundAddClient.AddInboundClient | web/controller/inbound_add_client.go:18-47 | Binding, then id, then settings are checked, with no service call on failure. The service gets a record with only the id and the settings. A restart is requested if and only if the service succeeded and asked for one. |
| InboundUpdateClient.UpdateInboundClient | web/controller/inbound_update_client.go:18-49 | As for adding a client, with the path `clientId` passed to the service unchanged. |
| InboundList.GetInbounds | web/controller/inbound_list.go:10-25 | A service error is reported with no list. Otherwise the list holds one DTO per inbound, element i being the projection of inbound i. It is empty for no inbounds. |
| InboundList.ListedInboundsRecoverable | web/controller/inbound_list.go:19-22 | The listed DTOs give back the listed inbounds, in order. |
| InboundController.Render | web/controller/inbound.go:329-334 | An entry with a positive timestamp renders as `ip (time)`, otherwise as the bare IP. Either way the line starts with the IP. |
| InboundController.RenderedIpsInOrder | web/controller/inbound.go:324-335 | Each shown line renders an entry with a non-empty IP. The lines come in the entries' original order. |
| InboundController.RenderedIpsKeepsAll | web/controller/inbound.go:324-335 | When every entry has an IP, there is one line per entry, in place. |
| InboundController.FormatIps | web/controller/inbound.go:324-335 | The loop builds exactly the filtered and rendered list. |
| InboundController.GetClientIps | web/controller/inbound.go:307-348 | "No IP Record" is returned when the lookup fails or is empty. Otherwise the rendered list of a non-empty timestamped record is returned. Failing that, a non-empty plain string list as is, and failing that the raw record. |
| InboundController.ResetAllTraffics | web/controller/inbound.go:479-488 | A restart is requested if and only if the reset succeeded. The error or the success message is returned. |
| InboundController.ResetAllClientTraffics | web/controller/inbound.go:491-506 | A path id that does not parse is reported with no reset. Otherwise a restart is requested if and only if the reset of that inbound's clients succeeded. |
| InboundController.DelInbound | web/controller/inbound.go:192-212 | A path id that does not parse is reported under the delete-success key, with no deletion. A service error is reported and nothing follows. On success the id is returned, a restart is requested if and only if the service asked, and the user's inbounds are broadcast as raw records. |
| InboundController.DelInboundClient | web/controller/inbound.go:400-417 | A path id that does not parse is reported under the update-success key, with no deletion. A service error is reported with no restart. On success a restart is requested if and only if the service asked. |
| InboundController.ResetClientTraffic | web/controller/inbound.go:459-476 | A path id that does not parse is reported under the update-success key, with no reset. A service error is reported with no restart. On success a restart is requested if and only if the service asked, unlike the resets of all traffic. |
| InboundController.DelInboundClientByEmail | web/controller/inbound.go:591-609 | The same rule as `delInboundClient`, keyed by e-mail, with fixed English texts in place of message keys. |
| InboundController.NormaliseImport | web/controller/inbound.go:517-528 | The imported record gets id 0, the session user and the tag rule's tag. Every client stat gets id 0 and is enabled, and everything else is kept. |
| InboundController.ImportIdempotent | web/controller/inbound.go:517-528 | Normalising a normalised record again for the same user changes nothing. |
| InboundController.ImportedFromUnique | web/controller/inbound.go:517-528 | The normalised record is determined by the imported one and the user. |
| InboundController.ImportInbound | web/controller/inbound.go:509-536 | Data that does not unmarshal is reported with no add. Otherwise the normalised record is added, and the response carries the service's inbound and error. A restart is requested if and only if the add succeeded and asked for one. |

## Left out

- The traffic accounting itself is not modelled: adding deltas, scheduled resets, quota and expiry enforcement, purging depleted clients. It lives in the inbound and outbound services, which are not part of this model; their calls are recorded events with given outcomes.
- `informTrafficToExternalAPI` (web/job/xray_traffic_job.go:154-176) is an HTTP POST; only the fact that it is called, with the batch, is recorded.
- Logging text is left out. A log line is a `Warn` event of the failure it reports, without the message.
- database/init.go and database/database_test.go are connection, migration and ping I/O, and are not part of this model.
- `config.GetDefaultDatabaseConfig` and `config.DatabaseTypePostgreSQL` are not part of this model; they are parameters.
- web/controller/inbound_by_id.go is left out: it is an `Atoi` and one `toInboundDTO` call, which `InboundDto.ToInboundDTO` covers.
- The older copies in web/controller/inbound.go are not modelled. These are `getInbounds`, `addInbound`, `bindInboundUpdate`, `updateInbound`, `addInboundClient` and `updateInboundClient`, with the tag rule at lines 170-174. Their checks and restart rule match the split files, but their payloads do not. They reply with the raw records rather than DTOs (lines 66, 182 and 299), and `addInbound` broadcasts the raw `GetInbounds` result (line 188) rather than a DTO list. The import handler's tag rule (519-523) is `InboundCreate.TagFor`.
- These handlers of web/controller/inbound.go are left out: `getInbound`, `getClientTraffics`, `getClientTrafficsById`, `clearClientIps`, `delDepletedClients`, `onlines`, `lastOnline` and `updateClientTraffic`. Each parses or binds its argument, calls one service, and replies with the result or the error. None requests a restart or broadcasts. Their message keys are not modelled. Some report a parse, bind or service error under a success key: `clearClientIps` (line 356), `delDepletedClients` (542) and `updateClientTraffic` (577).
- Go strings are UTF-8 bytes, and `strings.TrimSpace` decodes runes to test `unicode.IsSpace`. The model treats a string as a sequence of characters, so byte-level encoding and invalid UTF-8 are not modelled. The same holds for the bytes that `os.Setenv` checks for NUL and `=`.
- `SetSettingsString`, `SetStreamSettingsString` and `SetSniffingString` are not part of this model. They are taken to store the string's content unchanged, and `Model.RawJson` holds that text.
- `json.Valid`, `json.Unmarshal`, `strconv.Atoi`, gin's binders and `time.Unix(...).Local().Format` are opaque parameters. JSON, number syntax and time zones are not modelled.
- A nil slice and an empty slice are both the empty sequence, so the JSON difference between `null` and `[]` is not modelled.
- Go's 64-bit integers are unbounded integers; no counter in the modelled code does arithmetic that could wrap.
- A service cannot alias or mutate the record passed to it: records are values, and the service's answer is a function of the record.
- Scheduling and concurrency of the traffic job are not modelled, as no scheduler or locking code is part of the core.
- InboundList.GetInbounds: requires that a successful service result has no nil entry. The handler dereferences each entry, and a nil one would panic, which the model does not describe.
- The websocket broadcast, the session lookup and I18n message lookup are recorded as events or given as inputs. The message keys stand for the translated text.
