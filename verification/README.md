# Uptime Kuma API client, modelled in Dafny

A model of the Go client package `internal/client` of the Uptime Kuma
Terraform provider, which has two halves.

**Authentication.** A token cache logs in with a form-encoded POST to
`/login/access-token`. It trusts the token for 59 minutes, and concurrent
callers share one refresh through a double-checked write lock. An
`http.RoundTripper` adds `Authorization: Bearer <token>` to every request.

**The request engine and its wrappers.** `New` validates a `Config` and
builds the engine. `doRequest` marshals the body, sets the JSON headers,
sends the request through the authenticated transport, checks the status and
decodes the reply. The wrappers cover monitors, tags and status pages. Each
wrapper is one fixed call of the engine.

The model is pure and functional:

- **The token cache** (`Auth`) is a `TokenState` value. Each token request
  takes its three clock readings as a `Clock` parameter and the network's
  answer as a `LoginOutcome`. Functions return the new state, the login
  request sent (if any) and the result.
- **The engine** (`Engine`) treats the network as an oracle. `Execute`
  takes the world's `Reply` and returns an `Exchange`: the new token state,
  the login sent, the request handed to the transport, and the result.
- **JSON encoding** (`Json`) models `json.Marshal` on a small value
  domain: structs with their tags and `omitempty`, slices, scalars, nil,
  and `*bytes.Reader`. The last one has no exported fields, so Go marshals it
  to `{}`.
- **The wrappers** (`Tags`, `Monitors`, `StatusPages`) each build a
  `Plan`: the error context and the `Call` given to the engine, or no call
  when the wrapper's own marshal of the payload fails. `Engine.Perform`
  runs a plan.
- **Paths:** `%d` path segments are modelled by `Decimal.FormatInt`. They
  are read back by `Decimal.IdBetween`, which is what a router splitting
  on the fixed parts of the path recovers.

## Model

| member | source | states |
|---|---|---|
| Decimal.FormatNat | internal/client/monitor.go:93 | the decimal text of a natural number is non-empty, all digits, and has no leading zero |
| Decimal.FormatInt | internal/client/monitor.go:93 | `%d` text starts with `-` exactly when the number is negative; it is all digits otherwise |
| Decimal.ParseFormatNat | internal/client/tag.go:29 | reading back the digits of n gives n |
| Decimal.ParseFormatInt | internal/client/tag.go:29 | reading back `%d` of any integer, negative included, gives that integer |
| Decimal.FormatIntInjective | internal/client/tag.go:52 | distinct ids render to distinct path segments |
| Decimal.IdBetweenFormat | internal/client/monitor.go:140 | a path built as prefix + `%d` + suffix routes back to the same id |
| Json.MarshalSucceedsIff | internal/client/client.go:86-90 | json.Marshal fails exactly when an unsupported value sits in a position that is written; a field dropped by omitempty cannot make it fail |
| Json.MarshalListSucceedsIff | internal/client/client.go:86-90 | a slice marshals exactly when every element does |
| Json.MarshalFieldsSucceedsIff | internal/client/client.go:86-90 | a struct marshals exactly when every field kept by omitempty does |
| Json.KeyPresence | internal/client/tag.go:11-15 | an encoded struct has key k exactly when some field tagged k survives omitempty (both directions) |
| Json.StructKeyPresence | internal/client/tag.go:11-15 | the same iff for a whole struct value and the object it encodes to |
| Json.TaggedStruct | internal/client/monitor.go:47-79 | a struct given by parallel key, omitempty and value lists has field i = (key i, value i, flag i) |
| Json.TaggedEncodable | internal/client/monitor.go:47-79 | a tagged struct marshals exactly when every value it writes is encodable |
| Json.TaggedEncodableExcept | internal/client/monitor.go:61-65 | when all values but two are known to marshal, the struct marshals exactly when those two do wherever they are written |
| Json.TaggedKeyPresence | internal/client/monitor.go:47-79 | the key at a position no other tag shares is written exactly when the field is not omitempty or its value is non-empty |
| Json.TaggedPlainKey | internal/client/monitor.go:47-79 | a field without omitempty always has its key written |
| Json.TaggedKeysOnly | internal/client/monitor.go:47-79 | no key outside the struct's tags appears in its encoding |
| Auth.NewAuthClient | internal/client/auth.go:32-45 | the credentials are copied; a nil client becomes one with a 30-second timeout and the default transport; a given client is kept |
| Auth.LoginRequestFor | internal/client/auth.go:73-84 | the login is a POST to base URL + `/login/access-token` with exactly the username and password form fields, a form Content-Type, a JSON Accept header and no Authorization header |
| Auth.Refresh | internal/client/auth.go:63-113 | double check: a token still strictly before its expiry is reused and nothing is sent. Otherwise the login is sent unless the request cannot be built. Only status 200 with a decoded non-empty token replaces the state, with expiry = stamp + 59 min. Every failure leaves the state unchanged, and a non-200 status is reported with its code |
| Auth.GetToken | internal/client/auth.go:48-60 | a cached token not after its expiry is returned with no login; otherwise the result is whatever refreshToken does; a returned token is non-empty and equals the stored one |
| Auth.WithBearer | internal/client/auth.go:122 | the request gains `Authorization: Bearer <token>`; the other headers, method, URL and body are unchanged |
| Auth.AddAuthHeader | internal/client/auth.go:116-124 | it fails exactly when GetToken fails; otherwise it returns the request carrying the token GetToken stored |
| Auth.AuthenticatedClient | internal/client/auth.go:127-135 | the authenticated client wraps the base client's transport and inherits its timeout |
| Auth.RoundTrip | internal/client/auth.go:144-162 | without a token nothing is dispatched and the token error is returned. Otherwise the clone with the bearer header goes to the base transport, or to the default transport when there is none |
| Auth.ExpiryInstantDisagreement | internal/client/auth.go:55-68 | at now == expiry GetToken's test still serves the cached token while refreshToken's double check logs in again |
| Auth.SequentialRefreshLogsIn | internal/client/auth.go:55-70 | without a competing writer and with a monotone clock, a caller sent to refresh does send the login |
| Auth.FreshTokenAbsorbsQueue | internal/client/auth.go:67-70 | callers queued on the write lock before the stored token expires neither log in nor change the state |
| Auth.OneLoginPerStaleness | internal/client/auth.go:63-113 | however many callers found the token stale, a successful first login means exactly one login request, and the state holds the new token |
| Auth.RejectedLoginsAreRetried | internal/client/auth.go:93-95 | a rejected login is not cached: every queued caller that finds no usable token (none yet, or one past its expiry) sends its own login, and the state stays as it was |
| Auth.ValidTokenNeedsNoLogin | internal/client/auth.go:48-60 | any number of reads before the expiry send no login and leave the state unchanged |
| Engine.New | internal/client/client.go:34-77 | it fails on an empty base URL, then an empty username, then an empty password, and succeeds exactly when all three are set. A zero timeout becomes 30 s. The custom client, or a plain client with the configured timeout, logs in, and the authenticated client wraps it |
| Engine.Get | internal/client/client.go:140-142 | GET with no body, sink forwarded |
| Engine.Post | internal/client/client.go:145-147 | POST forwards body and sink |
| Engine.Put | internal/client/client.go:150-152 | PUT forwards body and sink |
| Engine.Patch | internal/client/client.go:155-157 | PATCH forwards body and sink |
| Engine.Delete | internal/client/client.go:160-162 | DELETE never sends a body, sink forwarded |
| Engine.EncodeBody | internal/client/client.go:84-92 | no body gives no bytes; a present body fails exactly when it is not encodable, and otherwise the bytes sent are json.Marshal's document for it |
| Engine.EncodeBodyStreaming | internal/client/client.go:84-92 | corrected body step: a reader's content is sent as it is, and any other body is treated as before |
| Engine.RequestHeaders | internal/client/client.go:100-104 | Accept is always application/json; Content-Type is present (application/json) exactly when there is a body; no other header |
| Engine.BuildRequest | internal/client/client.go:82-104 | the URL is the base URL and path concatenated verbatim; the method, body and headers come from the call |
| Engine.Classify | internal/client/client.go:114-134 | success exactly on a 2xx status and, when a sink is given, a readable body that decodes. A non-2xx status gives its status error whatever else holds. A read failure counts only with a sink |
| Engine.StatusTakesPrecedence | internal/client/client.go:121-123 | a failing status yields the same error whatever the read, sink or decode outcome |
| Engine.ReadErrorNeedsSink | internal/client/client.go:115-119 | without a sink, a 2xx reply succeeds even when reading the body failed |
| Engine.Execute | internal/client/client.go:80-137 | an unencodable body stops everything before a request exists. A request is dispatched exactly when a token is obtained, with the verbatim URL, the JSON headers, the bearer token and json.Marshal's document as body. Once it is sent, the result is the status/read/decode classification of the reply, or the transport error when the exchange fails. The token cache ends as the token step leaves it and changes only through a login |
| Engine.FirstCallLogsInThenSends | internal/client/client.go:106-111 | with no cached token and a good login, the first call, with or without an encodable body, logs in and then sends the request with the new token |
| Engine.RejectedLoginSendsNothing | internal/client/client.go:108-111 | a rejected login stops any request with an encodable body before it reaches the resource endpoint, and leaves the cache unchanged |
| Engine.ContentTypeFollowsBinding | internal/client/client.go:140-162 | Get and Delete never send a Content-Type; Post, Put and Patch send one exactly when given a body |
| Engine.ReaderBodyIsLost | internal/client/client.go:86-91 | a reader passed as the body is sent as `{}`, whatever it holds; the streaming encoder sends its content |
| Engine.Perform | internal/client/monitor.go:101-112 | a wrapper whose own marshal fails sends nothing and reports an encode error. Otherwise it has the engine's effects, with the error wrapped in the operation's context |
| Tags.TagPath | internal/client/tag.go:29 | `/tags/%d` routes back to the id |
| Tags.TagKeys | internal/client/tag.go:11-15 | a tag always marshals; `name` and `color` are always written, `id` exactly when non-zero |
| Tags.GetTags | internal/client/tag.go:18-24 | GET /tags into a result |
| Tags.GetTag | internal/client/tag.go:27-34 | GET /tags/{id} whose path routes back to the id |
| Tags.CreateTag | internal/client/tag.go:37-48 | the plan has a call exactly when the tag marshals; the call POSTs a reader over the encoding to /tags |
| Tags.DeleteTag | internal/client/tag.go:51-57 | DELETE /tags/{id}, no sink |
| Tags.TagPathsDistinct | internal/client/tag.go:29 | distinct ids address distinct tag paths |
| Tags.CreateTagSendsEmptyObject | internal/client/tag.go:44 | as written, the created tag reaches the wire as `{}`, although its encoding has `name` |
| Tags.CreateTagStreamsTag | internal/client/tag.go:37-48 | with the streaming encoder, the tag's own encoding is sent: `name`, `color`, and `id` exactly when non-zero |
| MonitorTags.MonitorKeysDistinct | internal/client/monitor.go:47-79 | the 31 tags of Monitor name distinct keys |
| MonitorTags.PlainKeysTagged | internal/client/monitor.go:47-79 | each of type, name, description, the three intervals, maxretries, upsideDown, notificationIDList, expiryNotification and ignoreTls is tagged without omitempty |
| Monitors.MonitorFieldValues | internal/client/monitor.go:47-79 | one value per tag, in struct order |
| Monitors.MonitorEncodableIff | internal/client/monitor.go:101-105 | a monitor marshals exactly when both of its `[]interface{}` lists do |
| Monitors.FieldKeyPresence | internal/client/monitor.go:47-79 | field j's key is written exactly when the field is not omitempty or its value is non-empty |
| Monitors.MonitorAlwaysKeys | internal/client/monitor.go:49-63 | every plain key appears in the encoding whatever its value |
| Monitors.MonitorOptionalKeys | internal/client/monitor.go:47-79 | every omitempty key appears exactly when its value is non-empty |
| Monitors.MonitorKeysOnly | internal/client/monitor.go:47-79 | no key outside the struct's tags is written |
| Monitors.MonitorIdKey | internal/client/monitor.go:48 | `id` appears exactly when non-zero |
| Monitors.MonitorTypeKey | internal/client/monitor.go:49 | `type` is always written |
| Monitors.MonitorUrlKey | internal/client/monitor.go:52 | `url` appears exactly when non-empty |
| Monitors.MonitorMethodKey | internal/client/monitor.go:53 | `method` appears exactly when non-empty |
| Monitors.MonitorHostnameKey | internal/client/monitor.go:54 | `hostname` appears exactly when non-empty |
| Monitors.MonitorPortKey | internal/client/monitor.go:55 | `port` appears exactly when non-zero |
| Monitors.MonitorPath | internal/client/monitor.go:93 | `/monitors/%d` + suffix routes back to the id |
| Monitors.GetMonitors | internal/client/monitor.go:82-88 | GET /monitors into a result |
| Monitors.GetMonitor | internal/client/monitor.go:91-98 | GET /monitors/{id} routing back to the id |
| Monitors.CreateMonitor | internal/client/monitor.go:101-112 | it calls exactly when the monitor marshals; the call POSTs a reader over the encoding to /monitors, with a sink |
| Monitors.UpdateMonitor | internal/client/monitor.go:115-127 | it calls exactly when the monitor marshals; the call PATCHes a reader over the encoding to /monitors/{id}, with a sink |
| Monitors.DeleteMonitor | internal/client/monitor.go:130-136 | DELETE /monitors/{id}, no sink |
| Monitors.PauseMonitor | internal/client/monitor.go:139-145 | POST /monitors/{id}/pause, no body, no sink |
| Monitors.ResumeMonitor | internal/client/monitor.go:148-154 | POST /monitors/{id}/resume, no body, no sink |
| Monitors.GetMonitorBeats | internal/client/monitor.go:157-164 | GET /monitors/{id}/beats?hours=H with the id routing back, into a result |
| Monitors.AddMonitorTag | internal/client/monitor.go:167-186 | the tag link always marshals; POST to /monitors/{id}/tag of a reader over it, no sink |
| Monitors.MonitorTagKeys | internal/client/monitor.go:168-174 | the link carries `tag_id`, carries `value` exactly when non-empty, and carries nothing else |
| Monitors.DeleteMonitorTag | internal/client/monitor.go:189-206 | as written: a DELETE to /monitors/{id}/tag with no body and with the encoded link as its result sink |
| Monitors.DeleteMonitorTagWithBody | internal/client/monitor.go:189-206 | corrected: the DELETE carries `{tag_id}` as its body and has no sink |
| Monitors.MonitorPathsDistinct | internal/client/monitor.go:139-154 | different ids give different paths; a pause path is never a resume path |
| Monitors.CreateMonitorSendsEmptyObject | internal/client/monitor.go:108 | as written, creating and updating send `{}`, though the encoding always has `type` |
| Monitors.CreateMonitorStreamsMonitor | internal/client/monitor.go:101-112 | streaming sends the monitor's encoding: every plain key, and `id` exactly when non-zero |
| Monitors.AddMonitorTagSendsEmptyObject | internal/client/monitor.go:182 | as written, the tag link is sent as `{}`; streaming would send `tag_id` |
| Monitors.DeleteMonitorTagIgnoresTag | internal/client/monitor.go:202 | as written, the DELETE does not depend on the tag id, carries neither body nor Content-Type, and succeeds only if the reply decodes |
| Monitors.DeleteMonitorTagWithBodySendsTag | internal/client/monitor.go:189-206 | corrected: the DELETE sends exactly `{"tag_id": id}` with a Content-Type and succeeds on any 2xx |
| StatusPageTags.StatusPageKeysDistinct | internal/client/status_page.go:19-34 | the 14 tags of StatusPage name distinct keys |
| StatusPageTags.StatusPagePlainKeysTagged | internal/client/status_page.go:19-34 | slug, title, theme, published, showTags, domainNameList and showPoweredBy are tagged without omitempty |
| StatusPageTags.SaveRequestKeysDistinct | internal/client/status_page.go:54-67 | the 12 tags of SaveStatusPageRequest name distinct keys |
| StatusPages.IntList | internal/client/status_page.go:15 | an int slice marshals element by element |
| StatusPages.StringList | internal/client/status_page.go:27 | a string slice marshals element by element |
| StatusPages.GroupList | internal/client/status_page.go:33 | a group slice holds each group's struct value |
| StatusPages.StatusPageFieldValues | internal/client/status_page.go:19-34 | one value per tag, in struct order |
| StatusPages.SaveRequestFieldValues | internal/client/status_page.go:54-67 | one value per tag, in struct order |
| StatusPages.GroupListEncodable | internal/client/status_page.go:11-16 | any list of public groups marshals |
| StatusPages.StatusPageEncodable | internal/client/status_page.go:19-34 | a status page always marshals |
| StatusPages.StatusPageAlwaysKeys | internal/client/status_page.go:19-34 | every plain StatusPage key is written whatever its value |
| StatusPages.StatusPageOptionalKeys | internal/client/status_page.go:19-34 | every omitempty StatusPage key is written exactly when its value is non-empty |
| StatusPages.StatusPageIdAndGroupKeys | internal/client/status_page.go:20-33 | `id` appears exactly when non-zero; `publicGroupList` appears exactly when non-empty |
| StatusPages.SaveRequestEncodable | internal/client/status_page.go:113-117 | a save request always marshals |
| StatusPages.SaveRequestKeyPresence | internal/client/status_page.go:54-67 | each save key is written exactly when its value is non-empty, and no other key is written |
| StatusPages.SaveRequestFlags | internal/client/status_page.go:58-65 | `published`, `showTags` and `showPoweredBy` are written exactly when true, so a save can never switch them off |
| StatusPages.PublicGroupKeys | internal/client/status_page.go:11-16 | `name`, `weight` and `monitorList` are always written; `id` exactly when non-zero |
| StatusPages.AddRequestKeys | internal/client/status_page.go:42-46 | `slug` and `title` are always written; `msg` exactly when non-empty |
| StatusPages.IncidentRequestKeys | internal/client/status_page.go:138-142 | `title` and `content` are always written; `style` exactly when non-empty |
| StatusPages.StatusPagePath | internal/client/status_page.go:91 | the slug sits verbatim between `/status-pages/` and the suffix |
| StatusPages.GetStatusPages | internal/client/status_page.go:80-86 | GET /status-pages into a list |
| StatusPages.ListedPages | internal/client/status_page.go:80-86 | the caller receives the list's `statuspages` member, or the wrapped error and no pages |
| StatusPages.GetStatusPage | internal/client/status_page.go:89-96 | GET /status-pages/{slug} |
| StatusPages.CreateStatusPage | internal/client/status_page.go:99-110 | POST to /status-pages of a reader over the always-encodable request, with a sink |
| StatusPages.UpdateStatusPage | internal/client/status_page.go:113-125 | POST (not PUT or PATCH) to /status-pages/{slug} of a reader over the request, with a sink |
| StatusPages.DeleteStatusPage | internal/client/status_page.go:128-135 | DELETE /status-pages/{slug}, with a sink |
| StatusPages.PostIncident | internal/client/status_page.go:160-172 | POST to /status-pages/{slug}/incident of a reader over the incident, with a sink |
| StatusPages.UnpinIncident | internal/client/status_page.go:175-182 | DELETE /status-pages/{slug}/incident/unpin, with a sink |
| StatusPages.SlugRoutesBack | internal/client/status_page.go:89-135 | a slug without `/` is exactly the segment a router binds for get, update and delete; distinct slugs give distinct paths |
| StatusPages.SlugCollision | internal/client/status_page.go:130 | the slug is not escaped: deleting page "main/incident/unpin" issues exactly the request that unpins main's incident |
| StatusPages.UnpinNeverDeletesPage | internal/client/status_page.go:177 | with slugs free of `/`, an unpin never addresses a page's own path |
| StatusPages.GetStatusPagesReturnsInner | internal/client/status_page.go:80-86 | on success the pages returned are the decoded reply's `statuspages`; on failure only the error, in the GetStatusPages context |
| StatusPages.StatusPageBodiesAreLost | internal/client/status_page.go:106 | as written, the create, update and incident bodies are `{}`; streaming would send the required keys |

## Left out

- The read-write mutex and goroutines are not modelled. The read-locked snapshot
  and the write-locked refresh are each one atomic step. `Auth.RefreshInTurn`
  models callers served one after another on the write lock.
- `time.Now()` becomes three clock readings passed in as `Auth.Clock`. The
  model does not assume they are monotone, except where a lemma requires it.
- `context.Context` and request cancellation are not modelled.
- net/http internals are not modelled: `Do`, redirects, TLS, timeouts
  firing, and header canonicalisation.
- The network is an oracle, and the login reply is given already decoded
  (`LoginOutcome`). The body text and json.Unmarshal's verdict for a result
  sink are likewise inputs (`Reply`); decoding itself is left out.
- Form URL-encoding of the login body is not modelled: the form is a map of
  fields.
- Timeouts are carried as numbers and never fire.
- JSON byte layout is not modelled: number formatting, escaping, whitespace.
  Documents are trees. Member order follows field order, but no contract
  depends on it.
- A nil slice and an empty slice are not distinguished: Go writes `null` for
  one and `[]` for the other. Both are "empty" for omitempty, which is what
  the contracts use.
- Monitors.GetMonitorBeats takes the text `strconv.FormatFloat(hours, 'f',
  -1, 64)` produces as a string parameter. Float formatting is left out.
- `Config.InsecureHTTPS` is carried and has no effect, as in the code.
- New is not modelled mutating the caller's Config when it sets the
  default timeout. The model returns the defaulted copy in the client.
- The `fmt.Printf` warning on a body read error and the exact text of error
  messages are left out. Errors are constructors that keep the operation
  context and the status and body text.
- `MonitorType` and `AuthMethod` named constants are plain strings in the
  model; the client never inspects them.
- The response structs (`AddStatusPageResponse`, `SaveStatusPageResponse`,
  `DeleteStatusPageResponse`, `PostIncidentResponse`,
  `UnpinIncidentResponse`) are datatypes handed back as decoded values.
  Their decoding is not modelled.
- The Terraform provider package and the Go tests are not part of this
  model.
- Deleting a monitor's tag is modelled as the code makes the call. The Go
  function builds `{tag_id}` itself (internal/client/monitor.go:190-199),
  so it evidently means to send it. It then passes that document to
  `Delete` (monitor.go:202), and `Delete` takes only a result argument
  (client.go:160), so no body is sent. The mock server in
  monitor_test.go:240-247 decodes a JSON body on this DELETE. The intended
  request is Monitors.DeleteMonitorTagWithBody (see Findings).

## Findings

| source | as written | input that shows it | evidently intended | confidence | as-written member | corrected member |
|---|---|---|---|---|---|---|
| internal/client/client.go:86-91 | every wrapper with a payload marshals it, then passes `bytes.NewReader(data)` as the body; doRequest marshals that reader again, and a `*bytes.Reader` has no exported fields | CreateTag with Tag{Name: "a", Color: "#fff"}: the POST body is `{}` | the reader's bytes are sent as they are (or the struct is passed unencoded) | high, not executed | Engine.ReaderBodyIsLost | Engine.EncodeBodyStreaming |
| internal/client/tag.go:44 | CreateTag posts a reader, so the tag arrives as `{}` | any tag with a name | the tag's `name` and `color` reach the server | high, not executed | Tags.CreateTagSendsEmptyObject | Tags.CreateTagStreamsTag |
| internal/client/monitor.go:108 | CreateMonitor and UpdateMonitor post a reader, so the monitor arrives as `{}` | any monitor with a type and name | the monitor's keys reach the server | high, not executed | Monitors.CreateMonitorSendsEmptyObject | Monitors.CreateMonitorStreamsMonitor |
| internal/client/monitor.go:202 | DeleteMonitorTag hands the encoded `{tag_id}` reader to Delete as the result argument: no body is sent, and the reply is decoded into the reader | DeleteMonitorTag(1, 5) and DeleteMonitorTag(1, 6) issue the same body-less DELETE | the DELETE carries `{"tag_id": id}` and no reply is decoded | high, not executed | Monitors.DeleteMonitorTagIgnoresTag | Monitors.DeleteMonitorTagWithBodySendsTag |

`Engine.Execute` keeps the body step as written (`Engine.EncodeBody`), so
every request property above describes what the code sends. The corrected
step, `Engine.EncodeBodyStreaming`, is stated on its own, and the
`...Streams...` lemmas and `Monitors.DeleteMonitorTagWithBodySendsTag`
prove what the corrected wrappers send.
