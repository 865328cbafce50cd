# Prophet SDK core, modelled in Dafny

This project models the logic at the heart of the Prophet Python SDK, a client for a network-flow search API. Six parts are modelled:

- **The PQL query builder** (`Q` and its field builder, module `Query`). A `Q` is a class with three fields: its rendered parts, a pending conjunction and a pending field. The operator methods, `and_`/`or_` and `add_group` update those fields in place. The contracts say exactly what each call appends and what it leaves pending. `QueryExamples` derives the builder's documented query strings from those contracts alone.
- **The paginated flow iterator** (`FlowIterator`, module `Flows`). It is a class with the iterator's cursor fields. `Next` is proved against `AllFlowsFrom`, a reference definition of "every flow of every page, in order", and `Collect` is proved to return it. Also modelled:
  - the search payload and how it varies with the page number;
  - the mapping of HTTP statuses to errors;
  - the instance slice of a response;
  - `next_page`, `first`, `take` and `total_found`.
- **The OAuth2 token cache** (`TokenManager`, module `Auth`):
  - it fetches exactly when a refresh is due;
  - the token and its expiry stay present together;
  - a failed fetch changes nothing;
  - each failure maps to a fixed error.
- **The time-filter and sort value objects** (module `Models`): their validation, and serialisations proved lossless.
- **Flow page parsing and the flow accessors** (module `FlowModels`): the defaults `FlowPage.from_response` fills in, and the fallback chains of the `Flow` convenience properties.
- **The deployments API** (`DeploymentsAPI`, module `Deployments`):
  - argument checks in their fixed order, with no request sent when one fails;
  - the exact payloads;
  - the status mapping of `_handle_errors`;
  - `get` as a first-match search.

Three things the SDK depends on are parameters here:
- **The network.** The authenticated request is a function `request: ApiRequest -> Result<Response>`, and the token endpoint's answer is a `TokenReply` argument.
- **The clock.** `now` is an integer argument.
- **pydantic.** `validate: Json -> Flow` and `parseList: Json -> seq<Deployment>` stand for its parsing.

`json.dfy` holds the JSON value type and Python's `dict.get` and truthiness. `http.dfy` holds the SDK's exceptions as one `Error` datatype (src/prophet/sdk/exceptions.py), plus `Result` and the request/response records. The methods that send requests keep a ghost log of the requests issued: `sent` in `TokenManager` and `DeploymentsAPI`, and `fetched` (the page numbers searched) in `FlowIterator`. That log is how "sends exactly one request" and "sends nothing" are stated.

## Model

| member | source | states |
|---|---|---|
| Models.TimeFilter.ToDict | src/prophet/sdk/models.py:26-98 | `Now` is `{"now": true}`; a relative filter is `{"relative": {"value": v, "unit": u}}` with v unchanged and u its unit's name; `At` is `{"absolute": {"date": s}}` with s unchanged; always one top-level key |
| Models.NewAgo | src/prophet/sdk/models.py:34-87 | building `MinutesAgo`/`HoursAgo`/`DaysAgo`/`WeeksAgo` fails with `ValueError` iff the value is not positive, and otherwise keeps value and unit |
| Models.TimeFilterRoundTrip | src/prophet/sdk/models.py:26-98 | reading a filter's dictionary back gives the same filter: serialisation loses nothing |
| Models.TimeFilterToDictInjective | src/prophet/sdk/models.py:26-98 | two filters with the same dictionary are equal |
| Models.Sort.ToDict | src/prophet/sdk/models.py:117-118 | exactly the keys `field` and `order`, holding the sort's own field and order |
| Models.NewSort | src/prophet/sdk/models.py:106-115 | building a `Sort` fails with `ValueError` iff the order is neither `"asc"` nor `"desc"`, and otherwise keeps field and order |
| Models.DefaultSortIsDescending | src/prophet/sdk/models.py:110-111 | a sort built with the default order succeeds and sorts descending |
| Models.SortRoundTrip | src/prophet/sdk/models.py:117-118 | `to_dict` gives back exactly the field and order the sort was built with |
| FlowModels.OrZero | src/prophet/sdk/flows/models.py:514 | Python's `x or 0` on an optional number is the number, or 0 when absent |
| FlowModels.Flow.Bytes | src/prophet/sdk/flows/models.py:509-515 | `metric.total_bytes` when present, else the stats byte total, else 0 |
| FlowModels.Flow.Packets | src/prophet/sdk/flows/models.py:518-522 | the stats packet total, else 0 |
| FlowModels.Flow.SrcIp | src/prophet/sdk/flows/models.py:525-527 | `""` without a source record, the record's ip otherwise |
| FlowModels.Flow.DstIp | src/prophet/sdk/flows/models.py:530-532 | `""` without a destination record, the record's ip otherwise |
| FlowModels.Flow.SrcPort | src/prophet/sdk/flows/models.py:535-537 | 0 unless a source record carries a port; a non-zero result is that port |
| FlowModels.Flow.DstPort | src/prophet/sdk/flows/models.py:540-542 | 0 unless a destination record carries a port; a non-zero result is that port |
| FlowModels.Flow.Protocol | src/prophet/sdk/flows/models.py:545-547 | `""` without a transport record, its protocol otherwise |
| FlowModels.Flow.InstanceId | src/prophet/sdk/flows/models.py:550-552 | `""` without a meta record, its customer id otherwise |
| FlowModels.EmptyFlowDefaults | src/prophet/sdk/flows/models.py:509-552 | every convenience property of a record with no fields set is its default (0 or `""`) |
| FlowModels.IntField | src/prophet/sdk/flows/models.py:587-591 | a missing key reads as its default; a present integer reads as itself |
| FlowModels.FromResponse | src/prophet/sdk/flows/models.py:581-595 | one validated flow per raw record, in order; each missing key takes its default (found 0, total 0, returned = number of flows, current page 0, pages 1, has_more false, took 0); the instance id is the argument |
| FlowModels.FromResponseRoundTrip | src/prophet/sdk/flows/models.py:581-595 | every page field is read from its own key (`pages` into page_count, `more_data_available` into has_more), so parsing a page's own response gives the page back |
| Query.OperatorTextRoundTrip | src/prophet/sdk/query.py:9-22 | the eleven operators have distinct wire texts |
| Query.IntDecimalRoundTrip | src/prophet/sdk/query.py:175-180 | `str(int)` loses nothing: the text reads back as the same integer, negative ones included |
| Query.JoinAppend | src/prophet/sdk/query.py:318-325 | appending a part to the parts adds exactly one space and the part to `build()` |
| Query.NatDecimalCanonical | src/prophet/sdk/query.py:175-180 | the digits `str` prints for a natural number are canonical (no leading zero), and start with '0' only for zero |
| Query.CanonicalDigitsUnique | src/prophet/sdk/query.py:175-180 | a canonical digit string is exactly what `str` prints for the number it denotes, so each number has one such text |
| Query.IntDecimalCanonical | src/prophet/sdk/query.py:175-180 | `str(int)` starts with '-' exactly for a negative number, followed by canonical digits |
| Query.FormatValue | src/prophet/sdk/query.py:175-180 | strings are rendered unquoted and unchanged; integers as text that reads back as the same number |
| Query.FormatValueCanonical | src/prophet/sdk/query.py:175-180 | an integer is rendered as `str` renders it: '-' exactly when negative, then canonical digits, the one digit text of its magnitude |
| Query.FormatValues | src/prophet/sdk/query.py:170 | the list elements rendered one by one, in order |
| Query.FormatCondition | src/prophet/sdk/query.py:163-173 | `"field ex"`/`"field nex"`, `"field in [v1, v2]"` joined by `", "`, and `"field op value"` for every other operator |
| Query.Q.constructor | src/prophet/sdk/query.py:107-116 | a fresh query has no parts, no pending conjunction, the given pending field, builds `""` and is empty |
| Query.Q.AddCondition | src/prophet/sdk/query.py:152-161 | the pending conjunction is emitted first only when one is pending and parts is non-empty (and is then cleared), then exactly one rendered condition is appended; `build()` grows by the conjunction and the condition |
| Query.Q.Apply | src/prophet/sdk/query.py:183-189 | with no pending field: `ValueError` and nothing changes; otherwise the condition on that field is added and the field cleared |
| Query.Q.Eq | src/prophet/sdk/query.py:183-189 | `Apply` for `eq` with one value |
| Query.Q.Ne | src/prophet/sdk/query.py:191-197 | `Apply` for `ne` with one value |
| Query.Q.Gt | src/prophet/sdk/query.py:199-205 | `Apply` for `gt` with one value |
| Query.Q.Lt | src/prophet/sdk/query.py:207-213 | `Apply` for `lt` with one value |
| Query.Q.Gte | src/prophet/sdk/query.py:215-221 | `Apply` for `gte` with one value |
| Query.Q.Lte | src/prophet/sdk/query.py:223-229 | `Apply` for `lte` with one value |
| Query.Q.Exists | src/prophet/sdk/query.py:231-237 | `Apply` for `ex` with no value |
| Query.Q.NotExists | src/prophet/sdk/query.py:239-245 | `Apply` for `nex` with no value |
| Query.Q.InList | src/prophet/sdk/query.py:247-253 | `Apply` for `in` with the list |
| Query.Q.Wildcard | src/prophet/sdk/query.py:255-261 | `Apply` for `wi` with the pattern |
| Query.Q.NotWildcard | src/prophet/sdk/query.py:263-269 | `Apply` for `nwi` with the pattern |
| Query.Q.And | src/prophet/sdk/query.py:272-285 | parts unchanged, `and` pending, the pending field replaced only by a non-empty field |
| Query.Q.Or | src/prophet/sdk/query.py:287-300 | parts unchanged, `or` pending, the pending field replaced only by a non-empty field |
| Query.Q.AddGroup | src/prophet/sdk/query.py:302-316 | the pending conjunction is flushed as in `_add_condition`, then the other query's `build()` is appended in parentheses as one part; the pending field is kept |
| Query.Q.GetFieldBuilder | src/prophet/sdk/query.py:148-150 | a new field builder for the name, bound to this query |
| Query.Group | src/prophet/sdk/query.py:118-131 | a new query whose only part is the argument's `build()` in parentheses, nothing pending |
| Query.Raw | src/prophet/sdk/query.py:133-146 | a new query whose only part is the raw text, so it builds to that text |
| Query.FieldBuilder.constructor | src/prophet/sdk/query.py:28-30 | remembers the field and the parent query |
| Query.FieldBuilder.Eq | src/prophet/sdk/query.py:32-35 | the parent gains the `eq` condition on the builder's field, as in `_add_condition`; its pending field is untouched |
| Query.FieldBuilder.Ne | src/prophet/sdk/query.py:37-40 | as `Eq`, for `ne` |
| Query.FieldBuilder.Gt | src/prophet/sdk/query.py:42-45 | as `Eq`, for `gt` |
| Query.FieldBuilder.Lt | src/prophet/sdk/query.py:47-50 | as `Eq`, for `lt` |
| Query.FieldBuilder.Gte | src/prophet/sdk/query.py:52-55 | as `Eq`, for `gte` |
| Query.FieldBuilder.Lte | src/prophet/sdk/query.py:57-60 | as `Eq`, for `lte` |
| Query.FieldBuilder.Exists | src/prophet/sdk/query.py:62-65 | as `Eq`, for `ex` with no value |
| Query.FieldBuilder.NotExists | src/prophet/sdk/query.py:67-70 | as `Eq`, for `nex` with no value |
| Query.FieldBuilder.InList | src/prophet/sdk/query.py:72-75 | as `Eq`, for `in` with the list |
| Query.FieldBuilder.Wildcard | src/prophet/sdk/query.py:77-80 | as `Eq`, for `wi` |
| Query.FieldBuilder.NotWildcard | src/prophet/sdk/query.py:82-85 | as `Eq`, for `nwi` |
| QueryExamples.AndExample | src/prophet/sdk/query.py:97 | `Q("dst.port").eq(443).and_("bytes").gt(1000)` leaves the parts `dst.port eq 443`, `and`, `bytes gt 1000` |
| QueryExamples.EitherPort | tests/test_query.py:80-87 | `Q("dst.port").eq(443).or_("dst.port").eq(80)` leaves three parts and nothing pending |
| QueryExamples.MixedAndOrExample | tests/test_query.py:80-87 | mixed `or`/`and` parts keep call order, with no regrouping |
| QueryExamples.InListExample | tests/test_query.py:47-49 | `Q("protocol").in_(["tcp", "udp"])` builds `protocol in [tcp, udp]` |
| QueryExamples.UnaryAndWildcardExample | tests/test_query.py:39-57 | `exists()` builds `app_name ex`; `not_wildcard("*test*")` builds `hostname nwi *test*` |
| QueryExamples.Inner | tests/test_query.py:67-69 | `Q("protocol").eq("tcp").or_("protocol").eq("udp")` leaves the three expected parts |
| QueryExamples.GroupExample | tests/test_query.py:98-101 | `Q.group(inner).and_("dst.port").eq(443)`: the group is one parenthesised part before `and` and the condition |
| QueryExamples.AddGroupExample | tests/test_query.py:103-106 | `add_group` after `and_()` appends the parenthesised group after the conjunction |
| QueryExamples.NoFieldExample | tests/test_query.py:128-142 | `Q().eq(443)` raises `ValueError` and the query stays empty |
| QueryExamples.LateConjunctionExample | src/prophet/sdk/query.py:312-315 | a conjunction given before the first part stays pending and is emitted before the next part |
| Flows.SortDicts | src/prophet/sdk/flows.py:154 | one `to_dict` per sort, in order |
| Flows.SearchPayloadFixedKeys | src/prophet/sdk/flows.py:137-142 | the payload always carries the instance ids, `module = "flows"`, the size and the page |
| Flows.SearchPayloadFilterKeys | src/prophet/sdk/flows.py:144-151 | `sentence` is sent iff the query is non-empty, `start`/`end` iff given, each with the argument's encoding |
| Flows.SearchPayloadShapeKeys | src/prophet/sdk/flows.py:153-157 | `sort` and `fields` are sent iff given and non-empty, with their encodings; no key beyond the nine named ones is ever sent |
| Flows.PayloadsDifferOnlyInPage | src/prophet/sdk/flows.py:137-157 | the payloads of two pages of one search differ only in `page` |
| Flows.SearchError | src/prophet/sdk/flows.py:162-184 | 200 raises nothing; 401 is `AuthenticationError` with the body's code; 400 is `APIError(400, "validation_error")`; any other status is `APIError` with that status; a body `.get` cannot be called on is malformed |
| Flows.ParsePage | src/prophet/sdk/flows.py:186-193 | no instances is `IndexError`; a non-object body is malformed; a missing instance slice parses as an empty one; the page's instance id is the first instance |
| Flows.FetchResult | src/prophet/sdk/flows.py:134-193 | a failed request is that failure; a page is obtained only from a 200 response to the POST of this page's payload |
| Flows.AllFlowsErrorFromSomePage | src/prophet/sdk/flows.py:110-132 | when iteration fails, the error is that of some page fetched at or after the start |
| Flows.AllFlowsUnfold | src/prophet/sdk/flows.py:121-126 | the flows from a fetched page are its own followed by those of the next page, exactly when it announces more |
| Flows.FlowIterator.constructor | src/prophet/sdk/flows.py:27-53 | no page buffered, page 0, nothing yielded, no limit, not exhausted; the flows still to come are all flows of the search |
| Flows.FlowIterator.FromQuery | src/prophet/sdk/flows.py:40 | a `Q` query is stored as its `build()` text |
| Flows.FlowIterator.Take | src/prophet/sdk/flows.py:55-66 | sets the limit, changes nothing else, and returns the iterator itself |
| Flows.FlowIterator.FetchPage | src/prophet/sdk/flows.py:134-193 | the payload built by conditional insertion is the search payload of the page, the result is that page's fetch, and exactly one request, for that page, is logged |
| Flows.FlowIterator.First | src/prophet/sdk/flows.py:68-75 | one fetch, of page 0, with no effect on the cursor |
| Flows.FlowIterator.NextPage | src/prophet/sdk/flows.py:89-105 | exhausted: no page and no fetch; otherwise exactly one fetch, of the page counter's page; on success advances the counter and sets exhausted iff the page has no more; on failure leaves counter and flag alone |
| Flows.FlowIterator.TotalFound | src/prophet/sdk/flows.py:195-205 | absent before the first page, then the buffered page's `found` |
| Flows.FlowIterator.Next | src/prophet/sdk/flows.py:110-132 | at the limit: stop, fetch nothing and change nothing; otherwise the yielded flow is the head of the flows still to come, stopping means none is left, and a failure is the error the remaining flows end in; after a stop or a failure the flows still to come are unchanged, so a later call stops again or retries the same fetch; a flow still buffered is returned without a fetch, and a used-up last page stops without one; the pages requested are page 0 on the first call, then the consecutive page numbers from the counter up to its new value, then the failing page if a fetch failed; the kept pages only grow, by those numbers less a failing one; a yield extends the yielded sequence by that flow, adds one to the count and makes progress |
| Flows.FlowIterator.NextAfterStop | src/prophet/sdk/flows.py:121-123 | `StopIteration` is final: once `__next__` stops, the following call stops too |
| Flows.FlowIterator.NextOnPage | src/prophet/sdk/flows.py:120-132 | with a page held: the yielded flow is the head of the flows still to come, a stop means none is left, a failure is the error they end in; requested are the consecutive page numbers from the counter up to its new value, plus the failing page on a failure |
| Flows.FlowIterator.NextPageThenNext | src/prophet/sdk/flows.py:89-105 | on a fresh iterator, `next_page()` returns page 0 (or its error) and the following `__next__` starts over at page 0: it yields the first flow of the whole search (or stops or fails as the whole search does), and page 0 is requested twice |
| Flows.FlowIterator.Start | src/prophet/sdk/flows.py:116-118 | the first `__next__` buffers page 0 and moves the counter to 1, keeping page 0 alone; if page 0 fails, nothing changes and its error is the error of the whole iteration |
| Flows.FlowIterator.SkipUsedPages | src/prophet/sdk/flows.py:121-126 | skips used-up pages while more are announced; stops with nothing left when none are, or with the error of the failing fetch, the flows still to come unchanged either way; with a flow buffered or the last page used up it fetches nothing; it requests exactly the consecutive page numbers from the counter's old value up to its new one, plus the failing page on a failure, and keeps each page it turns to |
| Flows.FlowIterator.PassUsedPage | src/prophet/sdk/flows.py:122-126 | one pass over a used-up page: stop, changing nothing, when it announced no more data; else request the page at the counter and either fail with its error, keeping the cursor, or turn to it, the flows still to come unchanged either way |
| Flows.FlowIterator.TurnPage | src/prophet/sdk/flows.py:124-126 | buffers the next page, advances the counter, resets the index and appends the old counter to the kept pages; the flows still to come are unchanged |
| Flows.FlowIterator.YieldCurrent | src/prophet/sdk/flows.py:128-132 | returns the flow at the index and advances index and count; that flow is removed from the front of the flows still to come |
| Flows.FlowIterator.ExhaustedPagePending | src/prophet/sdk/flows.py:121-123 | with the buffered page used up, what remains is the next page onward if it announces more, and nothing otherwise |
| Flows.FlowIterator.Collect | src/prophet/sdk/flows.py:77-87 | the result is a prefix of the flows still to come, ending where the limit is reached or nothing is left; an error is the error the remaining flows end in; without a limit, the result is every flow still to come; the yielded sequence grows by exactly the result and the count stays within the limit |
| Auth.TrimSlashes | src/prophet/sdk/auth.py:37 | `rstrip("/")`: a prefix of the input with no trailing slash, and only slashes removed |
| Auth.ExpiredImpliesRefreshDue | src/prophet/sdk/auth.py:74-84 | with a non-negative threshold, an expired token is always due for refresh |
| Auth.RefreshDueStaysDue | src/prophet/sdk/auth.py:74-84 | being due for refresh, and being expired, persist as time passes |
| Auth.RefreshAheadOfExpiry | src/prophet/sdk/auth.py:80-84 | a cached token is due but not yet expired exactly in the threshold window before its expiry |
| Auth.ParseGrant | src/prophet/sdk/auth.py:114-116 | a grant is read iff the body is an object with a string `access_token` and a numeric `expires_at`, and holds exactly those; otherwise the body is malformed |
| Auth.ReplyError | src/prophet/sdk/auth.py:94-112 | only 200 raises nothing; a transport failure has no code; 401 has the body's code, defaulting to `invalid_credentials`; any other status has `token_request_failed` |
| Auth.FetchOutcome | src/prophet/sdk/auth.py:86-116 | only a 200 reply yields a grant; every failure is an `AuthenticationError` unless the body cannot be read |
| Auth.GrantRoundTrip | src/prophet/sdk/auth.py:114-116 | a 200 reply carrying a grant yields exactly that grant |
| Auth.StoreAsWritten | src/prophet/sdk/auth.py:114-116 | as written, the expiry changes only on full success, while the token may change without it |
| Auth.StoreAsWrittenDecouples | src/prophet/sdk/auth.py:114-116 | a first fetch whose body lacks `expires_at` leaves a token with no expiry |
| Auth.TokenManager.constructor | src/prophet/sdk/auth.py:19-43 | the base URL without trailing slashes, the credentials and threshold kept, no token, no expiry, no request sent |
| Auth.TokenManager.IsExpired | src/prophet/sdk/auth.py:74-78 | true iff there is no expiry or it has been reached; changes nothing |
| Auth.TokenManager.FetchToken | src/prophet/sdk/auth.py:86-116 | sends one request; on success both fields take the grant, on failure neither changes and the mapped error is raised; token and expiry stay present together |
| Auth.TokenManager.GetToken | src/prophet/sdk/auth.py:45-58 | fetches iff a refresh is due (no token, no expiry, or within the threshold of expiry); otherwise returns the cached token and sends nothing; a returned token is the one cached |
| Auth.TokenManager.Refresh | src/prophet/sdk/auth.py:60-72 | always fetches, and returns the newly cached token or the fetch's error |
| Auth.TokenManager.Clear | src/prophet/sdk/auth.py:118-121 | both fields emptied, so the token counts as expired and a refresh is due at any time |
| Auth.TokenLifecycleExample | src/prophet/sdk/auth.py:45-84 | a cached token is reused until the threshold before expiry, then replaced; a refused refresh keeps it |
| Deployments.HandleErrors | src/prophet/sdk/deployments/api.py:211-246 | 200 and 201 raise nothing; 401 is `AuthenticationError` with the body's code; 400 is `ValidationError` with the body's error, defaulting to `Validation failed`; 403 and 404 are `APIError` with `authorization_error` and `not_found`; others are `APIError` with the status; a non-object body on 400/401/403/404 is malformed |
| Deployments.HandleErrorsVersusSearch | src/prophet/sdk/deployments/api.py:211-246 | the mapping agrees with the flow search's except on 201, 400, 403 and 404; on 201 only this one accepts, and on 400 it raises `ValidationError` where the search raises `APIError` |
| Deployments.Reply | src/prophet/sdk/deployments/api.py:134-139 | a body is returned iff the request succeeded with 200 or 201; otherwise the client's error or the mapped one |
| Deployments.ListPayload | src/prophet/sdk/deployments/api.py:74-76 | empty unless a non-empty parent is given, then exactly `{parent_id}` |
| Deployments.CreatePayload | src/prophet/sdk/deployments/api.py:118-132 | `ValidationError` for an empty name, then an empty handle, then an empty parent, in that order; otherwise a payload |
| Deployments.CreatePayloadKeys | src/prophet/sdk/deployments/api.py:125-132 | the payload is exactly `name`, `handle`, `parent_id` with the given values, plus `subdomain` exactly when a non-empty one is given |
| Deployments.DeletePayload | src/prophet/sdk/deployments/api.py:168-176 | `ValidationError` for an empty customer id, then an empty parent; otherwise exactly `customer_id` and `parent_id` |
| Deployments.FirstMatch | src/prophet/sdk/deployments/api.py:206-209 | none iff no deployment has the id; otherwise one with the id, with no earlier one having it |
| Deployments.DeploymentsAPI.constructor | src/prophet/sdk/deployments/api.py:46-47 | keeps the client's request oracle; no request sent |
| Deployments.DeploymentsAPI.List | src/prophet/sdk/deployments/api.py:49-83 | sends one GET with the list payload and returns the parsed deployments or the error |
| Deployments.DeploymentsAPI.Create | src/prophet/sdk/deployments/api.py:85-139 | a failed check raises its `ValidationError` and sends nothing; otherwise sends one POST with the create payload and returns its reply |
| Deployments.DeploymentsAPI.Delete | src/prophet/sdk/deployments/api.py:141-183 | a failed check raises its `ValidationError` and sends nothing; otherwise sends one DELETE with the delete payload and returns its reply |
| Deployments.DeploymentsAPI.Send | src/prophet/sdk/deployments/api.py:178-183 | the request, then `_handle_errors`, then the body |
| Deployments.DeploymentsAPI.Get | src/prophet/sdk/deployments/api.py:185-209 | lists once, then returns the first deployment with the id, none if there is no such deployment, or the listing's error |

## Findings

| source | as written | input that shows it | evidently intended | confidence | as-written member | corrected member |
|---|---|---|---|---|---|---|
| src/prophet/sdk/auth.py:114-116 | `_token` is assigned before `expires_at` is read and converted, so a failure there leaves the new token with the old expiry | a 200 reply with body `{"access_token": "t"}` to a manager with nothing cached: the `KeyError` leaves token `"t"` cached with no expiry | token and expiry assigned together or not at all, as they start (lines 42-43) and are cleared (lines 120-121) | medium; not executed | Auth.StoreAsWrittenDecouples | Auth.TokenManager.FetchToken |

## Left out

- Auth.TokenManager.FetchToken: follows the corrected behaviour of the finding above, so a reply that fails after the token was read changes nothing. The code as written is `Auth.StoreAsWritten`.
- Auth.ParseGrant: takes `expires_at` only from an integer and `access_token` only from a string. Python's `float()` also accepts floats, numeric strings and booleans, and any `access_token` value is stored; those bodies are treated as malformed here.
- Floating point: `took`, the float metrics of `Flow`, float query values and `float(expires_at)` are integers; `timeout` is not modelled.
- `At` built from a `datetime` (`isoformat`), `Flow.timestamp_dt`, `__str__` and `__repr__`: datetime and string-formatting library calls.
- Exception messages are not modelled, except the message of `ValidationError`, which tells the deployment checks apart.
- A response body that is not valid JSON (`response.json()` raising) is not modelled: bodies are decoded `Json` values.
- pydantic parsing (`Flow.model_validate`, the deployment response classes) is the oracle `validate`/`parseList`, and those oracles never fail. The source raises on malformed bodies: `Flow.model_validate` raises a validation error on a flow that is not an object (a page body `{"flows": [5]}`), and `DeploymentListResponse.from_response` raises on a 200 response whose body is a JSON array, because it calls `data.get` on it. These exceptions are not modelled: the model turns every such body into some value. Create and delete return the raw accepted body instead of the typed response.
- src/prophet/sdk/client.py (session, headers, the token fetch before each call, timeouts, transport errors) is folded into the `request` oracle.
- FlowModels.FromResponse: numeric page fields are read only from integer JSON values; Python would keep a value of another type as it is. A `flows` value that is not an array reads as no flows, whereas Python iterates it: `null` or a number raises `TypeError`, and a string or an object is iterated character by character or key by key, each element then failing `Flow.model_validate`. Those responses give an empty page here instead of an error.
- Flows.FlowIterator.constructor: requires a page number (`horizon`) from which every fetch fails or announces no more data. Python's `__next__` would loop forever on endless empty pages that announce more; that behaviour is not modelled. The requirement also excludes every unbounded result set of non-empty pages that keep announcing more, which Python reads without trouble under `take(n)` because it stops at the n-th flow; such result sets are not modelled either.
- src/prophet/sdk/flows/api.py imports `FlowIterator` from a `flows/iterator.py` that is not part of this model; the iterator modelled is the one in src/prophet/sdk/flows.py, with `FlowPage` from src/prophet/sdk/flows/models.py.
- The 400 mapping differs between the flow search (`APIError`) and the deployments API (`ValidationError`); both are modelled as written, and `Deployments.HandleErrorsVersusSearch` states the difference.
- `Q.__str__`/`__repr__` and the `_FieldBuilder` return values: they return the query itself, which the method form leaves implicit.
