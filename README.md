# BitrixCorp: the Bitrix24 client and the bulk webhook routes

A Dafny model of the part of BitrixCorp that talks to a Bitrix24 CRM account
through its REST webhook:

- `BitrixClient` (`bitrix_client.dfy`) models `app/bitrix_client.py`:
  - how the client settles on its base URL;
  - the retrying `_call` driver (five attempts, sleeps of `min(2 ** attempt, 10)`);
  - the request bodies of `create_company` / `create_contact`;
  - the `int(...)` / `bool(...)` coercion of what the add and delete calls return;
  - cursor pagination of `list_companies` / `list_contacts`;
  - the id projection of `list_*_ids`.

  The network is an oracle: the k-th POST ever issued receives `net(k)`. Every
  operation takes the index of its first POST and reports how many it used.
  `Call` and the add and delete operations also return, as ghost outputs, the
  requests they sent and the sleeps they took. The listings return, per page
  request, the POSTs it made, each carrying that request's cursor.
- `Webhook` (`webhook.dfy`) models `app/routers/webhook.py`:
  - the shared-secret gate;
  - the create loops of `push_to_bitrix` and of the `push_stream` event generator;
  - the delete loops of `clear_bitrix` and of the `clear_stream` event generator;
  - the progress values they stream and the replies they give.

  The handlers run over the outcomes of the client operations they call. The
  i-th `create_company` of a request yields `remote.createCompany(i)`, and so
  on. Faker output and `random.choice` are given functions of the call index.
  `random.shuffle` is a given function that keeps the multiset of its input.
  Every handler returns, as a ghost log, the client calls it made, in order.
- `JsonValues` (`json_values.dfy`) holds:
  - decoded JSON values;
  - Python truthiness;
  - `int(...)` and `str(...)` for integers, with the round trip between them.
- `Wrappers` (`wrappers.dfy`) holds `Option` and `Result`.

Each loop is a method whose postcondition ties its outputs to a specification
function: `CallSpec`, `Paginate`, `CompanyPhase` / `ContactPhase`,
`PushSpec`, `ClearStreamBody`, `ClearBitrixBody`. The lemmas state what the
source promises about those functions.

Three details of `_call` are modelled as the code behaves, not as its
constants and comments suggest:

- Every non-2xx status is retried. The transient-status tuple at
  `bitrix_client.py:34` suggests that only 429/500/502/503/504 are retried.
  But `raise_for_status` at `:36` raises the same `HTTPStatusError` for every
  other non-2xx status, and the handler at `:41-51` sleeps and retries both.
- The sleep at `:50-51` follows every attempt answered with a non-2xx status
  (the `HTTPStatusError` path), the fifth included, because the loop
  condition is only tested after it. An attempt that ends the call at once
  does not sleep: a transport error from the POST at `:32`, a body that does
  not decode at `:37`, or a body with an "error" key at `:38-39`, all of
  which leave the loop through the `break` at `:52-54`.
- The message computed at `:44-48` is never used. What `_call` raises at `:56`
  is always "HTTP error calling <method>: <last exception>".

## Model

| member | source | states |
|---|---|---|
| JsonValues.NatToString | BitrixCorp/app/routers/webhook.py:44-45 | the decimal text of a streamed value is non-empty, all digits, without a leading zero |
| JsonValues.FalsyValues | BitrixCorp/app/bitrix_client.py:113 | a value is falsy exactly when it is `None`, `False`, `0`, `""`, `[]` or `{}` |
| JsonValues.ParseInt | BitrixCorp/app/bitrix_client.py:74 | `int(s)` succeeds exactly for an optionally signed run of decimal digits; a leading '-' gives a value at most 0, otherwise at least 0 |
| JsonValues.ToInt | BitrixCorp/app/bitrix_client.py:66 | `int(x)` succeeds exactly for a bool, an integer or an integer literal, giving 1 or 0, the integer, or the value of the text |
| JsonValues.IntToStringRoundTrip | BitrixCorp/app/bitrix_client.py:66 | `int(str(i)) == i` for every integer, as text and as a JSON string |
| JsonValues.ParseIntCanonical | BitrixCorp/app/bitrix_client.py:74 | `str(int(s)) == s` for a digit string without a leading zero |
| BitrixClient.RStripSlashes | BitrixCorp/app/bitrix_client.py:11 | `rstrip("/")` yields a prefix of its input, without a trailing '/', and drops only slashes |
| BitrixClient.DropLastSegment | BitrixCorp/app/bitrix_client.py:18-19 | `rsplit("/", 1)[0]` is the input when it holds no '/', otherwise the prefix before its last '/' |
| BitrixClient.NewClient | BitrixCorp/app/bitrix_client.py:15-22 | a constructed client has a non-empty base URL; the only failure is the "not configured" ValueError |
| BitrixClient.DefaultClient | BitrixCorp/app/bitrix_client.py:11-22 | the hardcoded URL loses its trailing slash, and `BitrixClient()` (or an empty argument) never raises |
| BitrixClient.ConfigErrorIff | BitrixCorp/app/bitrix_client.py:15-22 | the ValueError is raised exactly for an argument that strips to nothing or to a "/x.json" form with no later '/' |
| BitrixClient.JsonSegmentCut | BitrixCorp/app/bitrix_client.py:17-19 | a trailing "/<name>.json" segment is cut off the base URL |
| BitrixClient.MethodFileStripped | BitrixCorp/app/bitrix_client.py:16-20 | a base with a method file appended constructs the same client as the base alone |
| BitrixClient.NormalisationNotIdempotent | BitrixCorp/app/bitrix_client.py:16-20 | only one ".json" segment is cut, so normalising twice differs from normalising once |
| BitrixClient.Backoff | BitrixCorp/app/bitrix_client.py:50 | every sleep, taken after an attempt answered with a non-2xx status, lasts between 2 and 10 |
| BitrixClient.Classify | BitrixCorp/app/bitrix_client.py:33-54 | an attempt is retried exactly when its response has a non-2xx status, whether or not it is transient, and keeps that status; it returns exactly a 2xx JSON body without "error", unchanged |
| BitrixClient.FirstStop | BitrixCorp/app/bitrix_client.py:28-54 | the loop stops at the first attempt that is not retried, every earlier one being retried, or after five |
| BitrixClient.CallSpec | BitrixCorp/app/bitrix_client.py:24-56 | a call makes one to five POSTs, and every failure names the method called |
| BitrixClient.CallReturnsBodyUnchanged | BitrixCorp/app/bitrix_client.py:33-40 | a 2xx JSON body without "error" is returned unchanged from the last POST, every earlier POST having had a non-2xx status |
| BitrixClient.CallExhaustsRetries | BitrixCorp/app/bitrix_client.py:28-56 | five non-2xx responses: five POSTs, sleeps 2, 4, 8, 10, 10, and the fifth status is raised |
| BitrixClient.CallAbortsWithoutRetry | BitrixCorp/app/bitrix_client.py:37-39 | a transport error, a non-JSON body or an "error" body ends the call at once, without a sleep |
| BitrixClient.CallSleepsBetweenRetries | BitrixCorp/app/bitrix_client.py:41-51 | one sleep per retried attempt, with delays `min(2 ** k, 10)` in order, each between 2 and 10 |
| BitrixClient.Call | BitrixCorp/app/bitrix_client.py:24-56 | the retry loop yields the result, POST count and sleeps of CallSpec, and POSTs the same URL and body every time |
| BitrixClient.ContactFields | BitrixCorp/app/bitrix_client.py:77-85 | NAME, LAST_NAME and one WORK phone always; SECOND_NAME iff the middle name is truthy; COMPANY_ID iff a company id is given; nothing else |
| BitrixClient.ContactGenderIgnored | BitrixCorp/app/bitrix_client.py:76-89 | the gender argument does not reach the request body |
| BitrixClient.CompanyPayloadInjective | BitrixCorp/app/bitrix_client.py:59-64 | the add-company body determines the title |
| BitrixClient.ContactPayloadDetermines | BitrixCorp/app/bitrix_client.py:77-89 | the add-contact body determines names, phone and company id, and the middle name exactly when it is truthy |
| BitrixClient.DeletePayloadInjective | BitrixCorp/app/bitrix_client.py:69 | the delete body determines the id |
| BitrixClient.ListPayloadInjective | BitrixCorp/app/bitrix_client.py:102-107 | the list body determines the selected fields and the cursor |
| BitrixClient.AddedId | BitrixCorp/app/bitrix_client.py:66 | an add succeeds iff "result" is present and converts with `int(...)`, and returns that value |
| BitrixClient.Deleted | BitrixCorp/app/bitrix_client.py:70 | a delete reports true iff "result" is present and truthy |
| BitrixClient.CreateCompany | BitrixCorp/app/bitrix_client.py:58-66 | the id of a call with the company body, or the error of the call or of the coercion; every POST carries that body, and the sleeps are those of the call |
| BitrixClient.CreateContact | BitrixCorp/app/bitrix_client.py:76-91 | the id of a call with the contact body, or the error of the call or of the coercion; every POST carries that body, and the sleeps are those of the call |
| BitrixClient.DeleteCompany | BitrixCorp/app/bitrix_client.py:68-70 | the truthiness of the result; raises iff the call raises; every POST carries the id body, and the sleeps are those of the call |
| BitrixClient.DeleteContact | BitrixCorp/app/bitrix_client.py:93-95 | the truthiness of the result; raises iff the call raises; every POST carries the id body, and the sleeps are those of the call |
| BitrixClient.PageItems | BitrixCorp/app/bitrix_client.py:111-112 | a missing "result" adds no item, a list adds its items, a string its characters; anything else is the TypeError of `extend` |
| BitrixClient.PyPrefix | BitrixCorp/app/bitrix_client.py:116 | `results[:limit]` is a prefix of length `min(limit, len)`, or `max(len + limit, 0)` for a negative limit |
| BitrixClient.PageRequestsAt | BitrixCorp/app/bitrix_client.py:110-115 | in a listing's log, every POST of the k-th page request carries the list body with the k-th cursor |
| BitrixClient.Paginate | BitrixCorp/app/bitrix_client.py:101-116 | one cursor per page request, at most one more cursor than pages read, never more requests than the bound |
| BitrixClient.PaginateFromCombines | BitrixCorp/app/bitrix_client.py:108-115 | the loop carrying its pages so far agrees with the recursive listing |
| BitrixClient.PaginateCursors | BitrixCorp/app/bitrix_client.py:106-115 | the first request carries start 0 and every later one the truthy `next` of the page before |
| BitrixClient.PaginateContinues | BitrixCorp/app/bitrix_client.py:112-115 | a page is followed by another only while fewer than `limit` items have been read |
| BitrixClient.PaginateResult | BitrixCorp/app/bitrix_client.py:112-116 | a successful listing stopped at `limit` items or a falsy `next`, and returns the first `limit` items read |
| BitrixClient.ListingTruncated | BitrixCorp/app/bitrix_client.py:116 | a listing holds at most `limit` items, exactly `limit` when that many were read, in page order |
| BitrixClient.PaginationExample | BitrixCorp/app/bitrix_client.py:101-116 | two items per page and limit 5: three requests with cursors 0, 2, 4, returning items 0..4 |
| BitrixClient.FetchPage | BitrixCorp/app/bitrix_client.py:110-111 | one page request yields the page the listing specification reads at that POST; each of its POSTs carries the list body with the cursor, and the listing log grows by that request |
| BitrixClient.ListPages | BitrixCorp/app/bitrix_client.py:108-116 | the pagination loop yields the result, POST count and cursors of Paginate; its log holds, per page request, POSTs that each carry that request's cursor |
| BitrixClient.ListCompanies | BitrixCorp/app/bitrix_client.py:101-116 | `list_companies` returns the result of Paginate over the company listing, each page request POSTing its cursor |
| BitrixClient.ListContacts | BitrixCorp/app/bitrix_client.py:118-133 | `list_contacts` returns the result of Paginate over the contact listing, each page request POSTing its cursor |
| BitrixClient.ProjectIds | BitrixCorp/app/bitrix_client.py:74 | the ids, in item order, iff every item has a convertible "ID"; otherwise the coercion error |
| BitrixClient.ListCompanyIds | BitrixCorp/app/bitrix_client.py:72-74 | the listing's error, or the ids projected from its items; each page request POSTs its cursor |
| BitrixClient.ListContactIds | BitrixCorp/app/bitrix_client.py:97-99 | the listing's error, or the ids projected from its items; each page request POSTs its cursor |
| Webhook.SecretAccepted | BitrixCorp/app/routers/webhook.py:18-20 | a request passes iff no secret (or an empty one) is configured, or it supplies the configured one |
| Webhook.GateNeedsSecret | BitrixCorp/app/routers/webhook.py:143-146 | with a secret configured, a missing or empty secret is refused |
| Webhook.Guarded | BitrixCorp/app/routers/webhook.py:85-87 | a refused request gets 403 "Forbidden: invalid secret" and makes no client call; otherwise the handler runs |
| Webhook.Progress | BitrixCorp/app/routers/webhook.py:44 | a streamed value never exceeds 100 |
| Webhook.ProgressMonotone | BitrixCorp/app/routers/webhook.py:44 | more work done never lowers the streamed value |
| Webhook.ProgressEventAt | BitrixCorp/app/routers/webhook.py:73-75 | the k-th progress event carries the value after k + 1 units |
| Webhook.ProgressNonDecreasing | BitrixCorp/app/routers/webhook.py:117-130 | progress events then a final event: values at most 100 and never decreasing |
| Webhook.ProgressIsPercentageIff | BitrixCorp/app/routers/webhook.py:31-45 | `min(done // 2, 100)` is the percentage of `2 * count` after every unit exactly when `count` is 100 |
| Webhook.Render | BitrixCorp/app/routers/webhook.py:41-45 | every event goes out as "data: ..." ending in a blank line |
| Webhook.RenderedPercentParses | BitrixCorp/app/routers/webhook.py:45 | an event's payload reads as a number iff it is a progress event, and then as its value |
| Webhook.Leading | BitrixCorp/app/routers/webhook.py:35-42 | the calls before the first failing one all succeeded, and the one at that index failed |
| Webhook.LeadingStops | BitrixCorp/app/routers/webhook.py:40-42 | a failing call ends every longer run of calls at the same index |
| Webhook.Values | BitrixCorp/app/routers/webhook.py:38-39 | the ids collected are the values of the calls, one per call, in order |
| Webhook.Succeeded | BitrixCorp/app/routers/webhook.py:221-222 | no more deletes are counted than were attempted |
| Webhook.SucceededAll | BitrixCorp/app/routers/webhook.py:219-225 | every delete is counted iff every delete returned true |
| Webhook.ContactAt | BitrixCorp/app/routers/webhook.py:52-69 | a contact is created for the company id it is given |
| Webhook.CompanyCalls | BitrixCorp/app/routers/webhook.py:35-38 | one `create_company` per iteration, each with the fake title of its index |
| Webhook.ContactCalls | BitrixCorp/app/routers/webhook.py:50-69 | one `create_contact` per company id, in the order given |
| Webhook.CompanyPhase | BitrixCorp/app/routers/webhook.py:35-46 | at most `count` companies; one call per created company plus the failing one; a loop without failure created all of them |
| Webhook.ContactPhase | BitrixCorp/app/routers/webhook.py:50-76 | at most one contact per id; one call per created contact plus the failing one; a loop without failure created all of them |
| Webhook.PushSpec | BitrixCorp/app/routers/webhook.py:161-190 | at most `count` companies; contacts only once all companies exist; one call per created entity plus the failing one |
| Webhook.PushCompaniesFirst | BitrixCorp/app/routers/webhook.py:161-166 | each of the first `count` calls is a `create_company`, the i-th with the fake title of index i |
| Webhook.PushErrorReply | BitrixCorp/app/routers/webhook.py:191-194 | 502 with "Bitrix error: " and the text exactly for a RuntimeError, otherwise 500 with the text |
| Webhook.CountCheckedFirst | BitrixCorp/app/routers/webhook.py:13-20 | a count outside 1..500 gets 422 and no client call whatever the secret; a valid count with a refused secret gets 403 |
| Webhook.RaisedOf | BitrixCorp/app/bitrix_client.py:56 | a client error reaches the routes as a RuntimeError exactly when `_call` raised it; a coercion error keeps its text |
| Webhook.ClientErrorReplies | BitrixCorp/app/routers/webhook.py:191-194 | both routes answer 502 exactly for the RuntimeError of `_call`, with a detail naming the method called; a coercion error is 500 in `push_to_bitrix` and escapes `clear_bitrix` |
| Webhook.ExhaustedCreateCompanyIs502 | BitrixCorp/app/routers/webhook.py:161-192 | five non-2xx answers to a `create_company` make `push_to_bitrix` answer 502 naming the add method |
| Webhook.StreamShape | BitrixCorp/app/routers/webhook.py:41-78 | a stream is its progress events, non-decreasing, followed by exactly one "done" or error event |
| Webhook.PushCompletesIff | BitrixCorp/app/routers/webhook.py:161-190 | a push completes iff all `count` company calls and all `count` contact calls succeed |
| Webhook.PushSucceeds | BitrixCorp/app/routers/webhook.py:196-200 | a completed push created `count` companies and `count` contacts, streams `2 * count` values then "done", and reports both counts |
| Webhook.PushFails | BitrixCorp/app/routers/webhook.py:191-194 | a failed push created fewer than `2 * count` entities; the first failing call gives the error event and the 502/500 reply |
| Webhook.PushContactPerCompany | BitrixCorp/app/routers/webhook.py:168-189 | the contacts' company ids are exactly the created company ids, each once |
| Webhook.PushStream | BitrixCorp/app/routers/webhook.py:13-80 | `push_stream` gives 422 for a bad count, 403 for a bad secret, otherwise the stream and calls of PushSpec |
| Webhook.PushEventGen | BitrixCorp/app/routers/webhook.py:22-78 | the event generator streams PushEvents of PushSpec and makes its calls |
| Webhook.PushEventsAfterContacts | BitrixCorp/app/routers/webhook.py:73-78 | after all companies, the stream counts `count` plus the contacts created, then ends |
| Webhook.StreamCompanies | BitrixCorp/app/routers/webhook.py:35-46 | the company loop's events, calls, failure and created ids are those of CompanyPhase |
| Webhook.StreamContacts | BitrixCorp/app/routers/webhook.py:49-76 | the contact loop continues the progress count and matches ContactPhase |
| Webhook.PushToBitrix | BitrixCorp/app/routers/webhook.py:138-200 | `push_to_bitrix` gives 422, 403, or the reply and calls of PushSpec |
| Webhook.PushEntities | BitrixCorp/app/routers/webhook.py:158-200 | the counts of created entities, or the 502/500 reply for the first exception |
| Webhook.CreateCompanies | BitrixCorp/app/routers/webhook.py:161-166 | the company loop's calls, failure and created ids are those of CompanyPhase |
| Webhook.CreateContacts | BitrixCorp/app/routers/webhook.py:169-190 | the contact loop's calls and failure are those of ContactPhase, and every contact id is collected |
| Webhook.ContactDeletes | BitrixCorp/app/routers/webhook.py:112-116 | one `delete_contact` per listed id, in order |
| Webhook.CompanyDeletes | BitrixCorp/app/routers/webhook.py:123-127 | one `delete_company` per listed id, in order |
| Webhook.ClearStreamBody | BitrixCorp/app/routers/webhook.py:96-133 | the stream ends in "done" iff both listings succeed, otherwise it is the single error event of the first failing listing; the number of calls is 1, 2, or 2 plus the ids listed |
| Webhook.ClearErrorReply | BitrixCorp/app/routers/webhook.py:236-237 | 502 with "Bitrix error: " and the text exactly for a RuntimeError; any other exception escapes as a server error |
| Webhook.ClearBitrixBody | BitrixCorp/app/routers/webhook.py:214-239 | counts are reported iff both listings succeed; a failing contact listing gets its error reply and makes no other call; a failing company listing gets its error reply, with one call per listed contact id besides the two listings |
| Webhook.ClearStreamCallOrder | BitrixCorp/app/routers/webhook.py:96-131 | `clear_stream` lists contacts, then companies, then deletes each listed contact id and then each listed company id, in listed order; a failing listing deletes nothing |
| Webhook.ClearBitrixCallOrder | BitrixCorp/app/routers/webhook.py:214-235 | `clear_bitrix` lists contacts, deletes each listed contact id in order, then lists companies and, if that succeeds, deletes each listed company id in order |
| Webhook.ClearIgnoresDeleteOutcomes | BitrixCorp/app/routers/webhook.py:219-235 | what a delete returns or raises changes neither the calls made nor the stream |
| Webhook.ClearDeletesContactsFirst | BitrixCorp/app/routers/webhook.py:214-235 | whatever the secret, no contact is deleted after a company in either clear route |
| Webhook.ClearStreamEvents | BitrixCorp/app/routers/webhook.py:104-133 | nothing listed: "100", "done" and no delete; otherwise one non-decreasing value per id, then "done" |
| Webhook.ClearedCounts | BitrixCorp/app/routers/webhook.py:214-239 | each count is at most the ids listed, and equals it iff every delete returned true |
| Webhook.ClearStream | BitrixCorp/app/routers/webhook.py:83-135 | `clear_stream` gives 403 for a bad secret, otherwise the stream and calls of ClearStreamBody |
| Webhook.ClearEventGen | BitrixCorp/app/routers/webhook.py:89-133 | the event generator's stream and calls are those of ClearStreamBody |
| Webhook.ClearBitrix | BitrixCorp/app/routers/webhook.py:203-239 | `clear_bitrix` gives 403 for a bad secret, otherwise the reply and calls of ClearBitrixBody |
| Webhook.ClearEntities | BitrixCorp/app/routers/webhook.py:214-239 | the delete loops' counters and calls are those of ClearBitrixBody; a listing error gives 502 or 500 |

## Left out

- HTTP transport (httpx, its 30-second timeout, connection handling) is the network oracle `net`. A transport exception is one response kind.
- `asyncio.sleep` does not wait: each sleep is recorded as its delay in a ghost log (`_call`) or left out (the 0.15/0.2/0.1 pauses in the routes).
- JSON floating-point numbers are not modelled. Neither are bodies that decode to something other than an object.
- JsonValues.ParseInt: `int(...)` on text is modelled without surrounding whitespace, digit-group underscores or non-ASCII digits, which Python also accepts.
- BitrixClient.PageItems: `results.extend` over a dict "result" is modelled as a TypeError. Python would extend by its keys, in an order the model's maps do not keep.
- The `error_description` message `_call` computes in its retry branch is never used, so it is not modelled.
- Environment and `.env` loading are not modelled: the configured secret is a parameter.
- Faker output, `random.choice` and `random.shuffle` are given functions (see Webhook).
- The routes run over the outcomes of the client calls (`Remote`), not over the network, and nothing ties a `Remote` to a network oracle. RaisedOf maps a client error to the exception a route sees; ClientErrorReplies and ExhaustedCreateCompanyIs502 state the replies that follow. No theorem composes a whole route with the client.
- The text of an exception (`str(e)`) is taken as given in `Raised`.
- Asynchrony, StreamingResponse framing and a consumer that stops reading are not modelled. A stream is the sequence of events its generator yields.
- The except branches around `BitrixClient()` in the routes (400/500 replies and the stream error) are not modelled. DefaultClient proves the constructor without an argument never raises.
- Default argument values are not modelled: every operation takes its `limit` explicitly, and `count` is always given.
- BitrixClient.ListPages: the listing loop is `while True` and does not end against a server that always returns a truthy `next` with too few items. The model bounds it by `maxPages` page requests and returns `Unfinished` when the bound is reached.
- BitrixClient.ListCompanies: same page bound as ListPages.
- BitrixClient.ListContacts: same page bound as ListPages.
- BitrixClient.ListCompanyIds: same page bound as ListPages.
- BitrixClient.ListContactIds: same page bound as ListPages.
- Webhook: the company ids `clear_bitrix` lists after deleting the contacts are an independent outcome in `Remote`. The model does not relate them to the deletes just made.
- `main.py`, the ORM models, the database layer and the HTML templates are not part of this model.
