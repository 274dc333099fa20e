# Entra ID log forwarder — a verified model

This project models the core of an Azure Function,
`scripts/EntraIDLogsProcessor/__init__.py`. The function takes a batch of
Event Hub messages carrying Microsoft Entra ID diagnostic logs and forwards
them to a Log Analytics workspace through the HTTP Data Collector API. It
does this in four steps:

1. It decodes every message and pulls its records out of the
   diagnostic-settings envelope `{"records": [...]}`, or takes a bare list
   or a bare object as the records.
2. It makes one pass over all the records. The pass stamps each record with
   `SourceTenantName` and fills in `TimeGenerated` (from `time`, or else from
   the clock). It groups the records by `category` into an insertion-ordered
   dictionary.
3. It routes each category to a custom table: one of 16 known tables, or
   the tenant's `Other` table. The trailing `_CL` is removed before the name
   is sent as `Log-Type`.
4. It sends one signed POST per category. A request is signed with the
   shared-key HMAC-SHA256 scheme. A category counts as delivered exactly
   when the status is 2xx.

The modules follow that structure:

- `JsonValue` (json.dfy) holds decoded JSON values. Objects keep Python dictionary order and `get`/assignment semantics.
- `Text` (text.dfy) holds `str(n)`, substring tests, and splitting and joining at a separator.
- `Foreign` (foreign.dfy) holds the library calls, passed in as function values: UTF-8, `json.loads`/`json.dumps`, base64 and HMAC-SHA256.
- `Parser` (parser.dfy) models `parse_event_hub_message` and the `extend` that consumes its result.
- `Grouping` (grouping.dfy) is a generic insertion-ordered dictionary of lists. It is specified by first-seen key order and key positions.
- `Categorizer` (categorizer.dfy) models `categorize_logs`, as a method with a loop proved against the grouping specification.
- `Router` (router.dfy) models `LOG_CATEGORY_MAPPING`, the `Other` fallback and the `_CL` strip.
- `Signer` (signer.dfy) models `build_signature` and the canonical string.
- `Delivery` (delivery.dfy) models `post_data_to_log_analytics`: the configuration gate, the request and the 2xx rule.
- `Orchestrator` (orchestrator.dfy) models `main`, as two loop methods and the method that runs them in sequence.
- `Wrappers` (wrappers.dfy) holds `Option` and `Result`.

Some inputs come from outside the function. The configuration
(`WORKSPACE_ID`, `WORKSPACE_KEY`, `SOURCE_TENANT_NAME`) is a `Config` value.
The clock readings and the outcome of each HTTP call are functions in an
`Env` value, indexed by record or by delivery.

## Model

All source paths are in `scripts/EntraIDLogsProcessor/__init__.py`.

| member | source | states |
|---|---|---|
| JsonValue.GetSetSame | scripts/EntraIDLogsProcessor/__init__.py:184-190 | after `record[k] = v`, `record.get(k)` is `v` |
| JsonValue.GetSetOther | scripts/EntraIDLogsProcessor/__init__.py:184-190 | after `record[k] = v`, every other key reads as before |
| JsonValue.SetKeepsUniqueKeys | scripts/EntraIDLogsProcessor/__init__.py:184-190 | assigning a key keeps every key of an object unique |
| Text.Decimal | scripts/EntraIDLogsProcessor/__init__.py:78 | `str(content_length)` is non-empty, all digits, with no leading zero |
| Text.DecimalRoundTrip | scripts/EntraIDLogsProcessor/__init__.py:78 | the decimal text of a length reads back as that length |
| Text.ContainsIff | scripts/EntraIDLogsProcessor/__init__.py:156 | `'records' in s` on a string holds exactly when `records` occurs in `s` at some index |
| Text.SplitJoin | scripts/EntraIDLogsProcessor/__init__.py:78 | lines without the separator, joined with it, split back into the same lines |
| Parser.ParseMessage | scripts/EntraIDLogsProcessor/__init__.py:142-164 | undecodable JSON gives `[]`; an object gives its `records` value, or else is wrapped in a list; a list is kept, but raises `TypeError` if it has `"records"` as an item; a string is wrapped, but raises if it contains `records`; a number, boolean or null raises `TypeError` |
| Parser.Elements | scripts/EntraIDLogsProcessor/__init__.py:223 | `extend` adds a list's items, a string's characters or an object's keys, and raises exactly on numbers, booleans and null |
| Parser.EnvelopeRoundTrip | scripts/EntraIDLogsProcessor/__init__.py:146-157 | a message in the `{"records": [...]}` envelope yields exactly the records it wraps |
| Parser.BareMessages | scripts/EntraIDLogsProcessor/__init__.py:158-161 | a bare list of objects yields its elements; an object without `records` yields itself |
| Parser.ScalarsAndMisnamedListsRaise | scripts/EntraIDLogsProcessor/__init__.py:154-164 | non-JSON yields no records and no error; a scalar, or a list holding `"records"`, raises |
| Router.CategoryMapping | scripts/EntraIDLogsProcessor/__init__.py:41-58 | the mapping has exactly the 16 known categories as keys |
| Router.StripCustomLogSuffix | scripts/EntraIDLogsProcessor/__init__.py:244-245 | a name ending in `_CL` loses exactly that suffix; any other name is unchanged |
| Router.RoutingIsTotal | scripts/EntraIDLogsProcessor/__init__.py:241-245 | every category gets a `Log-Type`: its table name minus one `_CL`, starting with `EntraID`; known categories get `EntraID{stem}_{tenant}`, all others `EntraIDOther_{tenant}` |
| Router.NonInteractiveTableIsRenamed | scripts/EntraIDLogsProcessor/__init__.py:44 | `NonInteractiveUserSignInLogs` is not sent to `EntraID` + its own name |
| Router.StemIsName | scripts/EntraIDLogsProcessor/__init__.py:41-58 | every table stem is its category's name, except the renamed non-interactive one |
| Router.StemsDistinct | scripts/EntraIDLogsProcessor/__init__.py:41-58 | no two known categories share a stem, and none uses `Other` |
| Router.StemInjective | scripts/EntraIDLogsProcessor/__init__.py:42-57 | `EntraID{stem}_{tenant}` determines the stem |
| Router.RoutingSeparatesKnownCategories | scripts/EntraIDLogsProcessor/__init__.py:241-245 | a known category never shares its `Log-Type` with any other category, known or not |
| Signer.CanonicalIsJoin | scripts/EntraIDLogsProcessor/__init__.py:77-78 | the string to hash is method, length, content type, `x-ms-date:{date}` and resource, joined with line breaks |
| Signer.CanonicalRoundTrip | scripts/EntraIDLogsProcessor/__init__.py:77-78 | for fields without line breaks, the string to hash parses back into exactly the signed fields |
| Signer.CanonicalInjective | scripts/EntraIDLogsProcessor/__init__.py:77-78 | requests that differ in any signed field have different strings to hash |
| Signer.BuildSignature | scripts/EntraIDLogsProcessor/__init__.py:61-85 | raises exactly when the key is not valid base64; otherwise the value starts with `SharedKey ` |
| Signer.AuthorizationLayout | scripts/EntraIDLogsProcessor/__init__.py:80-84 | the header is `SharedKey {id}:{digest}` and splits back into that id and the HMAC digest of the string to hash |
| Signer.SignatureSeparatesRequests | scripts/EntraIDLogsProcessor/__init__.py:77-84 | requests that differ in any signed field get different headers, unless the HMAC collides |
| Delivery.DeliveryDecision | scripts/EntraIDLogsProcessor/__init__.py:99-139 | unconfigured: returns false and sends nothing; configured: raises exactly on a malformed key, and only then; returns true exactly on a 2xx status; a raised HTTP call returns false |
| Delivery.RequestLayout | scripts/EntraIDLogsProcessor/__init__.py:103-130 | the request goes to the workspace endpoint, carries the body unchanged and the five headers, and its `Authorization` signs the sent date and the body's length |
| Delivery.SignedContentMatchesRequest | scripts/EntraIDLogsProcessor/__init__.py:103-117 | the signed string reads back as `POST`, `len(body)`, `application/json`, the sent date and `/api/logs` |
| Categorizer.CategoryOf | scripts/EntraIDLogsProcessor/__init__.py:181 | a present `category` is taken as it is, even `null`; an absent one reads as `Unknown` |
| Categorizer.EnrichContract | scripts/EntraIDLogsProcessor/__init__.py:184-190 | the tenant is overwritten; an existing `TimeGenerated` is kept; a missing one comes from `time`, or else from the clock plus `Z`; no other key changes; keys stay unique |
| Categorizer.SetUnchanged | scripts/EntraIDLogsProcessor/__init__.py:184 | assigning a key the value it already holds leaves the record as it was |
| Categorizer.EnrichIdempotent | scripts/EntraIDLogsProcessor/__init__.py:184-190 | enriching an enriched record changes nothing, whatever the clock says |
| Categorizer.EnrichKeepsCategory | scripts/EntraIDLogsProcessor/__init__.py:181-190 | enrichment never changes a record's category |
| Categorizer.GroupedStep | scripts/EntraIDLogsProcessor/__init__.py:192-196 | one more record inserts its enriched form under its category, adding the key at the end if it is new |
| Categorizer.FaultAt | scripts/EntraIDLogsProcessor/__init__.py:181-193 | the first record that is not an object, or whose category is a list or object, is where the pass raises, with the matching error |
| Categorizer.CategorizeIsStablePartition | scripts/EntraIDLogsProcessor/__init__.py:177-198 | the result partitions the records: the sizes add up to `len(records)`; keys are the categories present, each once, in first-seen order; each list holds exactly its category's records, enriched, in input order |
| Categorizer.CategorizeLogs | scripts/EntraIDLogsProcessor/__init__.py:167-198 | succeeds exactly when every record can be handled, returning the grouping above; otherwise reports the first failing record and the kind of failure |
| Grouping.FirstSeen | scripts/EntraIDLogsProcessor/__init__.py:193-194 | the dictionary's keys are the keys that occur, with no repeats |
| Grouping.Positions | scripts/EntraIDLogsProcessor/__init__.py:196 | the positions a key's list draws from hold that key, in increasing order |
| Grouping.PositionsComplete | scripts/EntraIDLogsProcessor/__init__.py:196 | every position holding a key is in that key's list |
| Grouping.FirstSeenOrder | scripts/EntraIDLogsProcessor/__init__.py:193-194 | keys come out in order of their first occurrence |
| Grouping.GroupSizesSum | scripts/EntraIDLogsProcessor/__init__.py:179-196 | the group sizes add up to the number of records |
| Grouping.GroupPairsGroups | scripts/EntraIDLogsProcessor/__init__.py:192-196 | inserting the pairs one by one builds the first-seen keys, each with the values at its positions, in order |
| Grouping.TotalCountsPositions | scripts/EntraIDLogsProcessor/__init__.py:196 | the lists' total length is the number of positions their keys hold |
| Orchestrator.CollectAppend | scripts/EntraIDLogsProcessor/__init__.py:216-229 | records accumulate in event order across any split of the batch |
| Orchestrator.SkippedEventContributesNothing | scripts/EntraIDLogsProcessor/__init__.py:227-229 | an event that fails to decode or parse removes nothing from the events around it |
| Orchestrator.CollectEvents | scripts/EntraIDLogsProcessor/__init__.py:214-229 | the first loop builds exactly each event's contribution, concatenated in order |
| Orchestrator.GroupedShape | scripts/EntraIDLogsProcessor/__init__.py:236-239 | a non-empty batch has at least one category, and every key has its list |
| Orchestrator.SendCategories | scripts/EntraIDLogsProcessor/__init__.py:239-256 | one call per category in dictionary order, whatever the earlier calls returned; a malformed key raises at the first call, before any request |
| Orchestrator.ProcessEvents | scripts/EntraIDLogsProcessor/__init__.py:201-258 | no records: returns early with no calls; a record the pass cannot handle raises before any call; a malformed key raises before any request; otherwise exactly one call per category of the grouping, in order |
| Orchestrator.FailureIsolation | scripts/EntraIDLogsProcessor/__init__.py:239-256 | the call made for each category does not depend on any HTTP outcome: different outcomes leave the calls, their tables, their counts and the requests sent unchanged (that the loop goes on after a failed call is `SendCategories`' promise) |

## Left out

- The HTTP transport is not modelled: connections, the 30-second timeout and TLS. Each call's outcome (a status code, or an exception) is an input.
- The Azure Functions binding and `EventHubEvent` are not modelled. An event is its body bytes.
- UTF-8 decoding and encoding, `json.loads`, `json.dumps`, base64 and HMAC-SHA256 are passed in as function values. The properties hold whatever those libraries compute, and none of their own behaviour is proved.
- Logging is left out: it has no effect on results.
- Reading `os.environ` is left out. The three settings arrive as a `Config` value, and the endpoint URI is rebuilt from it.
- Clock formatting (`isoformat`, `strftime`) is left out. The clock readings are inputs, already formatted.
- Python treats `1`, `1.0` and `True` as one dictionary key. The model keeps numbers as their literal text and compares values structurally, so categories that are numbers or booleans may group differently than in Python.
- `categorize_logs` mutates the caller's record objects in place. The model returns the enriched copies, so aliasing is not captured. Neither is the fact that records enriched before an unhashable category raises keep their stamps.
- Duplicate keys in a JSON object are left out: `json.loads` keeps the last one, and the model's decoder is an input.
- The signed content length is `len(body)`, a count of characters, and it is modelled as such. It is not related to the byte length of the UTF-8 encoding. `json.dumps` escapes non-ASCII by default, so for bodies it produces the two agree.
- Retries: the module docstring (line 9) promises retry logic, but the function never retries a failed category, and neither does the model.
- The model follows the code in three places a reader might not expect:
  - a scalar JSON message, a list holding the string `"records"`, and a string containing `records` raise `TypeError`, and the event is skipped;
  - a record that is not an object, or whose category is a list or object, makes `categorize_logs` raise out of the whole invocation;
  - a workspace key that is not valid base64 raises out of the first delivery and ends the invocation before any request is sent.
