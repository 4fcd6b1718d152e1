# CloudStack Go client: host and system VM calls

A Dafny model of the logic inside two service files of the CloudStack Go
client, `cloudstack/HostService.go` and `cloudstack/SystemVMService.go`.
Each API call there builds a parameter bag (`*Params`), encodes it into a
query (`toURLValues`), sends the command and decodes the JSON reply. A call
that has an async branch (the twelve awaited calls), made on an asynchronous
client, then waits for the server-side job and folds its result back into the
response; the other calls return after the one decode. Next to the calls sit "courtesy
helpers" that resolve a host or system VM name to an ID and fetch one
resource by ID or by name.

Modules:

- `Wrappers`: `Option` and `Result`.
- `Text`: the text conversions the encoders use, with their inverses. These are
  `strconv.Itoa` / `fmt.Sprintf("%d")`, `strconv.FormatBool` and
  `strings.Join(xs, ", ")`.
- `Params`: a parameter bag is `Nil` (the Go nil map) or a map from names to
  a typed union of values. Setters, the required-argument constructors and
  the whitelist encoder are written once over a `ParamsType` record: the
  encoder's field list, the setters, and the constructor's required names.
  The `details` map is flattened to `details[i].key` / `details[i].value`;
  a "plain" name is one that cannot be such an indexed name.
  Go's map iteration order is a parameter `order` that must enumerate the map.
- `Decode`: a decoder that reads a query back into a bag. It is the inverse
  that shows the encoder loses nothing it should keep.
- `Lookup`: the name-to-ID and fetch rules over a list response, written once
  and used by both services.
- `AsyncJob`: the completion branch after the first decode. The job poll, the
  result unwrapping (`getRawValue`) and the JSON decode are inputs.
- `Dispatch`: one call end to end. It encodes the bag, asks the server for
  the command's reply, decodes it, then takes the completion branch.
- `HostService`, `SystemVmService`: the parameter types of every call in the
  two files (fields in the encoders' order), their endpoints (command name and
  completion kind), and the lookups.

## Model

| member | source | states |
|---|---|---|
| Params.ToURLValues | cloudstack/HostService.go:31-35 | a bag that was never initialised encodes to the empty query |
| Params.ApplySetter | cloudstack/HostService.go:70-76 | a setter yields a non-nil bag whose keys are the old keys plus its own; its key holds the given value and every other key is unchanged |
| Params.SetterKeepsWellTyped | cloudstack/HostService.go:70-148 | a setter that stores its own Go type under a whitelisted name of that type keeps the bag well typed for the encoder |
| Params.NewParams | cloudstack/HostService.go:152-163 | the constructor gives a non-nil bag whose keys are exactly the required names, each holding its argument as a string |
| Params.NewParamsQuery | cloudstack/HostService.go:152-163 | a freshly constructed bag encodes to exactly its required names, each carrying its argument unchanged |
| Params.NewParamsWellTyped | cloudstack/HostService.go:152-163 | when the required names are whitelisted string fields, the constructed bag is well typed |
| Params.GeneratedSettersFeed | cloudstack/HostService.go:70-148 | setters that store under their own whitelisted name and type, together with required names at string fields, all reach the encoder |
| Params.EncodeMeaning | cloudstack/HostService.go:31-68 | the field-by-field encoder equals a reference query: every whitelisted, present, non-map value rendered under its own name, plus the flattened `details` map |
| Params.EncoderWhitelist | cloudstack/HostService.go:790-845 | a plain name is in the query iff it is whitelisted and present in the bag with a non-map value; its value is that value rendered; the indexed `details[i]` names appear only when a `details` map is set |
| Params.EncoderReadsOnlyListed | cloudstack/HostService.go:790-845 | two bags that agree on every whitelisted name encode to the same query, whatever else they hold |
| Params.UnlistedKeyIgnored | cloudstack/HostService.go:790-845 | setting a name the encoder does not whitelist leaves the encoded query unchanged |
| Params.ListedSetterEmitted | cloudstack/HostService.go:790-845 | after a whitelisted setter, the query holds the rendered value under the setter's key |
| Params.SingleEntryQuery | cloudstack/HostService.go:976-984 | a fresh bag holding one string under a whitelisted string name encodes to exactly that one pair |
| Params.Flatten | cloudstack/SystemVMService.go:812-819 | flattening n map entries produces exactly the names `details[i].key` and `details[i].value` for i < n |
| Params.FlattenAt | cloudstack/SystemVMService.go:812-819 | the i-th entry in iteration order is sent as `details[i].key` = its key and `details[i].value` = its value |
| Params.DetailNamesCount | cloudstack/SystemVMService.go:812-819 | the indexed names for n entries are 2n distinct names |
| Params.DetailsRoundTrip | cloudstack/SystemVMService.go:812-819 | with `details` holding n entries, the query's indexed `details[i]` names are exactly the 2n indexed names and reading them back yields the original map, whatever the iteration order |
| Text.Digits | cloudstack/HostService.go:818-825 | decimal rendering is a non-empty digit string with no leading zero except for 0 itself |
| Text.ItoaRoundTrip | cloudstack/HostService.go:818-825 | the decimal rendering of an int, sign included, parses back to the same int |
| Text.ItoaInjective | cloudstack/HostService.go:818-825 | different page numbers are sent as different texts |
| Text.FormatBool | cloudstack/HostService.go:488-495 | a bool renders as "true" or "false", "true" exactly when it is true |
| Text.FormatBoolRoundTrip | cloudstack/HostService.go:488-495 | the rendering of a bool parses back to it |
| Text.Join | cloudstack/HostService.go:45-48 | the empty list joins to "" and a one-item list to that item |
| Text.SplitJoin | cloudstack/HostService.go:45-48 | splitting the ", "-joined text of a non-empty list of comma-free items recovers the list |
| Text.EmptyListEncodesAsEmptyText | cloudstack/HostService.go:798-801 | the empty list and the list holding one empty string both encode as "" |
| Decode.RenderRoundTrip | cloudstack/HostService.go:36-67 | every recoverable scalar rendering (string; joined list that is non-empty with comma-free items; bool; int) reads back as the value it came from |
| Decode.DecodeFields | cloudstack/HostService.go:790-845 | the decoder only ever yields whitelisted names |
| Decode.DecodeFieldsMeaning | cloudstack/HostService.go:790-845 | a query that states each field's value as the encoder would decodes to exactly the whitelisted part of the bag |
| Decode.DecodeEncode | cloudstack/SystemVMService.go:807-827 | decoding an encoded bag gives back exactly its whitelisted entries, `details` included, for any iteration order |
| Lookup.FirstNamed | cloudstack/HostService.go:997-1001 | the index found is the first item, in list order, whose name equals the query exactly; none means no item matches |
| Lookup.ResolveID | cloudstack/HostService.go:976-1003 | a list failure propagates; count 0 is "no match"; count 1 gives the first item's ID whatever its name; count above 1 gives the ID of the first exact name match iff one exists, else "no exact match"; a negative count is "no exact match" |
| Lookup.SingleResultIgnoresName | cloudstack/HostService.go:991-993 | with count 1 the result does not depend on the name asked for |
| Lookup.ResolvedIdComesFromList | cloudstack/HostService.go:976-1003 | a resolved ID is the ID of some listed item, and the count was at least 1 |
| Lookup.FetchByID | cloudstack/HostService.go:1020-1039 | an item is returned iff there is no error, and only for count exactly 1; list failure gives count -1; otherwise the server's count comes back with the error |
| Lookup.FetchByName | cloudstack/HostService.go:1006-1017 | a failed name resolution gives count -1 and that error; otherwise the result is exactly the fetch by the resolved ID |
| Lookup.FetchByNameFoundCountsOne | cloudstack/HostService.go:1006-1039 | a successful fetch by name reports count 1, and count -1 always comes with an error |
| AsyncJob.Complete | cloudstack/HostService.go:269-290 | async off or no async branch returns the first decode; a poll error returns no response; a timeout warning returns the pre-poll response with the warning; a finished job is unwrapped (or not) and overlaid, and any failure there returns no response |
| AsyncJob.Call | cloudstack/HostService.go:258-291 | a request or first-decode failure ends the call with no response; otherwise the job named by the decoded job ID is awaited with the configured timeout |
| AsyncJob.NeverNilNil | cloudstack/HostService.go:258-291 | every call returns a response, an error or both; both only for the timeout warning, which needs asynchronous mode and a completion that polls |
| AsyncJob.AsyncOffIsSync | cloudstack/HostService.go:269 | with asynchronous mode off every mutating call behaves as a synchronous one |
| AsyncJob.SyncIgnoresJob | cloudstack/SystemVMService.go:864-875 | a call without an async branch does not depend on the poll or the unwrap and never warns |
| AsyncJob.RawIsIdentityUnwrap | cloudstack/HostService.go:1433-1449 | decoding the job result without unwrapping is unwrapping with the identity |
| AsyncJob.RawIgnoresUnwrap | cloudstack/HostService.go:1433-1449 | a call that does not unwrap gives the same outcome whatever the unwrap would do |
| AsyncJob.WarningKeepsJobId | cloudstack/HostService.go:277-279 | a timeout warning means the request and first decode succeeded, the job was still running, and the returned response is the first decode with its job ID |
| Dispatch.Invoke | cloudstack/HostService.go:258-291 | a call with no async branch never warns; a warning implies asynchronous mode; a nil bag sends the empty query |
| HostService.AddHostParamsConsistent | cloudstack/HostService.go:27-163 | AddHostParams: its field names are plain and pairwise distinct, a map only under "details", and the six constructor names sit at string fields, so its setters (one per field) and constructor arguments all reach its encoder |
| HostService.ReconnectHostParamsConsistent | cloudstack/HostService.go:225-256 | the same for ReconnectHostParams |
| HostService.UpdateHostParamsConsistent | cloudstack/HostService.go:341-417 | the same for UpdateHostParams |
| HostService.DeleteHostParamsConsistent | cloudstack/HostService.go:479-534 | the same for DeleteHostParams |
| HostService.PrepareHostForMaintenanceParamsConsistent | cloudstack/HostService.go:554-585 | the same for PrepareHostForMaintenanceParams |
| HostService.CancelHostMaintenanceParamsConsistent | cloudstack/HostService.go:670-701 | the same for CancelHostMaintenanceParams |
| HostService.ListHostsParamsConsistent | cloudstack/HostService.go:786-974 | the same for ListHostsParams with `SetType` corrected |
| HostService.FindHostsForMigrationParamsConsistent | cloudstack/HostService.go:1107-1173 | the same for FindHostsForMigrationParams |
| HostService.AddSecondaryStorageParamsConsistent | cloudstack/HostService.go:1235-1277 | the same for AddSecondaryStorageParams |
| HostService.UpdateHostPasswordParamsConsistent | cloudstack/HostService.go:1304-1369 | the same for UpdateHostPasswordParams |
| HostService.ReleaseHostReservationParamsConsistent | cloudstack/HostService.go:1389-1420 | the same for ReleaseHostReservationParams |
| HostService.AddBaremetalHostParamsConsistent | cloudstack/HostService.go:1458-1605 | the same for AddBaremetalHostParams |
| HostService.DedicateHostParamsConsistent | cloudstack/HostService.go:1667-1721 | the same for DedicateHostParams |
| HostService.ReleaseDedicatedHostParamsConsistent | cloudstack/HostService.go:1768-1799 | the same for ReleaseDedicatedHostParams |
| HostService.ListDedicatedHostsParamsConsistent | cloudstack/HostService.go:1837-1935 | the same for ListDedicatedHostsParams |
| HostService.ListHostsAsWrittenHasUnlistedSetter | cloudstack/HostService.go:943-949 | as written, `SetType` stores under "hostType", which is not among the encoder's names, so the setters do not all reach the encoder |
| HostService.SetTypeAsWrittenIsLost | cloudstack/HostService.go:943-949 | as written, calling `SetType` leaves the encoded ListHosts query exactly as it was |
| HostService.SetTypeCorrectedIsSent | cloudstack/HostService.go:835-837 | with the key "type", the value set is sent under "type" |
| HostService.NewListHostsParamsEmpty | cloudstack/HostService.go:969-974 | the constructor gives an empty non-nil bag, which encodes to the empty query |
| HostService.AsyncBranches | cloudstack/HostService.go:269-290 | the four host calls that unwrap the job result, and the two release calls that do not |
| HostService.ReleaseCallsIgnoreUnwrap | cloudstack/HostService.go:1812-1828 | both release calls give the same outcome whatever the unwrap would do |
| HostService.FilterQuery | cloudstack/HostService.go:977-980 | the lookup's hand-built bag encodes to exactly the one filter pair |
| HostService.GetHostID | cloudstack/HostService.go:976-1003 | resolving a host name is the resolution rule applied to the host list filtered by that name |
| HostService.GetHostByID | cloudstack/HostService.go:1020-1039 | fetching a host by ID is the fetch rule applied to the host list filtered by that ID |
| HostService.GetHostByName | cloudstack/HostService.go:1006-1017 | count -1 with the resolution error when the name does not resolve, else exactly the fetch by the resolved ID |
| SystemVmService.StartSystemVmParamsConsistent | cloudstack/SystemVMService.go:26-56 | StartSystemVmParams: its field name is plain and the constructor name sits at a string field, so its setter and constructor argument reach its encoder |
| SystemVmService.RebootSystemVmParamsConsistent | cloudstack/SystemVMService.go:125-155 | the same for RebootSystemVmParams |
| SystemVmService.StopSystemVmParamsConsistent | cloudstack/SystemVMService.go:224-266 | the same for StopSystemVmParams |
| SystemVmService.DestroySystemVmParamsConsistent | cloudstack/SystemVMService.go:335-365 | the same for DestroySystemVmParams |
| SystemVmService.ListSystemVmsParamsConsistent | cloudstack/SystemVMService.go:434-575 | the same for ListSystemVmsParams |
| SystemVmService.MigrateSystemVmParamsConsistent | cloudstack/SystemVMService.go:692-734 | the same for MigrateSystemVmParams |
| SystemVmService.ChangeServiceForSystemVmParamsConsistent | cloudstack/SystemVMService.go:803-861 | the same for ChangeServiceForSystemVmParams, whose `details` is the only map |
| SystemVmService.ScaleSystemVmParamsConsistent | cloudstack/SystemVMService.go:907-965 | the same for ScaleSystemVmParams |
| SystemVmService.NewChangeServiceQuery | cloudstack/SystemVMService.go:855-861 | the constructed bag encodes to exactly its two arguments under "id" and "serviceofferingid" |
| SystemVmService.ScaleDetailsRoundTrip | cloudstack/SystemVMService.go:916-923 | a set `details` map is sent as exactly its 2n indexed names and reads back to itself |
| SystemVmService.ScaleWithoutDetails | cloudstack/SystemVMService.go:911-931 | without `details` no indexed `details[i]` name is sent, and "id" and "serviceofferingid" are sent exactly when set, unchanged |
| SystemVmService.ChangeServiceDetailsRoundTrip | cloudstack/SystemVMService.go:812-819 | the same round trip for the service-offering change |
| SystemVmService.ChangeServiceNeverPolls | cloudstack/SystemVMService.go:864-875 | the service-offering change does not depend on the poll or the unwrap and never warns, even in asynchronous mode |
| SystemVmService.AsyncBranches | cloudstack/SystemVMService.go:71-90 | the six mutating system VM calls that await and unwrap their job, and the one that has no async branch |
| SystemVmService.NewListSystemVmsParamsEmpty | cloudstack/SystemVMService.go:571-575 | the constructor gives an empty non-nil bag, which encodes to the empty query |
| SystemVmService.FilterQuery | cloudstack/SystemVMService.go:579-582 | the lookup's hand-built bag encodes to exactly the one filter pair |
| SystemVmService.GetSystemVmID | cloudstack/SystemVMService.go:578-605 | resolving a system VM name is the resolution rule applied to the list filtered by that name |
| SystemVmService.GetSystemVmByID | cloudstack/SystemVMService.go:622-641 | fetching by ID is the fetch rule applied to the list filtered by that ID |
| SystemVmService.GetSystemVmByName | cloudstack/SystemVMService.go:608-619 | count -1 with the resolution error when the name does not resolve, else exactly the fetch by the resolved ID |

## Left out

- Transport (`newRequest`, HTTP, signing): the server is a function from command name and query to the raw reply or a request error.
- The polling loop of `GetAsyncJobResult` and the body of `getRawValue` are not part of this model. They are inputs: the poll outcome for a job ID and timeout, and a transformation that may fail.
- JSON decoding and its overlay semantics: one opaque function that decodes a payload onto an existing response or fails. Which fields a job result overwrites, the job ID included, is the library's business. This also covers the duplicate `jobid` tags at cloudstack/SystemVMService.go:95,106.
- Response structs: one representative record (job ID plus a map of fields) stands for every per-call response type; list responses keep only `count` and the items' `id` and `name`.
- Params.ApplySetter: the Go setters store the caller's slice or map by reference, so later changes the caller makes through that reference reach the encoder; a bag value here stands for the slice or map contents at encoding time, and aliasing is not modelled.
- Type-assertion panics: the bag holds a typed union and the encoder renders each value by its own constructor. `WellTyped` ties the bag to the declared kinds, so an ill-typed value never arises.
- Text.Itoa: Go's `int` is 64 bits wide; the model renders unbounded integers, which agrees on every value a Go `int` can hold.
- Decode.RenderRoundTrip: only recoverable renderings read back, that is lists that are non-empty with comma-free items; the empty list, the list holding one empty string and items containing a comma do not survive `strings.Join` with ", ".
- Decode.DecodeEncode: the round trip excludes the empty list and the list holding one empty string (both encode as ""), lists whose items contain a comma, and an empty `details` map (it encodes to nothing), because those are lost on the wire.
- Lookup.ResolveID: with count 1 and an empty item array Go indexes past the end and panics; the model returns the error `IndexOutOfRange` instead.
- Lookup.FetchByID: the same panic for count 1 with no items is the error `IndexOutOfRange`.
- The lookups' list call is a function from query to list outcome, so a call made twice with the same query returns the same outcome.
- The non-async calls (`AddHost`, `UpdateHost`, `DeleteHost`, `ListHosts`, `FindHostsForMigration`, `AddSecondaryStorage`, `UpdateHostPassword`, `AddBaremetalHost`, `ListDedicatedHosts`, `ListSystemVms`, `ChangeServiceForSystemVm`) are endpoints with the synchronous completion: request, then one decode.
- The timeout value is passed through to the poll unchanged; what it bounds lives in `GetAsyncJobResult`.

On a successful job the result is decoded onto the same response, so whether
the job ID survives depends on the result's JSON; the model promises the ID only
on the warning path. `ChangeServiceForSystemVm` never polls, and the two release
calls decode the job result without unwrapping it.

## Findings

| source | as written | input that shows it | evidently intended | confidence | as-written member | corrected member |
|---|---|---|---|---|---|---|
| cloudstack/HostService.go:943-949 | `ListHostsParams.SetType` stores its value under "hostType", but the encoder reads "type" (835-837), so the host-type filter is never sent | a fresh ListHostsParams bag, `SetType("Routing")`, then encode: the query is empty | store under "type", so that `type=Routing` is sent | high (not executed) | HostService.SetTypeAsWrittenIsLost | HostService.SetTypeCorrectedIsSent |
