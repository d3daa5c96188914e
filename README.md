# Client log buffer

This project models the client-log service of the ComfyUI front end
(`src/services/clientLogsService.ts`). The service holds an ordered list of log
records and a capacity `maxLogs`, which the application fixes at 1000. Each
record has a timestamp, a type (`websocket` or `api`), a message and an untyped
`details` payload. The operations are:

- `addLog` pushes a record and then cuts the list back to its last `maxLogs` records;
- `logWebSocket` and `logApiRequest` compose a message and call `addLog`;
- `clear` empties the list;
- `getLogs` returns the list.

The Dafny model is the class `ClientLogs.ClientLogsService` in `client_logs.dfy`.
It has a `seq` field `logs`, the capacity `maxLogs` and a ghost field `History`.
`History` holds every record appended since creation or since the last `clear`.
The object invariant `Valid()` says three things: the capacity is positive, the
list holds at most `maxLogs` records, and `logs` is `DropOldest(History, maxLogs)`. `DropOldest` is an independent reference
definition of trimming: it removes the oldest record, one at a time, until at
most `maxLogs` remain. `AddLog` performs the source's own steps: a push, then
`slice(-maxLogs)` with JavaScript's slice semantics (`SliceFrom`). Lemmas tie
that slice to the reference definition.

The capacity is a constructor parameter (`WithCapacity`, which requires a
positive capacity) so that small scenarios can be stated. The unnamed
constructor is the source's: empty, capacity 1000. `client_logs_scenarios.dfy`
holds callers that use only the contracts. One scenario shows that with
capacity 3, appending A, B, C, D leaves B, C, D.

Inputs the source takes from its environment become parameters. The timestamp
(`new Date().toISOString()`) is a string argument of every append. `details`
(`any`) is `Details<T>`, which is either `Null` or `Value(v)`. Where the source
defaults it to `null`, the model defaults it to `Null`.

## Model

| member | source | states |
|---|---|---|
| `ClientLogs.DropOldestIsSuffix` | src/services/clientLogsService.ts:28-31 | dropping the oldest records until `cap` remain leaves a list within capacity untouched and otherwise leaves exactly its last `cap` records, in their original order |
| `ClientLogs.SliceFromNegIsDropOldest` | src/services/clientLogsService.ts:30 | for a positive capacity, JavaScript's `slice(-maxLogs)` equals dropping the oldest records until `maxLogs` remain |
| `ClientLogs.DropOldestSnoc` | src/services/clientLogsService.ts:21-31 | trimming after each append gives the same list as one trim of everything appended, so the list is always the newest `maxLogs` records of the whole history |
| `ClientLogs.AppendTrimsAtMostOne` | src/services/clientLogsService.ts:21-31 | on a list within capacity, an append keeps every old record when there is room, otherwise drops exactly the oldest one; the new record is always kept, last |
| `ClientLogs.WebSocketMessage` | src/services/clientLogsService.ts:35 | the message is an arrow, a space and the event type; the arrow is `←` exactly when the direction is `in` and `→` exactly when it is `out` |
| `ClientLogs.WebSocketMessageInjective` | src/services/clientLogsService.ts:35 | the two arrows differ, so a websocket message determines both its direction and its event type |
| `ClientLogs.ApiMessage` | src/services/clientLogsService.ts:39 | the message is the HTTP method, one space, then the URL |
| `ClientLogs.ClientLogsService.constructor` | src/services/clientLogsService.ts:14-17 | a new service has an empty list, an empty history and capacity 1000 |
| `ClientLogs.ClientLogsService.WithCapacity` | src/services/clientLogsService.ts:14-17 | a new service with a given positive capacity is empty |
| `ClientLogs.ClientLogsService.AddLog` | src/services/clientLogsService.ts:19-32 | the invariant is kept; the history grows by exactly the new record; the list becomes the newest `maxLogs` records of old list plus record; with room, the list grows by one and the earlier records are unchanged; when full, only the oldest is dropped; the last record is the one given, and `details` defaults to `null` |
| `ClientLogs.ClientLogsService.LogWebSocket` | src/services/clientLogsService.ts:34-36 | appends one record of type `websocket` with the arrow-and-event message and the given data as details, with the same trimming as `AddLog` |
| `ClientLogs.ClientLogsService.LogApiRequest` | src/services/clientLogsService.ts:38-40 | appends one record of type `api` with message `method url` and the given data as details (default `null`), with the same trimming as `AddLog` |
| `ClientLogs.ClientLogsService.Clear` | src/services/clientLogsService.ts:42-44 | whatever the prior state, the list and history are empty afterwards and the capacity is unchanged; clearing twice is the same as clearing once |
| `ClientLogs.ClientLogsService.GetLogs` | src/services/clientLogsService.ts:46-48 | returns the current list without changing anything; the list holds at most `maxLogs` records, is the final segment of everything appended since the last clear, and is full once that many were appended |
| `ClientLogsScenarios.OverflowKeepsNewest` | src/services/clientLogsService.ts:19-31 | with capacity 3, appending A, B, C, D leaves exactly B, C, D |
| `ClientLogsScenarios.MixedTypesInCallOrder` | src/services/clientLogsService.ts:34-40 | one websocket record and one API record are both kept in call order, each with its own type and message; an omitted API payload is `null` |
| `ClientLogsScenarios.OutgoingArrow` | src/services/clientLogsService.ts:34-36 | an outgoing websocket message carries the `→` arrow and the data given |
| `ClientLogsScenarios.ClearThenLog` | src/services/clientLogsService.ts:19-44 | after a clear (and a second clear) the list is empty, and a later append starts a new list with only that record |

## Left out

- Vue reactivity: `getLogs` returns a live `Ref` that later appends show through. The model returns the list value. Observers and change notification belong to the framework.
- The clock: the ISO timestamp is an opaque string argument. The model therefore says nothing about timestamps rising in insertion order.
- The shape of `details`: the payload is an opaque type parameter. Serialisability and cyclic payloads are not modelled.
- The module-level singleton instance (`export default new ClientLogsService()`). It is wiring only.
- `WithCapacity`: a capacity of 0 is excluded. The source never uses one, because it fixes 1000. With JavaScript's `slice(-0)`, which is `slice(0)`, a capacity of 0 would never trim at all.
- The record type is the closed set `websocket` / `api` of the source's type annotation, not an open string.
- `src/composables/sidebarTabs/useStackWorkflowSidebarTab.ts` and `src/composables/bottomPanelTabs/useClientLogsTab.ts`: these UI tab descriptors are built from literals, i18n calls and Vue components. There is no logic in them to model.
