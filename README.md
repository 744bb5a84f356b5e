# Aggregate store and type histogram of the two-backend dashboard client

This project models, in Dafny, the client-side core of a dashboard that talks to
two independently deployed backends (a Node service and a Go service):

- the endpoint resolver `buildApiUrl`, which turns an optional environment value
  into a backend base URL (module `ApiUrl`);
- the aggregate store: the six fields `nodeHealth`, `goHealth`, `nodeData`,
  `goData`, `allData` and `loading`, and the actions `fetchHealthStatus`,
  `fetchNodeData`, `fetchGoData`, `updateAllData` and `fetchAllData` (module
  `AppStore`, class `Store`);
- the `typeDistribution` fold of the charts component, which counts the items
  per `type` (module `DataCharts`).

Module `Js` holds the part of JavaScript value semantics these depend on: the
values a parsed body can hold, truthiness, property access that throws on
`null`/`undefined`, and the spread `push(...v)` that throws on non-iterables.
Module `StoreScenarios` holds concrete runs of the store proved from the
actions' contracts alone.

The network is injected: every action takes a `Network`, a function from the
request URL to how that request settles (`NetworkError(message)` or
`Responded(Parsed(json))` / `Responded(Unparseable)`). HTTP status codes are not
modelled because the code never reads them.

## Where the code differs from what one would expect

The model follows the code in each of these points:

- One would expect `allData` always to equal Node's items followed by Go's.
  The catch branches of `fetchNodeData` / `fetchGoData` reset their slot to
  `[]` without recomputing `allData`, so after a failed refresh `allData` still
  shows the old items (`StoreScenarios.StaleAllDataAfterFailedRefresh`). Only a
  successful fetch re-establishes the merge (`Store.Merged`).
- One would expect a failed health probe to be recorded with its error
  message. The code always records `{error: 'Service unavailable'}`; the
  rejection message is dropped. A body that is not JSON makes `res.json()`
  throw, and then neither health field is written, even when the other backend
  answered well.
- One would expect a missing `data` field to degrade to an empty list. The
  code stores `undefined`, which the merge then skips.
- One would expect the store to start idle. The code starts with `loading`
  true.
- A truthy `data` value that is not iterable (an object, a number) makes the
  spread in `updateAllData` throw inside the fetch's `try`, so the catch branch
  resets that slot to `[]`. A string `data` value is spread into its characters.

## Model

| member | source | states |
|---|---|---|
| `ApiUrl.BuildApiUrl` | frontend/src/store/useAppStore.js:6-23 | an unset or empty value gives the default; a value starting with `http://` or `https://` is kept; otherwise a value without a dot becomes `https://X.onrender.com`, and one with a dot `https://X` |
| `ApiUrl.ResolvedIsQualified` | frontend/src/store/useAppStore.js:11-22 | any non-empty configured value resolves to a non-empty URL with an explicit `http://` or `https://` scheme |
| `ApiUrl.ResolveIdempotent` | frontend/src/store/useAppStore.js:11-14 | feeding a resolved URL back into the resolver gives the same URL, whatever the default |
| `ApiUrl.ServiceNameMatchesRenderDomain` | frontend/src/store/useAppStore.js:16-22 | a bare service name and the same name with `.onrender.com` appended resolve to the same URL |
| `AppStore.HealthReading` | frontend/src/store/useAppStore.js:44-57 | a rejected health request reads as the fixed "Service unavailable" marker, a parsed body as itself, and only an unparseable body throws |
| `AppStore.ReadData` | frontend/src/store/useAppStore.js:71-73 | `data.data` throws exactly on a rejected request, a non-JSON body or a `null` body; an object body yields its `data` field, or `undefined` when it has none; any defined result is the body's own `data` field |
| `AppStore.Contribution` | frontend/src/store/useAppStore.js:96-97 | a falsy slot contributes nothing, an array its elements, and a truthy non-iterable slot throws |
| `AppStore.Merge` | frontend/src/store/useAppStore.js:93-99 | the merge succeeds exactly when both slots are falsy or iterable |
| `AppStore.MergeConcatenates` | frontend/src/store/useAppStore.js:93-99 | for any two mergeable slots the merge is Node's contribution followed by Go's: nothing for a falsy slot, the elements of an array, the characters of a string |
| `AppStore.MergeOfLists` | frontend/src/store/useAppStore.js:93-99 | for slots holding arrays or nothing, the merge is `(nodeData ?? []) + (goData ?? [])`, Node first, and its length is the sum |
| `AppStore.Accepted` | frontend/src/store/useAppStore.js:69-90 | a data fetch keeps `data.data` exactly when the request, the parse, the `.data` read and the spread all succeed |
| `AppStore.MissingDataFieldStoresUndefined` | frontend/src/store/useAppStore.js:72-73 | a JSON object without `data` stores `undefined`, and the merge then takes only the other backend's items |
| `AppStore.Store.constructor` | frontend/src/store/useAppStore.js:25-37 | base URLs resolved from the environment with the local defaults; all slots `null`, `allData` empty, `loading` true; both invariants hold |
| `AppStore.Store.UpdateAllData` | frontend/src/store/useAppStore.js:93-99 | `allData` becomes the merge of the two slots, or is left unchanged when the spread throws; nothing else changes |
| `AppStore.Store.FetchNodeData` | frontend/src/store/useAppStore.js:69-79 | on success `nodeData` is `data.data` and `allData` is the merge; on failure `nodeData` is `[]` and `allData` keeps its old value; Go's slot, health and `loading` are untouched; slots stay mergeable |
| `AppStore.Store.FetchGoData` | frontend/src/store/useAppStore.js:81-91 | the same as `FetchNodeData` for Go's slot |
| `AppStore.Store.FetchAllData` | frontend/src/store/useAppStore.js:101-103 | each slot ends as its own fetch left it; both successes give the merge, both failures keep `allData`, and one success merges with the other slot as it stood at that moment, which depends on the completion order |
| `AppStore.Store.BeginHealthCheck` | frontend/src/store/useAppStore.js:40-41 | `loading` is true as soon as the health check starts; nothing else changes |
| `AppStore.Store.CompleteHealthCheck` | frontend/src/store/useAppStore.js:43-66 | both health fields are written with their readings, or neither is when either body fails to parse; `loading` ends false either way |
| `AppStore.Store.FetchHealthStatus` | frontend/src/store/useAppStore.js:40-67 | the health check against each backend's `/api/health`: both readings or neither, `loading` false on exit, data fields untouched |
| `StoreScenarios.DeployedEndpoints` | frontend/src/store/useAppStore.js:16-26 | the values `my-node-svc` and `https://go.example.org` resolve to `https://my-node-svc.onrender.com` and `https://go.example.org` |
| `StoreScenarios.LocalEndpoints` | frontend/src/store/useAppStore.js:25-26 | unset or empty values fall back to `http://localhost:3001` and `http://localhost:3002` |
| `StoreScenarios.HealthIsolation` | frontend/src/store/useAppStore.js:44-61 | with Node's request rejected and Go answering, Node reads "Service unavailable" and Go's body is recorded; `loading` ends false |
| `StoreScenarios.HealthKeptOnParseFailure` | frontend/src/store/useAppStore.js:51-65 | a later probe where only Go's body fails to parse keeps both earlier health values, though Node's body parsed |
| `StoreScenarios.HealthProbeIdempotent` | frontend/src/store/useAppStore.js:40-67 | two probes against the same backends leave the health fields as one probe did |
| `StoreScenarios.StaleAllDataAfterFailedRefresh` | frontend/src/store/useAppStore.js:69-79 | a successful Node fetch then a failed one leaves `nodeData` `[]` but `allData` with the old items, so `allData` is not the merge |
| `StoreScenarios.RefreshWithNodeDown` | frontend/src/store/useAppStore.js:101-103 | with Node failing during `fetchAllData`, `allData` is Go's items when Node completes first and Node's old items plus Go's when Go completes first |
| `DataCharts.TypeKeys` | frontend/src/components/DataCharts.jsx:23 | reading `item.type` from every item succeeds exactly when no item is `null` or `undefined`, giving one key per item |
| `DataCharts.FindEntry` | frontend/src/components/DataCharts.jsx:23 | `find` returns the first entry whose type matches, and none exactly when no entry matches |
| `DataCharts.TypeDistribution` | frontend/src/components/DataCharts.jsx:22-30 | the fold throws exactly when some item is `null` or `undefined`, and otherwise returns the histogram of the items' types |
| `DataCharts.DistributionStep` | frontend/src/components/DataCharts.jsx:24-28 | one more item either appends a new entry with count 1 or raises exactly one entry's count by 1, every other entry unchanged |
| `DataCharts.DistributionAppendNew` | frontend/src/components/DataCharts.jsx:26-28 | an item of a new type appends `{type, count: 1}` at the end |
| `DataCharts.DistributionAppendSeen` | frontend/src/components/DataCharts.jsx:24-25 | an item of a seen type raises the count of that type's entry by 1 in place |
| `DataCharts.DistributionCounts` | frontend/src/components/DataCharts.jsx:22-30 | each present type has exactly one entry, each entry counts exactly the items of its type and is at least 1, no entry names an absent type, and no items give no entries |
| `DataCharts.TotalCountIsLength` | frontend/src/components/DataCharts.jsx:22-30 | the counts add up to the number of items |
| `DataCharts.FirstOccurrenceOrder` | frontend/src/components/DataCharts.jsx:27 | entries are ordered by the first occurrence of their type among the items |

## Left out

- Real `fetch`, HTTP status codes and JSON parsing: each request's outcome is an argument (`Network`); the code never checks `response.ok`, so any response with a parseable body is a success.
- The concurrency of `Promise.all`: `fetchAllData` is modelled as the two fetches completing one after the other in a chosen order, each atomically after its own awaits; overlapping calls of different actions, and a request that never settles, are not modelled.
- Within `fetchHealthStatus`, Node's `res.json()` is awaited before Go's, so when Node's body fails to parse Go's body is never read; the model follows this order (`Store.CompleteHealthCheck`), and the order has no effect on the store.
- The zustand `create` and subscription machinery, reading `import.meta.env` (the two environment values are constructor arguments) and `console.log` / `console.error`.
- Numbers are integers: floating point and `NaN` are not modelled. Property access models only fields a value defines itself, not inherited ones such as `length`.
- `DataCharts.TypeDistribution`: `===` on object- or array-valued `type` fields compares references in JavaScript; the model compares values structurally.
- The rendering components (charts, table, status cards), the hardcoded `trendData` of the charts component, and both backend services (Express and Go HTTP servers, database access): presentation or I/O with no client logic.
