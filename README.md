# Cities store: reducer and provider operations

This project models the state container of the worldWise city list
(`src/contexts/CitiesContext.jsx`). The container holds four fields: the list of
cities, a loading flag, the selected city and the last error. Every change goes
through a reducer that maps the current state and one action to the next state.
The provider runs the operations. Each one dispatches `loading`, awaits one
network call, and then dispatches the action that the call's outcome calls for.

- `cities_state.dfy`, module `CitiesState`. It holds the data model, the reducer
  `Reduce` with one lemma per action kind, and `RemoveById`, the deletion filter.
  `RemoveById` is proved equal to an independent description, `IsRemovalOf`.
  The module also holds `Replay`, which dispatches a sequence of actions, and
  the action sequence each of the four operations dispatches, with one lemma
  per operation about where it leaves the store.
- `cities_provider.dfy`, module `CitiesProvider`. It holds the class `Store`,
  with the `state` field and a ghost log of every dispatched action. `Dispatch`
  models React's `dispatch`. `FetchCities`, `GetCity`, `CreateCity` and
  `DeleteCity` dispatch step by step. The invariant `Valid()` says the state is
  always the reducer folded over the log from the initial state.

Modelling choices:

- A city is `City(id, info)` with generic `Id` and `Info`. The store reads only the id.
- The empty record `{}` that `currentCity` starts as is `None`.
- An action type outside the six is `Unknown(kind)`. The reducer's `throw` is a
  `Failure("Unknown action type")` result.
- A network call is a `Response<T>` parameter: `Delivered(body)` when `fetch` and
  `res.json()` both resolve, `Failed` when either throws.
- The constructor is the mount: the initial state, then the mount effect's one
  `fetchCities`. The provider does not hand `fetchCities` to its consumers.

Two behaviours of the code are worth stating outright:

- A successful load does not clear an earlier error: no action other than
  `rejected` touches `error` (`Reduce`, `StaleErrorPersists`).
- A `deleteCity` whose request throws dispatches nothing after `loading`, so the
  store stays loading with `cities` and `error` unchanged (`DeleteCityOutcome`,
  `CitiesProvider.Store.DeleteCity`).

## Model

| member | source | states |
|---|---|---|
| `CitiesState.Reduce` | src/contexts/CitiesContext.jsx:19-62 | the reducer fails exactly on an unknown action type, with "Unknown action type"; `loading` raises the flag and every other action lowers it; `cities` changes only under loaded/created/deleted, `currentCity` only under `city/loaded`, `error` only under `rejected` |
| `CitiesState.LoadingSetsFlag` | src/contexts/CitiesContext.jsx:21-22 | `loading` sets `isLoading`; cities, selected city and error unchanged |
| `CitiesState.CitiesLoadedReplaces` | src/contexts/CitiesContext.jsx:24-29 | `cities/loaded` makes `cities` exactly the payload and clears the flag; selected city and a stale error are kept |
| `CitiesState.CityLoadedSelects` | src/contexts/CitiesContext.jsx:31-36 | `city/loaded` selects the payload and clears the flag; cities and error unchanged |
| `CitiesState.CityCreatedAppends` | src/contexts/CitiesContext.jsx:38-43 | `cities/created` grows the list by one; the old list is a prefix and the payload is last; flag cleared, other fields unchanged |
| `CitiesState.CityDeletedRemoves` | src/contexts/CitiesContext.jsx:45-50 | `cities/deleted` leaves no city with that id, keeps the others in order, membership is "was there and has another id", length never grows, the list is unchanged when no city has the id; the selected city stays selected |
| `CitiesState.CityDeletedIdempotent` | src/contexts/CitiesContext.jsx:45-50 | a second `cities/deleted` with the same id leaves the state as the first one did |
| `CitiesState.RejectedRecordsError` | src/contexts/CitiesContext.jsx:52-57 | `rejected` sets `error` to the payload and clears the flag; cities and selected city unchanged |
| `CitiesState.UnknownActionFails` | src/contexts/CitiesContext.jsx:59-60 | any other action type yields the "Unknown action type" error and no state |
| `CitiesState.CountId` | src/contexts/CitiesContext.jsx:49 | the number of cities carrying an id is at most the length, and zero exactly when no city carries it |
| `CitiesState.RemoveById` | src/contexts/CitiesContext.jsx:49 | the filter keeps a subsequence with no city of that id, dropping exactly the cities that carry it; every kept city was in the input, every city with another id is kept, and the list is unchanged when the id does not occur |
| `CitiesState.SubsequenceAvoidingBound` | src/contexts/CitiesContext.jsx:49 | a subsequence avoiding an id is no longer than the list without that id's cities |
| `CitiesState.RemovalIsUnique` | src/contexts/CitiesContext.jsx:49 | any list meeting the removal description equals the filter's result, so the description determines it |
| `CitiesState.RemoveByIdIdempotent` | src/contexts/CitiesContext.jsx:49 | filtering an id out twice equals filtering it out once |
| `CitiesState.InitialState` | src/contexts/CitiesContext.jsx:13-18 | the store starts with no cities, not loading, nothing selected and an empty error |
| `CitiesState.FetchCitiesActions` | src/contexts/CitiesContext.jsx:73-91 | `fetchCities` dispatches exactly two actions, both known: `loading`, then `cities/loaded` with the reply when the request succeeds, or `rejected` with the load message when it throws |
| `CitiesState.GetCityActions` | src/contexts/CitiesContext.jsx:95-115 | `getCity` dispatches exactly two actions, both known: `loading`, then `city/loaded` with the reply, or `rejected` with the load message when the request throws |
| `CitiesState.CreateCityActions` | src/contexts/CitiesContext.jsx:117-148 | `createCity` dispatches exactly two actions, both known: `loading`, then `cities/created` with the server's reply, or `rejected` with the load message when the request throws |
| `CitiesState.DeleteCityActions` | src/contexts/CitiesContext.jsx:150-167 | `deleteCity` dispatches `loading`, then `cities/deleted` with the given id when the request succeeds, and nothing more when it throws; it never dispatches `rejected` |
| `CitiesState.RemovalSkipsHead` | src/contexts/CitiesContext.jsx:49 | a removal whose list starts with a city of that id equals the filter's result (one case of `RemovalIsUnique`) |
| `CitiesState.RemovalKeepsHead` | src/contexts/CitiesContext.jsx:49 | a removal whose list starts with a city of another id equals the filter's result (the other case of `RemovalIsUnique`) |
| `CitiesState.Replay` | src/contexts/CitiesContext.jsx:69 | dispatching a sequence of actions succeeds exactly when none of them is of unknown type |
| `CitiesState.ReplayAppend` | src/contexts/CitiesContext.jsx:69 | dispatching two sequences in turn is dispatching the second from the state the first left |
| `CitiesState.FetchCitiesOutcome` | src/contexts/CitiesContext.jsx:73-91 | after `fetchCities` the store is not loading and the selection is unchanged; on success `cities` is the reply and the error unchanged; on failure `cities` is unchanged and the error is the load message |
| `CitiesState.GetCityOutcome` | src/contexts/CitiesContext.jsx:95-115 | after `getCity` the store is not loading and `cities` is unchanged; on success the reply is selected and the error unchanged; on failure the selection is unchanged and the error is the load message |
| `CitiesState.CreateCityOutcome` | src/contexts/CitiesContext.jsx:117-148 | after `createCity` the store is not loading and the selection is unchanged; on success the server's reply is appended; on failure `cities` is unchanged and the error is the load message |
| `CitiesState.DeleteCityOutcome` | src/contexts/CitiesContext.jsx:150-167 | after `deleteCity` the selection and error are unchanged; on success the store is not loading and the id is filtered out; on failure the store is still loading and `cities` is unchanged |
| `CitiesState.MountOutcome` | src/contexts/CitiesContext.jsx:72-93 | the mount effect run from `initialState` (lines 13-18: no cities, not loading, nothing selected, empty error): the first load gives the reply with an empty error, or an empty list with the load message |
| `CitiesState.FetchCitiesTwice` | src/contexts/CitiesContext.jsx:73-91 | loading the list twice with the same reply ends in the same state as loading it once |
| `CitiesState.StaleErrorPersists` | src/contexts/CitiesContext.jsx:24-29 | a successful load after a failed one installs the list but keeps the load error |
| `CitiesProvider.Store.constructor` | src/contexts/CitiesContext.jsx:69-93 | mounting logs exactly one `fetchCities` from the initial state, which leaves the store not loading and nothing selected, holding the reply or the load message |
| `CitiesProvider.Store.Dispatch` | src/contexts/CitiesContext.jsx:69 | one dispatch appends the action to the log and moves the state one reducer step, keeping state equal to the fold of the log |
| `CitiesProvider.Store.FetchCities` | src/contexts/CitiesContext.jsx:73-91 | logs `loading` then `cities/loaded` or `rejected`, and leaves the state that `FetchCitiesOutcome` describes |
| `CitiesProvider.Store.GetCity` | src/contexts/CitiesContext.jsx:95-115 | logs `loading` then `city/loaded` or `rejected`, and leaves the state that `GetCityOutcome` describes |
| `CitiesProvider.Store.CreateCity` | src/contexts/CitiesContext.jsx:117-148 | logs `loading` then `cities/created` or `rejected`, and leaves the state that `CreateCityOutcome` describes |
| `CitiesProvider.Store.DeleteCity` | src/contexts/CitiesContext.jsx:150-167 | logs `loading` then `cities/deleted`, or only `loading` when the request throws, and leaves the state that `DeleteCityOutcome` describes |

## Left out

- `fetch`, `res.json()`, `BASE_URL`, the request bodies and headers, and the
  stray space at the end of the create and delete URLs: network I/O and decoding. Each call is
  only its outcome. `fetch` also resolves on an HTTP error status, so such a
  reply counts as `Delivered` here, as it does in the code.
- JavaScript's `!==` compares a number and a string id as different. The model
  has one `Id` type with Dafny equality.
- React plumbing: `createContext`, `useReducer`, `useEffect`, the provider's
  render, and the `useCities` guard against use outside the provider. These belong to the framework.
  The context value omits `error`. The model keeps `error` in the state, where
  the reducer keeps it.
- `alert(...)` in `deleteCity`: a UI side effect. It appears only as "no further dispatch".
- Overlapping operations and racing replies: operations run one at a time, and
  each one's `loading` and outcome dispatches are adjacent in the log.
- The commented-out `useState` code: dead code.
