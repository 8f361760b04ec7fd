# Place search: store, request saga and search screen

This project models a small mobile place-search app in Dafny. The user types in a search field and gets autocomplete suggestions. After picking one, the app fetches the place's details, shows a marker there and moves the map to the place's viewport. The model has three parts:

- **The `common` store slice** (`CommonSlice`). It has three fields: autocomplete results, place details and recent searches. The slice has three reducers, and each one replaces exactly one field. The model gives both a value reducer (`Reduce` over `CommonState`) and a `CommonStore` class. The class's three setter methods each modify only their own field.
- **The request saga** (`CommonSaga`). It has two handlers. Each builds its query parameters, issues one GET request and puts the response into the store. `takeLatest` keys the two action types separately. It is modelled by one sequence token and one pending flag per trigger. Each new request gets the next token and marks its task pending. A completion writes only if it carries the latest token for its trigger while that task is still pending, and it ends the task. So a completion writes at most once, and never for a token no request carries. `Step`/`Run` describe the saga over `SagaState` values and event traces, and the latest-wins lemmas are proved about them. The `Saga` class updates the tokens, an outbox of issued requests and the store in place. Each of its methods is proved to follow `Step`.
- **The search screen** (`App`). Pure functions cover the suggestion list, the recent-search update, the geometry lookup and the viewport-to-region arithmetic. The `Screen` class holds the screen's local state: input text, option list, list visibility, marker and map region. Its methods are the three effects and the selection handler. Its invariant is that no two recent searches share a place id.

Coordinates are `real`. An HTTP call is not modelled: its result is a parameter, either `Some(body)` or `None` when the call failed (`axiosApiCall` catches every error and returns nothing).

Behaviour that follows from the code as written and is proved here:

- **Clearing does not cancel.** On empty text, the screen dispatches `setAutoCompleteApiRes([])` straight to the store. This bypasses `takeLatest`, so a pending autocomplete request is not superseded. If it completes later, its predictions replace the cleared list (`CommonSaga.ClearDoesNotCancelPending`). So suggestions cleared while a request is pending do not stay cleared.
- **Selecting can re-trigger autocomplete.** A selection writes the place's label into the text field. If that changes the text, the input effect runs again. A non-empty label then requests suggestions for itself, and an empty label clears the suggestions instead. If the label equals the text already there, the effect does not run and only the place-details request is issued (`App.SelectThenInputEffect`).

## Model

The value-level definitions `CommonSlice.Reduce` (src/reducers/common.slice.tsx:18-28), `CommonSaga.Step` (src/sagas/common.saga.tsx:54-89), `CommonSaga.AutoCompletePayload` (src/sagas/common.saga.tsx:64), `CommonSaga.PlaceDetailsOutcome` (src/sagas/common.saga.tsx:78-83) and `App.GeometryOf` (App.tsx:89) have no rows of their own. They are the value versions of the store setters, the saga's handlers and the place-details effect. The class methods in the table state them in their contracts (`State() == Reduce(...)`, `State() == Step(...)`), and the lemmas in the table are proved over them.

| member | source | states |
|---|---|---|
| `CommonSlice.CommonStore.constructor` | src/reducers/common.slice.tsx:9-13 | The store starts with no autocomplete results, an empty place-details object (present, no geometry) and no recent searches. |
| `CommonSlice.CommonStore.SetAutoCompleteApiRes` | src/reducers/common.slice.tsx:19-21 | Only the autocomplete field may change; it becomes the payload, and the other two fields keep their values. |
| `CommonSlice.CommonStore.SetPlaceDetailsApiRes` | src/reducers/common.slice.tsx:22-24 | Only the place-details field may change; it becomes the payload, and the other two fields keep their values. |
| `CommonSlice.CommonStore.SetRecentSearch` | src/reducers/common.slice.tsx:25-27 | Only the recent-search field may change; it becomes the payload, and the other two fields keep their values. |
| `CommonSlice.ReduceWritesOneField` | src/reducers/common.slice.tsx:18-28 | Each action writes its payload into its own field and leaves the other two unchanged. |
| `CommonSlice.ReduceIdempotent` | src/reducers/common.slice.tsx:19-27 | Reducing the same action twice gives the same state as reducing it once. |
| `CommonSlice.ReduceCommutes` | src/reducers/common.slice.tsx:19-27 | Two actions on different fields give the same state in either order. |
| `CommonSlice.ReduceLastWriteWins` | src/reducers/common.slice.tsx:19-27 | Of two actions on the same field, the later one alone decides the result: fields are replaced, never merged. |
| `CommonSaga.Saga.constructor` | src/sagas/common.saga.tsx:86-89 | The saga starts with no requests issued, both latest tokens at 0 and no task pending, which satisfies the token invariant. |
| `CommonSaga.Saga.StartGetAutoComplete` | src/sagas/common.saga.tsx:54-61 | Issues exactly one autocomplete request, built from `{input: payload, key}`, with the next autocomplete token, and marks that task pending. The place-details token and flag are unchanged and the token invariant is kept. |
| `CommonSaga.Saga.StartGetPlaceDetails` | src/sagas/common.saga.tsx:71-78 | Issues exactly one place-details request, built from `{place_id: payload, key}`, with the next place-details token, and marks that task pending. The autocomplete token and flag are unchanged and the token invariant is kept. |
| `CommonSaga.Saga.FinishGetAutoComplete` | src/sagas/common.saga.tsx:40-65 | A completion with the latest token, while that task is pending, writes the response's predictions if the response exists and has them, and `[]` otherwise (a failed call counts as no response), and ends the task. A stale token, or a task that already ended, writes nothing. No other field changes. |
| `CommonSaga.Saga.FinishGetPlaceDetails` | src/sagas/common.saga.tsx:78-83 | A completion with the latest token, while that task is pending, writes exactly the response's `result` if there is a response, and ends the task either way. No response (the `data.result` access throws and is caught), a stale token or an ended task writes nothing. No other field changes. |
| `CommonSaga.RunKeepsValid` | src/sagas/common.saga.tsx:86-89 | Over any event trace, the requests of each trigger keep the tokens 1, 2, …, latest, in issue order. |
| `CommonSaga.LatestIsNewest` | src/sagas/common.saga.tsx:86-89 | In a valid state, the i-th request of a trigger has token i+1, the number of requests equals the latest token, and so the latest token belongs to the newest request. |
| `CommonSaga.UnissuedCompletionIgnored` | src/sagas/common.saga.tsx:86-89 | In a valid state, a completion whose token no request of its trigger carries (token 0 included) changes nothing. |
| `CommonSaga.CompletesOnce` | src/sagas/common.saga.tsx:54-84 | A second completion with the same token changes nothing, so each task writes at most once. |
| `CommonSaga.StaleEventsSpareAutoComplete` | src/sagas/common.saga.tsx:87 | A trace with no new autocomplete request, no completion of the current one and no direct write leaves the autocomplete results, token and pending flag unchanged. Stale completions and place-details traffic are such traces. |
| `CommonSaga.StaleEventsSparePlaceDetails` | src/sagas/common.saga.tsx:88 | The same for place details: stale completions and autocomplete traffic leave the place details and their token unchanged. |
| `CommonSaga.LatestAutoCompleteWins` | src/sagas/common.saga.tsx:87 | After requests A then B, the final autocomplete results are B's payload, whatever A's completion and other traffic do before or after B completes. |
| `CommonSaga.OutOfOrderAutoComplete` | src/sagas/common.saga.tsx:87 | Issue A, issue B, B completes, then A completes: the results are B's payload. |
| `CommonSaga.LatestPlaceDetailsWins` | src/sagas/common.saga.tsx:71-88 | After requests A then B, the final place details are B's `result` if B's call returned a body. Otherwise they are what they were before both requests: A's completion never writes. |
| `CommonSaga.TriggersIndependent` | src/sagas/common.saga.tsx:86-89 | Only a new request of a trigger, or the completion of its current task, changes that trigger's latest token or pending flag. The other trigger's traffic and direct writes never do. |
| `CommonSaga.PendingAutoCompleteSurvives` | src/sagas/common.saga.tsx:86-89 | A pending autocomplete request stays current through any events other than a newer autocomplete request or its own completion, place-details requests and direct writes included. So its completion writes its payload. |
| `CommonSaga.PendingPlaceDetailsSurvives` | src/sagas/common.saga.tsx:86-89 | A pending place-details request stays current through any events other than a newer place-details request or its own completion. So its completion with a body writes that body's `result`. |
| `CommonSaga.ClearDoesNotCancelPending` | App.tsx:66-72 | Clearing the results directly while an autocomplete request is pending does not supersede it: its later completion replaces the cleared list. |
| `App.PredictionOptions` | App.tsx:76-80 | One suggestion per prediction, in the same order, with label = description and value = place id. |
| `App.DataOptions` | App.tsx:74-87 | With autocomplete results, the options are their suggestions one per prediction, in order. With none but recent searches, the options are the recent searches. With neither, there are none. |
| `App.FindByValue` | App.tsx:106-108 | Finds nothing exactly when no entry has the place id. Otherwise it returns the first entry with that place id. |
| `App.WithSelected` | App.tsx:106-111 | If some recent search has the selected place's id, the list is unchanged: no new entry, no reordering. Otherwise the result is the place followed by the old list in its original order. |
| `App.WithSelectedKeepsDistinct` | App.tsx:106-111 | If no two recent searches share a place id before a selection, the same holds after it. The list grows by at most one entry and contains the selected place id. |
| `App.WithSelectedIdempotent` | App.tsx:106-111 | Selecting the same place twice gives the same recent searches as selecting it once. |
| `App.SelectionsKeepDistinct` | App.tsx:100-112 | Over any series of selections, the place ids stay distinct and the list grows by at most one entry per selection. Every entry is an old entry or a selected place. |
| `App.RegionFor` | App.tsx:114-125 | Center plus half the delta gives the viewport's northeast corner, and center minus half the delta gives its southwest corner, for latitude and longitude. There is no normalisation, so negative deltas pass through. |
| `App.RegionDeterminedByCorners` | App.tsx:117-125 | Any region whose center ± half-delta gives the viewport's corners is `RegionFor` of that viewport. |
| `App.RegionExample` | App.tsx:117-125 | Northeast (10, 20) and southwest (0, 0) give center (5, 10) with deltas (10, 20). |
| `App.Screen.constructor` | App.tsx:53-57 | The screen starts with empty input, no options, the list hidden and no marker. The map starts at its initial region (lines 157-162). The store is in its initial state and the saga has issued nothing. |
| `App.Screen.ChangeText` | App.tsx:171 | The text field's new text becomes the input. |
| `App.Screen.InputEffect` | App.tsx:66-72 | Non-empty input issues exactly one autocomplete request, carrying exactly that text, marks it pending and writes nothing. Empty input sets the autocomplete results to `[]` and issues no request. Nothing else changes. |
| `App.Screen.OptionsEffect` | App.tsx:74-87 | The option list becomes `DataOptions` of the current autocomplete results and recent searches. |
| `App.Screen.PlaceDetailsEffect` | App.tsx:89-98 | When the place details have a geometry, the marker goes to its location and the map region to `RegionFor` of its viewport. Without one, the marker and the region are unchanged. |
| `App.Screen.SelectPlace` | App.tsx:100-112 | Hides the list, sets the input to the place's label and clears the marker. Issues exactly one place-details request, for the place's id, and marks it pending. Sets the recent searches to `WithSelected` of the old list. Writes nothing else and keeps the distinct-ids invariant. |
| `App.SearchParis` | App.tsx:66-87 | Typing "Paris" issues one request for "Paris". Receiving the prediction ("Paris, France", "p1") makes that place the only option and ends the task. |
| `App.SelectParis` | App.tsx:66-112 | After that, selecting the option hides the list, puts "Paris, France" in the text field and makes the place the only recent search. It issues the place-details request for "p1", and the changed text makes the input effect request suggestions for "Paris, France": three requests in all, both latest tasks pending. |
| `App.EndToEndSearch` | App.tsx:66-128 | After the selection the place's geometry arrives: the place-details task ends, the marker goes to the place's location and the map to the region for its viewport, and the three requests, the text, the list and the recent searches stay as they were. |
| `App.SelectThenInputEffect` | App.tsx:66-112 | A selection followed by the input effect, run only if the label changed the text. The list is hidden, the label is the text, the recent searches are `WithSelected` of the old ones, and the place-details request is pending. A new non-empty label gives two requests: place details for the place's id, then autocomplete for its label. A new empty label gives the place-details request and clears the suggestions. An unchanged label gives only the place-details request and leaves the suggestions alone. |

## Left out

- HTTP: the axios GET and the `console.log` calls in `axiosApiCall` are not modelled. A response is a parameter of the completion methods: `Some(body)` on success, `None` on any failure.
- Query strings: `commonService.getUrlSearchParam` is not part of this model. A request carries the parameter list it is built from, not a URL, and no encoding is claimed.
- Configuration: `API_URL` and `GOOGLE_MAP_API_KEY` come from a constants file that is not part of this model. The key is a parameter of the saga's constructor, and the endpoint is named by the request's trigger.
- Saga internals: the `takeLatest` cancellation machinery (generators, task cancellation) is abstracted to a sequence token and a pending flag per trigger. Only its observable effect is modelled: latest wins, and a task finishes once.
- React scheduling: the effects are separate methods. When React runs them (after a render in which their dependencies changed) is not modelled, and neither is the selection handler's capture of `recentSearch` from the last render.
- UI: rendering, styles, `Keyboard.dismiss`, the focus and blur toggles, the clear button, the list header, the list's visibility condition, and the MapView and Marker widgets are not modelled. `animateToRegion(…, 600)` is recorded only as the screen's `region` field; its duration is not modelled.
- Store wiring: `src/store.tsx` (store and middleware setup) has no logic, so it is not modelled.
- Dead code: the commented-out fetch helpers in the saga file are not modelled.
- Untyped JSON: response shapes are typed. A geometry without `location` or `viewport`, and `predictions` that is not an array, are not modelled; in the source they would throw or misbehave at run time.
- `App.RegionFor`: uses exact `real` arithmetic. Floating-point rounding is not modelled, and neither is antimeridian handling (the source does none).
