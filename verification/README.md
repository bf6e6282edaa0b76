# Incident tracker views, modelled in Dafny

A model of the logic inside the three views of a small incident-tracking web UI.

- **Incident list**: holds the severity selection, status filter, search text and current page. It builds
  the query for one page of incidents (`page`, `limit=5`, the comma-joined `severity` list, `status`).
  It then filters the returned page by title, case-insensitively, and records the outcome of each fetch
  (`loading`, `error`, `incidents`, `totalPages`).
- **Incident detail**: loads one incident into an editable draft, filling in a default for every absent
  field. A load that finishes after the view moved on (`cancelled`) is dropped. Edits change one field
  at a time. Save sends a five-field partial update in which an empty owner or summary becomes null,
  and the `saving` flag is cleared on every outcome.
- **Create incident**: edits a draft record field by field and submits the whole draft. The view
  navigates to the list only when the creation succeeds. Cancel restores the initial draft.

Each view's state is a class (`ListView`, `DetailView`, `CreateView`) whose methods are the event
handlers. A method's `modifies` clause names the fields it changes, and its `ensures` gives the new
state. Record edits, the query, the search filter, the load mapping and the payload are pure functions,
and lemmas state their properties. `Text` models the JavaScript string built-ins the views use: `trim`,
`toLowerCase`, `includes`, `join`, and the decimal rendering of a page number. `Sequences` models
`Array.prototype.filter`.

Network responses enter as values: a status, a decoded body or a decode failure, a network failure,
or an abort. Navigation is recorded as the list of routes requested. The locale's date formatting is a
function parameter.

Behaviour of the code worth noting:
- After a successful create the code does not reset the draft; it only navigates away.
- A list fetch superseded by a newer one still runs its `finally`, so it clears `loading` even while the
  newer fetch is in flight. `CompleteFetch(Aborted)` sets `loading` to false.
- The severity selection is an ordered list, not a set. A newly checked severity goes at the end, and
  that order is the order of the `severity` parameter.

## Model

| member | source | states |
|---|---|---|
| `IncidentList.Toggle` | src/component/IncidentList/IncidentList.jsx:19-24 | the toggled severity is in the result exactly when it was not in the selection |
| `IncidentList.ToggleSelected` | src/component/IncidentList/IncidentList.jsx:21-22 | unchecking a selected severity removes every occurrence, keeps the order of the rest, and keeps every other severity's count |
| `IncidentList.ToggleUnselected` | src/component/IncidentList/IncidentList.jsx:23 | checking an unselected severity appends it at the end and changes nothing else |
| `IncidentList.ToggleTwice` | src/component/IncidentList/IncidentList.jsx:20-24 | checking and then unchecking an unselected severity restores the selection exactly |
| `IncidentList.ToggleNoDuplicates` | src/component/IncidentList/IncidentList.jsx:19-24 | toggling keeps a duplicate-free selection duplicate-free, so the selection behaves as a set |
| `IncidentList.BuildQuery` | src/component/IncidentList/IncidentList.jsx:49-61 | the keys are `page`, `limit`, then `severity` only if the selection is non-empty, then `status` only if the filter is not "all"; the values are the page in decimal, "5", the selection comma-joined in order, and the status |
| `IncidentList.SeverityParamRoundTrip` | src/component/IncidentList/IncidentList.jsx:55 | splitting the `severity` value at commas gives back exactly the selected severities, in order |
| `IncidentList.TitleMatches` | src/component/IncidentList/IncidentList.jsx:76 | only a titled incident can match, and the empty query matches every titled incident |
| `IncidentList.SearchFilter` | src/component/IncidentList/IncidentList.jsx:73-78 | the shown incidents come from the returned page and are no more than it; the filter fails only when some incident has no title |
| `IncidentList.SearchBlank` | src/component/IncidentList/IncidentList.jsx:73-74 | a query that trims to empty shows the returned page unchanged |
| `IncidentList.SearchNonBlank` | src/component/IncidentList/IncidentList.jsx:74-78 | a non-blank query shows an order-preserving subsequence of the page: matching incidents keep all their occurrences, others are dropped, and the result is no longer than the page |
| `IncidentList.SearchMissingTitle` | src/component/IncidentList/IncidentList.jsx:76 | a non-blank query over a page with an untitled incident fails, because reading the title throws |
| `IncidentList.SearchCaseBlind` | src/component/IncidentList/IncidentList.jsx:76 | lower-casing the query first does not change what is shown |
| `IncidentList.SearchExample` | src/component/IncidentList/IncidentList.jsx:73-78 | searching "db" over "DB down" and "Auth fail" shows only "DB down" |
| `IncidentList.ErrorText` | src/component/IncidentList/IncidentList.jsx:84 | the recorded error text is never empty: a non-empty message is kept as is, an empty one becomes "Failed to fetch" |
| `IncidentList.TotalPagesOf` | src/component/IncidentList/IncidentList.jsx:81 | the page count is never 0: a present non-zero count is kept, an absent or zero one becomes 1 |
| `IncidentList.FetchOutcome` | src/component/IncidentList/IncidentList.jsx:69-87 | a fetch is ignored exactly when it was aborted; a failure always carries a non-empty message; a network failure or an undecodable 2xx body records its message through `ErrorText` ("Failed to fetch" when empty); incidents are shown only after a 2xx response, with a non-zero page count |
| `IncidentList.HttpErrorMessage` | src/component/IncidentList/IncidentList.jsx:69 | a non-2xx status fails with "HTTP " followed by the status |
| `IncidentList.SuccessBlankSearch` | src/component/IncidentList/IncidentList.jsx:70-81 | a 2xx response with a blank search shows `data` (or nothing when absent) and `totalPages` or 1 |
| `IncidentList.SuccessSearch` | src/component/IncidentList/IncidentList.jsx:73-81 | a 2xx response with a non-blank search over titled incidents shows exactly the matching incidents of `data`, in order, with `totalPages` or 1 |
| `IncidentList.SuccessSearchMissingTitle` | src/component/IncidentList/IncidentList.jsx:74-84 | a 2xx response with a non-blank search over a page holding an untitled incident fails with the thrown error's message |
| `IncidentList.ListView.constructor` | src/component/IncidentList/IncidentList.jsx:7-15 | the initial state: selection ["SEV1"], empty search, status "all", page 1, no incidents, not loading, no error, 1 page |
| `IncidentList.ListView.ToggleService` | src/component/IncidentList/IncidentList.jsx:19-26 | the selection is toggled and the page goes back to 1; the selection stays a duplicate-free list of known severities |
| `IncidentList.ListView.SetStatusFilter` | src/component/IncidentList/IncidentList.jsx:175-178 | the status filter takes the chosen value and the page goes back to 1 |
| `IncidentList.ListView.SetSearchQuery` | src/component/IncidentList/IncidentList.jsx:190 | the search text changes and the page does not |
| `IncidentList.ListView.ApplyFilter` | src/component/IncidentList/IncidentList.jsx:194 | the Filter button sets the page to 1 |
| `IncidentList.ListView.GoToPage` | src/component/IncidentList/IncidentList.jsx:285-288 | a page button sets the page to that button's number |
| `IncidentList.ListView.BeginFetch` | src/component/IncidentList/IncidentList.jsx:45-61 | a fetch starts with loading on and the error cleared, and sends the query of the current state: the same keys in the same order and the same values as `BuildQuery` |
| `IncidentList.ListView.CompleteFetch` | src/component/IncidentList/IncidentList.jsx:69-87 | loading always ends off; an abort changes nothing else; a failure sets the error and keeps the previous incidents; a success replaces the incidents and the page count |
| `IncidentDetail.WithField` | src/component/IncidentDetails/IncidentDetail.jsx:58-64 | the named field takes the new value and every other field keeps its value |
| `IncidentDetail.WithFieldSame` | src/component/IncidentDetails/IncidentDetail.jsx:58-64 | writing a field's current value leaves the draft equal |
| `IncidentDetail.WithFieldCommute` | src/component/IncidentDetails/IncidentDetail.jsx:58-64 | edits of two different fields commute |
| `IncidentDetail.OrDefault` | src/component/IncidentDetails/IncidentDetail.jsx:32-40 | a present, non-empty server value is kept; an absent, null or empty one becomes the default |
| `IncidentDetail.ToDraft` | src/component/IncidentDetails/IncidentDetail.jsx:31-41 | a loaded draft never has an empty severity or status |
| `IncidentDetail.LoadedField` | src/component/IncidentDetails/IncidentDetail.jsx:31-41 | each draft field is its server field (`owner` for the assignee, the formatted `createdAt` for the date) when present and non-empty, and otherwise the initial draft's value |
| `IncidentDetail.EmptyIncidentLoadsInitialDraft` | src/component/IncidentDetails/IncidentDetail.jsx:9-17 | loading an incident with every field missing yields exactly the initial draft |
| `IncidentDetail.OrNull` | src/component/IncidentDetails/IncidentDetail.jsx:78-79 | the result is null exactly when the value is empty, and otherwise the value |
| `IncidentDetail.MakePayload` | src/component/IncidentDetails/IncidentDetail.jsx:74-80 | title, severity and status are the draft's; owner is null exactly when the assignee is empty and otherwise the assignee; summary is null exactly when the draft's summary is empty and otherwise that summary |
| `IncidentDetail.PayloadIgnoresReadOnlyFields` | src/component/IncidentDetails/IncidentDetail.jsx:74-80 | the payload does not depend on the service or the displayed date, so they are never sent |
| `IncidentDetail.UntouchedRoundTrip` | src/component/IncidentDetails/IncidentDetail.jsx:74-80 | loading then saving untouched sends the server's title, severity and status (defaults filled in), and its owner and summary, with absent or empty ones as null |
| `IncidentDetail.Delivered` | src/component/IncidentDetails/IncidentDetail.jsx:87-91 | an incident is delivered only by a 2xx response, and a 2xx response delivers its decoded body (none when the body does not decode) |
| `IncidentDetail.DetailView.constructor` | src/component/IncidentDetails/IncidentDetail.jsx:9-19 | the initial draft, not saving, not loading, no navigation |
| `IncidentDetail.DetailView.StartLoad` | src/component/IncidentDetails/IncidentDetail.jsx:21-25 | without an id nothing is requested and nothing changes; with one, loading goes on |
| `IncidentDetail.DetailView.CompleteLoad` | src/component/IncidentDetails/IncidentDetail.jsx:26-46 | after cancellation neither the draft nor loading changes; otherwise loading goes off and the draft becomes the delivered incident's draft, or stays as it was on failure |
| `IncidentDetail.DetailView.UpdateField` | src/component/IncidentDetails/IncidentDetail.jsx:58-64 | only the named field of the draft changes |
| `IncidentDetail.DetailView.BeginSave` | src/component/IncidentDetails/IncidentDetail.jsx:66-80 | without an id nothing is sent and saving is not set; with one, saving goes on and the payload of the current draft is sent |
| `IncidentDetail.DetailView.CompleteSave` | src/component/IncidentDetails/IncidentDetail.jsx:87-98 | saving always ends off; the view navigates to "/" only on success; the draft is untouched |
| `IncidentDetail.DetailView.Cancel` | src/component/IncidentDetails/IncidentDetail.jsx:101-104 | navigates to "/" and leaves the draft unchanged |
| `CreateIncident.WithField` | src/component/CreateIncident/CreateIncident.jsx:21-27 | the named field takes the new value and every other field keeps its value |
| `CreateIncident.WithSeverity` | src/component/CreateIncident/CreateIncident.jsx:29-34 | the severity takes the new value and the other five fields keep theirs |
| `CreateIncident.WithSeverityIsFieldEdit` | src/component/CreateIncident/CreateIncident.jsx:29-34 | the severity buttons do the same as a generic edit of the severity field |
| `CreateIncident.Succeeded` | src/component/CreateIncident/CreateIncident.jsx:45-55 | a creation succeeds only on a 2xx response whose body decodes, never on a network failure |
| `CreateIncident.Notice` | src/component/CreateIncident/CreateIncident.jsx:45-59 | the success alert is shown exactly on a 2xx response whose body decodes; the failure alert exactly on a non-2xx response whose body decodes; otherwise "Something went wrong" |
| `CreateIncident.CreateView.constructor` | src/component/CreateIncident/CreateIncident.jsx:8-15 | the initial draft has severity "SEV1" and every other field "" |
| `CreateIncident.CreateView.UpdateField` | src/component/CreateIncident/CreateIncident.jsx:21-27 | only the named field of the draft changes |
| `CreateIncident.CreateView.SetSeverity` | src/component/CreateIncident/CreateIncident.jsx:29-34 | only the severity changes |
| `CreateIncident.CreateView.Submit` | src/component/CreateIncident/CreateIncident.jsx:36-60 | the whole draft is sent unvalidated; the draft does not change; the view navigates to "/" exactly when the creation succeeded |
| `CreateIncident.CreateView.Cancel` | src/component/CreateIncident/CreateIncident.jsx:62-71 | the draft becomes exactly the initial draft from any state, so a second cancel changes nothing |
| `Text.TrimEmptyIff` | src/component/IncidentList/IncidentList.jsx:74 | `trim()` yields "" exactly when every character is whitespace |
| `Text.ContainsIff` | src/component/IncidentList/IncidentList.jsx:76 | `includes` holds exactly when the text occurs at some position |
| `Text.SplitJoin` | src/component/IncidentList/IncidentList.jsx:55 | splitting a comma-join at commas gives back the pieces when no piece holds a comma |
| `Text.ParseNatToString` | src/component/IncidentList/IncidentList.jsx:50 | reading the decimal rendering of the page gives back the page number |
| `Sequences.KeepCount` | src/component/IncidentList/IncidentList.jsx:75-77 | filtering keeps every occurrence of a kept element and none of a dropped one |
| `Sequences.KeepIsSubsequence` | src/component/IncidentList/IncidentList.jsx:75-77 | filtering keeps the original order |

## Left out

- Network I/O (`fetch`, `res.json()`, `JSON.stringify`) is not modelled. A response is an input value; a request body is a record, not bytes.
- `URLSearchParams.toString` and its percent-encoding are not modelled. The query is the list of key/value pairs, so the comma of the `severity` value is not shown as `%2C`.
- `AbortController` and React's effect scheduling are not modelled. Whether a list fetch was superseded (`Aborted`) and whether a detail load was `cancelled` are inputs to the completion step.
- `toLocaleDateString` is not modelled: `ToDraft` takes the date rendering as a function parameter.
- `toLowerCase` is modelled for the ASCII letters A-Z only; other Unicode case mappings are left out.
- Non-string JSON values in a string field (numbers, booleans) are not modelled. A field is either a string or absent/null.
- The text of the error thrown when the search reads a missing title comes from the JavaScript engine. `FetchOutcome` takes it as the parameter `titleError`.
- Rendering is not modelled: the JSX markup, the styling, `getStatusStyles` and the "Page 1 of" label.
- The page buttons keep their hard-coded targets `[1, 2, 3, 3, 10]` (`PageButtons`), which do not depend on `totalPages`. Only their effect on `currentPage` is modelled.
- `alert` (except for the create view's alert text, returned by `Submit`), `console.*`, `navigate` internals and the `API_BASE_URL` configuration are left out. Navigation is recorded as the route requested.
- The routing in `src/App.jsx` only wires the three views to their paths and is not part of this model.
- `IncidentDetail.DetailView.UpdateField`: the source's `[name]: value` can add any key to the draft. The model restricts `name` to the draft's seven fields. The form itself supplies only `severity`, `status`, `assignedTo` and `summary`.
- The disabled state of the save button while `saving` is not modelled. `BeginSave` may be called at any time.
- The create view has no guard against submitting twice. The model does not add one; each `Submit` is one request.
