# Weather observation client: access layer and observation form

A Dafny model of the two pieces of decision logic in a small React client
that records weather observations:

- **The access layer** (`src/utils/api.js`).
  - `fetchJson` is modelled as a pure classifier (`Api.FetchJson`). It maps
    what the transport produced onto exactly one of four outcomes: resolve to
    `null`, resolve to `payload.data`, resolve to `undefined`, or reject with
    a message. The transport result is an input: a response with its status
    and body, where the body either parsed or threw, or a thrown error.
  - The five builders (`createObservation`, `listObservations`,
    `readObservation`, `updateObservation`, `deleteObservation`) are pure
    functions. Each returns the argument list it hands to `fetchJson`
    (`Api.Invocation`), from which the request `fetch` receives is derived
    (`Api.Issued`). `fetchJson` declares only `url` and `options`, so
    `Issued` drops the third argument that read and update pass.
  - The builders' partner is `Api.Decode`. It reads a request back into the
    operation and signal that produced it, working from the request's method,
    URL, headers and body, and it refuses anything no builder sends. It is the
    left inverse of the builders, and the two are proved inverse in both
    directions.
- **The observation form** (`src/observations/ObservationForm.js`) is
  modelled as a state machine.
  - The state is the mode and route id (fixed props), the draft record, the
    error, and the last path pushed to history. A flag says whether the
    edit-mode read is still in flight, and a counter says how many submit
    calls have not settled.
  - Each awaited continuation is one atomic event:
    - the read settling;
    - a field change;
    - a submit;
    - a submit call settling;
    - cancel.
  - A transition yields the access-layer call it makes (`Api.ApiCall`).
    `Api.Sent` turns that call into the request, so the form's properties
    reach down to URLs and bodies.
  - `ObservationForm.Run` folds events into a final state and the list of
    calls made. `ObservationForm.Session` adds the first render and its
    effect.
- **The form's declared constraints.** These are the `required`, `min`/`max`
  and option lists that the browser enforces before the submit handler runs.
  They are modelled as `ObservationForm.Valid`, over a table of
  `ObservationForm.Constraints`.
  - Number inputs are parsed by `NumberInput.ParseNumber` into a decimal
    kept as an integer mantissa and a power-of-ten scale, so nothing uses
    floating point.
  - The model accepts a value when, compared exactly as a decimal, it is a
    whole number (the default step of 1 from an integral minimum) within its
    range. The browser rounds to the nearest double first; see
    `NumberInput.NumberFieldValid` under "## Left out".

Two places where the code does something other than what its comments or
its structure suggest. The model follows the code:

- The doc comment of `fetchJson` (`src/utils/api.js:24`) says a status
  outside 200–399 rejects the promise. The code never looks at the status
  except for 204: a payload with a truthy `error` rejects whatever the
  status, and otherwise `data` is returned even for a 500
  (`Api.StatusNeverChecked`).
- The edit-mode effect creates an `AbortController`
  (`src/observations/ObservationForm.js:24`) but never passes its signal to
  `readObservation` (`:28`). It also calls `abort()` at once (`:36`) instead
  of returning it as the cleanup. The read therefore carries no signal, and
  nothing can cancel it (`ObservationForm.EditReadNeverCancelled`).

## Model

| member | source | states |
|---|---|---|
| Api.FetchJsonOutcomes | src/utils/api.js:26-51 | Each of the four outcomes happens exactly when its circumstance holds. Null means a 204 response. Rejection means a non-abort exception (with its message) or a payload with a truthy `error` (with that text). Data means a non-204 payload with a falsy `error` and a present `data`, and the result is that `data`. Undefined means an `AbortError` or a falsy `error` with no `data`. |
| Api.TransportPartition | src/utils/api.js:26-51 | Every transport result is exactly one of: a no-content response, an exception raised in the try block, or a payload that gets inspected. |
| Api.NoContentIgnoresBody | src/utils/api.js:31-34 | A 204 resolves to null whatever the body is, even one that would not parse. |
| Api.StatusNeverChecked | src/utils/api.js:29-42 | Any two statuses other than 204 give the same outcome for the same body: the status range is never consulted. |
| Api.PayloadErrorRejects | src/utils/api.js:38-41 | A non-empty `error` field rejects with exactly that text, whatever the status and whatever `data` holds. |
| Api.FalsyErrorResolvesData | src/utils/api.js:38-42 | A missing or empty `error` field falls through, and the call resolves to `data` even on an error status. |
| Api.RequestShapes | src/utils/api.js:54-98 | Create POSTs `{ data: observation }` with JSON headers to the collection URL. List GETs the same URL with headers and no body. Read GETs the item URL with no headers and no body. Update PUTs `{ data: observation }` with headers to the item URL of its `observation_id`, or of "undefined" when that key is absent. Delete sends DELETE to the item URL with no headers and no body. |
| Api.DecodeBuild | src/utils/api.js:54-98 | `Decode` reads every built request back to the operation and signal it was built from. |
| Api.BuildDecode | src/utils/api.js:54-98 | Conversely, every request `Decode` accepts is exactly what the builder for its decoded operation sends. |
| Api.BuildInjective | src/utils/api.js:54-98 | Different operations or signals never produce the same request. |
| NumberInput.ParseIntString | src/observations/ObservationForm.js:95-105 | The text a number input shows for a whole number parses back to that number, with no fractional digits. |
| NumberInput.IntStringValid | src/observations/ObservationForm.js:95-105 | For the rendering of a whole number, the input's constraint holds if and only if the number lies within [min, max]. |
| NumberInput.ValidIsWholeInRange | src/observations/ObservationForm.js:95-105 | Any text an input accepts denotes a whole number within [min, max]. |
| NumberInput.EmptyIsInvalid | src/observations/ObservationForm.js:104 | An empty number input fails its `required` constraint, whatever the range. |
| NumberInput.WholeFractionExample | src/observations/ObservationForm.js:95-105 | "45.0" is accepted by the latitude input: a zero fraction is still a whole number. |
| NumberInput.StepMismatchExample | src/observations/ObservationForm.js:95-105 | "45.5" is refused by the latitude input: a non-zero fraction is a step mismatch. |
| ObservationForm.EmptyDraft | src/observations/ObservationForm.js:15-21 | The initial draft has exactly the five field names as keys, each holding "". |
| ObservationForm.ValidMeansFilledIn | src/observations/ObservationForm.js:95-192 | Every field is required: a draft that passes the constraints has all five fields present and non-empty. |
| ObservationForm.ValidValues | src/observations/ObservationForm.js:95-192 | A valid draft's numeric fields pass their range checks (latitude [-90, 90], longitude [-180, 180], air temperature [-50, 107]). Its unit is one of C and F, and its sky condition is one of the eight listed codes. |
| ObservationForm.ValidRanges | src/observations/ObservationForm.js:95-145 | The three numeric fields of a valid draft parse to whole values: each is exactly its integer part, and that integer lies within its range. |
| ObservationForm.DraftValid | src/observations/ObservationForm.js:95-192 | The converse of `ValidValues`: five texts that each pass their own input's check make a valid draft. |
| ObservationForm.WholeValuesValid | src/observations/ObservationForm.js:95-192 | Any whole numbers within the three ranges, as the inputs render them, together with listed codes, make a draft the browser lets through. |
| ObservationForm.EmptyDraftInvalid | src/observations/ObservationForm.js:15-21 | The initial all-empty draft cannot be submitted. |
| ObservationForm.InitialState | src/observations/ObservationForm.js:14-35 | The form starts with no error and five empty fields. A read is made if and only if the mode is "edit", and `Decode` reads it as a read of the route's id. |
| ObservationForm.EditReadNeverCancelled | src/observations/ObservationForm.js:23-37 | The edit-mode read is sent with no signal at all, so no abort can cancel it. |
| ObservationForm.ChangeSetsOneField | src/observations/ObservationForm.js:79-84 | A change sets the named field to the typed value, adds the key if it was unseen, and keeps every other key and all other state. It makes no call. |
| ObservationForm.SubmitDispatch | src/observations/ObservationForm.js:46-75 | Submit makes a call if and only if the draft is valid and the mode is "edit" or "create". Edit sends an update of the draft to the item URL of its id, and create sends a create of the draft to the collection URL. Otherwise nothing changes at all. |
| ObservationForm.NetworkFailureKeepsDraft | src/observations/ObservationForm.js:50-71 | A submit call whose `fetch` throws, or whose body cannot be read, with anything but an `AbortError` sets the error to that exception's message. It keeps the draft and the location, and makes no call. |
| ObservationForm.ResolvedSubmitNavigates | src/observations/ObservationForm.js:50-71 | These submit results all count as success: a 204, a swallowed `AbortError` (thrown by `fetch` or while reading the body), and a payload whose `error` is missing or empty. Each pushes "/" and keeps the error and the draft. |
| ObservationForm.SubmitSettledEffects | src/observations/ObservationForm.js:50-71 | For any transport result, the form navigates to "/" exactly when `fetchJson` resolves: a 204, an `AbortError`, or a payload with a falsy `error`. Otherwise the location stays. The error becomes the exception's message for a non-abort exception, or the payload's `error` text when that is truthy. Otherwise it stays. The draft never changes. |
| ObservationForm.ServiceErrorShown | src/observations/ObservationForm.js:50-71 | A service payload carrying `error` is shown verbatim as the form's error whatever the status. The form does not navigate and keeps the draft. |
| ObservationForm.ReadSettledEffects | src/observations/ObservationForm.js:25-34 | For any result of the edit-mode read: a payload with a falsy `error` and present `data` becomes the whole draft. A 204, a swallowed `AbortError`, or a falsy `error` with no `data` spreads to an empty draft. Otherwise the draft is kept and the error becomes the exception's message or the payload's `error` text. The location is kept and no call is made. |
| ObservationForm.RunCallsOnlySubmits | src/observations/ObservationForm.js:46-75 | After the first render, every call the form makes is a create in create mode or an update in edit mode, for a valid draft and without a signal. In any other mode it makes none. |
| ObservationForm.SessionCalls | src/observations/ObservationForm.js:23-75 | Over a whole session, no call carries a signal. In edit mode the first call is the read of the route id and all later calls are updates. In create mode all calls are creates. In any other mode there are no calls. |
| ObservationForm.ErrorPersists | src/observations/ObservationForm.js:14-75 | Nothing ever clears the error: once set it stays set, whatever events follow. |
| ObservationForm.OnlyRootPushed | src/observations/ObservationForm.js:40-71 | The only path ever pushed to history is "/". |
| ObservationForm.NoNavigationWithoutCancelOrSubmit | src/observations/ObservationForm.js:40-84 | With no submit pending, events that are neither cancel nor submit never navigate and make no call. |
| ObservationForm.ChangesKeepField | src/observations/ObservationForm.js:79-84 | Changes to other fields keep a field's presence and value, make no call, and touch nothing but the draft. |
| ObservationForm.RunChanges | src/observations/ObservationForm.js:79-84 | A run of changes makes no call, and the draft becomes the changes applied in order, later ones winning (`Applied`). |
| ObservationForm.CancelsCallNothing | src/observations/ObservationForm.js:40-42 | Pressing cancel any number of times makes no call and changes nothing but the location, which becomes "/". The draft and the error are kept. |
| ObservationForm.CreateIgnoresReads | src/observations/ObservationForm.js:35 | Create mode issues no read, so however many read results arrive, the session stays in its initial state and makes no call. |
| ObservationForm.LaterReadsIgnored | src/observations/ObservationForm.js:23-35 | In edit mode the effect reads once, so only the first read result takes effect and any later ones change nothing. |
| ObservationForm.RunAppend | src/observations/ObservationForm.js:10-84 | Running two event sequences back to back is running their concatenation: the states chain and the calls concatenate. |
| ObservationForm.IdFlowsToUpdate | src/observations/ObservationForm.js:23-75 | In edit mode, after the read delivers a record with an `observation_id`, edits to other fields keep that id. The session then makes exactly two calls: the read, and an update whose URL ends in that id. |
| ObservationForm.ScenarioDraftValid | src/observations/ObservationForm.js:95-192 | Latitude 45, longitude -93, sky 100, temperature 70 and unit F pass every constraint. |
| ObservationForm.CreateScenario | src/observations/ObservationForm.js:46-75 | Filling in those five fields in create mode, submitting, and getting the saved record back makes exactly one call. That call POSTs `{ data: draft }` to the collection URL, and the form ends at "/" with no error. |
| ObservationForm.FillInRun | src/observations/ObservationForm.js:79-84 | Changing each of the five fields once, starting from any five-field draft, makes no call and leaves exactly the typed values as the draft. |

## Left out

- The `API_BASE_URL` environment override: the base URL is the default `http://localhost:5000`.
- `fetch`, the `Headers` object, `JSON.stringify` and `response.json()` are not modelled. The transport's result is an input, headers are one flag, and the body is `{ data: observation }` as a datatype.
- Api.FetchJson: `payload.error` is modelled as a string field. A non-string truthy value (a number, an object) is left out, because the service contract only sends text.
- Api.Catch: a thrown value without `name` and `message` (a non-`Error` throw) is left out, because `fetch` and `response.json()` throw only `Error` objects.
- Api.FetchJson: the exception carried by `Unparsable` stands for anything raised after the status check. That covers `response.json()` failing, and a JSON `null` body whose `error` field cannot be read (a `TypeError`). The text of such an exception's message is an input, not modelled.
- `console.error` in the catch block is output only.
- NumberInput.ParseNumber: accepts only `-?digits(.digits)?`. Exponent forms (`4.5e1`) and a fraction with no integer digits (`.5`) are valid floating-point numbers in HTML but are left out here. For the inputs the form declares, they would only add more ways to write the same whole numbers. A leading `+` and a trailing dot (`5.`) are not valid numbers in HTML, so refusing them matches the browser.
- NumberInput.NumberFieldValid: compares exact decimals. The browser first converts the text to the nearest double, and some browsers also tolerate a step remainder below step/2^24. So a value a hair off a whole number, such as `45.000000000000001`, passes the latitude input in the browser (and the form submits it), but the model refuses it. On such drafts, `ObservationForm.SubmitDispatch`'s "makes a call if and only if valid" differs from the program. Floating-point rounding is left out of the model.
- The error banner (`ErrorAlert`), labels and the rest of the JSX are presentation. Only the `error` value is kept, as the rejection's message.
- React's scheduling is not modelled: re-running the effect when its dependencies change, StrictMode double invocation, and state updates after unmount. Each awaited continuation is one atomic event, and the form is never torn down.
- Routing internals: navigation is the `location` field, and the route id and mode are inputs. `src/observations/ObservationEdit.js` only fixes the mode to "edit".
- The listing and delete flows are not driven by the form. Their builders are modelled in `Api` but no state machine uses them.
