# Reclamation form — a Dafny model

`src/ReclamationForm.js` is a React component. Customers use it to file a complaint ("réclamation") about a tracked parcel. It holds:

- nine pieces of component state: the draft fields, the submitting flag, the alert and the parcel details;
- two format validators;
- two keystroke filters;
- two network handlers:
  - `fetchColisDetails` looks the parcel up and stores its tracking events, sorted by date, in `colisDetails`. No control in the rendered form calls it, and `colisDetails` is never displayed, but the handler is part of the component and is modelled;
  - `handleFormSubmit` validates the draft, looks the parcel up, then posts the complaint;
- two plain resets: `resetFormFields` and `handleCloseAlert`.

The model has three modules:

- `Validation` (`validation.dfy`) holds the pure predicates. `MatchesDigitRun` is a character-by-character matcher for the anchored pattern `^\d{lo,hi}$`. The validators `/^\d{8}$/` and `/^\d{12}$/` and the keystroke filters `/^\d{0,8}$/` and `/^\d{0,12}$/` are instances of it. Each one is proved equal to its length-and-digits characterisation. The filters are also proved to accept exactly the prefixes of valid values.
- `EventOrder` (`event_order.dfy`) covers the tracking events and the comparator `a.date.localeCompare(b.date)`, modelled as lexicographic order on the date string. It proves that order total and transitive. It also holds the in-place sort of `evenements`: an insertion sort on an `array`, proved to leave the array sorted by date and a permutation of what it held before, with equal-date events in their input order, as the stable `Array.prototype.sort` keeps them. Sorted order together with that stability fixes the result completely.
- `ReclamationForm` (`claim_form.dfy`) holds the class `ClaimForm`, with one field per `useState` hook. Each handler is a method that changes only the fields its `modifies` clause names.

The two HTTP calls are parameters:

- The lookup outcome is one of:
  - `Inexistant`: the literal `'inexistant'`;
  - `Found(evenements)`;
  - `FoundUnsortable`: any other response on which the sort at lines 76-78 throws. Either it has no `evenements` array, or the comparator reads `.localeCompare` from an `a.date` that is not a string, or reads `.date` from a null event;
  - `LookupThrows`.
- The post outcome is `PostOk` or `PostThrows`.

Each network handler returns the requests it issued, in order: `TrackingGet(barcode, phone)` and `ClaimPost(payload)`. This lets the contracts say which requests were not sent.

The two handlers treat lookup errors differently:

- `handleFormSubmit` catches a lookup error in the same `catch` as a failed post (lines 100-130). So it shows the send-failure alert and keeps the draft.
- Only `fetchColisDetails` swallows lookup errors (lines 83-85). An unsortable response also throws there, inside the sort, and is swallowed too.
- `handleFormSubmit` never reads `evenements`, so it posts the complaint for any response other than `'inexistant'`.

## Model

| member | source | states |
|---|---|---|
| `Validation.MatchesDigitRun` | src/ReclamationForm.js:51-57 | The anchored pattern `^\d{lo,hi}$` accepts `s` iff `lo <= |s| <= hi` and every character is an ASCII digit |
| `Validation.ValidatePhoneNumber` | src/ReclamationForm.js:51-53 | True iff the value has length exactly 8 and every character is in `'0'..'9'` |
| `Validation.ValidateColisBarcode` | src/ReclamationForm.js:55-57 | True iff the value has length exactly 12 and every character is in `'0'..'9'` |
| `Validation.AcceptsBarcodeInput` | src/ReclamationForm.js:169 | The barcode keystroke filter accepts a value iff it is at most 12 characters, all digits |
| `Validation.AcceptsPhoneInput` | src/ReclamationForm.js:185 | The phone keystroke filter accepts a value iff it is at most 8 characters, all digits |
| `Validation.DigitFilterAcceptsExactlyPrefixes` | src/ReclamationForm.js:169 | `^\d{0,n}$` accepts `s` iff `s` is a prefix of some value that `^\d{n}$` accepts |
| `Validation.BarcodeFilterAcceptsExactlyPrefixes` | src/ReclamationForm.js:168-172 | The barcode filter accepts exactly the prefixes of barcodes that `validateColisBarcode` accepts |
| `Validation.PhoneFilterAcceptsExactlyPrefixes` | src/ReclamationForm.js:184-188 | The phone filter accepts exactly the prefixes of phone numbers that `validatePhoneNumber` accepts |
| `EventOrder.DateLeTotal` | src/ReclamationForm.js:76-78 | Any two date strings are comparable under the sort's comparator |
| `EventOrder.DateLeTransitive` | src/ReclamationForm.js:76-78 | The comparator's order is transitive |
| `EventOrder.SortByDate` | src/ReclamationForm.js:76-78 | Sorting `evenements` in place leaves the array ascending by `date`, a permutation (same multiset) of its old contents, and stable: the events of each date stay in their input order |
| `EventOrder.SortedKeepingDateOrderIsUnique` | src/ReclamationForm.js:76-78 | Two sequences sorted by date that list the events of every date in the same order are equal, so sortedness and stability determine the sort's result |
| `EventOrder.SwapKeepsDateOrder` | src/ReclamationForm.js:76-78 | Swapping two neighbouring events with different dates keeps the order of the events within every date |
| `EventOrder.InsertLast` | src/ReclamationForm.js:76-78 | One insertion step: a sorted prefix of length `i` becomes a sorted prefix of length `i + 1`, as a stable permutation, with the rest of the array untouched |
| `ReclamationForm.ClaimForm.constructor` | src/ReclamationForm.js:41-49 | Initial state: no details, empty draft with reason `colis_endommage`, not submitting, empty alert message, severity `success` |
| `ReclamationForm.ClaimForm.OnBarcodeChange` | src/ReclamationForm.js:168-172 | A barcode edit is stored iff it passes the filter, otherwise the old value stays; nothing else changes; "barcode at most 12 digits, phone at most 8" is preserved |
| `ReclamationForm.ClaimForm.OnPhoneChange` | src/ReclamationForm.js:184-188 | A phone edit is stored iff it passes the filter, otherwise the old value stays; nothing else changes; the filter invariant is preserved |
| `ReclamationForm.ClaimForm.OnObjectChange` | src/ReclamationForm.js:200 | Any subject text is stored; nothing else changes; the filter invariant is preserved |
| `ReclamationForm.ClaimForm.OnDescriptionChange` | src/ReclamationForm.js:214 | Any description text is stored; nothing else changes; the filter invariant is preserved |
| `ReclamationForm.ClaimForm.OnReasonChange` | src/ReclamationForm.js:224-234 | The selected reason is stored; nothing else changes; the filter invariant is preserved |
| `ReclamationForm.ClaimForm.FetchColisDetails` | src/ReclamationForm.js:59-86 | Invalid format: the format error and no request. `'inexistant'`: details cleared and the invalid-parcel error. Events found: details hold the events sorted by date, as a stable permutation, with a success alert. Unsortable response, or a thrown lookup: details and alert unchanged. Only details and the alert can change |
| `ReclamationForm.ClaimForm.HandleFormSubmit` | src/ReclamationForm.js:88-131 | Ends with `isSubmitting` false on every path and keeps the filter invariant. Invalid format: no request, draft unchanged, format error. `'inexistant'`: the GET only, draft unchanged, invalid-parcel error. Lookup throws: the GET only, draft unchanged, send-failure error. Lookup answered: the GET, then a POST of exactly the current draft; if the POST succeeds, a success alert and the draft reset to empty with reason `colis_endommage`; if it throws, the send-failure error and the draft unchanged. Every request carries a well-formed barcode and phone. Details never change |
| `ReclamationForm.ClaimForm.ResetFormFields` | src/ReclamationForm.js:133-139 | Barcode, phone, subject and description become empty and the reason becomes `colis_endommage`; nothing else changes |
| `ReclamationForm.ClaimForm.HandleCloseAlert` | src/ReclamationForm.js:141-143 | The alert message becomes empty; nothing else changes, severity included |

## Left out

- The JSX rendering, the MUI components, the styled-components CSS and the footer year (lines 21-39, 145-262) are presentation.
- The axios GET and POST and their URLs (lines 67-69, 100-102, 119) are foreign network calls. They appear only as the outcome parameters and the returned requests.
- The rest of the lookup response, spread into `colisDetails` by `{...response.data}`, is not modelled. `Tracked` keeps only the sorted `evenements`.
- A POST that resolves with a non-2xx status is not separated from a thrown one. axios throws for such a response, so `PostThrows` covers both.
- Responses whose events have non-string dates but sort without throwing are not modelled. One example is a single event, since the comparator is then never called. Another is a non-string `date` that only ever reaches the comparator as its argument `b`, which `localeCompare` converts to a string. The source stores such a response (line 79) with the success alert, but `Event.date` is always a string here.
- The browser-side `required` check is not modelled. The four text fields carry `required` (lines 173, 189, 201, 215), and the form (line 163) has no `noValidate`, so the browser refuses to submit while any of them is empty. `HandleFormSubmit` can therefore post an empty subject or description, which the running form never does.
- `async`/`await` interleaving and React's batched, deferred state updates are not modelled. Each handler is one atomic transition on the state it read when it started. As a result `isSubmitting` is never seen true between handlers, and the disabled submit button (line 242) has nothing to guard in the model.
- The Snackbar's six-second auto-hide (line 251) is a UI timer. Its effect is the same as `HandleCloseAlert`.
- `console.error` logging (lines 84, 126) is output only.
- `EventOrder.SortByDate`: the comparator is modelled as character-by-character lexicographic order on the date string, not as locale-sensitive `localeCompare`.
- The reason selector can only produce its four listed values (lines 230-233), so the model uses an enumeration instead of an arbitrary string.
