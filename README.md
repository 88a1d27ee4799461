# AttendeeList listing state machine

A Dafny model of the state logic of the `AttendeeList` component of Pass-In: the
attendee listing whose search text and page number are mirrored in the browser's
address bar. The model holds:

- the component's state (`search`, `page`, `total`, `attendees`) together with the
  address bar's query parameters and the browser history, as the class
  `AttendeeListComponent.AttendeeList`;
- mounting, which reads the search and page out of the address bar;
- the page count `ceil(total / 10)`;
- the query parameters of the listing request (`pageIndex`, 0-based, and
  `query`, sent only for a non-empty search);
- applying a response, which overwrites the attendees and the total;
- the two setters that write through the address bar and push a history entry,
  the search-field handler and the four pagination buttons with their disabled
  flags.

`NumberText` holds JavaScript's `String(n)` on integers and `Number(s)` on plain
decimal text, so that writing a page into the address bar and reading it back can be
stated and proved (`Number(String(p)) == p`).

Two predicates of the class carry the invariants: `Valid()` (the last history entry
is the current address, and its `page` value is integer text) and `InSync()` (reading
the address bar the way mounting does gives back the state's search and page).
Mounting establishes both. Every setter, button and response keeps `InSync()`. The
search handler as written keeps it only when the page was already 1 (see Findings).

Behaviour of the code that the model keeps as written:
- the code always writes `search` into the address bar, even when it is empty;
- the page text is read with `Number`, so a `page` key with the value "" gives page 0, not 1;
- a response is applied unconditionally, with no stale-response guard;
- with no attendees (`pages == 0`) the next and last buttons stay enabled on page 1
  (`EmptyListingLeavesRange`, `LastOfEmptyListing`).

## Model

| member | source | states |
|---|---|---|
| `AttendeeListComponent.Pages` | src/components/Attendee-list.tsx:54 | the page count is the ceiling of total/10: `(pages-1)*10 < total <= pages*10`, 0 for no attendees, at least 1 for any |
| `AttendeeListComponent.PagesIsTheCeiling` | src/components/Attendee-list.tsx:54 | any integer k with `(k-1)*10 < total <= k*10` is the page count, so the bound pins it down |
| `AttendeeListComponent.RequestParams` | src/components/Attendee-list.tsx:61-65 | the request has `pageIndex` with the text `String(page - 1)`, which reads back as `page - 1`; it has a `query` key, equal to the search, exactly when the search is non-empty; no other keys |
| `AttendeeListComponent.InitialSearch` | src/components/Attendee-list.tsx:31-39 | the initial search is the `search` value when the key is present, even when it is "", and "" when the key is absent |
| `AttendeeListComponent.InitialPage` | src/components/Attendee-list.tsx:41-49 | the initial page is `Number` of the `page` value when the key is present (0 for ""), and 1 when the key is absent |
| `AttendeeListComponent.PageUrlRoundTrip` | src/components/Attendee-list.tsx:41-49 | after the page p is written into the address bar, reading it back as mounting does gives p, and the search read back is unchanged |
| `AttendeeListComponent.SearchUrlRoundTrip` | src/components/Attendee-list.tsx:31-39 | after a search v (even "") is written into the address bar, reading it back gives v, and the page read back is unchanged |
| `AttendeeListComponent.Disabled` | src/components/Attendee-list.tsx:187-196 | first and previous are disabled exactly on page 1, next and last exactly on the page equal to the page count |
| `AttendeeListComponent.Target` | src/components/Attendee-list.tsx:94-108 | first goes to page 1, previous one page back, next one page forward, last to the page count |
| `AttendeeListComponent.EnabledIffMovesWithinRange` | src/components/Attendee-list.tsx:187-196 | with `1 <= page <= pages`, a button is enabled exactly when its target page is in `[1, pages]` and differs from the current page |
| `AttendeeListComponent.EmptyListingLeavesRange` | src/components/Attendee-list.tsx:193-196 | with total 0 there are 0 pages; on page 1 first/previous are disabled, next and last are enabled and lead to pages 2 and 0 |
| `AttendeeListComponent.AttendeeList.constructor` | src/components/Attendee-list.tsx:31-52 | search is the `search` value or "" when absent; page is `Number` of the `page` value or 1 when absent; total 0, no attendees; history holds the current address; state and address agree |
| `AttendeeListComponent.AttendeeList.Request` | src/components/Attendee-list.tsx:56-66 | the request for the current state has `pageIndex` with the text `String(page - 1)` and a `query` equal to the search exactly when it is non-empty; while the address agrees with the state, these are the address bar's page and search |
| `AttendeeListComponent.AttendeeList.ApplyResponse` | src/components/Attendee-list.tsx:69-72 | attendees and total become the response's; search, page, address and history unchanged; agreement with the address kept |
| `AttendeeListComponent.AttendeeList.SetCurrentSearch` | src/components/Attendee-list.tsx:75-80 | the address's `search` becomes v and no other key changes; one history entry, equal to the new address, is appended; state search is v; page, total, attendees unchanged |
| `AttendeeListComponent.AttendeeList.SetCurrentPage` | src/components/Attendee-list.tsx:82-87 | the address's `page` becomes the decimal text of p and no other key changes; one history entry, equal to the new address, is appended; page is p; search, total, attendees unchanged; reading the address back gives p |
| `AttendeeListComponent.AttendeeList.OnSearchInputChanged` | src/components/Attendee-list.tsx:89-92 | search becomes v in state and address, page becomes 1 in state only; the address's page is unchanged; one history entry; state and address still agree exactly when the page was 1 |
| `AttendeeListComponent.AttendeeList.OnSearchInputChangedSynced` | src/components/Attendee-list.tsx:89-92 | corrected handler: search v and page 1 in both state and address, two history entries, state and address agree afterwards |
| `AttendeeListComponent.AttendeeList.ToFirstPage` | src/components/Attendee-list.tsx:94-96 | goes through setCurrentPage with page 1; if the page was in `[1, pages]` and the button enabled, it stays in range; agreement with the address kept |
| `AttendeeListComponent.AttendeeList.ToPreviousPage` | src/components/Attendee-list.tsx:98-100 | goes through setCurrentPage with `page - 1`; in range and enabled before implies in range after; agreement with the address kept |
| `AttendeeListComponent.AttendeeList.ToNextPage` | src/components/Attendee-list.tsx:102-104 | goes through setCurrentPage with `page + 1`; in range and enabled before implies in range after; agreement with the address kept |
| `AttendeeListComponent.AttendeeList.ToLastPage` | src/components/Attendee-list.tsx:106-108 | goes through setCurrentPage with the page count; in range and enabled before implies in range after; agreement with the address kept |
| `AttendeeListComponent.NextThenPrevious` | src/components/Attendee-list.tsx:98-104 | clicking next then previous returns the state to its page with search, total and attendees unchanged and pushes exactly two history entries; the address returns to what it was exactly when its page text was already `String(page)` |
| `AttendeeListComponent.LastOfTwentyFive` | src/components/Attendee-list.tsx:106-108 | 25 attendees: the last button goes from page 1 to page 3, where the next button is disabled |
| `AttendeeListComponent.LastOfEmptyListing` | src/components/Attendee-list.tsx:106-108 | no attendees: the last button goes from page 1 to page 0 |
| `AttendeeListComponent.SearchFromThirdPage` | src/components/Attendee-list.tsx:89-92 | mounted at `?page=3`, typing a search leaves the state on page 1 and the address on page 3 |
| `AttendeeListComponent.SearchFromThirdPageSynced` | src/components/Attendee-list.tsx:89-92 | the same with the corrected handler: state and address both on page 1 |
| `NumberText.NatToText` | src/components/Attendee-list.tsx:84 | `String(n)` of a natural number is a run of digits with no leading zero other than the "0" of zero |
| `NumberText.IntToText` | src/components/Attendee-list.tsx:84 | `String(p)` of an integer is digits without leading zeros for p >= 0, and a minus sign followed by such digits exactly when p < 0 |
| `NumberText.TextToInt` | src/components/Attendee-list.tsx:45 | `Number` reads "" as 0, a run of digits as its decimal value (positive when it does not start with 0), and a minus sign with digits as the negated value of the digits |
| `NumberText.NatTextRoundTrip` | src/components/Attendee-list.tsx:84 | the digits written for a natural number read back as that number |
| `NumberText.IntTextRoundTrip` | src/components/Attendee-list.tsx:45 | `Number(String(i)) == i` for every integer i |

## Left out

- AttendeeListComponent.AttendeeList.constructor: requires the `page` value to be "", a run of digits or a minus sign and digits. Other text is not modelled: `Number` gives `NaN` for text such as "abc", a fraction for "2.5", and an integer for text such as " 3", "+3", "3.0", "0x3" or "1e1". A `NaN` page is therefore outside the model.
- AttendeeListComponent.InitialPage: requires the `page` value, when present, to be "", a run of digits or a minus sign and digits, for the same reason as the constructor.
- NumberText.TextToInt: defined only on "", a run of digits or a minus sign and digits; `Number` on other text is not modelled (see the constructor line).
- AttendeeListComponent.AttendeeList.Valid: includes that restriction on the address's `page` text, so every method of the class assumes it. The model's own writes keep it, since `String(p)` is always such text.
- NumberText.TextToInt: reads digits exactly at every magnitude, while `Number` rounds to a double beyond 2^53.
- Rendering: the table, the decorative checkboxes, the icons, the `attendees.length de total` footer and the styling (lines 110-206).
- Relative-time formatting of the timestamps with `dayjs` and its pt-br locale (lines 14-20, 159, 164): a foreign library. `createdAt` and `checkedInAt` stay text.
- The network call (lines 57-58, 67-72): the base URL, the fixed event id, `fetch` and `response.json()` are I/O. `RequestParams` gives the request's query parameters, and `ApplyResponse` takes the decoded response as parameters.
- Failed fetches: the code neither catches nor reports them, so the model has no failure path.
- Overlapping fetches: the code applies every response as it arrives, so neither a stale-response guard nor the ordering of completions is modelled.
- React's scheduling of `useState` and `useEffect` (lines 17, 56, 73): each handler is one atomic update. The effect's re-run on a change of page or search is not modelled as a step. `AttendeeList.Request` gives the parameters it would send.
- Browser URL mechanics (lines 32, 42, 76-78, 83-85): `URLSearchParams` is a map with one value per key, without key order or percent-encoding. `pushState` appends the new query map to `history`.
- NumberText.IntToText: does not model JavaScript's exponent notation for integers of magnitude 10^21 or more, nor the rounding of doubles beyond 2^53.
- That a page never holds more than 10 attendees is the endpoint's promise, not the component's.

## Findings

| source | as written | input that shows it | evidently intended | confidence | as-written member | corrected member |
|---|---|---|---|---|---|---|
| src/components/Attendee-list.tsx:89-92 | the search handler resets the page with `setPage(1)`, so the address keeps its old `page` value | mount at `?page=3`, type "ana": the state shows page 1, the address says page 3, and a reload opens page 3 of the new search | reset the page through `setCurrentPage(1)`, so that state and address agree after every action | medium, not executed | `AttendeeListComponent.SearchFromThirdPage` | `AttendeeListComponent.AttendeeList.OnSearchInputChangedSynced` |
