# Parking admin dashboard: a Dafny model of its page logic

The dashboard is a React front end for a parking operator. Its screens
manage lots, zones, spots, reservations, pricing, costs, employees and
alerts through a REST backend. Most of the code is markup and HTTP
calls. This project models the logic between the calls:

- the list, string and state transformations inside the page components;
- the alerts polling hook;
- the state each page keeps.

Every backend call is an input to the model. A call either succeeds with
a value or fails with an `HttpError`. The error carries an HTTP status,
`response.data.message` and `message`; an empty string stands for an
absent field. Random ids, `Date.now()` and the presence of the login
token are parameters too.

Modules, one per source file, plus three shared ones:

| module | models |
|---|---|
| `Common` | `Option`, call results (`Call`, `HttpError`), the `a || b || "fallback"` message chains |
| `Seqs` | order-preserving `filter`, JavaScript's clamping `slice`, the subsequence relation |
| `Text` | ASCII case mapping, `includes`, decimal numerals (`toString`, `Number`) |
| `Lots` | `src/pages/lots/Lots.tsx`: the nested lot → zone → spot store, search, image picking, selection |
| `WalkIn` | `src/pages/reservations/WalkInReservation.tsx`: plate formatting, validation, dispatch, failure rule, recent list |
| `AlertsApi` | `src/api/alerts.ts`: response extraction, the URL, and the polling loop as an event-driven state machine |
| `AlertsPage` | `src/pages/alerts/AlertsPage.tsx`: filtering, pagination, the table's empty state |
| `Pricing` | `src/pages/pricing/PricingManagement.tsx`: price rows, cost rows, month names, save guards, delete |
| `Reservations` | `src/pages/reservations/Reservations.tsx`: badge colours, unique spot ids, the spot-name map, delete outcomes |
| `Layout` | `src/components/Layout.tsx`: the notification bell, role capitalisation, the invite payload, its lot selector and status machine |
| `Vehicles` | `src/pages/vehicles/Vehicles.tsx`: the local vehicle list |
| `Zones` | `src/pages/zones/Zones.tsx`: the local zone list |

Some state is mutated step by step in the source: component state behind
`useState` setters, `useRef` values and the polling loop's variables. Each
of these becomes a Dafny `class` with those fields. Every handler becomes
a method whose `ensures` gives the new state in terms of pure functions
of the old state and the call results. The properties are then proved
about those functions.

An `await` inside a handler splits it into two methods when the state in
between can be seen:

- `WalkInForm.BeginSubmit` / `FinishSubmit`, with `isSubmitting` in between;
- `InviteModal.Submit` / `Finish`, with the "sending" status in between.

Every other handler takes all of its call results at once.

`Reservations.BuildSpotNames` fills the spot-name dictionary with a loop,
as the source does. It is proved equal to the recursive
`SpotNameMap`.

Three places where the code does not do what the page evidently
intends. The members that model each one follow the code as written;
only the pricing page class takes the corrected mapping:

- `formatLicensePlate` is defined but never called; the plate input
  stores the raw value. The function is modelled as written.
- Unmounting the polling hook should stop the loop. In the code, a
  request still in flight at cleanup arms a new timer when it completes.
  See the Findings row for src/api/alerts.ts:69.
  `AlertsApi.Step` and the `AlertsPolling` class follow the code.
- A refresh after a mutation should show what a fresh load shows. Two
  pricing refetches map the response differently from the first load.
  See the Findings rows for PricingManagement.tsx:322-324 and 419-424.
  `RefetchedPriceRow`, `RefetchedCostRow` and `RefetchedCosts` follow
  the code; `PricingPage.HandleAddSave` and `HandleCostSave` use the
  corrected first-load mapping.

## Model

| member | source | states |
|---|---|---|
| `Seqs.Slice` | src/pages/reservations/WalkInReservation.tsx:156 | `slice` clamps both bounds to the sequence; an empty window (start at or past the end, or past the sequence) gives `[]`; within range it is the ordinary subsequence, and its length never exceeds the sequence or `end - start` |
| `Lots.FloorString` | src/pages/lots/Lots.tsx:151 | a missing floor is `""`, a text floor is kept, a non-negative numeric floor becomes a numeral that reads back as the same number, and a negative one becomes `-` followed by the numeral of its magnitude |
| `Lots.ToSpot` | src/pages/lots/Lots.tsx:149-158 | a fetched spot keeps id, name, zone id, number, status, price, timestamps and occupation type, and its floor is `FloorString` of the sent floor |
| `Lots.ToSpots` | src/pages/lots/Lots.tsx:148-159 | one mapped spot per fetched spot, in order |
| `Lots.ToZone` | src/pages/lots/Lots.tsx:143-159 | a fetched zone keeps id, name, capacity and vehicle type; missing `spots` becomes `[]`; otherwise there is one spot per fetched spot, in order, each with every field copied (id, name, zone id, number, status, price, timestamps, occupation type) and its floor mapped by `FloorString` |
| `Lots.NormaliseSpots` | src/pages/lots/Lots.tsx:364-371 | a non-array body gives `[]`; an array whose first element is an array gives that element; any other array gives itself |
| `Lots.NestedAgreesWithFlat` | src/pages/lots/Lots.tsx:364-371 | a nested response and a flat response with the same first group give the same spots |
| `Lots.LoadedLots` | src/pages/lots/Lots.tsx:664-673 | each loaded lot keeps id, name and capacity and starts with no zones; one lot per fetched lot |
| `Seqs.Find` | src/pages/lots/Lots.tsx:62 | `find`: none exactly when no element satisfies the test; otherwise the first element that does |
| `Text.Contains` | src/pages/lots/Lots.tsx:480 | `includes`: a prefix is always found, an empty text is in every string, and a found text is never longer than the string searched |
| `Common.ServerMessage` | src/pages/pricing/PricingManagement.tsx:428 | the server's message first, then the transport's, then the fallback; never blank when the fallback is not |
| `Common.PlainMessage` | src/pages/pricing/PricingManagement.tsx:151 | the transport's message, else the fallback; never blank when the fallback is not |
| `Common.DataMessage` | src/pages/lots/Lots.tsx:249-250 | the server's message, else the fallback; never blank when the fallback is not |
| `Lots.WithZones` | src/pages/lots/Lots.tsx:726-730 | lots with the id get the new zones; every other lot is unchanged; the list length is unchanged |
| `Lots.RefreshZones` | src/pages/lots/Lots.tsx:138-164 | only lots whose id is the selected id change, and their zones become exactly the fetched zones, mapped with their defaults |
| `Lots.MapZoneSpots` | src/pages/lots/Lots.tsx:372-399 | within one lot, only zones with the given id have their spots transformed |
| `Lots.UpdateSpots` | src/pages/lots/Lots.tsx:372-399 | only the zone with the given id, inside lots with the given id, has its spots transformed; lots, zones and their other fields stay the same |
| `Lots.UpdateSpotsTwice` | src/pages/lots/Lots.tsx:423-441 | an idempotent change to one zone's spots, applied twice, gives the same lots as applying it once |
| `Lots.DeleteSpot` | src/pages/lots/Lots.tsx:423-441 | the numbers of lots and zones are unchanged; other lots and other zones are identical; the target zone only loses the spots with that id |
| `Lots.DropSpot` | src/pages/lots/Lots.tsx:433 | the per-zone updater of a delete keeps the other spots in order, each as many times as before, and drops every spot with the id |
| `Lots.DeletedSpotsRemainder` | src/pages/lots/Lots.tsx:433 | no spot with the deleted id remains; every other spot remains, as many times as it was listed; the remaining spots keep their order |
| `Lots.DeleteSpotIdempotent` | src/pages/lots/Lots.tsx:423-441 | deleting the same spot twice equals deleting it once |
| `Lots.ReplaceZoneSpots` | src/pages/lots/Lots.tsx:372-399 | in the selected lot, the edited spot's zone gets the refetched spots; every other zone and lot is unchanged |
| `Lots.WithFetchedSpots` | src/pages/lots/Lots.tsx:689-734 | each zone of the selected lot gets its own fetched spots, normalised, or `[]` when its fetch failed; other zone fields are kept |
| `Lots.LotMatches` | src/pages/lots/Lots.tsx:478-480 | a lot matches exactly when its name is non-empty and the lowercased search text occurs at some position of the lowercased name; an empty search matches every named lot |
| `Lots.SearchLots` | src/pages/lots/Lots.tsx:476-481 | the listed lots are exactly the lots with a non-empty name containing the search text, both lowercased, each matching lot as many times as it is listed |
| `Lots.SearchLotsKeepsOrder` | src/pages/lots/Lots.tsx:476-481 | the search result is a subsequence of the lots |
| `Lots.SearchIgnoresCase` | src/pages/lots/Lots.tsx:479 | two search texts that lowercase alike list the same lots |
| `Lots.EmptySearchListsNamedLots` | src/pages/lots/Lots.tsx:476-481 | an empty search lists every named lot, in order |
| `Lots.AddImages` | src/pages/lots/Lots.tsx:1199-1209 | the previous files stay as a prefix; only files matching no previous file by name and size are appended, and all such files are |
| `Lots.AddImagesKeepsBatchOrder` | src/pages/lots/Lots.tsx:1202-1208 | the appended files keep their order in the batch |
| `Lots.PickingAgainAddsNothing` | src/pages/lots/Lots.tsx:1199-1209 | picking the same batch a second time adds no file |
| `Lots.RepeatsInBatchKept` | src/pages/lots/Lots.tsx:1202-1208 | two files with the same name and size in one batch are both kept |
| `Lots.AutoSelect` | src/pages/lots/Lots.tsx:681-686 | with lots present and nothing selected, the first lot and its first zone (or none) become selected; otherwise the selection is unchanged |
| `Lots.AppendLot` | src/pages/lots/Lots.tsx:566-576 | the created lot is appended at the end with no zones; earlier lots are unchanged |
| `Lots.FirstCreatedLotIsSelected` | src/pages/lots/Lots.tsx:566-576 | a lot created into an empty page becomes the selected lot |
| `Lots.LotsPage.constructor` | src/pages/lots/Lots.tsx:50-110 | the page starts with no lots, no selection, no selected spot and no images |
| `Lots.LotsPage.LoadLots` | src/pages/lots/Lots.tsx:658-678 | with a token and a successful fetch the lots are the loaded lots; otherwise they are unchanged |
| `Lots.LotsPage.SelectFirstLot` | src/pages/lots/Lots.tsx:681-686 | the new selection is `AutoSelect` of the old one |
| `Lots.LotsPage.SelectLot` | src/pages/lots/Lots.tsx:498-501 | a sidebar click selects the lot and its first zone, if any |
| `Lots.LotsPage.SelectSpot` | src/pages/lots/Lots.tsx:853 | the spot's edit icon makes that spot the selected one |
| `Lots.LotsPage.FetchAndSetZones` | src/pages/lots/Lots.tsx:131-170 | with a selected lot, a token and a successful fetch, the zones are refreshed; otherwise nothing changes |
| `Lots.LotsPage.FetchAllSpots` | src/pages/lots/Lots.tsx:689-734 | with a token and a selected lot that has zones, each zone gets its fetched spots; otherwise nothing changes |
| `Lots.LotsPage.HandleCreateZone` | src/pages/lots/Lots.tsx:172-256 | no token, a failed create and a failed refetch each leave the lots as they were and show their notice; success refreshes the zones and shows "Zone created successfully." |
| `Lots.LotsPage.HandleAddSpot` | src/pages/lots/Lots.tsx:258-333 | the same four outcomes for a new spot, with its own messages |
| `Lots.LotsPage.HandleEditSpot` | src/pages/lots/Lots.tsx:335-420 | no token, no selected spot, a failed patch and a failed refetch each leave the lots as they were; success replaces the spots of the edited spot's zone and clears the selected spot |
| `Lots.LotsPage.HandleDeleteSpot` | src/pages/lots/Lots.tsx:423-441 | the lots become `DeleteSpot` of the old lots for the selected lot |
| `Lots.LotsPage.HandleCreateLot` | src/pages/lots/Lots.tsx:531-588 | no token or a failed create leaves lots and images unchanged and shows its alert; success appends the lot and clears the images |
| `Lots.LotsPage.PickImages` | src/pages/lots/Lots.tsx:1199-1209 | the images become `AddImages` of the old images and the batch |
| `WalkIn.Clean` | src/pages/reservations/WalkInReservation.tsx:177 | the cleaned value is no longer than the input and holds only A–Z and 0–9 |
| `WalkIn.FormatLicensePlate` | src/pages/reservations/WalkInReservation.tsx:176-185 | at most 9 characters; every character except index 3 is A–Z or 0–9; up to three cleaned characters are returned as they are; otherwise index 3 is `-` after the first three cleaned characters |
| `WalkIn.PlateHyphenOnlyAtThree` | src/pages/reservations/WalkInReservation.tsx:177-184 | a character of the plate is `-` exactly when it is at index 3 |
| `WalkIn.PlateMiddleLengths` | src/pages/reservations/WalkInReservation.tsx:180 | with 4 to 6 cleaned characters the plate is first three + `-` + the rest |
| `WalkIn.CleanAppend` | src/pages/reservations/WalkInReservation.tsx:177 | cleaning distributes over concatenation |
| `WalkIn.CleanOfPlateChars` | src/pages/reservations/WalkInReservation.tsx:177 | cleaning a string of A–Z and 0–9 changes nothing |
| `WalkIn.CleanAroundHyphen` | src/pages/reservations/WalkInReservation.tsx:177-184 | cleaning drops the inserted hyphen and nothing else |
| `WalkIn.CleanOfFormatted` | src/pages/reservations/WalkInReservation.tsx:181-184 | the formatted plate holds exactly the first eight cleaned characters of the input |
| `WalkIn.FormatIdempotent` | src/pages/reservations/WalkInReservation.tsx:176-185 | formatting a formatted plate gives the same plate |
| `WalkIn.ValidateForm` | src/pages/reservations/WalkInReservation.tsx:82-89 | the form is valid exactly when a lot is selected; otherwise the lot error is "Please select a parking lot" |
| `WalkIn.ChooseEndpoint` | src/pages/reservations/WalkInReservation.tsx:98-142 | the four calls, each chosen exactly for its combination of entry/exit and details/walk-in |
| `WalkIn.FailureText` | src/pages/reservations/WalkInReservation.tsx:109-139 | each branch's fixed failure text is non-empty |
| `WalkIn.FailureTextIdentifiesBranch` | src/pages/reservations/WalkInReservation.tsx:109-139 | the four failure texts are distinct, so the text tells which call failed |
| `WalkIn.CatchMessage` | src/pages/reservations/WalkInReservation.tsx:164-170 | the catch block's message: the transport's message first, then the server's, then the fixed text; never empty |
| `WalkIn.SubmitOutcome` | src/pages/reservations/WalkInReservation.tsx:98-142 | success exactly when a body arrived without `error` and without `success === false`; failures carry the reply's message, else the branch's fixed text, and never an empty message; thrown errors use the catch message |
| `WalkIn.LotName` | src/pages/reservations/WalkInReservation.tsx:144-148 | the name of the first lot with the id; an unknown id gives `""`; a non-empty result is the name of a lot with the id |
| `WalkIn.NewRecord` | src/pages/reservations/WalkInReservation.tsx:145-155 | the id is "RES" + the time; plate, lot and kind are copied; vehicle and zone are attached exactly for entries with details |
| `WalkIn.PushRecent` | src/pages/reservations/WalkInReservation.tsx:156 | the new record is first, followed by at most the four previous records in order; the length is 1 to 5 |
| `WalkIn.TakeThroughPrefix` | src/pages/reservations/WalkInReservation.tsx:156 | pushing below a prefix and cutting to five equals cutting the whole list to five |
| `WalkIn.RecentAreNewestFirst` | src/pages/reservations/WalkInReservation.tsx:156 | after any series of successful submissions, the list is the five newest records, newest first |
| `WalkIn.WalkInForm.constructor` | src/pages/reservations/WalkInReservation.tsx:43-59 | the form starts as an entry with empty fields, no errors, no recent records, and walk-in exit selected |
| `WalkIn.WalkInForm.BeginSubmit` | src/pages/reservations/WalkInReservation.tsx:91-97 | no request is made exactly when no lot is selected, and then the lot error is set; otherwise the form is submitting, the errors are cleared, and the request uses the chosen call and the current fields |
| `WalkIn.WalkInForm.FinishSubmit` | src/pages/reservations/WalkInReservation.tsx:98-173 | on success the record is pushed, the banner shown and plate, lot, vehicle, zone and details flag reset; on failure only the lot error changes; either way submitting ends |
| `WalkIn.WalkInForm.SuccessTimeout` | src/pages/reservations/WalkInReservation.tsx:163 | the success banner is hidden |
| `AlertsApi.ExtractAlerts` | src/api/alerts.ts:26-30 | `data.data.alerts` when it is an array, otherwise `[]` |
| `AlertsApi.AlertsUrl` | src/api/alerts.ts:49-52 | `?lotId=` plus the encoded lot is appended exactly when a lot filter applies |
| `AlertsApi.QueryIffLotFilter` | src/api/alerts.ts:49-52 | the URL has a query exactly when the lot id is present, non-empty and not "all" |
| `AlertsApi.Initial` | src/api/alerts.ts:39-40 | polling starts with no alerts, loading true, no request and no timer |
| `AlertsApi.Step` | src/api/alerts.ts:45-75 | one event of the loop as written: at most one request is issued, exactly on the first mount or a firing timer; a settled request re-arms the timer whether mounted or not; alerts change only while mounted; cleanup unmounts and drops the pending timer |
| `AlertsApi.Run` | src/api/alerts.ts:42-76 | a sequence of events issues at most one request per event, and the request count never goes down |
| `AlertsApi.CompletionWhileMounted` | src/api/alerts.ts:59-69 | a completion while mounted shows the extracted alerts, or `[]` on failure, ends loading and arms the timer |
| `AlertsApi.StepKeepsSingleLoop` | src/api/alerts.ts:45-75 | each event keeps the single-loop invariant: never a request in flight and a timer armed at once, at most one request in flight |
| `AlertsApi.RunKeepsSingleLoop` | src/api/alerts.ts:45-75 | after any sequence of events at most one request of the loop is in flight |
| `AlertsApi.AfterCleanupStateFrozen` | src/api/alerts.ts:59-75 | after cleanup no event changes the alerts or sets loading back to false |
| `AlertsApi.InFlightAtCleanupPollsAgain` | src/api/alerts.ts:46-75 | a request in flight at cleanup still arms the timer when it completes, and that timer issues another request |
| `AlertsApi.GuardedStep` | src/api/alerts.ts:60-70 | the corrected step: every event but a completion is as written; a completion after unmount only retires the request, with no timer, no alert write and no new request |
| `AlertsApi.ZombiePoll` | src/api/alerts.ts:69-75 | mount, cleanup, a failed completion and a timer fire together issue a second request after unmount |
| `AlertsApi.GuardedAgreesWhileMounted` | src/api/alerts.ts:45-70 | the corrected loop behaves exactly like the original while mounted |
| `AlertsApi.GuardedLoopStops` | src/api/alerts.ts:72-75 | with the corrected loop unmounted and no timer armed, no event issues a request or arms a timer |
| `AlertsApi.GuardedCleanupStops` | src/api/alerts.ts:72-75 | with the corrected loop, after cleanup no further request is ever issued |
| `AlertsApi.AlertsPolling.constructor` | src/api/alerts.ts:39-44 | the hook's state starts as the initial state |
| `AlertsApi.AlertsPolling.Poll` | src/api/alerts.ts:45-53 | one poll sets loading and issues one request |
| `AlertsApi.AlertsPolling.Mount` | src/api/alerts.ts:43-71 | the hook's state after mounting is the mount step of the old state |
| `AlertsApi.AlertsPolling.Complete` | src/api/alerts.ts:54-69 | the hook's state after a completion is the completion step of the old state |
| `AlertsApi.AlertsPolling.TimerFire` | src/api/alerts.ts:69 | the hook's state after the timer fires is the timer step of the old state |
| `AlertsApi.AlertsPolling.Cleanup` | src/api/alerts.ts:72-75 | the hook's state after cleanup is the cleanup step of the old state |
| `AlertsPage.ReservationText` | src/pages/alerts/AlertsPage.tsx:67-68 | `String(reservationNumber)`: absent when there is none, a text kept as it is, a non-negative number as its numeral |
| `AlertsPage.MatchesSearch` | src/pages/alerts/AlertsPage.tsx:68-70 | an empty search matches; otherwise the text occurs, as typed, at some position of the reservation number, or, lowercased, in the lowercased customer name |
| `AlertsPage.MatchesStatus` | src/pages/alerts/AlertsPage.tsx:71-72 | "all" and the alert's own type always match; any other matching status equals the type when both are lowercased |
| `AlertsPage.Filtered` | src/pages/alerts/AlertsPage.tsx:65-75 | a non-array gives `[]`; otherwise the result holds exactly the alerts that match both the search and the status, each as many times as it occurs |
| `AlertsPage.FilteredKeepsOrder` | src/pages/alerts/AlertsPage.tsx:65-75 | the filtered alerts are a subsequence of the alerts |
| `AlertsPage.NoFilterKeepsAll` | src/pages/alerts/AlertsPage.tsx:67-72 | empty search and status "all" keep every alert |
| `AlertsPage.StatusIgnoresCase` | src/pages/alerts/AlertsPage.tsx:71-72 | two statuses that lowercase alike filter the same, when both or neither is "all" |
| `AlertsPage.CustomerSearchIgnoresCase` | src/pages/alerts/AlertsPage.tsx:69-70 | the customer-name part of the search ignores case |
| `AlertsPage.ReservationSearchIsCaseSensitive` | src/pages/alerts/AlertsPage.tsx:68 | the reservation-number part is case-sensitive: "AB" finds "AB1" and "ab" does not |
| `AlertsPage.Paginate` | src/pages/alerts/AlertsPage.tsx:76 | page `p` is the filtered list from `(p-1)*perPage` to `p*perPage`, clipped to the list, and holds at most `perPage` alerts |
| `AlertsPage.PageCount` | src/pages/alerts/AlertsPage.tsx:150 | `Math.ceil(n / perPage)`: the smallest page count whose pages hold all `n` alerts |
| `AlertsPage.PagesUpToArePrefix` | src/pages/alerts/AlertsPage.tsx:76 | pages 1 to k together are the first `k*perPage` filtered alerts |
| `AlertsPage.PagesCoverFiltered` | src/pages/alerts/AlertsPage.tsx:150 | pages 1 to the page count, each sliced as at line 76 and concatenated, give back the filtered list |
| `AlertsPage.Render` | src/pages/alerts/AlertsPage.tsx:103-121 | a spinner exactly while loading; "No alerts found." exactly when loaded with an empty page; otherwise the page's rows |
| `AlertsPage.HookLotFilter` | src/pages/alerts/AlertsPage.tsx:51 | lot "all" passes no filter; any other lot is passed as it is |
| `AlertsPage.OnLotChange` | src/pages/alerts/AlertsPage.tsx:97 | a cleared or empty choice becomes "all"; otherwise the chosen lot |
| `AlertsPage.LotQueryIffLotChosen` | src/pages/alerts/AlertsPage.tsx:51-97 | the alerts URL has a lot query exactly when a real lot is chosen |
| `Pricing.ToNumber` | src/pages/pricing/PricingManagement.tsx:127-129 | `Number`: `undefined` is NaN, a number is itself, `""` is 0, a decimal numeral is its value |
| `Pricing.ZeroRow` | src/pages/pricing/PricingManagement.tsx:135-146 | the fallback row has the lot's id and name, three zero prices and "USD" |
| `Pricing.LoadedPriceRow` | src/pages/pricing/PricingManagement.tsx:123-146 | on first load the prices come from `price.data`, the currency defaults to "USD", and a failed call or missing `data` gives the zero row |
| `Pricing.RefetchedPriceRow` | src/pages/pricing/PricingManagement.tsx:318-329 | as written, the refetch after an add reads the top-level price fields |
| `Pricing.PriceRefetchDisagreesWithLoad` | src/pages/pricing/PricingManagement.tsx:322-324 | a body shaped as the first load expects (`price.data.*`, lines 127-129) shows price 5 on load and NaN after an add |
| `Pricing.PriceRows` | src/pages/pricing/PricingManagement.tsx:118-149 | one row per lot, each the first-load row for that lot's call |
| `Pricing.EditGuard` | src/pages/pricing/PricingManagement.tsx:225-231 | an edit is saved exactly when a non-empty lot id is set and no price is `undefined` |
| `Pricing.CorrectedRefetchShowsReportedPrices` | src/pages/pricing/PricingManagement.tsx:318-329 | with the load mapping reused, the refetch after an add shows the prices reported under `data` |
| `Pricing.ZeroPricesPassGuard` | src/pages/pricing/PricingManagement.tsx:225-231 | the edit guard tests for `undefined`, so zero prices pass |
| `Pricing.PricePayloadOf` | src/pages/pricing/PricingManagement.tsx:236-245 | the update carries the lot id and the three form prices |
| `Pricing.ApplyPriceEdit` | src/pages/pricing/PricingManagement.tsx:247-259 | only rows with the edited id take the three new prices, keeping id, name and currency; all other rows are unchanged |
| `Pricing.ApplyPriceEditIdempotent` | src/pages/pricing/PricingManagement.tsx:247-259 | applying the same edit twice equals applying it once |
| `Pricing.AddGuard` | src/pages/pricing/PricingManagement.tsx:283-289 | a price is added exactly when a lot is chosen and no price is `undefined` |
| `Pricing.MonthLabel` | src/pages/pricing/PricingManagement.tsx:166-201 | months 1 to 12 show their name and 0 shows `""`; a number outside 0..12 or no month shows nothing; a text whose numeral value is 1 to 12 (such as "01") shows that month's name, and any other text, including "0", "13" and `""`, is kept as it is |
| `Pricing.MonthTextAgreesWithNumber` | src/pages/pricing/PricingManagement.tsx:198-201 | a month sent as the text "n" shows the same name as the number n |
| `Pricing.MonthNamesInOrder` | src/pages/pricing/PricingManagement.tsx:166-180 | index 1 is "Jan", index 12 is "Dec", and the twelve names are distinct |
| `Pricing.UnwrapCosts` | src/pages/pricing/PricingManagement.tsx:182-188 | an array is used as it is; otherwise its `data`, which may not be an array |
| `Pricing.CostRowOf` | src/pages/pricing/PricingManagement.tsx:190-201 | the row keeps id, lot id and year, shows the month label and the amount, and uses the lot's name, else the lot id |
| `Pricing.CostRows` | src/pages/pricing/PricingManagement.tsx:189-203 | one row per cost, each mapped by `CostRowOf` |
| `Pricing.RefetchedCostRow` | src/pages/pricing/PricingManagement.tsx:419-424 | as written, a refetched cost row keeps id, lot id and year, shows the month unmapped and the amount through `Number`, and takes the found lot's name or `""` for an unknown lot |
| `Pricing.RefetchedCosts` | src/pages/pricing/PricingManagement.tsx:419-424 | as written, `.map` runs on the raw body: a plain array gives one `RefetchedCostRow` per cost, and a wrapped `{data: ...}` body throws so no rows come back |
| `Pricing.WrappedCostsFailOnRefetch` | src/pages/pricing/PricingManagement.tsx:419-430 | a `{data: [...]}` body that the first load unwraps and lists makes the refetch after a save throw instead |
| `Pricing.CostRefetchDisagreesWithLoad` | src/pages/pricing/PricingManagement.tsx:419-424 | one cost shows "Mar" under lot "L9" with the load mapping (lines 191-201), and "3" with no lot name after a save |
| `Pricing.CorrectedCostRefetchLabels` | src/pages/pricing/PricingManagement.tsx:419-424 | with the load mapping reused, a cost with a lot id never shows an empty lot label, and months 1 to 12 show their names |
| `Pricing.RemoveCost` | src/pages/pricing/PricingManagement.tsx:440 | no row with the id remains; every other row does, as many times as before |
| `Pricing.RemoveCostKeepsOrder` | src/pages/pricing/PricingManagement.tsx:440 | the remaining rows keep their order; deleting an absent id changes nothing |
| `Pricing.DeleteFailureNotice` | src/pages/pricing/PricingManagement.tsx:445-457 | a message containing "Cannot delete costs for past months" gives the fixed notice; any other message is shown as it is |
| `Pricing.PastMonthsNoticeAnywhere` | src/pages/pricing/PricingManagement.tsx:445-449 | the server text anywhere inside the message gives the fixed notice |
| `Pricing.CostGuard` | src/pages/pricing/PricingManagement.tsx:396-402 | a cost is saved exactly when a lot and a date are chosen and neither amount nor margin is `undefined` |
| `Pricing.CostPayloadOf` | src/pages/pricing/PricingManagement.tsx:407-414 | the month sent is `getMonth()+1`, in 1..12 and always named; year, amount and lot are copied from the form |
| `Pricing.PricingPage.constructor` | src/pages/pricing/PricingManagement.tsx:67-101 | the page starts empty with every modal closed and every form record (edit, add, cost) at its blank value |
| `Pricing.PricingPage.LoadAll` | src/pages/pricing/PricingManagement.tsx:104-155 | on success the lots and their first-load price rows are stored and the error cleared; on failure only the error is set |
| `Pricing.PricingPage.FetchCosts` | src/pages/pricing/PricingManagement.tsx:158-210 | without lots nothing happens; an array of costs replaces the cost rows; a non-array or a failed call leaves them and sets the error |
| `Pricing.PricingPage.OpenEditModal` | src/pages/pricing/PricingManagement.tsx:213-221 | the modal opens on the row's id, with its three prices in the form |
| `Pricing.PricingPage.HandleEditSave` | src/pages/pricing/PricingManagement.tsx:224-268 | an update is sent exactly when the guard holds; success applies the edit and closes the modal; failure only sets the error |
| `Pricing.PricingPage.OpenAddModal` | src/pages/pricing/PricingManagement.tsx:271-279 | the add form opens with the first lot, if any, and no prices |
| `Pricing.PricingPage.HandleAddSave` | src/pages/pricing/PricingManagement.tsx:282-352 | a price is sent exactly when the guard holds; a failed save only sets the error; a saved price closes the modal and reloads lots and price rows with the first-load mapping |
| `Pricing.PricingPage.OpenCostModal` | src/pages/pricing/PricingManagement.tsx:387-393 | the cost form opens with the first lot, if any, and no date, amount or margin |
| `Pricing.PricingPage.HandleCostSave` | src/pages/pricing/PricingManagement.tsx:395-433 | a cost is sent exactly when the guard holds; a saved cost closes the modal and reloads the cost rows with the first-load mapping (the corrected refetch; a body that is not an array sets the `TypeError` message); failures only set the error |
| `Pricing.PricingPage.HandleDeleteCost` | src/pages/pricing/PricingManagement.tsx:435-459 | success removes exactly the rows with the id; failure keeps the list, sets the error and shows the notice for the message |
| `Reservations.BadgeColor` | src/pages/reservations/Reservations.tsx:119-135 | ACTIVE blue, COMPLETED green, CANCELLED red, PENDING yellow, any other status gray |
| `Reservations.LowercaseStatusIsGray` | src/pages/reservations/Reservations.tsx:119-135 | the match is case-sensitive: "active" and "pending" are gray |
| `Reservations.OrDash` | src/pages/reservations/Reservations.tsx:115-117 | a non-empty text is kept and an empty one becomes "-" |
| `Reservations.SpotNameCell` | src/pages/reservations/Reservations.tsx:115 | the spot object's name, else "-"; taken from the reservation itself, not from the stored spot-name map |
| `Reservations.ZoneIdCell` | src/pages/reservations/Reservations.tsx:116 | the spot's zone id, else "-"; computed for each row but never rendered, since the "Zone Id" column shows the zone name |
| `Reservations.ZoneNameCell` | src/pages/reservations/Reservations.tsx:117 | the spot's zone name, else "-" |
| `Reservations.CandidateSpotIds` | src/pages/reservations/Reservations.tsx:51-57 | one candidate id per reservation: the first element of a non-empty spot array, else `spotId` |
| `Reservations.Dedup` | src/pages/reservations/Reservations.tsx:52-58 | `new Set`: no duplicates and the same members as the input |
| `Reservations.UniqueSpotIds` | src/pages/reservations/Reservations.tsx:51-59 | each non-empty candidate id exactly once, and no empty id |
| `Reservations.FilterKeepsDistinct` | src/pages/reservations/Reservations.tsx:58-59 | filtering a duplicate-free list keeps it duplicate-free |
| `Reservations.SpotLabel` | src/pages/reservations/Reservations.tsx:62-69 | the fetched spot's name, else "-", and "-" when the fetch failed; never empty |
| `Reservations.SpotNameMap` | src/pages/reservations/Reservations.tsx:60-72 | the map's keys are exactly the non-empty spot ids looked up |
| `Reservations.SpotNameMapContents` | src/pages/reservations/Reservations.tsx:60-72 | the map's keys are exactly the non-empty ids; each maps to its label; no label is empty |
| `Reservations.BuildSpotNames` | src/pages/reservations/Reservations.tsx:60-72 | the loop's map equals `SpotNameMap`: keys exactly the non-empty ids, each mapped to its spot's label; the page stores this map but no cell reads it |
| `Reservations.LoadedNamesCoverSpots` | src/pages/reservations/Reservations.tsx:49-72 | every listed reservation with a spot id finds a non-empty name in the map |
| `Reservations.ReservationsPage.constructor` | src/pages/reservations/Reservations.tsx:23-32 | the page starts with no reservations, no names, no error and no delete target |
| `Reservations.ReservationsPage.FetchData` | src/pages/reservations/Reservations.tsx:38-83 | without a token only "Not authenticated" is set; a failure sets the chosen message; success stores the listed reservations (`[]` if missing) and their spot names; loading always ends false |
| `Reservations.ReservationsPage.AskDelete` | src/pages/reservations/Reservations.tsx:171-174 | a row's delete icon remembers that reservation and opens the confirmation |
| `Reservations.ReservationsPage.ConfirmDelete` | src/pages/reservations/Reservations.tsx:264-292 | no target does nothing; no token sets the error and closes the modal; a delete or a 404 refetches, the 404 with its message; other errors set the chosen message; with a token the modal closes and the target is cleared; `loading` ends false after a refetch and is untouched on every path that does not refetch |
| `Layout.LatestNotifications` | src/components/Layout.tsx:52-54 | the first three alerts at most, `[]` for a non-array |
| `Layout.BellBadge` | src/components/Layout.tsx:205-217 | a badge is shown exactly when there are notifications, showing their number |
| `Layout.BellCountAtMostThree` | src/components/Layout.tsx:52-54 | the bell badge (lines 205-217) counts at most three, and shows exactly when some alert arrived |
| `Layout.NotificationLabel` | src/components/Layout.tsx:228 | `value.message` when present, else the type followed by " alert" |
| `Layout.CapitaliseRole` | src/components/Layout.tsx:94-96 | same length; the first character uppercased, the rest lowercased; empty stays empty |
| `Layout.RoleNames` | src/components/Layout.tsx:94-96 | "valet" and "VALET" become "Valet"; "admin" becomes "Admin" |
| `Layout.UpperCharIgnoresCase` | src/components/Layout.tsx:95 | characters that lowercase alike uppercase alike |
| `Layout.CapitaliseIgnoresCase` | src/components/Layout.tsx:94-96 | roles that differ only in case are capitalised alike |
| `Layout.CapitaliseIdempotent` | src/components/Layout.tsx:94-96 | capitalising twice equals capitalising once |
| `Layout.InvitePayloadOf` | src/components/Layout.tsx:92-100 | email copied, role capitalised, and `lot` present exactly when a lot was chosen |
| `Layout.InviteModal.constructor` | src/components/Layout.tsx:33-43 | the modal starts closed, with an empty form, status idle and no error |
| `Layout.InviteModal.SetOpen` | src/components/Layout.tsx:73-78 | closing an open modal resets the status to idle and clears the error; otherwise neither changes |
| `Layout.InviteModal.FetchLots` | src/components/Layout.tsx:57-71 | while the modal is open and a token exists, the lot selector gets the fetched lots, or `[]` when the fetch fails; otherwise it is unchanged |
| `Layout.InviteModal.Submit` | src/components/Layout.tsx:80-100 | a request exactly with a token, with status "sending"; without one, status "error" with "Not authenticated. Please log in again."; the inputs are disabled exactly when a request went out |
| `Layout.InviteModal.Finish` | src/components/Layout.tsx:101-115 | success sets status "sent"; failure sets "error" with the chosen message |
| `Layout.InviteModal.SentTimeout` | src/components/Layout.tsx:104-108 | the modal closes, the form is cleared and the status is idle |
| `Layout.InviteModal.FailedTimeout` | src/components/Layout.tsx:88-114 | the status returns to idle |
| `Vehicles.FirstPhoneMatch` | src/pages/vehicles/Vehicles.tsx:36 | the index of the first vehicle with the phone, or none exactly when no vehicle has it |
| `Vehicles.RemoveById` | src/pages/vehicles/Vehicles.tsx:38 | no vehicle with the id remains; every other one does, as many times as before |
| `Vehicles.AfterExit` | src/pages/vehicles/Vehicles.tsx:34-41 | no phone match leaves the list unchanged; otherwise every vehicle sharing the first match's id leaves |
| `Vehicles.ExitKeepsOrder` | src/pages/vehicles/Vehicles.tsx:38 | the remaining vehicles keep their order |
| `Vehicles.RemoveUniqueId` | src/pages/vehicles/Vehicles.tsx:38 | removing an id that only one vehicle has shrinks the list by one |
| `Vehicles.ExitRemovesOne` | src/pages/vehicles/Vehicles.tsx:34-41 | with distinct ids, a matching exit shrinks the list by exactly one |
| `Vehicles.SharedIdLeavesTogether` | src/pages/vehicles/Vehicles.tsx:36-38 | a second vehicle with the same id leaves together with the matched one |
| `Vehicles.VehicleRegister.constructor` | src/pages/vehicles/Vehicles.tsx:18-20 | no vehicles and both modals closed |
| `Vehicles.VehicleRegister.OpenEntry` | src/pages/vehicles/Vehicles.tsx:50 | the "Vehicle Entry" button opens the entry modal |
| `Vehicles.VehicleRegister.OpenExit` | src/pages/vehicles/Vehicles.tsx:57 | the "Vehicle Exit" button opens the exit modal |
| `Vehicles.VehicleRegister.HandleVehicleEntry` | src/pages/vehicles/Vehicles.tsx:22-31 | exactly one vehicle with the given fields is appended and the entry modal closes |
| `Vehicles.VehicleRegister.HandleVehicleExit` | src/pages/vehicles/Vehicles.tsx:34-41 | the list becomes `AfterExit` of the old list and the exit modal closes |
| `Zones.NewZone` | src/pages/zones/Zones.tsx:28-37 | the given id, name, capacity and vehicle type from the form, the selected lot or `""`, and no spots, so the "Spots" column shows 0 |
| `Zones.ZoneRegister.constructor` | src/pages/zones/Zones.tsx:24-26 | no zones, no lot selected, dialog closed |
| `Zones.ZoneRegister.OpenDialog` | src/pages/zones/Zones.tsx:48 | the "Create Zone" button opens the dialog |
| `Zones.ZoneRegister.SelectLot` | src/pages/zones/Zones.tsx:114 | the selected lot becomes the chosen one |
| `Zones.ZoneRegister.HandleCreateZone` | src/pages/zones/Zones.tsx:28-39 | exactly one new zone is appended with zero spots, earlier zones unchanged, and the dialog closes |

## Left out

- HTTP: the axios wrappers in `src/api/*.ts`, headers and the base URL. Each call is an input, or a `HttpError` when it throws.
- localStorage: the token is modelled only as present or absent (`hasToken`).
- `encodeURIComponent`: a function parameter of `AlertsApi.AlertsUrl`.
- Timers and React scheduling:
  - `setTimeout` resets are methods such as `SuccessTimeout`, `SentTimeout` and `FailedTimeout`.
  - The polling loop's timer is an event.
  - Effect re-runs are method calls.
- AlertsApi.AlertsPolling: one run of the polling effect is modelled. Runs after a token or lot change share `timer.current` with the old run, and that sharing is not modelled. A second mount of the same run does nothing.
- Floating-point work: average prices (PricingManagement.tsx:372-385), margin ×100 on load and ÷100 on save, and lat/long.
- `Intl` currency and `Date` formatting, timestamps, `createdAt` display and `lastUpdated`.
- Pricing.ToNumber: covers `undefined`, integers, `""` and plain decimal numerals. Any other string is NaN. Fractions, signs, whitespace and exponents are not modelled.
- Pricing.PricingPage.FetchCosts: `typeErrorMessage` is the message of the `TypeError` that `.map` throws on a non-array. Its exact text is the browser's and is not modelled.
- Pricing.CostPayloadOf: the margin is passed on unscaled, because the ÷100 is floating point.
- Pricing.PricingPage: the loading flags (`addLoading`, `editLoading`, `costLoading`) are not modelled.
- Pricing.PricingPage.HandleAddSave and Pricing.PricingPage.HandleCostSave: both use the corrected refetch mapping (the Findings rows for PricingManagement.tsx:322-324 and 419-424). The as-written mappings are `RefetchedPriceRow`, `RefetchedCostRow` and `RefetchedCosts`.
- Text: case mapping covers ASCII only. `toUpperCase` and `toLowerCase` on other letters are not modelled.
- Lots.NormaliseSpots: only the first element decides whether the body is nested, as in the source. A body mixing spots and arrays is not modelled.
- Lots: lat/long, the location JSON (Lots.tsx:556-565), FormData and File are left out. A file is its name, its size and a handle that tells two File objects apart.
- Lots: `handleEditLot` (Lots.tsx:591-650), the zone, spot and lot form state, the modals' open flags, and the spot payload's `Number(floor) || 0` coercion are left out.
- Lots.LotsPage.FetchAllSpots: the `Promise.all` lookups come as one result per zone, in zone order.
- Reservations.BuildSpotNames: the lookups come as one result per unique id, so their completion order does not matter.
- Reservations: the view modal and the badge of `ReservationDetail.tsx`, which repeats `Reservations.BadgeColor`, are left out.
- WalkIn: the zone and lot fetch effects and the zones list are left out. The lots list is a field.
- WalkIn.NewRecord: the timestamp is left out; `now` stands for `Date.now()`.
- AlertsPage.Paginate: requires `page >= 1`, because the Pagination component only offers pages from 1 up.
- Other files: login, sign-up, company creation, employee screens, the dashboard, UI components, `mockZones.ts` (static data) and `Spots.tsx` (all commented out). They hold no logic beyond calling setters.

## Findings

| source | as written | input that shows it | evidently intended | confidence | as-written member | corrected member |
|---|---|---|---|---|---|---|
| src/pages/pricing/PricingManagement.tsx:322-324 | after adding a price, the refetch reads `price.minPrice`, `price.maxPrice` and `price.valetPrice` | a price body with `data = {minPrice: 5, maxPrice: 20, valetPrice: 8}` and no top-level prices: the first load shows 5, the refetch shows NaN | read `price.data.*` as the first load does (127-129) | not executed | `Pricing.RefetchedPriceRow`, `Pricing.PriceRefetchDisagreesWithLoad` | `Pricing.PriceRows`, `Pricing.CorrectedRefetchShowsReportedPrices` |
| src/pages/pricing/PricingManagement.tsx:419-424 | the refetch after saving a cost skips the month mapping and the unwrap, and falls back to `""` for an unknown lot | a cost with month 3 and lot id "L9" that matches no lot: shown as "Mar" / "L9" on load and as "3" / "" after a save; a `{data: [...]}` body is listed on load but makes `.map` throw after a save | map the refetched costs as the first load does (182-201) | not executed | `Pricing.RefetchedCostRow`, `Pricing.CostRefetchDisagreesWithLoad`, `Pricing.WrappedCostsFailOnRefetch` | `Pricing.CostRows`, `Pricing.CorrectedCostRefetchLabels` |
| src/api/alerts.ts:69 | the next poll is armed after every completion, mounted or not, while cleanup (72-75) only clears the timer pending at that moment | events mount, cleanup, a failed completion, then the timer firing: a second request is issued after unmount | re-arm only while mounted, so the loop stops at cleanup | not executed | `AlertsApi.ZombiePoll`, `AlertsApi.InFlightAtCleanupPollsAgain` | `AlertsApi.GuardedCleanupStops`, `AlertsApi.GuardedAgreesWhileMounted` |
