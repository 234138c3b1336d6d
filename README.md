# Beauty-salon booking core in Dafny

This project models the booking logic of the BeatySalon front end (a React
single-page app) and proves properties of it. The model covers:

- **Slot grid and conflict check** (`src/utils/dateUtils.js`):
  - `generateTimeSlots` pushes an `HH:MM` string for every hour 9..17 and every minute mark 0 and 30;
  - `isSlotAvailable` is a `some` over the appointments that matches on date, time and staff id exactly.
- **Booking API** (`src/api/bookingApi.js`):
  - the reference lookups `getService` and `getStaffMember`;
  - the in-memory `mockAppointments` collection with `getAppointments`, `createAppointment`, `deleteAppointment` and `updateAppointment`.
- **Confirmation page** (`src/pages/ConfirmationPage.jsx`):
  - the appointment record composed from the booking draft;
  - the one-shot `hasCreatedAppointment` guard around the create call, with `confirmed`, `error` and the retry button.
- **My appointments page** (`src/pages/MyAppointmentsPage.jsx`): the upcoming list, which keeps the appointments at or after now and sorts them ascending.
- **Weather classifier** (`mapCondition` in `src/api/weatherApi.js`): OpenWeatherMap condition codes mapped to the salon's six conditions.
- **Appointment card** (`src/components/booking/AppointmentCard.jsx`):
  - resolving service ids and the staff id;
  - the `cancelling` flag around the cancel call.

How JavaScript is represented:

- A JavaScript object is a `map<string, Value>` (module `JsObjects`).
  - Object spread `{ ...a, ...b }` is map union, and the right-hand side wins.
  - A missing property reads as `None` (`undefined`).
- The array builtins `find`, `findIndex`, `some` and `filter` are generic functions on sequences (module `JsArrays`).
- The remaining builtins the core calls are written out where they are used: `map` as `ServiceIds`, `ServiceNames` and `ResolveServices`; `join` as `Join`; `sort` as the insertion sort `SortByTime`; `toLowerCase` as `ToLower`.
- A rejected call whose error has no message is `Fail("")`: the page stores a falsy `error` either way.

How each source file is held:

- **Booking API**: the reference lookups `getService` and `getStaffMember` are functions over the reference lists. The appointment collection is an `AppointmentStore` class that holds it as a `seq` field; each of its calls is an atomic method.
- **Confirmation page and appointment card**: classes whose fields are the React refs and state.
  - Each awaited call is split in two: a method that issues the call, and a method for its settling.
  - This lets the model run a second mount effect while the first create is still pending, which is what the guard exists for.
- **Slot grid**: `generateTimeSlots` keeps its nested loops. It is proved equal to the grid function `TimeGrid`.
- **Pure expressions** (the upcoming list, `mapCondition`, the card lookups): functions.

Inputs that come from outside are parameters:

- the clock: the `Date.now()` id, the `createdAt` ISO string, and `new Date()`;
- date parsing: `at`, which yields a moment or `None` for an Invalid Date;
- the user's answer to `window.confirm`;
- the outcome of each awaited call;
- the reference lists of services and staff.

Where the code and the design differ, the model follows the code:

- `createAppointment` performs no conflict check at write time. The store therefore does not enforce "no two appointments share a slot".
- Instead it is proved that the invariant survives a create exactly when the new record's slot was available, and that it survives every delete.
- The retry handler of the error view calls `handleConfirmation` directly. It neither consults nor sets the guard.
- A successful retry sets `confirmed` but never clears `error`. The error view, with its retry button, therefore stays, and every further retry issues a further create.
- The error view, the only view with a retry button, is shown only while `error` is truthy. A failure whose error has an empty or missing message leaves `error` falsy: the page then shows the "Booking Confirmed!" card and no retry, although nothing was confirmed (`FailureWithoutMessage`).

## Model

| member | source | states |
|---|---|---|
| JsArrays.FindIndex | src/api/bookingApi.js:110 | `findIndex`: Some(i) is the first index satisfying the callback; None (-1) exactly when no element does |
| JsArrays.Find | src/api/bookingApi.js:96 | `find`: None exactly when no element satisfies the callback; otherwise it is an element of the array that satisfies it, and no earlier element does |
| JsArrays.Any | src/utils/dateUtils.js:30 | `some` is true exactly when some element satisfies the callback |
| JsArrays.AnyIgnoresOrder | src/utils/dateUtils.js:30 | arrays with the same elements and multiplicities give the same `some` verdict |
| JsArrays.Filter | src/api/bookingApi.js:98 | `filter` is never longer than its input, and keeps exactly the elements that satisfy the callback |
| JsArrays.FilterCounts | src/api/bookingApi.js:98 | each accepted element is kept exactly as often as it occurs; rejected elements do not occur |
| JsArrays.FilterDropsRejected | src/api/bookingApi.js:98 | when some element is rejected, the result is strictly shorter |
| JsArrays.FilterAppend | src/api/bookingApi.js:98 | filtering a concatenation is concatenating the filtered parts, so the order of survivors is kept |
| JsArrays.FilterKeepsPairwise | src/api/bookingApi.js:98 | if a relation holds between every element and every later one, it still holds after filtering |
| JsObjects.Get | src/utils/dateUtils.js:31-33 | property access yields the value exactly when the property is present |
| JsObjects.Spread | src/api/bookingApi.js:112 | `{ ...base, ...overrides }` has the keys of both; overriding keys take the new value and other keys keep the old one |
| DateUtils.Digit | src/utils/dateUtils.js:14 | the character for a decimal digit is a digit and reads back as that digit |
| DateUtils.DecimalString | src/utils/dateUtils.js:14 | `toString()` of a natural number is a non-empty string of digits |
| DateUtils.PadStart2 | src/utils/dateUtils.js:14 | `padStart(2, '0')` never truncates; a shorter string is left-padded with zeros to length two, keeping its characters at the end |
| DateUtils.TwoDigitString | src/utils/dateUtils.js:14 | below 100, the padded rendering is exactly the tens digit then the units digit |
| DateUtils.FormatTime | src/utils/dateUtils.js:14 | the template is the padded hour, a colon and the padded minute, never shorter than five characters |
| DateUtils.FormatTimeDigits | src/utils/dateUtils.js:14 | the template renders an hour and a minute below 100 as exactly two digits, a colon and two digits |
| DateUtils.FormatTimeReadsBack | src/utils/dateUtils.js:14 | an hour below 24 and a minute below 60 render as a valid `HH:MM` clock time whose hour field is the hour, whose minute field is the minute, and whose value is 60·hour + minute |
| DateUtils.TimeGrid | src/utils/dateUtils.js:12-13 | the grid has (18 − 9) · 2 slots |
| DateUtils.TimeGridSlot | src/utils/dateUtils.js:12-14 | slot k is a valid `HH:MM` clock time with hour 9 + k/2 and minute 0 for even k, 30 for odd k: 09:00 plus 30·k minutes |
| DateUtils.TimeGridOpens | src/utils/dateUtils.js:12-14 | the first slot is "09:00" |
| DateUtils.TimeGridCloses | src/utils/dateUtils.js:12-14 | there are exactly 18 slots and the last is "17:30" |
| DateUtils.TimeGridPolicy | src/utils/dateUtils.js:12-16 | every slot is a valid `HH:MM` clock time with an hour from 9 to 17 and a minute of 0 or 30, so before 18:00; neighbours are exactly 30 minutes apart; the slots are strictly ascending |
| DateUtils.GenerateTimeSlots | src/utils/dateUtils.js:10-19 | the nested loops return exactly the grid |
| DateUtils.Occupies | src/utils/dateUtils.js:31-33 | a record holds the slot exactly when its `date`, `time` and `staffId` are present and are these strings; a missing or non-string property never matches |
| DateUtils.SlotOf | src/utils/dateUtils.js:31-33 | a record occupies (date, time, staffId) exactly when its slot is that key |
| DateUtils.IsSlotAvailable | src/utils/dateUtils.js:29-35 | false exactly when some appointment has the same date, time and staff id |
| DateUtils.AvailabilitySplits | src/utils/dateUtils.js:30-34 | every slot is available against an empty list; a concatenation is available exactly when both parts are |
| DateUtils.DifferentSlotNeverBlocks | src/utils/dateUtils.js:30-34 | an appointment that differs in date, time or staff id never changes the verdict |
| DateUtils.AppendedRecordTakesItsSlot | src/utils/dateUtils.js:30-34 | once a record is in the list, its own slot is no longer available |
| DateUtils.AvailabilityIgnoresOrder | src/utils/dateUtils.js:30 | the verdict depends only on which appointments exist, not on their order |
| BookingApi.ServiceIds | src/pages/ConfirmationPage.jsx:34 | `services.map(s => s.id)` has one id per service, the i-th id being the i-th service's id |
| BookingApi.ServiceNames | src/pages/ConfirmationPage.jsx:35 | `services.map(s => s.name)` has one name per service, the i-th name being the i-th service's name |
| BookingApi.FindService | src/api/bookingApi.js:35 | None exactly when no service has the id; otherwise the first service with it |
| BookingApi.FindStaffMember | src/api/bookingApi.js:58 | None exactly when no staff member has the id; otherwise the first one with it |
| BookingApi.GetService | src/api/bookingApi.js:33-38 | succeeds exactly when some service has the id, returning the first such service; otherwise fails with "Service not found" |
| BookingApi.GetStaffMember | src/api/bookingApi.js:56-61 | succeeds exactly when some staff member has the id, returning the first one; otherwise fails with "Staff member not found" |
| BookingApi.HasId | src/api/bookingApi.js:110 | `apt.id === id` holds exactly when the record has an `id` property equal to this string; a record without an id never matches |
| BookingApi.WithId | src/api/bookingApi.js:81-84 | the new record has every input key plus `id`; `id` is the new id, overriding any input id; all other fields are unchanged |
| BookingApi.FindById | src/api/bookingApi.js:96 | None exactly when no record has the id; otherwise a stored record with that id |
| BookingApi.IndexOfId | src/api/bookingApi.js:110-111 | None (-1) exactly when no record has the id; otherwise the first index holding it |
| BookingApi.WithoutId | src/api/bookingApi.js:98 | no record with the id survives; every other record is kept with its multiplicity; the collection shrinks when the id was present |
| BookingApi.WithoutIdKeepsOrder | src/api/bookingApi.js:98 | deleting from a concatenation deletes from each part, so the survivors keep their order |
| BookingApi.MergeAt | src/api/bookingApi.js:112 | only the record at the index changes, and the length stays the same; supplied fields are overwritten, other fields kept, and the keys are the union |
| BookingApi.WithIdKeepsSlot | src/api/bookingApi.js:81-84 | assigning the id never moves a record to another slot |
| BookingApi.CreateKeepsNoDoubleBookingIff | src/api/bookingApi.js:79-87 | with no double booking before, there is none after a create exactly when the new record holds no slot or its slot was available before |
| BookingApi.DeleteKeepsNoDoubleBooking | src/api/bookingApi.js:94-100 | deleting never creates a double booking |
| BookingApi.AppointmentStore.constructor | src/api/bookingApi.js:8 | the collection starts empty |
| BookingApi.AppointmentStore.GetAppointments | src/api/bookingApi.js:69-72 | returns the whole collection in insertion order and changes nothing |
| BookingApi.AppointmentStore.CreateAppointment | src/api/bookingApi.js:79-87 | appends exactly the input with the new id and returns it; earlier records are unchanged; the no-double-booking invariant survives when the slot was available |
| BookingApi.AppointmentStore.DeleteAppointment | src/api/bookingApi.js:94-100 | absent id: fails with "Appointment not found" and changes nothing. Otherwise removes every record with the id, keeps the rest in order and returns `{id, deleted: true}`. Never creates a double booking |
| BookingApi.AppointmentStore.UpdateAppointment | src/api/bookingApi.js:108-114 | no record with the id: fails with "Appointment not found" and changes nothing. Otherwise it shallow-merges the changes into the first record with the id, leaves every other position untouched and returns the merged record |
| Confirmation.Join | src/pages/ConfirmationPage.jsx:35 | `join` of nothing is ""; otherwise the length is the summed lengths plus one separator between neighbours, and the result starts with the first item |
| Confirmation.JoinAppend | src/pages/ConfirmationPage.jsx:35 | joining one more item appends the separator and that item |
| Confirmation.OrEmpty | src/pages/ConfirmationPage.jsx:42-43 | an absent email or note defaults to ""; a present one is kept as it is |
| Confirmation.ComposeAppointment | src/pages/ConfirmationPage.jsx:33-48 | the composed record has exactly the fourteen listed properties and no `id` |
| Confirmation.ComposedSlot | src/pages/ConfirmationPage.jsx:36-39 | the composed record occupies the draft's date, time and staff member |
| Confirmation.ComposedServicesAndStatus | src/pages/ConfirmationPage.jsx:34-46 | `serviceIds` are the service ids in order; `serviceNames` are the names joined by ", "; email and notes default to ""; the status is "confirmed" |
| Confirmation.ComposedCopiesDraft | src/pages/ConfirmationPage.jsx:37-47 | the client name, phone, staff name, totals and `createdAt` are copied unchanged |
| Confirmation.StoredBookingTakesItsSlot | src/pages/ConfirmationPage.jsx:33-50 | once the composed record is stored, its slot is taken and every other slot is exactly as available as before |
| Confirmation.ConfirmationPage.constructor | src/pages/ConfirmationPage.jsx:17-21 | the page mounts with the flag unset, nothing confirmed, no error and no create call |
| Confirmation.ConfirmationPage.MountEffect | src/pages/ConfirmationPage.jsx:24-29 | with booking data and the flag unset: sets the flag, then issues exactly one create with the composed record. Otherwise nothing changes |
| Confirmation.ConfirmationPage.HandleConfirmation | src/pages/ConfirmationPage.jsx:31-50 | issues exactly one create call with the composed record and leaves the flag, `confirmed` and `error` alone |
| Confirmation.ConfirmationPage.CreateSettled | src/pages/ConfirmationPage.jsx:50-56 | success sets `confirmed`; failure stores the message and clears the flag |
| Confirmation.ConfirmationPage.Retry | src/pages/ConfirmationPage.jsx:53-64 | offered only while the error view is shown, that is while `error` holds a non-empty message (`ShowsErrorView`); the retry button issues a create without consulting or changing the flag |
| Confirmation.DoubleMountCreatesOnce | src/pages/ConfirmationPage.jsx:20-29 | a mount effect run twice before the create settles issues exactly one create |
| Confirmation.MountWithoutBookingCreatesNothing | src/pages/ConfirmationPage.jsx:25 | without booking data no create is ever issued |
| Confirmation.RetryAfterFailure | src/pages/ConfirmationPage.jsx:50-64 | after a failure with a message and a successful retry, `confirmed` and `error` are both set, the error view still shows and the flag is clear, so a further retry issues a third create |
| Confirmation.FailureWithoutMessage | src/pages/ConfirmationPage.jsx:50-64 | a failure with an empty message clears the flag and stores a falsy `error`, so no error view and no retry are shown, and nothing is confirmed |
| MyAppointments.IsUpcoming | src/pages/MyAppointmentsPage.jsx:28-30 | an Invalid Date is never upcoming; a valid date-time is upcoming exactly when it is not before now |
| MyAppointments.NotLater | src/pages/MyAppointmentsPage.jsx:32-35 | `a` sorts no later than `b` exactly when both parse and the comparator `dateA - dateB` is not positive |
| MyAppointments.InsertByTime | src/pages/MyAppointmentsPage.jsx:32-36 | inserting adds exactly the one record |
| MyAppointments.PrependKeepsSorted | src/pages/MyAppointmentsPage.jsx:32-36 | an ascending list stays ascending behind a record no later than any of its members |
| MyAppointments.InsertKeepsSorted | src/pages/MyAppointmentsPage.jsx:32-36 | inserting into an ascending list keeps it ascending |
| MyAppointments.SortByTime | src/pages/MyAppointmentsPage.jsx:32-36 | the sort is a permutation of its input and ascending by date-time |
| MyAppointments.UpcomingFilter | src/pages/MyAppointmentsPage.jsx:27-31 | keeps exactly the records at or after now, each as often as it occurs |
| MyAppointments.UpcomingAppointments | src/pages/MyAppointmentsPage.jsx:27-36 | a record is listed exactly when it is stored and at or after now; it appears as often as stored, unaltered, in ascending order |
| MyAppointments.UpcomingIgnoresStoreOrder | src/pages/MyAppointmentsPage.jsx:27-36 | the upcoming list holds the same records whatever order the store returns them in |
| WeatherApi.ToLower | src/api/weatherApi.js:38 | `toLowerCase` keeps the length, leaves no upper-case letter, keeps every other character and shifts each upper-case letter down by 32 |
| WeatherApi.MapCondition | src/api/weatherApi.js:31-39 | 200–299 storm, 300–599 rain, 600–699 snow, 700–799 windy, 800 sunny, above 800 cloudy. Below 200 or absent: the lower-cased label, or "cloudy" when the label is absent or empty. Never "" |
| WeatherApi.BandsDisjoint | src/api/weatherApi.js:32-36 | no code lies in two of the numeric ranges |
| WeatherApi.MapConditionMatchesBands | src/api/weatherApi.js:32-37 | a code from 200 up maps to the condition of the range holding it, or to "cloudy" beyond every range |
| WeatherApi.MapConditionTotal | src/api/weatherApi.js:31-39 | every code from 200 up gives one of the six conditions and ignores the label; every code below 200 behaves like a missing code |
| AppointmentCards.ServiceIdsOf | src/components/booking/AppointmentCard.jsx:18 | `appointment.serviceIds` is the stored id list when it is present and a list, and missing otherwise |
| AppointmentCards.ResolveOne | src/components/booking/AppointmentCard.jsx:19 | one id resolves to the first service with it when some service has it, and to nothing otherwise |
| AppointmentCards.ResolveServices | src/components/booking/AppointmentCard.jsx:18-20 | every resolved service is the first service in the list with its id |
| AppointmentCards.ResolvedIdsAreKnownIds | src/components/booking/AppointmentCard.jsx:18-20 | the resolved services carry exactly the ids that name a known service, in the order of `serviceIds`; unknown ids are dropped |
| AppointmentCards.AppointmentServices | src/components/booking/AppointmentCard.jsx:18-20 | a missing `serviceIds` gives the empty list. Otherwise the services follow the known ids in order, each the first service with its id |
| AppointmentCards.StaffMemberOf | src/components/booking/AppointmentCard.jsx:23 | absent exactly when no staff member has the appointment's `staffId`; otherwise the first one that has it |
| AppointmentCards.StaffMemberOfIsLookup | src/components/booking/AppointmentCard.jsx:23 | with a string `staffId`, the card shows the staff member `getStaffMember` finds |
| AppointmentCards.ResolveServiceIdsRoundTrip | src/components/booking/AppointmentCard.jsx:18-20 | resolving the ids of services that are each the first with their id gives those services back |
| AppointmentCards.CardShowsConfirmedBooking | src/components/booking/AppointmentCard.jsx:18-23 | the card of a record the confirmation page composed and the store saved shows the booked services and staff member |
| AppointmentCards.AppointmentCard.constructor | src/components/booking/AppointmentCard.jsx:15 | the card starts not cancelling, with no cancel call and no alert |
| AppointmentCards.AppointmentCard.HandleCancel | src/components/booking/AppointmentCard.jsx:25-29 | if the user confirms, sets `cancelling` and calls `onCancel` once with the appointment's id; otherwise nothing changes |
| AppointmentCards.AppointmentCard.CancelSettled | src/components/booking/AppointmentCard.jsx:29-34 | `cancelling` is always false afterwards; only a failure alerts "Failed to cancel appointment" |
| AppointmentCards.CancelOnce | src/components/booking/AppointmentCard.jsx:25-35 | a confirmed cancel issues one call with the appointment's id and ends not cancelling, whatever the outcome |

## Left out

- The `delay` awaits and the Promise machinery of `bookingApi.js`: timing only. Each store call is atomic.
- The async calls in the pages: each is split at its `await` into an issuing method and a settling method.
  - Settlings are not matched to particular calls.
  - Interleavings beyond the scenarios above are not enumerated.
- Id generation with `Date.now()`: the id is a parameter, and its uniqueness is not assumed.
- `getServices` and `getStaff`: they return list copies of the reference data, and the reference data are parameters here.
- `getWeather`: it is a network fetch with API-key configuration and console logging. The `windSpeed` conversion (`* 3.6`, `Math.round`) is floating point.
- `formatDate` and `getTodayDate`: locale formatting and the system clock.
- `new Date(apt.date + 'T' + apt.time)`: it is the parameter `at`. A `None` result stands for an Invalid Date, which the filter never keeps.
- `new Date()` (`now`) and `new Date().toISOString()` (`createdAt`) are parameters.
- JSX rendering, `Navbar.jsx`, `App.jsx` routing, the loading spinner and the error view's markup: UI with no booking logic.
- `window.confirm` is a boolean input and `alert` appends to a field. React `useRef` and `useState` are fields, without re-render scheduling.
- The multi-step booking session (services, then staff, then date and time, then client details): its code and the computation of `totalPrice` and `totalDuration` are not part of this model. The totals are copied from the booking draft.
- Appointment records hold only string, integer and string-list values. A `serviceIds` that is present but not a list would throw in the card; here it reads as missing.
- WeatherApi.ToLower: lower-cases ASCII letters only. Other Unicode case mappings are not modelled.
- MyAppointments.SortByTime: the sort is an insertion sort, which is stable, but stability is not stated as a property. Only ascending order and permutation are proved.
- The comparator `dateA - dateB` on Invalid Dates is not modelled: every record that reaches the sort has passed the filter, so every time is valid.
- The filter calls `new Date()` once per element (`MyAppointmentsPage.jsx:30`), so the clock may advance during one pass. The model compares every record with a single `now`.
- `createAppointment` and `updateAppointment` return the stored object itself, so a caller that mutates the result also mutates the stored record. Records are values here, so that aliasing is not captured; only the returned value is.
- A `bookingData` that is present but malformed (for instance without `services` or `staff`) throws while the record is composed, inside the `try`, and takes the error path without any create call. `BookingData` always has every field, so that path is not modelled.
