# Barbershop booking flow — a Dafny model

This project models the booking flow of a barbershop web site built on the Square
appointments platform. A customer works through these steps:

- picks services offered by one barber, which go into a cart locked to that barber;
- sees the barber's free slots for the next weeks;
- picks a date in a month calendar and a time in a Morning/Afternoon/Evening list;
- fills in a form that becomes a customer request and a booking request.

Around that flow the model also covers:

- the services route, which flattens the Square catalog into numbered services;
- the availability route, which splits a long search window into 31-day batches and merges
  the slots they return by date;
- the barber card helpers (photo, initials, price range);
- the gallery carousel.

Modules follow the source files:

| Dafny module | source file |
|---|---|
| `BookingCart` | lib/booking-cart-context.tsx |
| `ServiceUtils` | lib/service-utils.ts |
| `Availability` | app/api/search-availability/route.ts |
| `Appointment` | components/booking-selector/SimpleAppointment.tsx |
| `Calendar` | components/ui/calendar.tsx |
| `CatalogRoute` | app/api/services/route.ts |
| `BarberCard` | components/booking-selector/BarberCard.tsx |
| `BookingSelector` | components/booking-selector/BookingSelector.tsx |
| `Gallery` | components/gallery-showcase.tsx |

Shared modules:

- `Entities`: the records the flow passes around: `Service`, `TeamMember` and junction data.
- `ProviderErrors`: the "first error's detail, else a fallback" rule both routes use.
- `Wrappers`: `Option` and `Result`.
- `Text`: ASCII case mapping and substring search.
- `Seqs`: filter and sum over sequences.
- `Sorting`: lexicographic order and a keyed insertion sort.

Where the source changes state step by step, the model is imperative:

- The cart, the appointment page, the calendar, the selector page and the carousel are
  classes whose methods update fields.
- The grouping, the batching loop, the merges and the catalog flattening are methods with
  `while`/`for` loops.

Each method is proved equal to a specification function, and the lemmas state what the
source promises about that function.

Prices are integer cents and durations integer minutes or milliseconds. Instants are
integers of milliseconds. The business-time-zone views of an instant (its date key and its
hour in Australia/Melbourne) are functions passed in as a `Clock`. The Square calls are
functions passed in as a provider.

## Model

| member | source | states |
|---|---|---|
| BookingCart.ContainsService | lib/booking-cart-context.tsx:105-110 | true exactly when some item carries that service id |
| BookingCart.AddOutcome | lib/booking-cart-context.tsx:69-87 | a different locked barber gives false and the same state; an already selected service gives true and the same state; otherwise exactly one item is appended, the barber is locked and the result is true |
| BookingCart.AddPreservesConsistent | lib/booking-cart-context.tsx:69-87 | adding keeps the cart invariant: barber null exactly when empty, every item on the locked barber's square id, no service id twice |
| BookingCart.AddIdempotent | lib/booking-cart-context.tsx:77-80 | adding the same service with the same barber a second time changes nothing and returns true |
| BookingCart.RemoveOutcome | lib/booking-cart-context.tsx:89-98 | removal keeps exactly the items with other service ids, read from the old items at strictly increasing positions, so in their order; the barber is cleared exactly when the result is empty and kept otherwise |
| Seqs.FilterInOrder | lib/booking-cart-context.tsx:91 | a filter's result is its input read at strictly increasing positions, so kept elements keep their relative order |
| BookingCart.RemovePreservesConsistent | lib/booking-cart-context.tsx:89-98 | removing keeps the cart invariant |
| BookingCart.RemoveUndoesAdd | lib/booking-cart-context.tsx:82-98 | removing a service just added (when it was new and accepted) restores the items |
| BookingCart.ClearOutcome | lib/booking-cart-context.tsx:100-103 | clearing gives no items and no barber from any state, and the result is consistent |
| BookingCart.ApplyPreservesConsistent | lib/booking-cart-context.tsx:69-103 | each of add, remove and clear keeps the cart invariant |
| BookingCart.RunPreservesConsistent | lib/booking-cart-context.tsx:69-103 | any sequence of add/remove/clear from a consistent cart keeps the invariant |
| BookingCart.ServicesOf | lib/booking-cart-context.tsx:112-123 | the items' services, position by position |
| BookingCart.TotalPriceAppend | lib/booking-cart-context.tsx:112-114 | the total is 0 for an empty cart and additive over concatenation |
| BookingCart.TotalPriceIgnoresOverride | lib/booking-cart-context.tsx:112-114 | changing an item's barber price override does not change the total (base price_amount only) |
| BookingCart.TotalPriceWithoutOverrides | lib/booking-cart-context.tsx:112-114 | with no overrides the cart total equals calculateTotalPrice of its services |
| BookingCart.TotalDurationAgrees | lib/booking-cart-context.tsx:116-123 | the cart's duration total equals calculateTotalDuration of its services (same ms-to-minutes rule) |
| BookingCart.TotalPriceBase | lib/booking-cart-context.tsx:112-114 | the cart total is 0 when empty and the catalogue total of its services when no item has an override |
| BookingCart.Cart.constructor | lib/booking-cart-context.tsx:33-35 | a new cart is empty with no barber and valid |
| BookingCart.Cart.AddItem | lib/booking-cart-context.tsx:69-87 | the new state and the result are the add transition of the old state; validity is kept |
| BookingCart.Cart.RemoveItem | lib/booking-cart-context.tsx:89-98 | the new state is the remove transition of the old state; validity is kept |
| BookingCart.Cart.ClearCart | lib/booking-cart-context.tsx:100-103 | the new state is the clear transition; validity is kept |
| BookingCart.Cart.IsServiceSelected | lib/booking-cart-context.tsx:105-110 | true exactly when some item carries that service id |
| BookingCart.Cart.GetTotalPrice | lib/booking-cart-context.tsx:112-114 | 0 for an empty cart, and calculateTotalPrice of its services when no override is set (see BookingCart.TotalPriceIgnoresOverride for overrides) |
| BookingCart.Cart.GetTotalDuration | lib/booking-cart-context.tsx:116-123 | calculateTotalDuration of the cart's services |
| ServiceUtils.PricedCopy | lib/service-utils.ts:72-78 | the copy's barber price is the junction price or none, teamMembers is empty, every other field is copied |
| ServiceUtils.LinkPairs | lib/service-utils.ts:40-49 | every pair produced for a service has an eligible link (not an owner, junction not unavailable) and that service; the converse is ServiceUtils.LinkPairsMembers |
| ServiceUtils.LinkPairsMembers | lib/service-utils.ts:40-49 | a pair is produced exactly when it is for that service, its link is in the member list, and the link is eligible |
| ServiceUtils.EligiblePairs | lib/service-utils.ts:40-49 | every (service, member) pair visited has an eligible link; the converse is ServiceUtils.EligiblePairsMembers |
| ServiceUtils.EligiblePairsMembers | lib/service-utils.ts:36-49 | a pair is visited exactly when its service is in the catalogue, its link is on that service's member list, and the link is neither an owner nor marked unavailable |
| ServiceUtils.FindEntry | lib/service-utils.ts:38-52 | a found index holds that member id; none found means no entry has it |
| ServiceUtils.ServicesForSnoc | lib/service-utils.ts:80 | one more pair appends its service to that barber's list only |
| ServiceUtils.ServicesForNonEmpty | lib/service-utils.ts:52-80 | a member has services in the grouping exactly when some pair is for that member |
| ServiceUtils.BookableMember | lib/service-utils.ts:36-80 | a member id has services exactly when some service lists that member and the member is neither an owner nor unavailable for it; with GroupServicesByBarber this makes "skip these, keep everyone else" an if-and-only-if |
| ServiceUtils.NewEntryServices | lib/service-utils.ts:52-80 | opening an entry for a member with no services so far keeps every entry equal to its member's services, non-empty and non-owner |
| ServiceUtils.NewEntryCoverage | lib/service-utils.ts:52-80 | opening an entry for a new member keeps every member without an entry unpaired |
| ServiceUtils.ExistingEntryServices | lib/service-utils.ts:70-80 | appending a copy to the member's own entry keeps every entry equal to its member's services |
| ServiceUtils.ExistingEntryCoverage | lib/service-utils.ts:70-80 | appending to an existing entry keeps every member without an entry unpaired |
| ServiceUtils.GroupStepNew | lib/service-utils.ts:52-80 | a pair for an unseen member keeps the grouping invariant (one entry per id, service lists in input order, non-owner, non-empty) |
| ServiceUtils.GroupStepExisting | lib/service-utils.ts:52-80 | a pair for a member already present keeps the grouping invariant |
| ServiceUtils.GroupSpec | lib/service-utils.ts:36-86 | grouping any eligible pairs yields one entry per member id whose services are exactly that member's services in input order |
| ServiceUtils.GroupSnoc | lib/service-utils.ts:80 | grouping one more pair is one more add step |
| ServiceUtils.LinkPairsStep | lib/service-utils.ts:40-49 | the pairs of one more member link extend the pairs so far correctly |
| ServiceUtils.PushCopy | lib/service-utils.ts:52-80 | getting or creating the member's entry and pushing the priced copy is one add step of the grouping |
| ServiceUtils.MemberStep | lib/service-utils.ts:43-80 | one more member of a service leaves the barber map unchanged when skipped and adds that pair otherwise |
| ServiceUtils.PushServiceMembers | lib/service-utils.ts:40-80 | the inner loop over a service's members yields the grouping of the pairs so far plus this service's pairs |
| ServiceUtils.FillBarberMap | lib/service-utils.ts:36-84 | the outer loop yields the grouping of all eligible pairs |
| ServiceUtils.GroupServicesByBarber | lib/service-utils.ts:36-92 | the result is a permutation of the grouping, sorted by lower-cased full name, one entry per member id, no owners, every entry non-empty with its services in input order, and every member with an eligible service present |
| ServiceUtils.RearrangedGroupFacts | lib/service-utils.ts:86-91 | any permutation of a grouping keeps its per-entry facts and its coverage |
| ServiceUtils.GetServicePrice | lib/service-utils.ts:97-99 | the override when present, else price_amount |
| ServiceUtils.CalculateTotalPrice | lib/service-utils.ts:120-122 | the reduce of getServicePrice; its contract is ServiceUtils.TotalPriceAppend and ServiceUtils.TotalPriceOverride |
| ServiceUtils.CalculateTotalDuration | lib/service-utils.ts:127-134 | the reduce of the normalised durations; its contract is ServiceUtils.TotalDurationAppend |
| ServiceUtils.TotalPriceAppend | lib/service-utils.ts:120-122 | calculateTotalPrice is additive over concatenation |
| ServiceUtils.TotalPriceOverride | lib/service-utils.ts:97-122 | setting one service's override changes the total by the override minus that service's old price |
| ServiceUtils.DurationMinutes | lib/service-utils.ts:112-115 | above 10000 the value is milliseconds rounded half up to minutes; otherwise it is the value itself |
| ServiceUtils.GetServiceCategory | lib/service-utils.ts:154-175 | the keyword rule; its contract is ServiceUtils.CategoryByMinimalKeywords |
| ServiceUtils.TotalDurationAppend | lib/service-utils.ts:127-134 | calculateTotalDuration is additive over concatenation |
| ServiceUtils.CategoryByMinimalKeywords | lib/service-utils.ts:154-175 | the category is Hair if the lower-cased name mentions a hair keyword, else Beard on a beard keyword, else Eyebrow on "brow", else Other |
| ServiceUtils.Rank | lib/service-utils.ts:196-201 | a category's position in the fixed Hair, Beard, Eyebrow, Other order |
| ServiceUtils.OrderedGroupsContents | lib/service-utils.ts:196-201 | every emitted group holds its category's non-empty bucket |
| ServiceUtils.OrderedGroupsSorted | lib/service-utils.ts:196-201 | emitted groups are strictly in the fixed category order |
| ServiceUtils.OrderedGroupsCover | lib/service-utils.ts:196-201 | every category with a non-empty bucket is emitted |
| ServiceUtils.BucketByCategory | lib/service-utils.ts:185-193 | every category's bucket is that category's services in input order |
| ServiceUtils.OrderedGroupsFacts | lib/service-utils.ts:196-201 | emitting the buckets in category order gives only non-empty groups, strictly in that order, one for every non-empty category |
| ServiceUtils.CategorizeServices | lib/service-utils.ts:181-201 | only non-empty groups, each holding its category's services in input order, strictly in the fixed category order, and every non-empty category present |
| ServiceUtils.CategoriesPartition | lib/service-utils.ts:154-201 | the four categories' bucket sizes sum to the number of services: each service lands in exactly one group |
| ProviderErrors.ErrorMessage | app/api/search-availability/route.ts:84-95 | the message is the first error's detail when that is a non-empty string, else the fallback |
| Availability.FindDate | app/api/search-availability/route.ts:57-62 | a found index carries that date key; none found means the key is absent |
| Availability.FindDateUnique | app/api/search-availability/route.ts:57-62 | with distinct keys, looking up an entry's key finds that entry |
| Availability.AppendAtSpec | app/api/search-availability/route.ts:57-62 | pushing slots under a key keeps keys distinct, extends that key's list by the slots and leaves every other key's list unchanged |
| Availability.DateKey | app/api/search-availability/route.ts:130 | the key is the longest prefix of startAt without a "T" (the full-date of RFC 3339, section 5.6) |
| Availability.ToSlot | app/api/search-availability/route.ts:134-145 | the slot keeps start, location and each segment's duration, service variation, team member and version |
| Availability.SlotsOnAppend | app/api/search-availability/route.ts:127-147 | the slots a date collects are additive over the provider list |
| Availability.GroupedByDateSpec | app/api/search-availability/route.ts:125-150 | the grouping has distinct keys and each key's list is exactly the provider's availabilities with a startAt on that date, in provider order; entries without a startAt are dropped |
| Availability.GroupByDate | app/api/search-availability/route.ts:125-150 | the forEach loop computes that grouping |
| Availability.FetchAvailabilityBatch | app/api/search-availability/route.ts:102-151 | a batch call yields the provider's grouped slots, or its errors on failure |
| Availability.SlotsAtSnoc | app/api/search-availability/route.ts:57-62 | one more key entry adds its slots to that key only |
| Availability.MergeIntoStepSlots | app/api/search-availability/route.ts:57-62 | one merge step extends the merged lists by the entry's slots |
| Availability.MergeIntoStepFound | app/api/search-availability/route.ts:57-62 | one merge step adds exactly the entry's key to the keys present |
| Availability.MergeIntoStep | app/api/search-availability/route.ts:57-62 | one merge step keeps distinct keys and concatenation per key |
| Availability.MergeIntoSpec | app/api/search-availability/route.ts:57-62 | merging a batch keeps keys distinct, each key's list is the accumulated list followed by the batch's list, and a key is present exactly when either side has it |
| Availability.MergeBatch | app/api/search-availability/route.ts:57-62 | the merge loop computes that merge |
| Availability.CeilDiv | app/api/search-availability/route.ts:32 | the ceiling of the division |
| Availability.NeedsBatches | app/api/search-availability/route.ts:32-38 | more than 31 days exactly when the span exceeds 31 days of milliseconds |
| Availability.BatchesTile | app/api/search-availability/route.ts:39-66 | the first batch starts at start, each later one where the previous ended, each is non-empty and at most 31 days, and the last ends at end |
| Availability.BatchesDisjoint | app/api/search-availability/route.ts:43-65 | no two batches overlap |
| Availability.BatchesStartFrom | app/api/search-availability/route.ts:41-65 | every batch lies within [start, end] |
| Availability.BatchesReach | app/api/search-availability/route.ts:41-66 | every instant in [start, end) lies in some batch |
| Availability.DisjointUnique | app/api/search-availability/route.ts:43-65 | in non-overlapping ranges an instant lies in at most one |
| Availability.BatchesCover | app/api/search-availability/route.ts:41-66 | every instant in [start, end) lies in exactly one batch, and nothing outside lies in any |
| Availability.BatchQueries | app/api/search-availability/route.ts:49-54 | one query per batch, over that batch's range, with the service variation and location |
| Availability.BatchQueriesStep | app/api/search-availability/route.ts:41-66 | one loop iteration issues the query for [current, min(current + 31 days, end)) and continues from its end |
| Availability.Post | app/api/search-availability/route.ts:15-97 | the handler, its batch loop included, computes the route's response function, including the 500 for an unparsable body and the single query for an unreadable date |
| Availability.SearchAvailability | app/api/search-availability/route.ts:15-97 | the route's answer; its contract is the route lemmas (Availability.UnreadableBodyFails, MissingParameters, SingleQuery, BatchedSearch, MergedSlots, FirstFailure) |
| Availability.RunQueries | app/api/search-availability/route.ts:41-95 | the batch loop with its catch; its contract is Availability.MergedSlots and Availability.FirstFailure |
| Availability.TotalDays | app/api/search-availability/route.ts:32 | the ceiling of the span in days: (r - 1) days < end - start <= r days |
| Availability.UnreadableBodyFails | app/api/search-availability/route.ts:16-17 | a body request.json() cannot parse gets 500 with the fallback message, whatever the provider says |
| Availability.BatchedSearch | app/api/search-availability/route.ts:35-66 | two readable dates more than 31 days apart are answered from the batch queries over their range |
| Availability.MergeIntoEmpty | app/api/search-availability/route.ts:57-62 | merging into an empty record gives the batch itself |
| Availability.DistinctInit | app/api/search-availability/route.ts:57-62 | in a record with distinct keys the last key does not occur before it |
| Availability.MergeIntoEmptyStep | app/api/search-availability/route.ts:57-62 | merging one more new key into an empty record appends it |
| Availability.MissingParameters | app/api/search-availability/route.ts:20-25 | a readable body missing a field gives 400 and the response does not depend on the provider |
| Availability.SingleQuery | app/api/search-availability/route.ts:28-83 | a span of at most 31 days, or a start_at or end_at that new Date cannot read (a NaN day count), is one query over the raw start_at and end_at and answers that batch's grouping |
| Availability.MergedSlots | app/api/search-availability/route.ts:41-83 | when every batch succeeds the response is a success whose per-date lists are the batches' lists concatenated in batch order |
| Availability.FirstFailure | app/api/search-availability/route.ts:84-95 | the first failing batch gives 500 with its first error detail or the fallback, and no partial data |
| Appointment.ConcatSpec | components/booking-selector/SimpleAppointment.tsx:142-146 | the flattened list has every date's slots and nothing else, its length the sum of the list lengths |
| Appointment.FlattenSlots | components/booking-selector/SimpleAppointment.tsx:142-146 | the forEach loop computes the concatenation of every date's list |
| Appointment.NonEmptyDates | components/booking-selector/SimpleAppointment.tsx:150-153 | the offered dates are exactly the keys whose list is non-empty |
| Appointment.AvailableDatesOfRecord | components/booking-selector/SimpleAppointment.tsx:150-153 | with distinct keys a date is offered exactly when its slots are non-empty |
| Appointment.TimesForDate | components/booking-selector/SimpleAppointment.tsx:173-182 | keeps exactly the slots whose business date key equals the selected date's key |
| Appointment.TimesForDateIdempotent | components/booking-selector/SimpleAppointment.tsx:173-182 | refiltering the shown times by the same date changes nothing |
| Appointment.PeriodIndex | components/booking-selector/SimpleAppointment.tsx:203-205 | Morning before 12, Afternoon from 12 to before 17, Evening from 17 |
| Appointment.BucketMembership | components/booking-selector/SimpleAppointment.tsx:198-211 | a button is in a bucket exactly when it comes from a shown slot of that period |
| Appointment.BucketsPartition | components/booking-selector/SimpleAppointment.tsx:191-213 | the three buckets together hold every slot once and there are no others |
| Appointment.GroupTimesByPeriod | components/booking-selector/SimpleAppointment.tsx:191-214 | always three periods titled Morning, Afternoon, Evening, each holding its period's slots in input order |
| Appointment.ViewTimes | components/booking-selector/SimpleAppointment.tsx:381-416 | no date selected, no times for the date, or exactly the periods with appointments |
| Appointment.FindByStart | components/booking-selector/SimpleAppointment.tsx:217 | the first shown slot with that start, or none |
| Appointment.AppointmentPage.constructor | components/booking-selector/SimpleAppointment.tsx:94-111 | the page starts with the stored service and nothing else selected |
| Appointment.AppointmentPage.ReceiveAvailability | components/booking-selector/SimpleAppointment.tsx:139-164 | a failure sets the load error only; a success stores the flattening and the non-empty dates and, when there are slots, selects the first slot's date with its times |
| Appointment.AppointmentPage.HandleDateSelect | components/booking-selector/SimpleAppointment.tsx:184-189 | no date is a no-op; a date is selected, the time reset and the times refiltered |
| Appointment.AppointmentPage.HandleTimeSelect | components/booking-selector/SimpleAppointment.tsx:216-221 | selects the shown slot with that start, otherwise keeps the selection; nothing else changes |
| Appointment.AppointmentPage.HandleBooking | components/booking-selector/SimpleAppointment.tsx:223-268 | without a service or time: the error and no request; otherwise the error is cleared and the requests carry the form fields and the slot's start, location, segments and note (empty when absent) |
| Calendar.DaysInMonth | components/ui/calendar.tsx:43 | a month has 28 to 31 days |
| Calendar.PrevMonth | components/ui/calendar.tsx:46-52 | currentMonth.subtract(1, "month"); its contract is Calendar.MonthNavigation |
| Calendar.NextMonth | components/ui/calendar.tsx:54-60 | currentMonth.add(1, "month"); its contract is Calendar.MonthNavigation |
| Calendar.Weekday | components/ui/calendar.tsx:44 | a weekday index from 0 (Sunday) to 6 |
| Calendar.DivSteps | components/ui/calendar.tsx:43-44 | proof helper for Calendar.YearLength, not a model of those lines: each of the 4/100/400 leap counters steps by one exactly at its multiples |
| Calendar.MultipleChain | components/ui/calendar.tsx:43-44 | proof helper for Calendar.YearLength, not a model of those lines: a multiple of 400 is one of 100, and a multiple of 100 is one of 4 |
| Calendar.YearLength | components/ui/calendar.tsx:43-44 | a year spans 366 days when leap, else 365 |
| Calendar.MonthsFillYear | components/ui/calendar.tsx:43-44 | the twelve month lengths fill the year |
| Calendar.MonthNavigation | components/ui/calendar.tsx:46-60 | previous and next month stay valid, shift the month index by one and undo each other |
| Calendar.NextMonthOrdinal | components/ui/calendar.tsx:54-60 | the next month's first day is the month's length of days after this month's first day |
| Calendar.NextMonthWeekday | components/ui/calendar.tsx:54-60 | the next month starts the month's length of weekdays later |
| Calendar.Grid | components/ui/calendar.tsx:169-173 | firstDayOfMonth blank cells followed by days 1..daysInMonth in order |
| Calendar.WeekdayStep | components/ui/calendar.tsx:169-173 | the next day is the next weekday |
| Calendar.WeekdayOfDay | components/ui/calendar.tsx:169-173 | day d falls d-1 weekdays after the first |
| Calendar.GridColumns | components/ui/calendar.tsx:161-173 | a day's cell sits in the column of its weekday |
| Calendar.GridDaysValid | components/ui/calendar.tsx:169-173 | every day cell is a real date of the month |
| Calendar.Decimal | components/ui/calendar.tsx:87 | the decimal digits: at least one, no leading zero, one digit below 10 and at most two below 100 |
| Calendar.Zeros | components/ui/calendar.tsx:87 | k zero characters |
| Calendar.PadStart | components/ui/calendar.tsx:87 | padded to the width, ending with the original text |
| Calendar.DecimalInjective | components/ui/calendar.tsx:87 | different numbers print differently |
| Calendar.DecimalSplit | components/ui/calendar.tsx:87 | a number of two or more digits prints as its leading digits followed by its last digit |
| Calendar.PaddedInjective | components/ui/calendar.tsx:87 | different numbers pad to different texts |
| Calendar.FormatDate | components/ui/calendar.tsx:87 | YYYY-MM-DD: the padded year followed by six characters |
| Calendar.TwoDigits | components/ui/calendar.tsx:87 | a month or day field is exactly two characters |
| Calendar.DashedInjective | components/ui/calendar.tsx:87 | the dashed join with two-character month and day splits back into its parts |
| Calendar.FormatDateShape | components/ui/calendar.tsx:87 | a formatted date is the dashed join of the padded year, month and day, the last two two characters wide |
| Calendar.FormatDateParts | components/ui/calendar.tsx:87 | equal formatted dates have equal padded fields |
| Calendar.FormatDateInjective | components/ui/calendar.tsx:86-90 | different dates format differently, so the list lookup matches only its own date |
| Calendar.IsPastDate | components/ui/calendar.tsx:75-79 | the day lies before today; its contract is Calendar.DayPredicates |
| Calendar.IsDateAvailable | components/ui/calendar.tsx:81-91 | every day when the list is empty, else the listed dates; its contract is Calendar.AvailableIffListed |
| Calendar.IsSelectedDay | components/ui/calendar.tsx:100-106 | day, month and year all match; its contract is Calendar.DayPredicates |
| Calendar.IsDisabled | components/ui/calendar.tsx:112-114 | past or not available; its contract is Calendar.DayClasses |
| Calendar.DayPredicates | components/ui/calendar.tsx:75-106 | today is never past; a day is selected exactly when day, month and year all match |
| Calendar.AvailableIffListed | components/ui/calendar.tsx:81-91 | with a non-empty list of formatted dates, a day is available exactly when it is one of those dates |
| Calendar.DayClasses | components/ui/calendar.tsx:109-136 | blanks get no class; otherwise selected beats disabled (past or unavailable) beats today beats plain |
| Calendar.BookingCalendar.constructor | components/ui/calendar.tsx:21-31 | shows today's month with the given date (or today) selected |
| Calendar.BookingCalendar.SyncSelected | components/ui/calendar.tsx:34-41 | a new given date becomes selected and its month shown; none changes nothing |
| Calendar.BookingCalendar.PrevMonthClick | components/ui/calendar.tsx:46-52 | shows the previous month and reports it; the selection stays |
| Calendar.BookingCalendar.NextMonthClick | components/ui/calendar.tsx:54-60 | shows the next month and reports it; the selection stays |
| Calendar.BookingCalendar.CellClick | components/ui/calendar.tsx:62-72 | a blank or disabled day does nothing; an enabled day becomes selected and is reported |
| CatalogRoute.VariationSources | app/api/services/route.ts:31-36 | at most one source per variation |
| CatalogRoute.PriceCurrency | app/api/services/route.ts:54 | the currency, never empty, "AUD" when absent |
| CatalogRoute.ToService | app/api/services/route.ts:49-63 | the given id, no team members, available, no override, price 0 and "AUD" without priceMoney, duration serviceDuration/60000 when present and non-zero else 30, ids and names defaulted to "" |
| CatalogRoute.Numbered | app/api/services/route.ts:25-50 | the k-th source becomes the service with id k+1 |
| CatalogRoute.NumberedSnoc | app/api/services/route.ts:25-63 | one more source appends its service with the next id |
| CatalogRoute.EmittedAppend | app/api/services/route.ts:27-36 | the sources of a list of objects are additive over concatenation |
| CatalogRoute.VariationSourcesSpec | app/api/services/route.ts:31-36 | exactly one source per variation that has item variation data, and exactly those |
| CatalogRoute.ObjectSourcesMembers | app/api/services/route.ts:27-36 | a source comes from an object exactly when it is an ITEM with variations and the variation has data |
| CatalogRoute.EmittedMembers | app/api/services/route.ts:27-36 | a source is emitted exactly when it comes from one of the objects |
| CatalogRoute.NonItemsYieldNothing | app/api/services/route.ts:28-29 | an object that is not an ITEM with variations adds no service |
| CatalogRoute.PushVariations | app/api/services/route.ts:31-64 | the inner loop appends this item's services, numbered on from the counter |
| CatalogRoute.ListServices | app/api/services/route.ts:25-65 | the nested loops compute the numbered catalog |
| CatalogRoute.Catalog | app/api/services/route.ts:25-65 | the numbered services of the catalogue; its contract is CatalogRoute.CatalogIds and CatalogRoute.EmittedMembers |
| CatalogRoute.Get | app/api/services/route.ts:14-140 | a listing error gives 500 with the first error detail or the fallback; otherwise 200 with the catalog (none when objects are absent) |
| CatalogRoute.CatalogIds | app/api/services/route.ts:25-50 | one service per source, ids 1, 2, 3, … strictly increasing |
| CatalogRoute.FailedResponse | app/api/services/route.ts:129-140 | the error response has status 500, empty data and a non-empty message |
| BarberCard.FirstImage | components/booking-selector/BarberCard.tsx:18-26 | no image exactly when no key occurs in the name; otherwise the first matching entry's path |
| BarberCard.GetBarberImage | components/booking-selector/BarberCard.tsx:18-26 | the first table entry found in the upper-cased first name; its contract is BarberCard.ChristosImage and BarberCard.NoImage |
| BarberCard.ChristosImage | components/booking-selector/BarberCard.tsx:14-26 | a first name containing "christos" in any case gets that photo |
| BarberCard.NoImage | components/booking-selector/BarberCard.tsx:14-26 | a first name without it gets no photo |
| BarberCard.ImagePathsNonEmpty | components/booking-selector/BarberCard.tsx:14-16 | every path the table returns is non-empty |
| BarberCard.CharAt0 | components/booking-selector/BarberCard.tsx:29 | the first character, or the empty text |
| BarberCard.GetBarberInitials | components/booking-selector/BarberCard.tsx:28-30 | at most two characters: the upper-cased first letter of the first name, then of the last name, each present when its name is non-empty |
| BarberCard.PositivePrices | components/booking-selector/BarberCard.tsx:33-35 | exactly the positive prices of the services |
| BarberCard.MinOf | components/booking-selector/BarberCard.tsx:39 | the smallest element |
| BarberCard.MaxOf | components/booking-selector/BarberCard.tsx:40 | the largest element |
| BarberCard.ExtractPriceRange | components/booking-selector/BarberCard.tsx:32-43 | nothing exactly when no price is positive; one value when all positive prices are equal; otherwise the attained minimum and maximum, with every positive price between them |
| BarberCard.ServiceLabel | components/booking-selector/BarberCard.tsx:86 | singular exactly when the count is 1 |
| BarberCard.CardPicture | components/booking-selector/BarberCard.tsx:61-75 | the photo carries the looked-up path; the placeholder carries the initials |
| BarberCard.PlaceholderIffNoImage | components/booking-selector/BarberCard.tsx:61-75 | the placeholder shows exactly when no image path is found |
| BookingSelector.BarberServiceList | components/booking-selector/BookingSelector.tsx:75-79 | exactly the services whose team members include the barber's square id |
| BookingSelector.JoinedMembers | components/booking-selector/BookingSelector.tsx:73-88 | an entry is in the join exactly when its barber is active and its list is that barber's non-empty list |
| BookingSelector.SelectorEntries | components/booking-selector/BookingSelector.tsx:66-93 | filter, join and sort by first name; its contract is BookingSelector.SelectorEntriesSpec |
| BookingSelector.SelectorEntriesSpec | components/booking-selector/BookingSelector.tsx:66-93 | the entries are sorted by first name, and an entry is present exactly when its barber is a non-owner ACTIVE barber whose service list is non-empty |
| BookingSelector.JoinBarberServices | components/booking-selector/BookingSelector.tsx:66-93 | the join loop and sort compute the selector entries |
| BookingSelector.AutoExpand | components/booking-selector/BookingSelector.tsx:98-103 | a single entry with a square id is expanded; otherwise the expansion stays |
| BookingSelector.Toggle | components/booking-selector/BookingSelector.tsx:156-158 | cleared exactly when that barber was expanded, else that barber |
| BookingSelector.ToggleTwice | components/booking-selector/BookingSelector.tsx:156-158 | toggling twice restores the expansion |
| BookingSelector.ConfirmAsWritten | components/booking-selector/BookingSelector.tsx:135-146 | the source's confirm, whose addItem sees the cart before the clear; its contract is BookingSelector.SwitchDiscrepancy |
| BookingSelector.SwitchDiscrepancy | components/booking-selector/BookingSelector.tsx:135-146 | with the cart locked to another barber, the source's confirm leaves the cart empty, unlike the intended one-item cart |
| BookingSelector.ConfirmCorrectedSpec | components/booking-selector/BookingSelector.tsx:135-146 | confirming a switch leaves exactly the pending item, locked to its barber, and a consistent cart |
| BookingSelector.SelectorPage.constructor | components/booking-selector/BookingSelector.tsx:35-51 | loading, nothing listed or expanded, dialog closed |
| BookingSelector.SelectorPage.LoadData | components/booking-selector/BookingSelector.tsx:54-110 | a failure sets the load error; a success lists the selector entries and auto-expands; loading ends either way |
| BookingSelector.SelectorPage.HandleServiceClick | components/booking-selector/BookingSelector.tsx:115-133 | a selected service is removed with no dialog; otherwise it is added, and the switch dialog opens with the pending pair exactly when the add is refused |
| BookingSelector.SelectorPage.HandleConfirmSwitchBarber | components/booking-selector/BookingSelector.tsx:135-146 | with a pending pair the cart becomes the corrected confirm of it; the dialog closes and its pair is cleared |
| BookingSelector.SelectorPage.HandleCancelSwitchBarber | components/booking-selector/BookingSelector.tsx:148-154 | the dialog closes and its pair is cleared; nothing else changes |
| BookingSelector.SelectorPage.ToggleBarberServices | components/booking-selector/BookingSelector.tsx:156-158 | the expansion becomes the toggle of the old one |
| Gallery.Next | components/gallery-showcase.tsx:33-37 | the last index wraps to 0, others step up; always in range |
| Gallery.Prev | components/gallery-showcase.tsx:27-31 | 0 wraps to the last index, others step down; always in range |
| Gallery.NextPrevInverse | components/gallery-showcase.tsx:27-37 | next after previous, and previous after next, restore the index |
| Gallery.DisplayName | components/gallery-showcase.tsx:43-45 | the first character kept, the rest lower-cased |
| Gallery.DisplayNameIdempotent | components/gallery-showcase.tsx:43-45 | showing an already shown name gives the same name |
| Gallery.UpperNameShown | components/gallery-showcase.tsx:43-45 | an all upper-case name such as the gallery's "CHRISTOS" shows with only its first letter upper-case |
| Gallery.Showcase.constructor | components/gallery-showcase.tsx:25 | starts at index 0 over a non-empty list |
| Gallery.Showcase.HandlePrevious | components/gallery-showcase.tsx:27-31 | the index becomes the previous one and stays in range |
| Gallery.Showcase.HandleNext | components/gallery-showcase.tsx:33-37 | the index becomes the next one and stays in range |
| Gallery.Showcase.HandleCarouselItemClick | components/gallery-showcase.tsx:39-41 | the index becomes the clicked position |
| Gallery.Showcase.CurrentDisplayName | components/gallery-showcase.tsx:43-45 | the selected barber's shown name, as long as the name |

## Left out

- Rendering, layout, markup and styling are left out. Class strings become a `DayLook` value and the card picture a `Picture` value.
- Browser storage (`localStorage` hydration and persistence of the cart and the selected services), `fetch` between the pages and the routes, `router.push` and timers are left out as I/O. The appointment page takes the fetched record (or its failure) as a parameter, and the stored service list as a constructor argument.
- The Square SDK calls (`searchAvailability`, `listCatalog`, `searchTeamMembers`, `createCustomer`, `createBooking`) become given functions or parameters. The team-members, create-customer and create-booking routes are thin wrappers around them and are not modelled.
- Time zones and dayjs are replaced by functions. The Australia/Melbourne date key and hour of an instant come from a `Clock`, and "today" is a parameter. The calendar's month lengths and weekdays are computed on the proleptic Gregorian calendar.
- The availability route keys a batch's slots by the UTC date prefix of `startAt`, while the page filters times by the Melbourne date. The model keeps both rules as the source has them.
- `Date.setDate` is replaced by the fixed 31 × 86400000 ms window. Its daylight-saving behaviour on local dates is not modelled.
- Floating point is left out. Prices stay in integer cents, so the `/100` dollar text and `toFixed` are not modelled.
- CatalogRoute.ToService: `serviceDuration / 60000` is computed in integer division. The source's float result for durations that are not whole minutes is not modelled, and nor is its result for negative durations.
- ServiceUtils.DurationMinutes: `Math.round(d / 60000)` is modelled as `(d + 30000) / 60000`. This is exact for the integers above 10000 that reach it.
- `localeCompare` is replaced by code-point lexicographic order on strings. The stability of JavaScript's sort is not proved.
- ServiceUtils.GroupServicesByBarber: the order among entries with equal names is not stated, only that the result is a sorted permutation.
- BookingSelector.SelectorPage.LoadData: equally named barbers may keep a different relative order, for the same reason.
- Case-insensitive matching and upper/lower-casing cover ASCII letters only. Other Unicode case mappings are not modelled.
- The services route's team search and booking-profile lookup are commented out or have no effect on the response in the source, so `CatalogRoute.Get` takes the search outcome as a parameter and ignores it.
- Calendar.BookingCalendar.CellClick: requires a year of 0 or later, because `FormatDate` writes only non-negative years.
- Calendar.FormatDate: dayjs's formatting of negative years is not modelled.
- React scheduling is left out: batched state updates, effects re-running, and stale responses of overlapping fetches. Handlers run one at a time on the current state.
- Availability.Post: body fields are text or absent. A field of another JSON type (a number, an object) is not modelled; a body that is JSON `null`, whose destructuring throws, is answered as the unparsable body.
- The segment version is kept as a number; its string conversion is not modelled.
- BookingSelector's own `extractPriceRange` (components/booking-selector/BookingSelector.tsx:160-171) has the same rule as the card's and is modelled once, by `BarberCard.ExtractPriceRange`.
- The gallery's badge and description texts, the `ServiceItem` formatting helpers and the purely presentational components are left out.

The cart total sums each item's base `price_amount` and ignores barber overrides (lib/booking-cart-context.tsx:112-114); see `BookingCart.TotalPriceIgnoresOverride`.

## Findings

| source | as written | input that shows it | evidently intended | confidence | as-written member | corrected member |
|---|---|---|---|---|---|---|
| components/booking-selector/BookingSelector.tsx:135-146 with lib/booking-cart-context.tsx:69-87 | `handleConfirmSwitchBarber` calls `clearCart()` and then `addItem`, but that `addItem` closure still sees the old `selectedBarber`. It refuses the pending item, so the cart ends empty. | a cart locked to barber A, and a pending service from barber B whose square id differs | after confirming, the cart holds just the pending item, locked to barber B | not executed | BookingSelector.SwitchDiscrepancy | BookingSelector.ConfirmCorrectedSpec |
