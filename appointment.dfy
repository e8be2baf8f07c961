/**
 * The appointment page: the availability record is flattened, the dates with slots are
 * offered on the calendar, the first slot's date is pre-selected, the slots of the selected
 * business-time-zone date are shown bucketed into Morning, Afternoon and Evening, and a booking
 * is only attempted once a service and a time are chosen.
 *
 * The business time zone is abstracted: `Clock` gives the parse of an RFC 3339 instant, and the
 * date key, hour and readable time of an instant in that zone.
 */
module Appointment {
  import opened Wrappers
  import opened Entities
  import Seqs
  import opened Availability

  /** Date arithmetic in the business time zone, given from outside the model. */
  datatype Clock = Clock(
    parseTime: string -> int,
    dateKeyAt: int -> string,
    hourAt: int -> int,
    readableAt: int -> string)

  /** The business-time-zone `YYYY-MM-DD` of a slot's start. */
  function SlotDateKey(clock: Clock, slot: Slot): string
  {
    clock.dateKeyAt(clock.parseTime(slot.startAt))
  }

  // ---------------------------------------------------------------------------------------
  // From the availability record to slots and dates
  // ---------------------------------------------------------------------------------------

  /** `Object.values(record)` concatenated, in key order. */
  function Concat(m: seq<DateSlots>): seq<Slot>
  {
    if m == [] then [] else Concat(m[..|m| - 1]) + m[|m| - 1].slots
  }

  function SlotCount(e: DateSlots): int
  {
    |e.slots|
  }

  /** The flattened list holds every slot of every date, and nothing else. */
  lemma {:induction false} ConcatSpec(m: seq<DateSlots>)
    ensures |Concat(m)| == Seqs.SumOf(m, SlotCount)
    ensures forall x :: x in Concat(m) <==> exists i :: 0 <= i < |m| && x in m[i].slots
  {
    if m != [] {
      var init := m[..|m| - 1];
      ConcatSpec(init);
      forall x ensures x in Concat(m) <==> exists i :: 0 <= i < |m| && x in m[i].slots {
        if x in Concat(init) {
          var i :| 0 <= i < |init| && x in init[i].slots;
          assert m[i] == init[i];
        }
      }
    }
  }

  /** The flatten `forEach` of the page's availability fetch. */
  method FlattenSlots(m: seq<DateSlots>) returns (all: seq<Slot>)
    ensures all == Concat(m)
  {
    all := [];
    var i := 0;
    while i < |m|
      invariant 0 <= i <= |m|
      invariant all == Concat(m[..i])
    {
      assert m[..i + 1][..i] == m[..i];
      all := all + m[i].slots;
      i := i + 1;
    }
    assert m[..i] == m;
  }

  /** `Object.keys(record).filter((k) => record[k]?.length > 0)`, in key order. */
  function NonEmptyDates(m: seq<DateSlots>): (r: seq<string>)
    ensures |r| <= |m|
    ensures forall d :: d in r <==> exists i :: 0 <= i < |m| && m[i].date == d && m[i].slots != []
  {
    if m == [] then []
    else
      var rest := NonEmptyDates(m[1..]);
      assert forall i :: 0 < i < |m| ==> m[i] == m[1..][i - 1];
      (if m[0].slots != [] then [m[0].date] else []) + rest
  }

  /** For a record with distinct keys, a date is offered exactly when it has slots. */
  lemma AvailableDatesOfRecord(m: seq<DateSlots>, d: string)
    requires DistinctDates(m)
    ensures d in NonEmptyDates(m) <==> SlotsAt(m, d) != []
  {
    if d in NonEmptyDates(m) {
      var i :| 0 <= i < |m| && m[i].date == d && m[i].slots != [];
      FindDateUnique(m, i);
    }
  }

  /** A slot starts on the business date `key`. */
  function OnDate(clock: Clock, key: string): Slot -> bool
  {
    (slot: Slot) => SlotDateKey(clock, slot) == key
  }

  /** `updateTimesForDate`: the slots on the selected instant's business date, in order. */
  function TimesForDate(clock: Clock, date: int, slots: seq<Slot>): (r: seq<Slot>)
    ensures |r| <= |slots|
    ensures forall s :: s in r <==> s in slots && SlotDateKey(clock, s) == clock.dateKeyAt(date)
  {
    Seqs.Filter(slots, OnDate(clock, clock.dateKeyAt(date)))
  }

  /** A filter again on the same date changes nothing; the times of a date are all on it. */
  lemma TimesForDateIdempotent(clock: Clock, date: int, slots: seq<Slot>)
    ensures TimesForDate(clock, date, TimesForDate(clock, date, slots)) == TimesForDate(clock, date, slots)
  {
    var r := TimesForDate(clock, date, slots);
    Seqs.FilterAll(r, OnDate(clock, clock.dateKeyAt(date)));
  }

  // ---------------------------------------------------------------------------------------
  // Periods of the day
  // ---------------------------------------------------------------------------------------

  const PERIOD_TITLES: seq<string> := ["Morning", "Afternoon", "Evening"]

  /** Morning before noon, Afternoon from 12 until 17, Evening from 17. */
  function PeriodIndex(hour: int): (r: nat)
    ensures r < |PERIOD_TITLES|
    ensures r == 0 <==> hour < 12
    ensures r == 1 <==> 12 <= hour < 17
    ensures r == 2 <==> 17 <= hour
  {
    if hour >= 12 && hour < 17 then 1 else if hour >= 17 then 2 else 0
  }

  /** One button of the time picker. */
  datatype TimeButton = TimeButton(startAt: string, readableTime: string)

  datatype TimeOfDay = TimeOfDay(title: string, appointments: seq<TimeButton>)

  function SlotPeriod(clock: Clock, slot: Slot): nat
  {
    PeriodIndex(clock.hourAt(clock.parseTime(slot.startAt)))
  }

  function ToButton(clock: Clock, slot: Slot): TimeButton
  {
    TimeButton(slot.startAt, clock.readableAt(clock.parseTime(slot.startAt)))
  }

  /** The buttons of the slots in period `k`, in slot order. */
  function Bucket(clock: Clock, times: seq<Slot>, k: nat): seq<TimeButton>
  {
    if times == [] then []
    else
      var last := times[|times| - 1];
      Bucket(clock, times[..|times| - 1], k) + (if SlotPeriod(clock, last) == k then [ToButton(clock, last)] else [])
  }

  /** A button is in period `k` exactly when it comes from a slot whose hour falls in that period. */
  lemma {:induction false} BucketMembership(clock: Clock, times: seq<Slot>, k: nat, b: TimeButton)
    ensures b in Bucket(clock, times, k) <==>
              exists i :: 0 <= i < |times| && SlotPeriod(clock, times[i]) == k && ToButton(clock, times[i]) == b
  {
    if times != [] {
      var init := times[..|times| - 1];
      BucketMembership(clock, init, k, b);
      if b in Bucket(clock, init, k) {
        var i :| 0 <= i < |init| && SlotPeriod(clock, init[i]) == k && ToButton(clock, init[i]) == b;
        assert times[i] == init[i];
      }
      if i :| 0 <= i < |times| && SlotPeriod(clock, times[i]) == k && ToButton(clock, times[i]) == b {
        if i < |init| {
          assert init[i] == times[i];
        }
      }
    }
  }

  /** Each slot lands in exactly one of the three periods. */
  lemma {:induction false} BucketsPartition(clock: Clock, times: seq<Slot>)
    ensures |Bucket(clock, times, 0)| + |Bucket(clock, times, 1)| + |Bucket(clock, times, 2)| == |times|
    ensures forall k :: k >= 3 ==> Bucket(clock, times, k) == []
  {
    if times != [] {
      BucketsPartition(clock, times[..|times| - 1]);
    }
  }

  /** `groupTimesByPeriod`: three periods, filled slot by slot. */
  method GroupTimesByPeriod(clock: Clock, times: seq<Slot>) returns (periods: seq<TimeOfDay>)
    ensures |periods| == |PERIOD_TITLES|
    ensures forall k :: 0 <= k < |periods| ==>
              periods[k].title == PERIOD_TITLES[k] && periods[k].appointments == Bucket(clock, times, k)
  {
    periods := [TimeOfDay("Morning", []), TimeOfDay("Afternoon", []), TimeOfDay("Evening", [])];
    var i := 0;
    while i < |times|
      invariant 0 <= i <= |times|
      invariant |periods| == |PERIOD_TITLES|
      invariant forall k :: 0 <= k < |periods| ==>
                  periods[k].title == PERIOD_TITLES[k] && periods[k].appointments == Bucket(clock, times[..i], k)
    {
      var slot := times[i];
      var time := clock.parseTime(slot.startAt);
      var hour := clock.hourAt(time);
      var readableTime := clock.readableAt(time);
      var periodIndex := 0;
      if hour >= 12 && hour < 17 {
        periodIndex := 1;
      } else if hour >= 17 {
        periodIndex := 2;
      }
      assert times[..i + 1][..i] == times[..i];
      periods := periods[periodIndex := periods[periodIndex].(
        appointments := periods[periodIndex].appointments + [TimeButton(slot.startAt, readableTime)])];
      i := i + 1;
    }
    assert times[..i] == times;
  }

  function HasAppointments(p: TimeOfDay): bool
  {
    |p.appointments| > 0
  }

  /** What the time picker shows. */
  datatype TimesView = NoDateSelected | NoTimes | Periods(shown: seq<TimeOfDay>)

  /** Nothing without a date, a notice for a date without times, else the non-empty periods. */
  function ViewTimes(selectedDate: Option<int>, availableTimes: seq<Slot>, periods: seq<TimeOfDay>): (r: TimesView)
    ensures r.NoDateSelected? <==> selectedDate.None?
    ensures r.NoTimes? <==> selectedDate.Some? && availableTimes == []
    ensures r.Periods? ==> forall p :: p in r.shown <==> p in periods && |p.appointments| > 0
  {
    if selectedDate.None? then NoDateSelected
    else if |availableTimes| == 0 then NoTimes
    else Periods(Seqs.Filter(periods, HasAppointments))
  }

  // ---------------------------------------------------------------------------------------
  // Selection of a time
  // ---------------------------------------------------------------------------------------

  /** `availableTimes.find((t) => t.start_at === startAt)`, as a position. */
  function FindByStart(times: seq<Slot>, startAt: string): (r: Option<nat>)
    ensures r.Some? ==> r.value < |times| && times[r.value].startAt == startAt
                        && forall j :: 0 <= j < r.value ==> times[j].startAt != startAt
    ensures r.None? ==> forall j :: 0 <= j < |times| ==> times[j].startAt != startAt
  {
    if times == [] then None
    else if times[0].startAt == startAt then Some(0)
    else match FindByStart(times[1..], startAt)
      case None => None
      case Some(i) => Some(i + 1)
  }

  /** The booking form's fields. */
  datatype FormValues = FormValues(
    givenName: string, familyName: string, emailAddress: string, phoneNumber: string,
    appointmentNote: Option<string>)

  /** The two requests a booking sends: the customer, then the booking for the chosen slot. */
  datatype BookingPlan = BookingPlan(
    givenName: string, familyName: string, emailAddress: string, phoneNumber: string,
    startAt: string, locationId: Option<string>, appointmentSegments: Option<seq<SlotSegment>>,
    customerNote: string)

  const SELECT_SERVICE_AND_TIME: string := "Please select a service and time"
  const LOAD_FAILED: string := "Failed to load available times. Please try again."

  /** The page's selection state. */
  class AppointmentPage {
    const clock: Clock
    var selectedService: Option<Service>
    var selectedDate: Option<int>
    var availableTimes: seq<Slot>
    var availableDates: seq<string>
    var allAvailabilities: seq<Slot>
    var selectedTime: Option<Slot>
    var error: Option<string>

    /** The shown times all lie on the selected date. */
    predicate Valid()
      reads this
    {
      availableTimes != [] ==>
        selectedDate.Some?
        && forall k :: 0 <= k < |availableTimes| ==>
             SlotDateKey(clock, availableTimes[k]) == clock.dateKeyAt(selectedDate.value)
    }

    /** The page after reading the stored service list (`services[0] || null`). */
    constructor(clock: Clock, storedService: Option<Service>)
      ensures this.clock == clock && selectedService == storedService
      ensures selectedDate.None? && availableTimes == [] && availableDates == []
      ensures allAvailabilities == [] && selectedTime.None? && error.None?
      ensures Valid()
    {
      this.clock := clock;
      selectedService := storedService;
      selectedDate := None;
      availableTimes := [];
      availableDates := [];
      allAvailabilities := [];
      selectedTime := None;
      error := None;
    }

    /**
     * The end of the availability fetch: `None` when it failed. On success the record is
     * flattened, the non-empty dates are offered, and the first slot's date is selected with
     * its times.
     */
    method ReceiveAvailability(response: Option<seq<DateSlots>>)
      requires Valid()
      modifies this
      ensures Valid()
      ensures response.None? ==>
                error == Some(LOAD_FAILED)
                && selectedDate == old(selectedDate) && availableTimes == old(availableTimes)
                && availableDates == old(availableDates) && allAvailabilities == old(allAvailabilities)
      ensures response.Some? ==>
                error == old(error)
                && allAvailabilities == Concat(response.value)
                && availableDates == NonEmptyDates(response.value)
      ensures response.Some? && allAvailabilities == [] ==>
                selectedDate == old(selectedDate) && availableTimes == old(availableTimes)
      ensures response.Some? && allAvailabilities != [] ==>
                var first := clock.parseTime(allAvailabilities[0].startAt);
                selectedDate == Some(first) && availableTimes == TimesForDate(clock, first, allAvailabilities)
      ensures selectedService == old(selectedService) && selectedTime == old(selectedTime)
    {
      if response.None? {
        error := Some(LOAD_FAILED);
        return;
      }
      var availabilities := FlattenSlots(response.value);
      allAvailabilities := availabilities;
      availableDates := NonEmptyDates(response.value);
      if |availabilities| > 0 {
        var firstAvailable := clock.parseTime(availabilities[0].startAt);
        selectedDate := Some(firstAvailable);
        availableTimes := TimesForDate(clock, firstAvailable, availabilities);
      }
    }

    /** `handleDateSelect`: no date is a no-op; a date selects it, drops the time, refilters. */
    method HandleDateSelect(date: Option<int>)
      requires Valid()
      modifies this
      ensures Valid()
      ensures date.None? ==> selectedDate == old(selectedDate) && selectedTime == old(selectedTime)
                             && availableTimes == old(availableTimes)
      ensures date.Some? ==> selectedDate == date && selectedTime.None?
                             && availableTimes == TimesForDate(clock, date.value, allAvailabilities)
      ensures allAvailabilities == old(allAvailabilities) && availableDates == old(availableDates)
      ensures selectedService == old(selectedService) && error == old(error)
    {
      if date.None? {
        return;
      }
      selectedDate := date;
      selectedTime := None;
      availableTimes := TimesForDate(clock, date.value, allAvailabilities);
    }

    /** `handleTimeSelect`: select the first shown slot with that start; otherwise keep the selection. */
    method HandleTimeSelect(startAt: string)
      requires Valid()
      modifies this
      ensures Valid()
      ensures var found := FindByStart(availableTimes, startAt);
        && (found.Some? ==> selectedTime == Some(availableTimes[found.value]))
        && (found.None? ==> selectedTime == old(selectedTime))
      ensures selectedTime.Some? && selectedTime != old(selectedTime) ==>
                selectedTime.value in availableTimes && selectedTime.value.startAt == startAt
      ensures availableTimes == old(availableTimes) && selectedDate == old(selectedDate)
      ensures allAvailabilities == old(allAvailabilities) && availableDates == old(availableDates)
      ensures selectedService == old(selectedService) && error == old(error)
    {
      var fullSlot := FindByStart(availableTimes, startAt);
      if fullSlot.Some? {
        selectedTime := Some(availableTimes[fullSlot.value]);
      }
    }

    /**
     * The guard and payload of `handleBooking`: without a service or a time, an error and no
     * request; otherwise the error is cleared and the customer and booking requests are built
     * from the form and the selected slot.
     */
    method HandleBooking(values: FormValues) returns (plan: Option<BookingPlan>)
      requires Valid()
      modifies this
      ensures Valid()
      ensures selectedTime == old(selectedTime) && selectedService == old(selectedService)
      ensures plan.None? <==> selectedService.None? || selectedTime.None?
      ensures plan.None? ==> error == Some(SELECT_SERVICE_AND_TIME)
      ensures plan.Some? ==>
                error.None?
                && plan.value.startAt == selectedTime.value.startAt
                && plan.value.locationId == selectedTime.value.locationId
                && plan.value.appointmentSegments == selectedTime.value.appointmentSegments
                && plan.value.customerNote == values.appointmentNote.GetOr("")
                && plan.value.givenName == values.givenName && plan.value.familyName == values.familyName
                && plan.value.emailAddress == values.emailAddress && plan.value.phoneNumber == values.phoneNumber
      ensures selectedDate == old(selectedDate) && availableTimes == old(availableTimes)
      ensures allAvailabilities == old(allAvailabilities) && availableDates == old(availableDates)
    {
      if selectedService.None? || selectedTime.None? {
        error := Some(SELECT_SERVICE_AND_TIME);
        return None;
      }
      error := None;
      var slot := selectedTime.value;
      plan := Some(BookingPlan(
        values.givenName, values.familyName, values.emailAddress, values.phoneNumber,
        slot.startAt, slot.locationId, slot.appointmentSegments, values.appointmentNote.GetOr("")));
    }
  }
}
