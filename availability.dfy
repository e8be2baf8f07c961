/**
 * The availability-search route: a request over `[start_at, end_at)` is sent to the booking
 * provider in one query, or, when it spans more than 31 days, in back-to-back batches of at
 * most 31 days. Each batch's slots are grouped by the calendar date in front of the `T` of
 * their RFC 3339 `startAt` (the `full-date` of section 5.6 of RFC 3339), and the per-date lists
 * of all batches are concatenated in batch order.
 *
 * Instants are integer milliseconds. The provider, the parsing of `start_at` / `end_at` and
 * `toISOString` are parameters of the model; a text `new Date` cannot read parses to `None`
 * (an Invalid Date, whose `getTime()` is NaN).
 */
module Availability {
  import opened Wrappers
  import opened ProviderErrors

  const DAY_MS: int := 1000 * 60 * 60 * 24
  const MAX_DAYS_PER_REQUEST: int := 31
  /** The largest span of one batch: 31 days. */
  const WINDOW_MS: int := MAX_DAYS_PER_REQUEST * DAY_MS

  const MISSING_PARAMETERS: string := "Missing required parameters"
  const SEARCH_FAILED: string := "Failed to search availability"

  // ---------------------------------------------------------------------------------------
  // Provider data
  // ---------------------------------------------------------------------------------------

  /** One appointment segment as the provider reports it. */
  datatype Segment = Segment(
    durationMinutes: Option<int>,
    teamMemberId: Option<string>,
    serviceVariationId: Option<string>,
    serviceVariationVersion: Option<int>)

  /** One availability as the provider reports it; every field may be absent. */
  datatype ProviderAvailability = ProviderAvailability(
    startAt: Option<string>,
    locationId: Option<string>,
    appointmentSegments: Option<seq<Segment>>)

  /**
   * A slot as the route returns it. The segment version stays an integer here; the route
   * renders it with `toString`.
   */
  datatype SlotSegment = SlotSegment(
    durationMinutes: Option<int>,
    teamMemberId: Option<string>,
    serviceVariationId: Option<string>,
    serviceVariationVersion: Option<int>)

  datatype Slot = Slot(startAt: string, locationId: Option<string>, appointmentSegments: Option<seq<SlotSegment>>)

  /** One search the route sends to the provider. */
  datatype Query = Query(serviceVariationId: string, startAt: string, endAt: string, locationId: string)

  /**
   * What one provider call does: it returns an optional list of availabilities, or throws an
   * error that may carry an `errors` array.
   */
  datatype ProviderResponse =
    | Found(availabilities: Option<seq<ProviderAvailability>>)
    | Failed(errors: Option<seq<ErrorDetail>>)

  /** Everything the route takes from outside the request body. */
  datatype Env = Env(
    provider: Query -> ProviderResponse,
    parseTime: string -> Option<int>,
    isoString: int -> string,
    locationId: string)

  /**
   * The JSON body fields the route reads, `None` when a field is absent; or a body that
   * `request.json()` cannot parse (or JSON `null`, whose destructuring throws), which fails
   * before any field is read.
   */
  datatype Request =
    | Request(serviceVariationId: Option<string>, startAt: Option<string>, endAt: Option<string>)
    | UnreadableBody

  /** The route's JSON answer: 400, 200 with the slots by date, or 500. */
  datatype Response =
    | BadRequest(message: string)
    | Success(availabilitiesByDate: seq<DateSlots>)
    | ServerError(message: string)

  function Status(r: Response): int
  {
    match r
    case BadRequest(_) => 400
    case Success(_) => 200
    case ServerError(_) => 500
  }

  // ---------------------------------------------------------------------------------------
  // Slots keyed by date, in key-insertion order
  // ---------------------------------------------------------------------------------------

  /** One key of the `Record<string, slot[]>` and its list. */
  datatype DateSlots = DateSlots(date: string, slots: seq<Slot>)

  predicate DistinctDates(m: seq<DateSlots>)
  {
    forall i, j :: 0 <= i < j < |m| ==> m[i].date != m[j].date
  }

  /** Position of key `date`. */
  function FindDate(m: seq<DateSlots>, date: string): (r: Option<nat>)
    ensures r.Some? ==> r.value < |m| && m[r.value].date == date
    ensures r.None? ==> forall i :: 0 <= i < |m| ==> m[i].date != date
  {
    if m == [] then None
    else if m[0].date == date then Some(0)
    else match FindDate(m[1..], date)
      case None => None
      case Some(i) => Some(i + 1)
  }

  /** The list under `date`, empty when the key is absent. */
  function SlotsAt(m: seq<DateSlots>, date: string): seq<Slot>
  {
    match FindDate(m, date)
    case None => []
    case Some(i) => m[i].slots
  }

  /** `if (!record[date]) record[date] = []; record[date].push(...xs)`. */
  function AppendAt(m: seq<DateSlots>, date: string, xs: seq<Slot>): seq<DateSlots>
  {
    match FindDate(m, date)
    case None => m + [DateSlots(date, xs)]
    case Some(i) => m[i := DateSlots(date, m[i].slots + xs)]
  }

  /** With distinct keys, a key is found exactly where it is. */
  lemma {:induction false} FindDateUnique(m: seq<DateSlots>, i: nat)
    requires DistinctDates(m) && i < |m|
    ensures FindDate(m, m[i].date) == Some(i)
  {
    if i > 0 {
      assert m[0].date != m[i].date;
      assert DistinctDates(m[1..]) by {
        forall a, b | 0 <= a < b < |m| - 1 ensures m[1..][a].date != m[1..][b].date {
          assert m[1..][a] == m[a + 1] && m[1..][b] == m[b + 1];
        }
      }
      assert m[1..][i - 1] == m[i];
      FindDateUnique(m[1..], i - 1);
    }
  }

  /**
   * Appending under one key keeps the keys distinct, adds the key if it was missing, and
   * extends that key's list by exactly `xs`, leaving every other key's list alone.
   */
  lemma AppendAtSpec(m: seq<DateSlots>, date: string, xs: seq<Slot>)
    requires DistinctDates(m)
    ensures var r := AppendAt(m, date, xs);
      && DistinctDates(r)
      && (forall d :: SlotsAt(r, d) == SlotsAt(m, d) + (if d == date then xs else []))
      && (forall d :: FindDate(r, d).Some? <==> FindDate(m, d).Some? || d == date)
  {
    var r := AppendAt(m, date, xs);
    match FindDate(m, date)
    case None =>
      assert r == m + [DateSlots(date, xs)];
      assert DistinctDates(r) by {
        forall i, j | 0 <= i < j < |r| ensures r[i].date != r[j].date {
          assert r[i] == m[i];
          if j < |m| { assert r[j] == m[j]; }
        }
      }
      forall d ensures SlotsAt(r, d) == SlotsAt(m, d) + (if d == date then xs else [])
        && (FindDate(r, d).Some? <==> FindDate(m, d).Some? || d == date)
      {
        if d == date {
          FindDateUnique(r, |m|);
        } else if FindDate(m, d).Some? {
          var i := FindDate(m, d).value;
          assert r[i] == m[i];
          FindDateUnique(r, i);
        } else {
          assert forall i :: 0 <= i < |r| ==> r[i].date != d by {
            forall i | 0 <= i < |r| ensures r[i].date != d {
              if i < |m| { assert r[i] == m[i]; }
            }
          }
        }
      }
    case Some(p) =>
      assert r == m[p := DateSlots(date, m[p].slots + xs)];
      assert DistinctDates(r) by {
        forall i, j | 0 <= i < j < |r| ensures r[i].date != r[j].date {
          assert r[i].date == m[i].date && r[j].date == m[j].date;
        }
      }
      forall d ensures SlotsAt(r, d) == SlotsAt(m, d) + (if d == date then xs else [])
        && (FindDate(r, d).Some? <==> FindDate(m, d).Some? || d == date)
      {
        if d == date {
          FindDateUnique(r, p);
        } else if FindDate(m, d).Some? {
          var i := FindDate(m, d).value;
          assert r[i] == m[i];
          FindDateUnique(r, i);
        } else {
          assert forall i :: 0 <= i < |r| ==> r[i].date != d by {
            forall i | 0 <= i < |r| ensures r[i].date != d {
              assert r[i].date == m[i].date || i == p;
            }
          }
        }
      }
  }

  // ---------------------------------------------------------------------------------------
  // Grouping one batch by date
  // ---------------------------------------------------------------------------------------

  /**
   * `startAt.split("T")[0]`: the text before the first `T`, or all of it when there is no `T`.
   */
  function DateKey(s: string): (r: string)
    ensures r <= s && 'T' !in r
    ensures |r| < |s| ==> s[|r|] == 'T'
  {
    if s == [] || s[0] == 'T' then [] else [s[0]] + DateKey(s[1..])
  }

  /** `if (availability.startAt)`: present and not the empty string. */
  predicate HasStart(a: ProviderAvailability)
  {
    a.startAt.Some? && a.startAt.value != ""
  }

  function ToSlotSegment(s: Segment): SlotSegment
  {
    SlotSegment(s.durationMinutes, s.teamMemberId, s.serviceVariationId, s.serviceVariationVersion)
  }

  /** The slot the route builds from an availability that has a start. */
  function ToSlot(a: ProviderAvailability): (r: Slot)
    requires HasStart(a)
    ensures r.startAt == a.startAt.value && r.locationId == a.locationId
    ensures a.appointmentSegments.None? <==> r.appointmentSegments.None?
    ensures a.appointmentSegments.Some? ==>
              |r.appointmentSegments.value| == |a.appointmentSegments.value|
              && forall k :: 0 <= k < |a.appointmentSegments.value| ==>
                   r.appointmentSegments.value[k] == ToSlotSegment(a.appointmentSegments.value[k])
  {
    var segments := match a.appointmentSegments
      case None => None
      case Some(ss) => Some(seq(|ss|, k requires 0 <= k < |ss| => ToSlotSegment(ss[k])));
    Slot(a.startAt.value, a.locationId, segments)
  }

  /** The record `fetchAvailabilityBatch` builds from a list of availabilities. */
  function GroupedByDate(avs: seq<ProviderAvailability>): seq<DateSlots>
  {
    if avs == [] then []
    else
      var a := avs[|avs| - 1];
      var m := GroupedByDate(avs[..|avs| - 1]);
      if HasStart(a) then AppendAt(m, DateKey(a.startAt.value), [ToSlot(a)]) else m
  }

  /** Independent reference: the slots of the availabilities that start on `date`, in order. */
  function SlotsOn(avs: seq<ProviderAvailability>, date: string): seq<Slot>
  {
    if avs == [] then []
    else
      var a := avs[|avs| - 1];
      SlotsOn(avs[..|avs| - 1], date)
        + (if HasStart(a) && DateKey(a.startAt.value) == date then [ToSlot(a)] else [])
  }

  lemma {:induction false} SlotsOnAppend(a: seq<ProviderAvailability>, b: seq<ProviderAvailability>, date: string)
    ensures SlotsOn(a + b, date) == SlotsOn(a, date) + SlotsOn(b, date)
  {
    if b == [] {
      assert a + b == a;
    } else {
      assert (a + b)[..|a + b| - 1] == a + b[..|b| - 1];
      SlotsOnAppend(a, b[..|b| - 1], date);
    }
  }

  /**
   * A batch's record has distinct keys; the list under each key holds exactly the slots that
   * start on that date, in provider order; a key is present exactly when that list is
   * non-empty. Availabilities without a start are dropped.
   */
  lemma {:induction false} GroupedByDateSpec(avs: seq<ProviderAvailability>)
    ensures var m := GroupedByDate(avs);
      && DistinctDates(m)
      && (forall d :: SlotsAt(m, d) == SlotsOn(avs, d))
      && (forall d :: FindDate(m, d).Some? <==> SlotsOn(avs, d) != [])
  {
    if avs != [] {
      var a := avs[|avs| - 1];
      var init := avs[..|avs| - 1];
      GroupedByDateSpec(init);
      if HasStart(a) {
        AppendAtSpec(GroupedByDate(init), DateKey(a.startAt.value), [ToSlot(a)]);
      }
    }
  }

  /** `fetchAvailabilityBatch`'s `forEach`, which fills the record key by key. */
  method GroupByDate(avs: seq<ProviderAvailability>) returns (m: seq<DateSlots>)
    ensures m == GroupedByDate(avs)
  {
    m := [];
    var i := 0;
    while i < |avs|
      invariant 0 <= i <= |avs|
      invariant m == GroupedByDate(avs[..i])
    {
      var a := avs[i];
      assert avs[..i + 1][..i] == avs[..i];
      if a.startAt.Some? && a.startAt.value != "" {
        var key := DateKey(a.startAt.value);
        var slot := ToSlot(a);
        ghost var next := AppendAt(m, key, [slot]);
        assert [] + [slot] == [slot];
        match FindDate(m, key) {
          case None =>
            m := m + [DateSlots(key, [] + [slot])];
          case Some(p) =>
            m := m[p := DateSlots(key, m[p].slots + [slot])];
        }
        assert m == next;
      }
      i := i + 1;
    }
    assert avs[..i] == avs;
  }

  /** One provider call: the grouped record, or the thrown error's `errors`. */
  function FetchBatch(provider: Query -> ProviderResponse, q: Query): Result<seq<DateSlots>, Option<seq<ErrorDetail>>>
  {
    match provider(q)
    case Failed(errors) => Err(errors)
    case Found(avs) => Ok(GroupedByDate(avs.GetOr([])))
  }

  /** `fetchAvailabilityBatch`. */
  method FetchAvailabilityBatch(provider: Query -> ProviderResponse, q: Query)
    returns (r: Result<seq<DateSlots>, Option<seq<ErrorDetail>>>)
    ensures r == FetchBatch(provider, q)
  {
    var response := provider(q);
    match response {
      case Failed(errors) =>
        return Err(errors);
      case Found(avs) =>
        var m: seq<DateSlots> := [];
        if avs.Some? {
          m := GroupByDate(avs.value);
        }
        return Ok(m);
    }
  }

  // ---------------------------------------------------------------------------------------
  // Merging batches
  // ---------------------------------------------------------------------------------------

  /** The merge `forEach`: every key of `batch`, in order, appended under the same key. */
  function MergeInto(acc: seq<DateSlots>, batch: seq<DateSlots>): seq<DateSlots>
  {
    if batch == [] then acc
    else
      var e := batch[|batch| - 1];
      AppendAt(MergeInto(acc, batch[..|batch| - 1]), e.date, e.slots)
  }

  lemma SlotsAtSnoc(m: seq<DateSlots>, e: DateSlots, d: string)
    requires DistinctDates(m + [e])
    ensures DistinctDates(m)
    ensures SlotsAt(m + [e], d) == SlotsAt(m, d) + (if d == e.date then e.slots else [])
    ensures FindDate(m + [e], d).Some? <==> FindDate(m, d).Some? || d == e.date
  {
    var r := m + [e];
    assert DistinctDates(m) by {
      forall i, j | 0 <= i < j < |m| ensures m[i].date != m[j].date {
        assert r[i] == m[i] && r[j] == m[j];
      }
    }
    if d == e.date {
      FindDateUnique(r, |m|);
      assert forall i :: 0 <= i < |m| ==> m[i].date != d by {
        forall i | 0 <= i < |m| ensures m[i].date != d {
          assert r[i] == m[i];
        }
      }
    } else if FindDate(m, d).Some? {
      var i := FindDate(m, d).value;
      assert r[i] == m[i];
      FindDateUnique(r, i);
    } else {
      assert forall i :: 0 <= i < |r| ==> r[i].date != d by {
        forall i | 0 <= i < |r| ensures r[i].date != d {
          if i < |m| { assert r[i] == m[i]; }
        }
      }
    }
  }

  /** Merging one more key after a prefix of the batch: the list at one date. */
  lemma MergeIntoStepSlots(acc: seq<DateSlots>, init: seq<DateSlots>, e: DateSlots, mid: seq<DateSlots>,
                           r: seq<DateSlots>, d: string)
    requires DistinctDates(init + [e])
    requires SlotsAt(mid, d) == SlotsAt(acc, d) + SlotsAt(init, d)
    requires SlotsAt(r, d) == SlotsAt(mid, d) + (if d == e.date then e.slots else [])
    ensures SlotsAt(r, d) == SlotsAt(acc, d) + SlotsAt(init + [e], d)
  {
    SlotsAtSnoc(init, e, d);
    ConcatAssoc(SlotsAt(acc, d), SlotsAt(init, d), if d == e.date then e.slots else []);
  }

  lemma ConcatAssoc(a: seq<Slot>, b: seq<Slot>, c: seq<Slot>)
    ensures (a + b) + c == a + (b + c)
  {
  }

  /** Merging one more key after a prefix of the batch: whether one date is present. */
  lemma MergeIntoStepFound(acc: seq<DateSlots>, init: seq<DateSlots>, e: DateSlots, mid: seq<DateSlots>,
                           r: seq<DateSlots>, d: string)
    requires DistinctDates(init + [e])
    requires FindDate(mid, d).Some? <==> FindDate(acc, d).Some? || FindDate(init, d).Some?
    requires FindDate(r, d).Some? <==> FindDate(mid, d).Some? || d == e.date
    ensures FindDate(r, d).Some? <==> FindDate(acc, d).Some? || FindDate(init + [e], d).Some?
  {
    SlotsAtSnoc(init, e, d);
  }

  /** Merging one more key after a prefix of the batch. */
  lemma MergeIntoStep(acc: seq<DateSlots>, init: seq<DateSlots>, e: DateSlots)
    requires DistinctDates(init + [e])
    requires var mid := MergeInto(acc, init);
      && DistinctDates(mid)
      && (forall d :: SlotsAt(mid, d) == SlotsAt(acc, d) + SlotsAt(init, d))
      && (forall d :: FindDate(mid, d).Some? <==> FindDate(acc, d).Some? || FindDate(init, d).Some?)
    ensures var r := MergeInto(acc, init + [e]);
      && DistinctDates(r)
      && (forall d :: SlotsAt(r, d) == SlotsAt(acc, d) + SlotsAt(init + [e], d))
      && (forall d :: FindDate(r, d).Some? <==> FindDate(acc, d).Some? || FindDate(init + [e], d).Some?)
  {
    var batch := init + [e];
    var mid := MergeInto(acc, init);
    assert batch[..|batch| - 1] == init;
    assert MergeInto(acc, batch) == AppendAt(mid, e.date, e.slots);
    AppendAtSpec(mid, e.date, e.slots);
    forall d ensures var r := AppendAt(mid, e.date, e.slots);
      && SlotsAt(r, d) == SlotsAt(acc, d) + SlotsAt(batch, d)
      && (FindDate(r, d).Some? <==> FindDate(acc, d).Some? || FindDate(batch, d).Some?)
    {
      MergeIntoStepSlots(acc, init, e, mid, AppendAt(mid, e.date, e.slots), d);
      MergeIntoStepFound(acc, init, e, mid, AppendAt(mid, e.date, e.slots), d);
    }
  }

  /**
   * Merging a record into the accumulator keeps keys distinct and concatenates, key by key,
   * the accumulated list with the batch's list; a key is present when it was in either.
   */
  lemma {:induction false} MergeIntoSpec(acc: seq<DateSlots>, batch: seq<DateSlots>)
    requires DistinctDates(acc) && DistinctDates(batch)
    ensures var r := MergeInto(acc, batch);
      && DistinctDates(r)
      && (forall d :: SlotsAt(r, d) == SlotsAt(acc, d) + SlotsAt(batch, d))
      && (forall d :: FindDate(r, d).Some? <==> FindDate(acc, d).Some? || FindDate(batch, d).Some?)
  {
    if batch != [] {
      var init := batch[..|batch| - 1];
      var e := batch[|batch| - 1];
      assert batch == init + [e];
      SlotsAtSnoc(init, e, e.date);
      MergeIntoSpec(acc, init);
      MergeIntoStep(acc, init, e);
    }
  }

  /** The merge `forEach` of `POST`. */
  method MergeBatch(acc: seq<DateSlots>, batch: seq<DateSlots>) returns (m: seq<DateSlots>)
    ensures m == MergeInto(acc, batch)
  {
    m := acc;
    var i := 0;
    while i < |batch|
      invariant 0 <= i <= |batch|
      invariant m == MergeInto(acc, batch[..i])
    {
      var e := batch[i];
      assert batch[..i + 1][..i] == batch[..i];
      ghost var next := AppendAt(m, e.date, e.slots);
      assert [] + e.slots == e.slots;
      match FindDate(m, e.date) {
        case None =>
          m := m + [DateSlots(e.date, [] + e.slots)];
        case Some(p) =>
          m := m[p := DateSlots(e.date, m[p].slots + e.slots)];
      }
      assert m == next;
      i := i + 1;
    }
    assert batch[..i] == batch;
  }

  // ---------------------------------------------------------------------------------------
  // Batches
  // ---------------------------------------------------------------------------------------

  /** `Math.ceil(x / d)` for a positive divisor. */
  function CeilDiv(x: int, d: int): (r: int)
    requires d > 0
    ensures (r - 1) * d < x <= r * d
  {
    -((-x) / d)
  }

  /** `Math.ceil((end - start) / one day)`. */
  function TotalDays(start: int, end: int): (r: int)
    ensures (r - 1) * DAY_MS < end - start <= r * DAY_MS
  {
    CeilDiv(end - start, DAY_MS)
  }

  /** More than 31 days are requested exactly when the span exceeds 31 days. */
  lemma NeedsBatches(start: int, end: int)
    ensures TotalDays(start, end) > MAX_DAYS_PER_REQUEST <==> end - start > WINDOW_MS
  {
    var r := TotalDays(start, end);
    var x := end - start;
    assert (r - 1) * DAY_MS < x <= r * DAY_MS;
    if r > MAX_DAYS_PER_REQUEST {
      assert (r - 1) * DAY_MS >= MAX_DAYS_PER_REQUEST * DAY_MS;
    } else {
      assert r * DAY_MS <= MAX_DAYS_PER_REQUEST * DAY_MS;
    }
  }

  datatype Range = Range(start: int, end: int)

  /** The ranges the batch loop visits, from `cur` on. */
  function Batches(cur: int, end: int): seq<Range>
    decreases end - cur
  {
    if cur < end then
      var batchEnd := if cur + WINDOW_MS > end then end else cur + WINDOW_MS;
      [Range(cur, batchEnd)] + Batches(batchEnd, end)
    else []
  }

  /**
   * The batches of a non-empty span: the first starts at `start`, each starts where the one
   * before ended, each is non-empty and at most 31 days long, and the last ends at `end`.
   */
  lemma {:induction false} BatchesTile(start: int, end: int)
    requires start < end
    ensures var b := Batches(start, end);
      && |b| > 0
      && b[0].start == start
      && b[|b| - 1].end == end
      && (forall i :: 0 <= i < |b| ==> b[i].start < b[i].end <= b[i].start + WINDOW_MS)
      && (forall i :: 0 <= i < |b| - 1 ==> b[i].end == b[i + 1].start)
    decreases end - start
  {
    var b := Batches(start, end);
    var batchEnd := if start + WINDOW_MS > end then end else start + WINDOW_MS;
    if batchEnd < end {
      BatchesTile(batchEnd, end);
      var rest := Batches(batchEnd, end);
      assert b == [Range(start, batchEnd)] + rest;
      assert forall i :: 1 <= i < |b| ==> b[i] == rest[i - 1];
    } else {
      assert Batches(batchEnd, end) == [];
      assert b == [Range(start, end)];
    }
  }

  predicate Disjoint(b: seq<Range>)
  {
    forall i, j :: 0 <= i < j < |b| ==> b[i].end <= b[j].start
  }

  /** Batches never overlap: a later batch starts no earlier than an earlier one ends. */
  lemma {:induction false} BatchesDisjoint(start: int, end: int)
    ensures Disjoint(Batches(start, end))
    decreases end - start
  {
    if start < end {
      var b := Batches(start, end);
      var batchEnd := if start + WINDOW_MS > end then end else start + WINDOW_MS;
      var rest := Batches(batchEnd, end);
      BatchesDisjoint(batchEnd, end);
      BatchesStartFrom(batchEnd, end);
      assert b == [Range(start, batchEnd)] + rest;
      forall i, j | 0 <= i < j < |b| ensures b[i].end <= b[j].start {
        assert b[j] == rest[j - 1];
        if i > 0 {
          assert b[i] == rest[i - 1];
          assert Disjoint(rest);
          assert rest[i - 1].end <= rest[j - 1].start;
        } else {
          assert b[0] == Range(start, batchEnd);
          assert batchEnd <= rest[j - 1].start;
        }
      }
    }
  }

  /** Every batch from `cur` on lies within `[cur, end]`. */
  lemma {:induction false} BatchesStartFrom(cur: int, end: int)
    ensures forall i :: 0 <= i < |Batches(cur, end)| ==>
      cur <= Batches(cur, end)[i].start && Batches(cur, end)[i].end <= end
    decreases end - cur
  {
    if cur < end {
      var batchEnd := if cur + WINDOW_MS > end then end else cur + WINDOW_MS;
      BatchesStartFrom(batchEnd, end);
      assert forall i :: 1 <= i < |Batches(cur, end)| ==> Batches(cur, end)[i] == Batches(batchEnd, end)[i - 1];
    }
  }

  /** Every instant of `[cur, end)` lies in some batch. */
  lemma {:induction false} BatchesReach(cur: int, end: int, t: int)
    requires cur <= t < end
    ensures exists i :: 0 <= i < |Batches(cur, end)| && Batches(cur, end)[i].start <= t < Batches(cur, end)[i].end
    decreases end - cur
  {
    var b := Batches(cur, end);
    var batchEnd := if cur + WINDOW_MS > end then end else cur + WINDOW_MS;
    var rest := Batches(batchEnd, end);
    assert b == [Range(cur, batchEnd)] + rest;
    if t < batchEnd {
      assert b[0].start <= t < b[0].end;
    } else {
      BatchesReach(batchEnd, end, t);
      var i :| 0 <= i < |rest| && rest[i].start <= t < rest[i].end;
      assert b[i + 1] == rest[i];
    }
  }

  /** In ranges that do not overlap, an instant lies in at most one. */
  lemma DisjointUnique(b: seq<Range>, t: int)
    requires Disjoint(b)
    ensures forall i, j :: 0 <= i < |b| && 0 <= j < |b| && b[i].start <= t < b[i].end && b[j].start <= t < b[j].end ==> i == j
  {
  }

  /** Every instant of `[start, end)` lies in exactly one batch, and no other instant in any. */
  lemma BatchesCover(start: int, end: int, t: int)
    ensures var b := Batches(start, end);
      && (start <= t < end <==> exists i :: 0 <= i < |b| && b[i].start <= t < b[i].end)
      && (forall i, j :: 0 <= i < |b| && 0 <= j < |b| && b[i].start <= t < b[i].end && b[j].start <= t < b[j].end ==> i == j)
  {
    BatchesDisjoint(start, end);
    DisjointUnique(Batches(start, end), t);
    BatchesStartFrom(start, end);
    if start <= t < end {
      BatchesReach(start, end, t);
    }
  }

  /** The provider queries of the batch loop. */
  function BatchQueries(env: Env, serviceVariationId: string, start: int, end: int): (r: seq<Query>)
    ensures var b := Batches(start, end);
      |r| == |b| && forall i :: 0 <= i < |b| ==>
        r[i] == Query(serviceVariationId, env.isoString(b[i].start), env.isoString(b[i].end), env.locationId)
  {
    var b := Batches(start, end);
    seq(|b|, i requires 0 <= i < |b| =>
      Query(serviceVariationId, env.isoString(b[i].start), env.isoString(b[i].end), env.locationId))
  }

  // ---------------------------------------------------------------------------------------
  // The route
  // ---------------------------------------------------------------------------------------

  /** The queries in turn, stopping at the first one that throws. */
  function RunQueries(provider: Query -> ProviderResponse, qs: seq<Query>, acc: seq<DateSlots>): Response
  {
    if qs == [] then Success(acc)
    else match FetchBatch(provider, qs[0])
      case Err(errors) => ServerError(ErrorMessage(errors, SEARCH_FAILED))
      case Ok(batch) => RunQueries(provider, qs[1..], MergeInto(acc, batch))
  }

  /** `!x` in JavaScript for a string field: absent or empty. */
  predicate Missing(field: Option<string>)
  {
    field.None? || field.value == ""
  }

  /** A request with all three fields, none of them empty. */
  predicate Complete(req: Request)
  {
    req.Request? && !Missing(req.serviceVariationId) && !Missing(req.startAt) && !Missing(req.endAt)
  }

  /**
   * `totalDays > MAX_DAYS_PER_REQUEST`: false when either date is invalid, since a NaN
   * day count compares false.
   */
  predicate Batched(start: Option<int>, end: Option<int>)
  {
    start.Some? && end.Some? && TotalDays(start.value, end.value) > MAX_DAYS_PER_REQUEST
  }

  /** What `POST` answers for a request body. */
  function SearchAvailability(req: Request, env: Env): Response
  {
    if req.UnreadableBody? then
      ServerError(SEARCH_FAILED)
    else if !Complete(req) then
      BadRequest(MISSING_PARAMETERS)
    else
      var svid := req.serviceVariationId.value;
      var start := env.parseTime(req.startAt.value);
      var end := env.parseTime(req.endAt.value);
      if Batched(start, end) then
        RunQueries(env.provider, BatchQueries(env, svid, start.value, end.value), [])
      else
        match FetchBatch(env.provider, Query(svid, req.startAt.value, req.endAt.value, env.locationId))
        case Err(errors) => ServerError(ErrorMessage(errors, SEARCH_FAILED))
        case Ok(batch) => Success(batch)
  }

  lemma BatchQueriesStep(env: Env, svid: string, cur: int, end: int)
    requires cur < end
    ensures var batchEnd := if cur + WINDOW_MS > end then end else cur + WINDOW_MS;
      BatchQueries(env, svid, cur, end)
        == [Query(svid, env.isoString(cur), env.isoString(batchEnd), env.locationId)] + BatchQueries(env, svid, batchEnd, end)
  {
    var batchEnd := if cur + WINDOW_MS > end then end else cur + WINDOW_MS;
    var b := Batches(cur, end);
    assert b == [Range(cur, batchEnd)] + Batches(batchEnd, end);
  }

  /** `POST`: validate, then one query or the batch loop, then the answer. */
  method Post(req: Request, env: Env) returns (resp: Response)
    ensures resp == SearchAvailability(req, env)
  {
    if req.UnreadableBody? {
      // `request.json()` throws; the error carries no `errors` array
      return ServerError(SEARCH_FAILED);
    }
    if Missing(req.serviceVariationId) || Missing(req.startAt) || Missing(req.endAt) {
      return BadRequest(MISSING_PARAMETERS);
    }
    var svid := req.serviceVariationId.value;
    var start := env.parseTime(req.startAt.value);
    var end := env.parseTime(req.endAt.value);
    var availabilitiesByDate: seq<DateSlots> := [];
    if start.Some? && end.Some? && TotalDays(start.value, end.value) > MAX_DAYS_PER_REQUEST {
      var startDate, endDate := start.value, end.value;
      var currentStart := startDate;
      while currentStart < endDate
        invariant RunQueries(env.provider, BatchQueries(env, svid, startDate, endDate), [])
               == RunQueries(env.provider, BatchQueries(env, svid, currentStart, endDate), availabilitiesByDate)
        decreases endDate - currentStart
      {
        var currentEnd := currentStart + WINDOW_MS;
        var batchEnd := if currentEnd > endDate then endDate else currentEnd;
        BatchQueriesStep(env, svid, currentStart, endDate);
        var batchResult := FetchAvailabilityBatch(env.provider,
          Query(svid, env.isoString(currentStart), env.isoString(batchEnd), env.locationId));
        match batchResult {
          case Err(errors) =>
            return ServerError(ErrorMessage(errors, SEARCH_FAILED));
          case Ok(batch) =>
            availabilitiesByDate := MergeBatch(availabilitiesByDate, batch);
        }
        currentStart := batchEnd;
      }
    } else {
      var result := FetchAvailabilityBatch(env.provider,
        Query(svid, req.startAt.value, req.endAt.value, env.locationId));
      match result {
        case Err(errors) =>
          return ServerError(ErrorMessage(errors, SEARCH_FAILED));
        case Ok(batch) =>
          availabilitiesByDate := MergeBatch([], batch);
          GroupedByDateSpec(env.provider(Query(svid, req.startAt.value, req.endAt.value, env.locationId)).availabilities.GetOr([]));
          MergeIntoEmpty(batch);
      }
    }
    return Success(availabilitiesByDate);
  }

  /** Dropping the last key keeps keys distinct, and that key is not among the others. */
  lemma DistinctInit(batch: seq<DateSlots>)
    requires DistinctDates(batch) && |batch| > 0
    ensures DistinctDates(batch[..|batch| - 1])
    ensures FindDate(batch[..|batch| - 1], batch[|batch| - 1].date).None?
  {
    var init := batch[..|batch| - 1];
    forall i | 0 <= i < |init| ensures init[i].date != batch[|batch| - 1].date {
      assert batch[i] == init[i];
    }
  }

  /** A new last key is copied as it is. */
  lemma MergeIntoEmptyStep(init: seq<DateSlots>, e: DateSlots)
    requires MergeInto([], init) == init && FindDate(init, e.date).None?
    ensures MergeInto([], init + [e]) == init + [e]
  {
    assert (init + [e])[..|init|] == init;
  }

  /** `Object.assign({}, result)` copies the record as it is. */
  lemma {:induction false} MergeIntoEmpty(batch: seq<DateSlots>)
    requires DistinctDates(batch)
    ensures MergeInto([], batch) == batch
  {
    if batch != [] {
      var init := batch[..|batch| - 1];
      var e := batch[|batch| - 1];
      assert batch == init + [e];
      DistinctInit(batch);
      MergeIntoEmpty(init);
      MergeIntoEmptyStep(init, e);
    }
  }

  // ---------------------------------------------------------------------------------------
  // Route properties
  // ---------------------------------------------------------------------------------------

  /** A request missing a field gets 400 whatever the provider would have said. */
  lemma MissingParameters(req: Request, env: Env, other: Env)
    requires req.Request? && !Complete(req)
    ensures SearchAvailability(req, env) == BadRequest(MISSING_PARAMETERS)
    ensures Status(SearchAvailability(req, env)) == 400
    ensures SearchAvailability(req, env) == SearchAvailability(req, other)
  {
  }

  /** A body that cannot be parsed gets 500 with the fallback message, whatever the provider says. */
  lemma UnreadableBodyFails(env: Env, other: Env)
    ensures SearchAvailability(UnreadableBody, env) == ServerError(SEARCH_FAILED)
    ensures Status(SearchAvailability(UnreadableBody, env)) == 500
    ensures SearchAvailability(UnreadableBody, env) == SearchAvailability(UnreadableBody, other)
  {
  }

  /**
   * A span of at most 31 days, or a date `new Date` cannot read, is one query over the
   * request's own `start_at` and `end_at` texts.
   */
  lemma SingleQuery(req: Request, env: Env)
    requires Complete(req)
    requires var start := env.parseTime(req.startAt.value); var end := env.parseTime(req.endAt.value);
      start.None? || end.None? || end.value - start.value <= WINDOW_MS
    ensures SearchAvailability(req, env)
         == RunQueries(env.provider, [Query(req.serviceVariationId.value, req.startAt.value, req.endAt.value, env.locationId)], [])
  {
    var q := Query(req.serviceVariationId.value, req.startAt.value, req.endAt.value, env.locationId);
    var start := env.parseTime(req.startAt.value);
    var end := env.parseTime(req.endAt.value);
    if start.Some? && end.Some? {
      NeedsBatches(start.value, end.value);
    }
    match FetchBatch(env.provider, q)
    case Err(_) =>
    case Ok(batch) =>
      GroupedByDateSpec(env.provider(q).availabilities.GetOr([]));
      MergeIntoEmpty(batch);
  }

  /** Two readable dates more than 31 days apart are queried as the batches over their range. */
  lemma BatchedSearch(req: Request, env: Env)
    requires Complete(req)
    requires var start := env.parseTime(req.startAt.value); var end := env.parseTime(req.endAt.value);
      start.Some? && end.Some? && end.value - start.value > WINDOW_MS
    ensures var start := env.parseTime(req.startAt.value).value; var end := env.parseTime(req.endAt.value).value;
      SearchAvailability(req, env) == RunQueries(env.provider, BatchQueries(env, req.serviceVariationId.value, start, end), [])
  {
    NeedsBatches(env.parseTime(req.startAt.value).value, env.parseTime(req.endAt.value).value);
  }

  /** Every query answers. */
  predicate AllFound(provider: Query -> ProviderResponse, qs: seq<Query>)
  {
    forall i :: 0 <= i < |qs| ==> provider(qs[i]).Found?
  }

  /** The availabilities of all answers, in query order. */
  function Fetched(provider: Query -> ProviderResponse, qs: seq<Query>): seq<ProviderAvailability>
    requires AllFound(provider, qs)
  {
    if qs == [] then [] else provider(qs[0]).availabilities.GetOr([]) + Fetched(provider, qs[1..])
  }

  /**
   * When every query answers, the merged record holds under each date exactly the slots of all
   * answers that start on that date, in batch order and then provider order; no slot is lost
   * or added, a date is present exactly when it has a slot, and dates are distinct.
   */
  lemma {:induction false} MergedSlots(provider: Query -> ProviderResponse, qs: seq<Query>, acc: seq<DateSlots>)
    requires AllFound(provider, qs) && DistinctDates(acc)
    ensures RunQueries(provider, qs, acc).Success?
    ensures var m := RunQueries(provider, qs, acc).availabilitiesByDate;
      && DistinctDates(m)
      && (forall d :: SlotsAt(m, d) == SlotsAt(acc, d) + SlotsOn(Fetched(provider, qs), d))
      && (forall d :: FindDate(m, d).Some? <==> FindDate(acc, d).Some? || SlotsOn(Fetched(provider, qs), d) != [])
  {
    if qs != [] {
      var avs := provider(qs[0]).availabilities.GetOr([]);
      var batch := GroupedByDate(avs);
      GroupedByDateSpec(avs);
      MergeIntoSpec(acc, batch);
      var next := MergeInto(acc, batch);
      assert AllFound(provider, qs[1..]) by {
        forall i | 0 <= i < |qs| - 1 ensures provider(qs[1..][i]).Found? {
          assert qs[1..][i] == qs[i + 1];
        }
      }
      MergedSlots(provider, qs[1..], next);
      forall d ensures SlotsOn(Fetched(provider, qs), d) == SlotsOn(avs, d) + SlotsOn(Fetched(provider, qs[1..]), d) {
        SlotsOnAppend(avs, Fetched(provider, qs[1..]), d);
      }
    }
  }

  /**
   * When query `k` is the first that throws, the answer is 500 with that error's first
   * detail (or the fallback message), and no slots are returned.
   */
  lemma {:induction false} FirstFailure(provider: Query -> ProviderResponse, qs: seq<Query>, acc: seq<DateSlots>, k: nat)
    requires k < |qs| && provider(qs[k]).Failed?
    requires forall i :: 0 <= i < k ==> provider(qs[i]).Found?
    ensures RunQueries(provider, qs, acc) == ServerError(ErrorMessage(provider(qs[k]).errors, SEARCH_FAILED))
    ensures Status(RunQueries(provider, qs, acc)) == 500
  {
    if k > 0 {
      var batch := GroupedByDate(provider(qs[0]).availabilities.GetOr([]));
      assert forall i :: 0 <= i < k - 1 ==> qs[1..][i] == qs[i + 1];
      FirstFailure(provider, qs[1..], MergeInto(acc, batch), k - 1);
    }
  }
}
