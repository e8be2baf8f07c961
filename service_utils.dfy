/**
 * Service helpers of the booking flow: turning the service-to-members list into a
 * barber-to-services list with per-barber prices, effective prices and totals, duration
 * normalisation, and keyword categories.
 */
module ServiceUtils {
  import opened Wrappers
  import opened Entities
  import Text
  import Seqs
  import Sorting

  // ---------------------------------------------------------------------------------------
  // Grouping services by barber
  // ---------------------------------------------------------------------------------------

  /**
   * A member listed on a service can be booked for it: it is not an owner, and its junction
   * data does not say `is_available === false`. Missing junction data counts as available.
   */
  predicate Eligible(link: MemberLink)
  {
    !link.member.isOwner && !(link.junction.Some? && !link.junction.value.isAvailable)
  }

  /** `junctionData?.price_amount ?? null`. */
  function JunctionPrice(link: MemberLink): Option<int>
  {
    if link.junction.Some? then link.junction.value.priceAmount else None
  }

  /** The copy of `service` placed under a barber: override price set, member list cleared. */
  function PricedCopy(service: Service, link: MemberLink): (r: Service)
    ensures r.barberPrice == JunctionPrice(link)
    ensures r.teamMembers == []
    ensures r.(teamMembers := service.teamMembers, barberPrice := service.barberPrice) == service
  {
    service.(barberPrice := JunctionPrice(link), teamMembers := [])
  }

  /** One (service, listed member) combination. */
  datatype Pair = Pair(service: Service, link: MemberLink)

  /** The eligible pairs of one service's member list, in list order. */
  function LinkPairs(service: Service, links: seq<MemberLink>): (r: seq<Pair>)
    ensures forall k :: 0 <= k < |r| ==> Eligible(r[k].link) && r[k].service == service
  {
    if links == [] then []
    else
      var last := links[|links| - 1];
      LinkPairs(service, links[..|links| - 1]) + (if Eligible(last) then [Pair(service, last)] else [])
  }

  /** Every eligible (service, member) pair of the catalogue, services first, then members. */
  function EligiblePairs(services: seq<Service>): (r: seq<Pair>)
    ensures forall k :: 0 <= k < |r| ==> Eligible(r[k].link)
  {
    if services == [] then []
    else
      var last := services[|services| - 1];
      EligiblePairs(services[..|services| - 1]) + LinkPairs(last, last.teamMembers)
  }

  /** A pair comes from a service's member list exactly when its link is listed there and eligible. */
  lemma {:induction false} LinkPairsMembers(service: Service, links: seq<MemberLink>, p: Pair)
    ensures p in LinkPairs(service, links) <==> p.service == service && p.link in links && Eligible(p.link)
  {
    if links != [] {
      var init := links[..|links| - 1];
      var last := links[|links| - 1];
      assert links == init + [last];
      LinkPairsMembers(service, init, p);
    }
  }

  /**
   * The pairs visited are exactly the (service, member) combinations of the catalogue whose
   * member is listed on that service and is neither an owner nor marked unavailable.
   */
  lemma {:induction false} EligiblePairsMembers(services: seq<Service>, p: Pair)
    ensures p in EligiblePairs(services)
        <==> p.service in services && p.link in p.service.teamMembers && Eligible(p.link)
  {
    if services != [] {
      var init := services[..|services| - 1];
      var last := services[|services| - 1];
      assert services == init + [last];
      EligiblePairsMembers(init, p);
      LinkPairsMembers(last, last.teamMembers, p);
    }
  }

  function BarberId(entry: BarberWithServices): int
  {
    entry.barber.id
  }

  /** Position of the entry for member `id`, the `barberMap.has` / `get` lookup. */
  function FindEntry(entries: seq<BarberWithServices>, id: int): (r: Option<nat>)
    ensures r.Some? ==> r.value < |entries| && entries[r.value].barber.id == id
    ensures r.None? ==> forall k :: 0 <= k < |entries| ==> entries[k].barber.id != id
  {
    if entries == [] then None
    else if entries[0].barber.id == id then Some(0)
    else match FindEntry(entries[1..], id)
      case None => None
      case Some(k) => Some(k + 1)
  }

  /** One step of the grouping loop: get or create the barber's entry and push the copy. */
  function AddPair(entries: seq<BarberWithServices>, p: Pair): seq<BarberWithServices>
  {
    var copy := PricedCopy(p.service, p.link);
    match FindEntry(entries, p.link.member.id)
    case None => entries + [BarberWithServices(p.link.member, [copy])]
    case Some(k) => entries[k := entries[k].(services := entries[k].services + [copy])]
  }

  /** The barber map (in insertion order) after processing `pairs`. */
  function Group(pairs: seq<Pair>): seq<BarberWithServices>
  {
    if pairs == [] then [] else AddPair(Group(pairs[..|pairs| - 1]), pairs[|pairs| - 1])
  }

  /** Independent reference: the priced copies of the services paired with member `id`, in order. */
  function ServicesFor(pairs: seq<Pair>, id: int): seq<Service>
  {
    if pairs == [] then []
    else
      var last := pairs[|pairs| - 1];
      ServicesFor(pairs[..|pairs| - 1], id)
        + (if last.link.member.id == id then [PricedCopy(last.service, last.link)] else [])
  }

  /** A member has services exactly when some pair is for that member. */
  lemma {:induction false} ServicesForNonEmpty(pairs: seq<Pair>, id: int)
    ensures ServicesFor(pairs, id) != [] <==> exists p :: p in pairs && p.link.member.id == id
  {
    if pairs != [] {
      var init := pairs[..|pairs| - 1];
      var last := pairs[|pairs| - 1];
      assert pairs == init + [last];
      ServicesForNonEmpty(init, id);
    }
  }

  /**
   * A member id has services in the grouping exactly when some service lists that member
   * and the member is neither an owner nor marked unavailable for it.
   */
  lemma BookableMember(services: seq<Service>, id: int)
    ensures ServicesFor(EligiblePairs(services), id) != []
        <==> exists s, l :: s in services && l in s.teamMembers && Eligible(l) && l.member.id == id
  {
    ServicesForNonEmpty(EligiblePairs(services), id);
    if ServicesFor(EligiblePairs(services), id) != [] {
      var p :| p in EligiblePairs(services) && p.link.member.id == id;
      EligiblePairsMembers(services, p);
    } else {
      forall s, l | s in services && l in s.teamMembers && Eligible(l)
        ensures l.member.id != id
      {
        EligiblePairsMembers(services, Pair(s, l));
      }
    }
  }

  function EntrySize(entry: BarberWithServices): int
  {
    |entry.services|
  }

  /** What the grouping promises about its entries for a given list of eligible pairs. */
  ghost predicate Grouped(pairs: seq<Pair>, g: seq<BarberWithServices>)
  {
    && Sorting.DistinctBy(g, BarberId)
    && (forall k :: 0 <= k < |g| ==>
          && g[k].services == ServicesFor(pairs, g[k].barber.id)
          && |g[k].services| > 0
          && !g[k].barber.isOwner)
    && (forall id :: FindEntry(g, id).None? ==> ServicesFor(pairs, id) == [])
    && Seqs.SumOf(g, EntrySize) == |pairs|
  }

  lemma ServicesForSnoc(init: seq<Pair>, p: Pair, id: int)
    ensures ServicesFor(init + [p], id)
         == ServicesFor(init, id) + (if p.link.member.id == id then [PricedCopy(p.service, p.link)] else [])
  {
    assert (init + [p])[..|init|] == init;
  }

  /** Opening an entry for a new member keeps every entry equal to its member's services. */
  lemma NewEntryServices(init: seq<Pair>, p: Pair, g0: seq<BarberWithServices>)
    requires forall k :: 0 <= k < |g0| ==>
      g0[k].services == ServicesFor(init, g0[k].barber.id) && |g0[k].services| > 0 && !g0[k].barber.isOwner
    requires Eligible(p.link) && FindEntry(g0, p.link.member.id).None?
    requires ServicesFor(init, p.link.member.id) == []
    ensures var g := AddPair(g0, p);
      forall k :: 0 <= k < |g| ==>
        g[k].services == ServicesFor(init + [p], g[k].barber.id) && |g[k].services| > 0 && !g[k].barber.isOwner
  {
    var g := AddPair(g0, p);
    forall k | 0 <= k < |g|
      ensures g[k].services == ServicesFor(init + [p], g[k].barber.id) && |g[k].services| > 0 && !g[k].barber.isOwner
    {
      ServicesForSnoc(init, p, g[k].barber.id);
      if k < |g0| {
        assert g[k] == g0[k];
      }
    }
  }

  /** Opening an entry for a new member keeps every member without an entry unpaired. */
  lemma NewEntryCoverage(init: seq<Pair>, p: Pair, g0: seq<BarberWithServices>)
    requires forall id :: FindEntry(g0, id).None? ==> ServicesFor(init, id) == []
    requires FindEntry(g0, p.link.member.id).None?
    ensures forall x :: FindEntry(AddPair(g0, p), x).None? ==> ServicesFor(init + [p], x) == []
  {
    var g := AddPair(g0, p);
    forall x | FindEntry(g, x).None?
      ensures ServicesFor(init + [p], x) == []
    {
      assert g[|g| - 1].barber.id == p.link.member.id;
      assert forall k :: 0 <= k < |g0| ==> g[k] == g0[k];
      ServicesForSnoc(init, p, x);
    }
  }

  /** A pair whose member has no entry yet opens a new one-service entry at the end. */
  lemma GroupStepNew(init: seq<Pair>, p: Pair, g0: seq<BarberWithServices>)
    requires Grouped(init, g0) && Eligible(p.link) && FindEntry(g0, p.link.member.id).None?
    ensures Grouped(init + [p], AddPair(g0, p))
  {
    var e := BarberWithServices(p.link.member, [PricedCopy(p.service, p.link)]);
    var g := AddPair(g0, p);
    assert g == g0 + [e];
    NewEntryServices(init, p, g0);
    NewEntryCoverage(init, p, g0);
    assert Seqs.SumOf(g, EntrySize) == Seqs.SumOf(g0, EntrySize) + 1 by {
      assert g[..|g| - 1] == g0;
    }
  }

  /** A pair whose member already has an entry appends the copy to that entry only. */
  lemma GroupStepExisting(init: seq<Pair>, p: Pair, g0: seq<BarberWithServices>)
    requires Grouped(init, g0) && Eligible(p.link) && FindEntry(g0, p.link.member.id).Some?
    ensures Grouped(init + [p], AddPair(g0, p))
  {
    var k := FindEntry(g0, p.link.member.id).value;
    var e := g0[k].(services := g0[k].services + [PricedCopy(p.service, p.link)]);
    var g := AddPair(g0, p);
    assert g == g0[k := e];
    assert Sorting.DistinctBy(g, BarberId) by {
      assert forall m :: 0 <= m < |g| ==> g[m].barber == g0[m].barber;
    }
    ExistingEntryServices(init, p, g0, k);
    ExistingEntryCoverage(init, p, g0, k);
    Seqs.SumUpdate(g0, k, e, EntrySize);
  }

  /** Appending to the member's own entry keeps every entry equal to its member's services. */
  lemma ExistingEntryServices(init: seq<Pair>, p: Pair, g0: seq<BarberWithServices>, k: nat)
    requires forall m :: 0 <= m < |g0| ==>
      g0[m].services == ServicesFor(init, g0[m].barber.id) && |g0[m].services| > 0 && !g0[m].barber.isOwner
    requires Sorting.DistinctBy(g0, BarberId) && FindEntry(g0, p.link.member.id) == Some(k)
    ensures var g := AddPair(g0, p);
      forall m :: 0 <= m < |g| ==>
        g[m].services == ServicesFor(init + [p], g[m].barber.id) && |g[m].services| > 0 && !g[m].barber.isOwner
  {
    var e := g0[k].(services := g0[k].services + [PricedCopy(p.service, p.link)]);
    var g := AddPair(g0, p);
    assert g == g0[k := e];
    forall m | 0 <= m < |g|
      ensures g[m].services == ServicesFor(init + [p], g[m].barber.id) && |g[m].services| > 0 && !g[m].barber.isOwner
    {
      ServicesForSnoc(init, p, g[m].barber.id);
      if m != k {
        assert g[m] == g0[m] && BarberId(g0[m]) != BarberId(g0[k]);
      }
    }
  }

  /** Appending to the member's own entry keeps every member without an entry unpaired. */
  lemma ExistingEntryCoverage(init: seq<Pair>, p: Pair, g0: seq<BarberWithServices>, k: nat)
    requires forall id :: FindEntry(g0, id).None? ==> ServicesFor(init, id) == []
    requires FindEntry(g0, p.link.member.id) == Some(k)
    ensures forall x :: FindEntry(AddPair(g0, p), x).None? ==> ServicesFor(init + [p], x) == []
  {
    var e := g0[k].(services := g0[k].services + [PricedCopy(p.service, p.link)]);
    var g := AddPair(g0, p);
    assert g == g0[k := e];
    forall x | FindEntry(g, x).None?
      ensures ServicesFor(init + [p], x) == []
    {
      assert forall m :: 0 <= m < |g0| ==> g[m].barber == g0[m].barber;
      ServicesForSnoc(init, p, x);
    }
  }

  /**
   * The grouping of eligible pairs has one entry per member id, every entry is non-empty and
   * holds exactly that member's services in input order, no owner has an entry, every paired
   * member has one, and the entries hold as many services as there are pairs.
   */
  lemma {:induction false} GroupSpec(pairs: seq<Pair>)
    requires forall k :: 0 <= k < |pairs| ==> Eligible(pairs[k].link)
    ensures Grouped(pairs, Group(pairs))
  {
    if pairs != [] {
      var init := pairs[..|pairs| - 1];
      var p := pairs[|pairs| - 1];
      GroupSpec(init);
      assert pairs == init + [p];
      if FindEntry(Group(init), p.link.member.id).None? {
        GroupStepNew(init, p, Group(init));
      } else {
        GroupStepExisting(init, p, Group(init));
      }
    }
  }

  /** The lower-cased `"first last"` name the result is sorted by. */
  function NameKey(entry: BarberWithServices): string
  {
    Text.ToLower(entry.barber.firstName + " " + entry.barber.lastName)
  }

  function HasServices(entry: BarberWithServices): bool
  {
    |entry.services| > 0
  }

  lemma GroupSnoc(init: seq<Pair>, p: Pair)
    ensures Group(init + [p]) == AddPair(Group(init), p)
  {
    assert (init + [p])[..|init|] == init;
  }

  lemma LinkPairsStep(done: seq<Pair>, service: Service, links: seq<MemberLink>, j: nat)
    requires j < |links|
    ensures done + LinkPairs(service, links[..j + 1])
         == (done + LinkPairs(service, links[..j])) + (if Eligible(links[j]) then [Pair(service, links[j])] else [])
  {
    assert links[..j + 1][..j] == links[..j];
  }

  /** Get or create the member's entry in the barber map and push the priced copy onto it. */
  method PushCopy(entries: seq<BarberWithServices>, service: Service, link: MemberLink)
    returns (r: seq<BarberWithServices>)
    ensures r == AddPair(entries, Pair(service, link))
  {
    var copy := PricedCopy(service, link);
    match FindEntry(entries, link.member.id) {
      case None =>
        r := entries + [BarberWithServices(link.member, [copy])];
      case Some(k) =>
        r := entries[k := entries[k].(services := entries[k].services + [copy])];
    }
  }

  /** The barber map after one more member of a service: unchanged, or that pair added. */
  lemma MemberStep(done: seq<Pair>, service: Service, links: seq<MemberLink>, j: nat)
    requires j < |links|
    ensures Group(done + LinkPairs(service, links[..j + 1]))
         == if Eligible(links[j]) then AddPair(Group(done + LinkPairs(service, links[..j])), Pair(service, links[j]))
            else Group(done + LinkPairs(service, links[..j]))
  {
    LinkPairsStep(done, service, links, j);
    if Eligible(links[j]) {
      GroupSnoc(done + LinkPairs(service, links[..j]), Pair(service, links[j]));
    } else {
      assert done + LinkPairs(service, links[..j + 1]) == done + LinkPairs(service, links[..j]);
    }
  }

  /**
   * The inner loop of `groupServicesByBarber` over one service's members: owners and members
   * marked unavailable are skipped, the others get (or create) an entry and receive a copy.
   */
  method PushServiceMembers(ghost done: seq<Pair>, entries: seq<BarberWithServices>, service: Service)
    returns (r: seq<BarberWithServices>)
    requires entries == Group(done)
    ensures r == Group(done + LinkPairs(service, service.teamMembers))
  {
    var links := service.teamMembers;
    r := entries;
    assert done + LinkPairs(service, links[..0]) == done by {
      assert links[..0] == [];
    }
    var j := 0;
    while j < |links|
      invariant 0 <= j <= |links|
      invariant r == Group(done + LinkPairs(service, links[..j]))
    {
      var link := links[j];
      MemberStep(done, service, links, j);
      if link.member.isOwner {
        // owners are never offered as barbers
      } else if link.junction.Some? && !link.junction.value.isAvailable {
        // this member does not offer the service
      } else {
        r := PushCopy(r, service, link);
      }
      j := j + 1;
    }
    assert links[..j] == links;
  }

  /** The outer loop of `groupServicesByBarber`: the barber map after every service. */
  method FillBarberMap(services: seq<Service>) returns (entries: seq<BarberWithServices>)
    ensures entries == Group(EligiblePairs(services))
  {
    entries := [];
    var i := 0;
    while i < |services|
      invariant 0 <= i <= |services|
      invariant entries == Group(EligiblePairs(services[..i]))
    {
      assert EligiblePairs(services[..i + 1])
          == EligiblePairs(services[..i]) + LinkPairs(services[i], services[i].teamMembers) by {
        assert services[..i + 1][..i] == services[..i];
      }
      entries := PushServiceMembers(EligiblePairs(services[..i]), entries, services[i]);
      i := i + 1;
    }
    assert services[..i] == services;
  }

  /**
   * `groupServicesByBarber`: fill the barber map, keep the entries that have services, and sort
   * them by lower-cased full name.
   */
  method GroupServicesByBarber(services: seq<Service>) returns (r: seq<BarberWithServices>)
    ensures multiset(r) == multiset(Group(EligiblePairs(services)))
    ensures Sorting.SortedBy(r, NameKey)
    ensures Sorting.DistinctBy(r, BarberId)
    ensures forall k :: 0 <= k < |r| ==>
              && !r[k].barber.isOwner
              && |r[k].services| > 0
              && r[k].services == ServicesFor(EligiblePairs(services), r[k].barber.id)
    ensures forall id :: ServicesFor(EligiblePairs(services), id) != [] ==>
              exists k :: 0 <= k < |r| && r[k].barber.id == id
  {
    var entries := FillBarberMap(services);
    ghost var pairs := EligiblePairs(services);
    GroupSpec(pairs);
    var withServices := Seqs.Filter(entries, HasServices);
    Seqs.FilterAll(entries, HasServices);
    r := Sorting.SortBy(withServices, NameKey);
    Sorting.SortDistinct(withServices, NameKey, BarberId);
    RearrangedGroupFacts(pairs, entries, r);
  }

  /** What `Grouped` says of each entry survives any rearrangement of the entries. */
  lemma RearrangedGroupFacts(pairs: seq<Pair>, g: seq<BarberWithServices>, r: seq<BarberWithServices>)
    requires Grouped(pairs, g) && multiset(r) == multiset(g)
    ensures forall k :: 0 <= k < |r| ==>
              && !r[k].barber.isOwner
              && |r[k].services| > 0
              && r[k].services == ServicesFor(pairs, r[k].barber.id)
    ensures forall id :: ServicesFor(pairs, id) != [] ==>
              exists k :: 0 <= k < |r| && r[k].barber.id == id
  {
    forall k | 0 <= k < |r|
      ensures !r[k].barber.isOwner && |r[k].services| > 0 && r[k].services == ServicesFor(pairs, r[k].barber.id)
    {
      assert r[k] in multiset(r);
      var m :| 0 <= m < |g| && g[m] == r[k];
    }
    forall id | ServicesFor(pairs, id) != []
      ensures exists k :: 0 <= k < |r| && r[k].barber.id == id
    {
      var m := FindEntry(g, id).value;
      assert g[m] in multiset(r);
      var k :| 0 <= k < |r| && r[k] == g[m];
    }
  }

  // ---------------------------------------------------------------------------------------
  // Prices and durations
  // ---------------------------------------------------------------------------------------

  /** `service.barber_price_amount ?? service.price_amount`. */
  function GetServicePrice(service: Service): (r: int)
    ensures service.barberPrice.Some? ==> r == service.barberPrice.value
    ensures service.barberPrice.None? ==> r == service.priceAmount
  {
    service.barberPrice.GetOr(service.priceAmount)
  }

  /** Sum of the effective prices; 0 for no services. */
  function CalculateTotalPrice(services: seq<Service>): int
  {
    Seqs.SumOf(services, GetServicePrice)
  }

  /** The total of a concatenation is the sum of the totals. */
  lemma TotalPriceAppend(a: seq<Service>, b: seq<Service>)
    ensures CalculateTotalPrice(a + b) == CalculateTotalPrice(a) + CalculateTotalPrice(b)
  {
    Seqs.SumAppend(a, b, GetServicePrice);
  }

  /** Setting one service's barber override moves the total by that service's difference only. */
  lemma TotalPriceOverride(services: seq<Service>, k: nat, price: int)
    requires k < |services|
    ensures CalculateTotalPrice(services[k := services[k].(barberPrice := Some(price))])
         == CalculateTotalPrice(services) - GetServicePrice(services[k]) + price
  {
    Seqs.SumUpdate(services, k, services[k].(barberPrice := Some(price)), GetServicePrice);
  }

  /**
   * A duration in minutes. Values above 10000 are taken to be milliseconds and rounded to the
   * nearest minute, halves up (`Math.round(d / 60000)`); other values are already minutes.
   */
  function DurationMinutes(d: int): (r: int)
    ensures d > 10000 ==> r * 60000 <= d + 30000 < (r + 1) * 60000
    ensures d > 10000 ==> r >= 0
    ensures d <= 10000 ==> r == d
  {
    if d > 10000 then (d + 30000) / 60000 else d
  }

  function ServiceMinutes(service: Service): int
  {
    DurationMinutes(service.duration)
  }

  /** Sum of the normalised durations; 0 for no services. */
  function CalculateTotalDuration(services: seq<Service>): int
  {
    Seqs.SumOf(services, ServiceMinutes)
  }

  /** The total duration of a concatenation is the sum of the totals. */
  lemma TotalDurationAppend(a: seq<Service>, b: seq<Service>)
    ensures CalculateTotalDuration(a + b) == CalculateTotalDuration(a) + CalculateTotalDuration(b)
  {
    Seqs.SumAppend(a, b, ServiceMinutes);
  }

  // ---------------------------------------------------------------------------------------
  // Categories
  // ---------------------------------------------------------------------------------------

  datatype ServiceCategory = Hair | Beard | Eyebrow | Other

  const HAIR_KEYWORDS: seq<string> := ["hair", "haircut", "scissor cut", "restyling", "buzz cut"]
  const BEARD_KEYWORDS: seq<string> := ["beard", "clean shave"]

  /** `keywords.some(keyword => name.includes(keyword))`. */
  predicate MentionsAny(name: string, keywords: seq<string>)
  {
    exists k :: 0 <= k < |keywords| && Text.Contains(name, keywords[k])
  }

  /** Category of a service name: Hair, then Beard, then Eyebrow, else Other. */
  function GetServiceCategory(serviceName: string): ServiceCategory
  {
    var name := Text.ToLower(serviceName);
    if MentionsAny(name, HAIR_KEYWORDS) then Hair
    else if MentionsAny(name, BEARD_KEYWORDS) then Beard
    else if Text.Contains(name, "eyebrow") || Text.Contains(name, "brow") then Eyebrow
    else Other
  }

  /**
   * Reference definition with the redundant keywords removed ("haircut" already contains
   * "hair", "eyebrow" already contains "brow"), stated in priority order.
   */
  lemma CategoryByMinimalKeywords(serviceName: string)
    ensures var name := Text.ToLower(serviceName);
      var hair := Text.Contains(name, "hair") || Text.Contains(name, "scissor cut")
                  || Text.Contains(name, "restyling") || Text.Contains(name, "buzz cut");
      var beard := Text.Contains(name, "beard") || Text.Contains(name, "clean shave");
      && (GetServiceCategory(serviceName) == Hair <==> hair)
      && (GetServiceCategory(serviceName) == Beard <==> !hair && beard)
      && (GetServiceCategory(serviceName) == Eyebrow <==> !hair && !beard && Text.Contains(name, "brow"))
      && (GetServiceCategory(serviceName) == Other <==> !hair && !beard && !Text.Contains(name, "brow"))
  {
    var name := Text.ToLower(serviceName);
    assert "hair" <= "haircut";
    if Text.Contains(name, "haircut") {
      Text.ContainsTransitive(name, "haircut", "hair");
    }
    Text.ContainsAt("eyebrow", "brow", 3);
    if Text.Contains(name, "eyebrow") {
      Text.ContainsTransitive(name, "eyebrow", "brow");
    }
    assert HAIR_KEYWORDS[0] == "hair" && HAIR_KEYWORDS[2] == "scissor cut";
    assert HAIR_KEYWORDS[3] == "restyling" && HAIR_KEYWORDS[4] == "buzz cut";
    assert BEARD_KEYWORDS[0] == "beard" && BEARD_KEYWORDS[1] == "clean shave";
  }

  const CATEGORY_ORDER: seq<ServiceCategory> := [Hair, Beard, Eyebrow, Other]

  /** Position of a category in the display order. */
  function Rank(c: ServiceCategory): (r: nat)
    ensures r < |CATEGORY_ORDER| && CATEGORY_ORDER[r] == c
  {
    match c
    case Hair => 0
    case Beard => 1
    case Eyebrow => 2
    case Other => 3
  }

  datatype CategoryGroup = CategoryGroup(category: ServiceCategory, services: seq<Service>)

  function InCategory(c: ServiceCategory): Service -> bool
  {
    (s: Service) => GetServiceCategory(s.name) == c
  }

  /** The first loop of `categorizeServices`: each service pushed into its category's list. */
  method BucketByCategory(services: seq<Service>) returns (grouped: map<ServiceCategory, seq<Service>>)
    ensures forall c :: c in grouped && grouped[c] == Seqs.Filter(services, InCategory(c))
  {
    grouped := map[Hair := [], Beard := [], Eyebrow := [], Other := []];
    forall c ensures c in grouped && grouped[c] == Seqs.Filter(services[..0], InCategory(c)) {
      assert services[..0] == [];
      assert c == Hair || c == Beard || c == Eyebrow || c == Other;
    }
    var i := 0;
    while i < |services|
      invariant 0 <= i <= |services|
      invariant forall c :: c in grouped && grouped[c] == Seqs.Filter(services[..i], InCategory(c))
    {
      var service := services[i];
      var category := GetServiceCategory(service.name);
      grouped := grouped[category := grouped[category] + [service]];
      forall c ensures c in grouped && grouped[c] == Seqs.Filter(services[..i + 1], InCategory(c)) {
        Seqs.FilterSnoc(services, i, InCategory(c));
        assert InCategory(c)(service) <==> c == category;
      }
      i := i + 1;
    }
    assert services[..i] == services;
  }

  /** The non-empty buckets of the first `k` categories of the display order, in that order. */
  function OrderedGroups(grouped: map<ServiceCategory, seq<Service>>, k: nat): seq<CategoryGroup>
    requires forall c :: c in grouped
    requires k <= |CATEGORY_ORDER|
  {
    if k == 0 then []
    else
      var c := CATEGORY_ORDER[k - 1];
      OrderedGroups(grouped, k - 1) + (if grouped[c] != [] then [CategoryGroup(c, grouped[c])] else [])
  }

  /** The `k`-th category of the display order has rank `k`. */
  lemma RankOfOrder(k: nat)
    requires k < |CATEGORY_ORDER|
    ensures Rank(CATEGORY_ORDER[k]) == k
  {
  }

  /** The groups for `k` categories extend those for `k - 1` by the `k`-th bucket when it is non-empty. */
  lemma OrderedGroupsUnfold(grouped: map<ServiceCategory, seq<Service>>, k: nat)
    requires forall c :: c in grouped
    requires 0 < k <= |CATEGORY_ORDER|
    ensures var g0 := OrderedGroups(grouped, k - 1);
      var g := OrderedGroups(grouped, k);
      var c := CATEGORY_ORDER[k - 1];
      && Rank(c) == k - 1
      && (forall i :: 0 <= i < |g0| ==> i < |g| && g[i] == g0[i])
      && (grouped[c] == [] ==> |g| == |g0|)
      && (grouped[c] != [] ==> |g| == |g0| + 1 && g[|g0|] == CategoryGroup(c, grouped[c]))
  {
    RankOfOrder(k - 1);
  }

  /** Each emitted group is a non-empty bucket of a category ranked below `k`. */
  lemma {:induction false} OrderedGroupsContents(grouped: map<ServiceCategory, seq<Service>>, k: nat)
    requires forall c :: c in grouped
    requires k <= |CATEGORY_ORDER|
    ensures var g := OrderedGroups(grouped, k);
      forall i :: 0 <= i < |g| ==>
        g[i].services == grouped[g[i].category] && g[i].services != [] && Rank(g[i].category) < k
  {
    if k > 0 {
      OrderedGroupsContents(grouped, k - 1);
      OrderedGroupsUnfold(grouped, k);
    }
  }

  /** The emitted groups strictly follow the display order. */
  lemma {:induction false} OrderedGroupsSorted(grouped: map<ServiceCategory, seq<Service>>, k: nat)
    requires forall c :: c in grouped
    requires k <= |CATEGORY_ORDER|
    ensures var g := OrderedGroups(grouped, k);
      forall i, j :: 0 <= i < j < |g| ==> Rank(g[i].category) < Rank(g[j].category)
  {
    if k > 0 {
      OrderedGroupsSorted(grouped, k - 1);
      OrderedGroupsContents(grouped, k - 1);
      OrderedGroupsUnfold(grouped, k);
    }
  }

  /** Every non-empty bucket of a category ranked below `k` is emitted. */
  lemma {:induction false} OrderedGroupsCover(grouped: map<ServiceCategory, seq<Service>>, k: nat)
    requires forall c :: c in grouped
    requires k <= |CATEGORY_ORDER|
    ensures var g := OrderedGroups(grouped, k);
      forall c :: Rank(c) < k && grouped[c] != [] ==> exists i :: 0 <= i < |g| && g[i].category == c
  {
    if k > 0 {
      OrderedGroupsCover(grouped, k - 1);
      OrderedGroupsUnfold(grouped, k);
      var g0 := OrderedGroups(grouped, k - 1);
      var g := OrderedGroups(grouped, k);
      var last := CATEGORY_ORDER[k - 1];
      forall c | Rank(c) < k && grouped[c] != []
        ensures exists i :: 0 <= i < |g| && g[i].category == c
      {
        if c == last {
          assert g[|g0|].category == c;
        } else {
          var i :| 0 <= i < |g0| && g0[i].category == c;
          assert g[i] == g0[i];
        }
      }
    }
  }

  /** The groups for the first `k` categories of the display order. */
  lemma OrderedGroupsFacts(grouped: map<ServiceCategory, seq<Service>>, k: nat)
    requires forall c :: c in grouped
    requires k <= |CATEGORY_ORDER|
    ensures var g := OrderedGroups(grouped, k);
      && (forall i :: 0 <= i < |g| ==>
            g[i].services == grouped[g[i].category] && g[i].services != [] && Rank(g[i].category) < k)
      && (forall i, j :: 0 <= i < j < |g| ==> Rank(g[i].category) < Rank(g[j].category))
      && (forall c :: Rank(c) < k && grouped[c] != [] ==> exists i :: 0 <= i < |g| && g[i].category == c)
  {
    OrderedGroupsContents(grouped, k);
    OrderedGroupsSorted(grouped, k);
    OrderedGroupsCover(grouped, k);
  }

  /**
   * `categorizeServices`: bucket the services, then return the non-empty buckets in the order
   * Hair, Beard, Eyebrow, Other.
   */
  method CategorizeServices(services: seq<Service>) returns (groups: seq<CategoryGroup>)
    ensures forall i :: 0 <= i < |groups| ==>
              groups[i].services == Seqs.Filter(services, InCategory(groups[i].category))
              && groups[i].services != []
    ensures forall i, j :: 0 <= i < j < |groups| ==> Rank(groups[i].category) < Rank(groups[j].category)
    ensures forall c :: Seqs.Filter(services, InCategory(c)) != [] ==>
              exists i :: 0 <= i < |groups| && groups[i].category == c
  {
    var grouped := BucketByCategory(services);
    groups := OrderedGroups(grouped, |CATEGORY_ORDER|);
    OrderedGroupsFacts(grouped, |CATEGORY_ORDER|);
  }

  /** Every service lands in exactly one category: the four lists together are as long as the input. */
  lemma {:induction false} CategoriesPartition(services: seq<Service>)
    ensures |Seqs.Filter(services, InCategory(Hair))| + |Seqs.Filter(services, InCategory(Beard))|
          + |Seqs.Filter(services, InCategory(Eyebrow))| + |Seqs.Filter(services, InCategory(Other))|
         == |services|
  {
    if services != [] {
      CategoriesPartition(services[1..]);
    }
  }
}
