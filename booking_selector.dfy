/**
 * The barber and service selector: it joins the bookable barbers with the services that list
 * them, orders the barbers by first name, and turns clicks on services into cart operations,
 * opening a confirmation dialog when a service belongs to a barber other than the one the cart
 * is locked to.
 */
module BookingSelector {
  import opened Wrappers
  import opened Entities
  import Seqs
  import Sorting
  import opened BookingCart

  const LOAD_ERROR: string := "Failed to load barbers and services. Please try again."

  // ---------------------------------------------------------------------------------------
  // Joining barbers with their services
  // ---------------------------------------------------------------------------------------

  /** A barber shown on the selector: not an owner and with status `ACTIVE`. */
  predicate IsBookable(barber: TeamMember)
  {
    !barber.isOwner && barber.status == "ACTIVE"
  }

  /** `service.teamMembers?.some((tm) => tm.square_up_id === squareUpId)`. */
  function OffersService(squareUpId: string): Service -> bool
  {
    (s: Service) => exists k :: 0 <= k < |s.teamMembers| && s.teamMembers[k].member.squareUpId == squareUpId
  }

  /** The services that list `barber`, in catalogue order. */
  function BarberServiceList(services: seq<Service>, barber: TeamMember): (r: seq<Service>)
    ensures forall s :: s in r <==>
      s in services && exists k :: 0 <= k < |s.teamMembers| && s.teamMembers[k].member.squareUpId == barber.squareUpId
  {
    Seqs.Filter(services, OffersService(barber.squareUpId))
  }

  /** The entries the join loop pushes for `active`, in barber order: barbers with no service are skipped. */
  function Joined(active: seq<TeamMember>, services: seq<Service>): seq<BarberWithServices>
  {
    if active == [] then []
    else
      var barber := active[|active| - 1];
      var list := BarberServiceList(services, barber);
      Joined(active[..|active| - 1], services) + (if |list| > 0 then [BarberWithServices(barber, list)] else [])
  }

  function FirstNameKey(entry: BarberWithServices): string
  {
    entry.barber.firstName
  }

  /** The selector's barber list: the bookable barbers' entries, ordered by first name. */
  function SelectorEntries(barbers: seq<TeamMember>, services: seq<Service>): seq<BarberWithServices>
  {
    Sorting.SortBy(Joined(Seqs.Filter(barbers, IsBookable), services), FirstNameKey)
  }

  /** An entry is joined exactly for a listed barber with a non-empty list of their services. */
  lemma {:induction false} JoinedMembers(active: seq<TeamMember>, services: seq<Service>, e: BarberWithServices)
    ensures e in Joined(active, services) <==>
      e.barber in active && e.services == BarberServiceList(services, e.barber) && |e.services| > 0
  {
    if active != [] {
      var init := active[..|active| - 1];
      JoinedMembers(init, services, e);
      assert active == init + [active[|active| - 1]];
    }
  }

  /**
   * The selector lists exactly the bookable barbers that some service names, each with all the
   * services that name them, ordered by first name.
   */
  lemma SelectorEntriesSpec(barbers: seq<TeamMember>, services: seq<Service>)
    ensures Sorting.SortedBy(SelectorEntries(barbers, services), FirstNameKey)
    ensures forall e :: e in SelectorEntries(barbers, services) <==>
      && e.barber in barbers && IsBookable(e.barber)
      && e.services == BarberServiceList(services, e.barber) && |e.services| > 0
  {
    var active := Seqs.Filter(barbers, IsBookable);
    var joined := Joined(active, services);
    var r := SelectorEntries(barbers, services);
    forall e
      ensures e in r <==> e in joined
    {
      assert multiset(r) == multiset(joined);
      assert e in r <==> e in multiset(r);
      assert e in joined <==> e in multiset(joined);
    }
    forall e
      ensures e in joined <==> e.barber in active && e.services == BarberServiceList(services, e.barber) && |e.services| > 0
    {
      JoinedMembers(active, services, e);
    }
  }

  /** The join loop of `fetchData`, followed by the sort by first name. */
  method JoinBarberServices(barbers: seq<TeamMember>, services: seq<Service>) returns (r: seq<BarberWithServices>)
    ensures r == SelectorEntries(barbers, services)
  {
    var active := Seqs.Filter(barbers, IsBookable);
    var data: seq<BarberWithServices> := [];
    for i := 0 to |active|
      invariant data == Joined(active[..i], services)
    {
      var barber := active[i];
      var list := BarberServiceList(services, barber);
      assert active[..i + 1][..i] == active[..i];
      if |list| > 0 {
        data := data + [BarberWithServices(barber, list)];
      }
    }
    assert active[..|active|] == active;
    r := Sorting.SortBy(data, FirstNameKey);
  }

  /** After loading, a single barber with a `square_up_id` is expanded; otherwise nothing changes. */
  function AutoExpand(entries: seq<BarberWithServices>, expanded: Option<string>): (r: Option<string>)
    ensures |entries| == 1 && entries[0].barber.squareUpId != "" ==> r == Some(entries[0].barber.squareUpId)
    ensures !(|entries| == 1 && entries[0].barber.squareUpId != "") ==> r == expanded
  {
    if |entries| == 1 && entries[0].barber.squareUpId != "" then Some(entries[0].barber.squareUpId) else expanded
  }

  // ---------------------------------------------------------------------------------------
  // Expanding a barber
  // ---------------------------------------------------------------------------------------

  /** `toggleBarberServices`: collapse the barber if expanded, else expand it. */
  function Toggle(expanded: Option<string>, barberId: string): (r: Option<string>)
    ensures r == Some(barberId) <==> expanded != Some(barberId)
    ensures r.None? <==> expanded == Some(barberId)
  {
    if expanded == Some(barberId) then None else Some(barberId)
  }

  /** Toggling the same barber twice returns to the start when that barber was expanded or nothing was. */
  lemma ToggleTwice(expanded: Option<string>, barberId: string)
    requires expanded.None? || expanded == Some(barberId)
    ensures Toggle(Toggle(expanded, barberId), barberId) == expanded
  {
  }

  // ---------------------------------------------------------------------------------------
  // Switching barbers
  // ---------------------------------------------------------------------------------------

  /** The switch-barber dialog and the (service, barber) pair it is about. */
  datatype SwitchDialog = SwitchDialog(open: bool, pendingService: Option<Service>, pendingBarber: Option<TeamMember>)

  const CLOSED: SwitchDialog := SwitchDialog(false, None, None)

  /**
   * Confirming a switch as the source does it: `clearCart()` and then an `addItem` whose
   * checks still see the cart from before the clear, whose state updates land on the cleared
   * cart.
   */
  function ConfirmAsWritten(s: CartState, service: Service, barber: TeamMember): CartState
  {
    if LockedToOther(s, barber) || ContainsService(s.items, service.id) then Empty
    else CartState(Empty.items + [CartItem(service, barber)], Some(barber))
  }

  /** Confirming a switch as intended: clear the cart, then add the pending pair to it. */
  function ConfirmCorrected(s: CartState, service: Service, barber: TeamMember): CartState
  {
    AddTransition(ClearTransition(s), service, barber).0
  }

  /**
   * Whenever the dialog is open the cart is locked to another barber; confirming as written
   * then leaves the cart empty, while the intended outcome holds just the pending service.
   */
  lemma SwitchDiscrepancy(s: CartState, service: Service, barber: TeamMember)
    requires LockedToOther(s, barber)
    ensures ConfirmAsWritten(s, service, barber) == Empty
    ensures ConfirmCorrected(s, service, barber) == CartState([CartItem(service, barber)], Some(barber))
    ensures ConfirmAsWritten(s, service, barber) != ConfirmCorrected(s, service, barber)
  {
  }

  /** Confirming always leaves a consistent cart that holds exactly the pending service. */
  lemma ConfirmCorrectedSpec(s: CartState, service: Service, barber: TeamMember)
    ensures ConfirmCorrected(s, service, barber) == CartState([CartItem(service, barber)], Some(barber))
    ensures Consistent(ConfirmCorrected(s, service, barber))
  {
    var t := ConfirmCorrected(s, service, barber);
    assert t.items == [CartItem(service, barber)];
  }

  // ---------------------------------------------------------------------------------------
  // The page
  // ---------------------------------------------------------------------------------------

  /** The selector's state next to the shared cart. */
  class SelectorPage {
    const cart: Cart
    var barberServices: seq<BarberWithServices>
    var isLoading: bool
    var error: Option<string>
    var expandedBarber: Option<string>
    var dialog: SwitchDialog

    /** The cart is consistent, and an open dialog carries its pending pair while a closed one carries none. */
    predicate Valid()
      reads this, cart
    {
      && cart.Valid()
      && (dialog.open ==> dialog.pendingService.Some? && dialog.pendingBarber.Some?)
      && (!dialog.open ==> dialog == CLOSED)
    }

    constructor(cart: Cart)
      requires cart.Valid()
      ensures this.cart == cart && Valid()
      ensures barberServices == [] && isLoading && error.None? && expandedBarber.None? && dialog == CLOSED
    {
      this.cart := cart;
      barberServices := [];
      isLoading := true;
      error := None;
      expandedBarber := None;
      dialog := CLOSED;
    }

    /**
     * `fetchData`, given what the two fetches produced (`None` when one of them threw): the
     * joined and sorted barber list, or the load error.
     */
    method LoadData(fetched: Option<(seq<TeamMember>, seq<Service>)>)
      requires Valid()
      modifies this
      ensures Valid() && !isLoading && dialog == old(dialog)
      ensures fetched.None? ==>
        error == Some(LOAD_ERROR) && barberServices == old(barberServices) && expandedBarber == old(expandedBarber)
      ensures fetched.Some? ==>
        && error.None?
        && barberServices == SelectorEntries(fetched.value.0, fetched.value.1)
        && expandedBarber == AutoExpand(barberServices, old(expandedBarber))
    {
      isLoading := true;
      error := None;
      if fetched.None? {
        error := Some(LOAD_ERROR);
      } else {
        var entries := JoinBarberServices(fetched.value.0, fetched.value.1);
        barberServices := entries;
        expandedBarber := AutoExpand(entries, expandedBarber);
      }
      isLoading := false;
    }

    /**
     * `handleServiceClick`: a selected service is removed; any other is added, and a refusal
     * (the cart is locked to another barber) opens the dialog with the pending pair.
     */
    method HandleServiceClick(service: Service, barber: TeamMember)
      requires Valid()
      modifies this, cart
      ensures Valid()
      ensures barberServices == old(barberServices) && expandedBarber == old(expandedBarber)
      ensures old(cart.IsServiceSelected(service.id)) ==>
        cart.State() == RemoveTransition(old(cart.State()), service.id) && dialog == old(dialog)
      ensures !old(cart.IsServiceSelected(service.id)) ==>
        cart.State() == AddTransition(old(cart.State()), service, barber).0
      ensures !old(cart.IsServiceSelected(service.id)) ==>
        if LockedToOther(old(cart.State()), barber)
        then dialog == SwitchDialog(true, Some(service), Some(barber)) && cart.State() == old(cart.State())
        else dialog == old(dialog)
    {
      if cart.IsServiceSelected(service.id) {
        cart.RemoveItem(service.id);
        return;
      }
      AddOutcome(cart.State(), service, barber);
      var success := cart.AddItem(service, barber);
      if !success {
        dialog := SwitchDialog(true, Some(service), Some(barber));
      }
    }

    /** `handleConfirmSwitchBarber` with the intended order: clear the cart, then add the pending pair. */
    method HandleConfirmSwitchBarber()
      requires Valid()
      modifies this, cart
      ensures Valid() && dialog == CLOSED
      ensures barberServices == old(barberServices) && expandedBarber == old(expandedBarber)
      ensures old(dialog.open) ==>
        cart.State() == ConfirmCorrected(old(cart.State()), old(dialog.pendingService.value), old(dialog.pendingBarber.value))
      ensures !old(dialog.open) ==> cart.State() == old(cart.State())
    {
      if dialog.pendingService.Some? && dialog.pendingBarber.Some? {
        cart.ClearCart();
        var _ := cart.AddItem(dialog.pendingService.value, dialog.pendingBarber.value);
      }
      dialog := CLOSED;
    }

    /** `handleCancelSwitchBarber`: close the dialog and forget the pair; the cart is untouched. */
    method HandleCancelSwitchBarber()
      requires Valid()
      modifies this
      ensures Valid() && dialog == CLOSED
      ensures barberServices == old(barberServices) && expandedBarber == old(expandedBarber)
    {
      dialog := CLOSED;
    }

    /** `toggleBarberServices`. */
    method ToggleBarberServices(barberId: string)
      requires Valid()
      modifies this
      ensures Valid() && dialog == old(dialog) && barberServices == old(barberServices)
      ensures expandedBarber == Toggle(old(expandedBarber), barberId)
    {
      expandedBarber := Toggle(expandedBarber, barberId);
    }
  }
}
