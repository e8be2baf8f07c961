/**
 * The booking cart: an ordered list of (service, barber) items and the barber the cart is
 * locked to. Adding a service for a different barber is refused, adding a service twice is a
 * no-op, and removing the last item unlocks the barber.
 */
module BookingCart {
  import opened Wrappers
  import opened Entities
  import Seqs
  import Sorting
  import ServiceUtils

  datatype CartItem = CartItem(service: Service, barber: TeamMember)

  /** The two state cells of the cart provider. */
  datatype CartState = CartState(items: seq<CartItem>, selectedBarber: Option<TeamMember>)

  const Empty: CartState := CartState([], None)

  function ItemServiceId(item: CartItem): int
  {
    item.service.id
  }

  /** `items.some((item) => item.service.id === serviceId)`. */
  function ContainsService(items: seq<CartItem>, serviceId: int): (r: bool)
    ensures r <==> exists k :: 0 <= k < |items| && items[k].service.id == serviceId
  {
    if items == [] then false
    else items[0].service.id == serviceId || ContainsService(items[1..], serviceId)
  }

  /**
   * The cart invariant: the barber is unset exactly when the cart is empty, every item was
   * added for a barber with the locked `square_up_id`, and no service occurs twice.
   */
  predicate Consistent(s: CartState)
  {
    && (s.selectedBarber.None? <==> s.items == [])
    && (s.selectedBarber.Some? ==>
          forall k :: 0 <= k < |s.items| ==> s.items[k].barber.squareUpId == s.selectedBarber.value.squareUpId)
    && Sorting.DistinctBy(s.items, ItemServiceId)
  }

  /** The cart locked to a barber whose `square_up_id` differs from `barber`'s. */
  predicate LockedToOther(s: CartState, barber: TeamMember)
  {
    s.selectedBarber.Some? && s.selectedBarber.value.squareUpId != barber.squareUpId
  }

  /** `addItem`: the new state and the returned flag. */
  function AddTransition(s: CartState, service: Service, barber: TeamMember): (CartState, bool)
  {
    if LockedToOther(s, barber) then (s, false)
    else if ContainsService(s.items, service.id) then (s, true)
    else (CartState(s.items + [CartItem(service, barber)], Some(barber)), true)
  }

  function KeepOtherServices(serviceId: int): CartItem -> bool
  {
    (item: CartItem) => item.service.id != serviceId
  }

  /** `removeItem`: drop every item for the service; an emptied cart forgets its barber. */
  function RemoveTransition(s: CartState, serviceId: int): CartState
  {
    var rest := Seqs.Filter(s.items, KeepOtherServices(serviceId));
    CartState(rest, if rest == [] then None else s.selectedBarber)
  }

  /** `clearCart`. */
  function ClearTransition(s: CartState): CartState
  {
    Empty
  }

  /** The three ways of changing the cart. */
  datatype CartOp = Add(service: Service, barber: TeamMember) | Remove(serviceId: int) | Clear

  function Apply(s: CartState, op: CartOp): CartState
  {
    match op
    case Add(service, barber) => AddTransition(s, service, barber).0
    case Remove(id) => RemoveTransition(s, id)
    case Clear => ClearTransition(s)
  }

  /** The state after the operations `ops`, applied one after another. */
  function Run(s: CartState, ops: seq<CartOp>): CartState
  {
    if ops == [] then s else Apply(Run(s, ops[..|ops| - 1]), ops[|ops| - 1])
  }

  /**
   * `addItem` refuses (returning false, changing nothing) exactly when the cart is locked to
   * another barber; a service already in the cart is accepted without change; any other
   * service is appended with its barber, which becomes the locked one.
   */
  lemma AddOutcome(s: CartState, service: Service, barber: TeamMember)
    ensures var (t, ok) := AddTransition(s, service, barber);
      && (!ok <==> LockedToOther(s, barber))
      && (!ok ==> t == s)
      && (ok && ContainsService(s.items, service.id) ==> t == s)
      && (ok && !ContainsService(s.items, service.id) ==>
            t.items == s.items + [CartItem(service, barber)] && t.selectedBarber == Some(barber))
  {
  }

  lemma AddPreservesConsistent(s: CartState, service: Service, barber: TeamMember)
    requires Consistent(s)
    ensures Consistent(AddTransition(s, service, barber).0)
  {
    var (t, ok) := AddTransition(s, service, barber);
    if ok && !ContainsService(s.items, service.id) {
      var item := CartItem(service, barber);
      assert t.items == s.items + [item];
      forall i, j | 0 <= i < j < |t.items|
        ensures t.items[i].service.id != t.items[j].service.id
      {
        if j == |s.items| {
          assert t.items[i] == s.items[i];
        } else {
          assert t.items[i] == s.items[i] && t.items[j] == s.items[j];
        }
      }
    }
  }

  /** Adding the same (service, barber) a second time changes nothing and reports the same flag. */
  lemma AddIdempotent(s: CartState, service: Service, barber: TeamMember)
    requires Consistent(s)
    ensures var once := AddTransition(s, service, barber);
      AddTransition(once.0, service, barber) == (once.0, once.1)
  {
    var (t, ok) := AddTransition(s, service, barber);
    if ok && !ContainsService(s.items, service.id) {
      assert t.items[|t.items| - 1].service.id == service.id;
    }
  }

  /**
   * `removeItem` keeps exactly the items for other services, in their order, and unlocks the
   * barber exactly when nothing is left.
   */
  lemma RemoveOutcome(s: CartState, serviceId: int)
    ensures var t := RemoveTransition(s, serviceId);
      && (forall item :: item in t.items <==> item in s.items && item.service.id != serviceId)
      && (exists idx ::
            && |idx| == |t.items|
            && Seqs.Increasing(idx, |s.items|)
            && forall i :: 0 <= i < |idx| ==> t.items[i] == s.items[idx[i]])
      && !ContainsService(t.items, serviceId)
      && (t.selectedBarber.None? <==> t.items == [] || s.selectedBarber.None?)
      && (t.items != [] ==> t.selectedBarber == s.selectedBarber)
  {
    Seqs.FilterInOrder(s.items, KeepOtherServices(serviceId));
  }

  lemma RemovePreservesConsistent(s: CartState, serviceId: int)
    requires Consistent(s)
    ensures Consistent(RemoveTransition(s, serviceId))
  {
    var t := RemoveTransition(s, serviceId);
    Sorting.FilterDistinct(s.items, KeepOtherServices(serviceId), ItemServiceId);
    if t.selectedBarber.Some? {
      forall k | 0 <= k < |t.items|
        ensures t.items[k].barber.squareUpId == t.selectedBarber.value.squareUpId
      {
        assert t.items[k] in s.items;
      }
    }
  }

  /** Removing a service that was just added for a fresh service restores the previous items. */
  lemma RemoveUndoesAdd(s: CartState, service: Service, barber: TeamMember)
    requires Consistent(s)
    requires AddTransition(s, service, barber).1 && !ContainsService(s.items, service.id)
    ensures RemoveTransition(AddTransition(s, service, barber).0, service.id).items == s.items
  {
    var item := CartItem(service, barber);
    Seqs.FilterAppend(s.items, [item], KeepOtherServices(service.id));
    Seqs.FilterAll(s.items, KeepOtherServices(service.id));
    assert Seqs.Filter([item], KeepOtherServices(service.id)) == [];
  }

  lemma ClearOutcome(s: CartState)
    ensures ClearTransition(s).items == [] && ClearTransition(s).selectedBarber.None?
    ensures Consistent(ClearTransition(s))
  {
  }

  lemma ApplyPreservesConsistent(s: CartState, op: CartOp)
    requires Consistent(s)
    ensures Consistent(Apply(s, op))
  {
    match op
    case Add(service, barber) => AddPreservesConsistent(s, service, barber);
    case Remove(id) => RemovePreservesConsistent(s, id);
    case Clear =>
  }

  /** Any sequence of add/remove/clear calls starting from a consistent cart keeps it consistent. */
  lemma {:induction false} RunPreservesConsistent(s: CartState, ops: seq<CartOp>)
    requires Consistent(s)
    ensures Consistent(Run(s, ops))
  {
    if ops != [] {
      RunPreservesConsistent(s, ops[..|ops| - 1]);
      ApplyPreservesConsistent(Run(s, ops[..|ops| - 1]), ops[|ops| - 1]);
    }
  }

  /** The services in the cart, in cart order. */
  function ServicesOf(items: seq<CartItem>): (r: seq<Service>)
    ensures |r| == |items| && forall k :: 0 <= k < |items| ==> r[k] == items[k].service
  {
    seq(|items|, k requires 0 <= k < |items| => items[k].service)
  }

  function ItemPrice(item: CartItem): int
  {
    item.service.priceAmount
  }

  /** `getTotalPrice`: the base prices summed; barber overrides play no part. */
  function TotalPrice(items: seq<CartItem>): int
  {
    Seqs.SumOf(items, ItemPrice)
  }

  function ItemMinutes(item: CartItem): int
  {
    ServiceUtils.DurationMinutes(item.service.duration)
  }

  /** `getTotalDuration`: every item's duration in minutes, summed. */
  function TotalDuration(items: seq<CartItem>): int
  {
    Seqs.SumOf(items, ItemMinutes)
  }

  /** The cart's price total is the base price of every service in it, added up; 0 when empty. */
  lemma TotalPriceAppend(items: seq<CartItem>, more: seq<CartItem>)
    ensures TotalPrice([]) == 0
    ensures TotalPrice(items + more) == TotalPrice(items) + TotalPrice(more)
  {
    Seqs.SumAppend(items, more, ItemPrice);
  }

  /** Changing any service's barber override leaves the cart's price total as it was. */
  lemma TotalPriceIgnoresOverride(items: seq<CartItem>, k: nat, price: Option<int>)
    requires k < |items|
    ensures TotalPrice(items[k := items[k].(service := items[k].service.(barberPrice := price))])
         == TotalPrice(items)
  {
    Seqs.SumUpdate(items, k, items[k].(service := items[k].service.(barberPrice := price)), ItemPrice);
  }

  /** With no overrides in the cart, its total agrees with the catalogue's effective-price total. */
  lemma {:induction false} TotalPriceWithoutOverrides(items: seq<CartItem>)
    requires forall k :: 0 <= k < |items| ==> items[k].service.barberPrice.None?
    ensures TotalPrice(items) == ServiceUtils.CalculateTotalPrice(ServicesOf(items))
  {
    if items != [] {
      var init := items[..|items| - 1];
      assert ServicesOf(items)[..|items| - 1] == ServicesOf(init);
      TotalPriceWithoutOverrides(init);
    }
  }

  /** The cart total is the catalogue total of its services whenever no item carries an override. */
  lemma TotalPriceBase(items: seq<CartItem>)
    ensures items == [] ==> TotalPrice(items) == 0
    ensures (forall k :: 0 <= k < |items| ==> items[k].service.barberPrice.None?) ==>
              TotalPrice(items) == ServiceUtils.CalculateTotalPrice(ServicesOf(items))
  {
    if forall k :: 0 <= k < |items| ==> items[k].service.barberPrice.None? {
      TotalPriceWithoutOverrides(items);
    }
  }

  /** The cart's duration total agrees with the catalogue's duration total of its services. */
  lemma {:induction false} TotalDurationAgrees(items: seq<CartItem>)
    ensures TotalDuration(items) == ServiceUtils.CalculateTotalDuration(ServicesOf(items))
  {
    if items != [] {
      var init := items[..|items| - 1];
      assert ServicesOf(items)[..|items| - 1] == ServicesOf(init);
      TotalDurationAgrees(init);
    }
  }

  /** The cart provider: the two state cells and the operations that replace them. */
  class Cart {
    var items: seq<CartItem>
    var selectedBarber: Option<TeamMember>

    function State(): CartState
      reads this
    {
      CartState(items, selectedBarber)
    }

    predicate Valid()
      reads this
    {
      Consistent(State())
    }

    constructor()
      ensures State() == Empty && Valid()
    {
      items := [];
      selectedBarber := None;
    }

    method AddItem(service: Service, barber: TeamMember) returns (ok: bool)
      requires Valid()
      modifies this
      ensures Valid()
      ensures (State(), ok) == AddTransition(old(State()), service, barber)
    {
      AddPreservesConsistent(State(), service, barber);
      if selectedBarber.Some? && selectedBarber.value.squareUpId != barber.squareUpId {
        return false;
      }
      if ContainsService(items, service.id) {
        return true;
      }
      items := items + [CartItem(service, barber)];
      selectedBarber := Some(barber);
      return true;
    }

    method RemoveItem(serviceId: int)
      requires Valid()
      modifies this
      ensures Valid()
      ensures State() == RemoveTransition(old(State()), serviceId)
    {
      RemovePreservesConsistent(State(), serviceId);
      var newItems := Seqs.Filter(items, KeepOtherServices(serviceId));
      if |newItems| == 0 {
        selectedBarber := None;
      }
      items := newItems;
    }

    method ClearCart()
      modifies this
      ensures Valid()
      ensures State() == ClearTransition(old(State()))
    {
      items := [];
      selectedBarber := None;
    }

    /** `isServiceSelected`: some item carries the service id. */
    function IsServiceSelected(serviceId: int): (r: bool)
      reads this
      ensures r <==> exists k :: 0 <= k < |items| && items[k].service.id == serviceId
    {
      ContainsService(items, serviceId)
    }

    /** `getTotalPrice`: 0 for an empty cart; the catalogue total when no item has an override. */
    function GetTotalPrice(): (r: int)
      reads this
      ensures items == [] ==> r == 0
      ensures (forall k :: 0 <= k < |items| ==> items[k].service.barberPrice.None?) ==>
                r == ServiceUtils.CalculateTotalPrice(ServicesOf(items))
    {
      TotalPriceBase(items);
      TotalPrice(items)
    }

    /** `getTotalDuration`: the catalogue's duration total of the cart's services. */
    function GetTotalDuration(): (r: int)
      reads this
      ensures r == ServiceUtils.CalculateTotalDuration(ServicesOf(items))
    {
      TotalDurationAgrees(items);
      TotalDuration(items)
    }
  }
}
