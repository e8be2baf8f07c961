/**
 * The services route: it lists the provider's catalogue objects of type `ITEM` and emits one
 * service per item variation that carries variation data, numbering the services 1, 2, 3, …
 * in emission order and filling every missing field with its default. The provider's catalogue
 * listing and team search are parameters of the model.
 */
module CatalogRoute {
  import opened Wrappers
  import opened Entities
  import opened ProviderErrors
  import Seqs

  const DEFAULT_CURRENCY: string := "AUD"
  const DEFAULT_DURATION: int := 30
  const MINUTE_MS: int := 60000
  const FETCH_FAILED: string := "Failed to fetch services"

  // ---------------------------------------------------------------------------------------
  // Catalogue objects as the provider reports them
  // ---------------------------------------------------------------------------------------

  datatype Money = Money(amount: Option<int>, currency: Option<string>)

  datatype VariationData = VariationData(
    name: Option<string>,
    priceMoney: Option<Money>,
    serviceDuration: Option<int>)

  datatype Variation = Variation(id: Option<string>, itemVariationData: Option<VariationData>)

  datatype ItemData = ItemData(
    name: Option<string>,
    description: Option<string>,
    variations: Option<seq<Variation>>)

  datatype CatalogObject = CatalogObject(objectType: string, id: Option<string>, itemData: Option<ItemData>)

  /** The outcome of the team search; the route only logs its failure. */
  datatype TeamSearch = TeamFound(memberIds: seq<Option<string>>) | TeamFailed

  /** The route's answer: 200 with the services, or 500 with a message and no data. */
  datatype ServicesResponse = Listed(services: seq<Service>) | Failed(message: string)
  {
    function Status(): int
    {
      if Listed? then 200 else 500
    }

    function Data(): seq<Service>
    {
      if Listed? then services else []
    }
  }

  // ---------------------------------------------------------------------------------------
  // Which variations become services
  // ---------------------------------------------------------------------------------------

  /** Where one emitted service comes from: the item, its data, the variation and its data. */
  datatype Source = Source(item: CatalogObject, data: ItemData, variation: Variation, varData: VariationData)

  /** An `ITEM` object with item data and a variations list: the only objects that yield services. */
  predicate IsServiceItem(o: CatalogObject)
  {
    o.objectType == "ITEM" && o.itemData.Some? && o.itemData.value.variations.Some?
  }

  /** The sources of the variations `vs` of one item, skipping variations without data. */
  function VariationSources(item: CatalogObject, data: ItemData, vs: seq<Variation>): (r: seq<Source>)
    ensures |r| <= |vs|
  {
    if vs == [] then []
    else
      var last := vs[|vs| - 1];
      VariationSources(item, data, vs[..|vs| - 1])
      + (if last.itemVariationData.Some? then [Source(item, data, last, last.itemVariationData.value)] else [])
  }

  function ObjectSources(o: CatalogObject): seq<Source>
  {
    if IsServiceItem(o) then VariationSources(o, o.itemData.value, o.itemData.value.variations.value) else []
  }

  /** Every emitted source, in the order the nested loops visit them. */
  function Emitted(objects: seq<CatalogObject>): seq<Source>
  {
    if objects == [] then [] else Emitted(objects[..|objects| - 1]) + ObjectSources(objects[|objects| - 1])
  }

  /** A source that some variation of `o` yields. */
  predicate ComesFrom(src: Source, o: CatalogObject)
  {
    && IsServiceItem(o)
    && src.item == o
    && src.data == o.itemData.value
    && src.variation in o.itemData.value.variations.value
    && src.variation.itemVariationData == Some(src.varData)
  }

  // ---------------------------------------------------------------------------------------
  // One service per source
  // ---------------------------------------------------------------------------------------

  /** `priceMoney?.amount || 0`. */
  function PriceAmount(v: VariationData): int
  {
    if v.priceMoney.Some? && v.priceMoney.value.amount.Some? then v.priceMoney.value.amount.value else 0
  }

  /** `priceMoney?.currency || "AUD"`: an empty currency falls back too. */
  function PriceCurrency(v: VariationData): (r: string)
    ensures r != ""
  {
    if v.priceMoney.Some? && v.priceMoney.value.currency.Some? && v.priceMoney.value.currency.value != ""
    then v.priceMoney.value.currency.value
    else DEFAULT_CURRENCY
  }

  /** `serviceDuration ? serviceDuration / 60000 : 30`; a zero duration is falsy and gives 30. */
  function DurationOf(v: VariationData): int
  {
    if v.serviceDuration.Some? && v.serviceDuration.value != 0 then v.serviceDuration.value / MINUTE_MS
    else DEFAULT_DURATION
  }

  /** The service the route pushes for `src` under `id`. */
  function ToService(src: Source, id: int): (r: Service)
    ensures r.id == id
    ensures r.teamMembers == [] && r.isAvailable && r.barberPrice.None?
    ensures src.varData.priceMoney.None? ==> r.priceAmount == 0 && r.priceCurrency == DEFAULT_CURRENCY
    ensures src.varData.priceMoney.Some? && src.varData.priceMoney.value.amount.Some?
            ==> r.priceAmount == src.varData.priceMoney.value.amount.value
    ensures src.varData.priceMoney.Some? && src.varData.priceMoney.value.currency.Some?
            && src.varData.priceMoney.value.currency.value != ""
            ==> r.priceCurrency == src.varData.priceMoney.value.currency.value
    ensures (src.varData.serviceDuration.None? || src.varData.serviceDuration == Some(0)) ==> r.duration == DEFAULT_DURATION
    ensures src.varData.serviceDuration.Some? && src.varData.serviceDuration.value > 0
            ==> r.duration * MINUTE_MS <= src.varData.serviceDuration.value < (r.duration + 1) * MINUTE_MS
    ensures r.serviceVariationId == src.variation.id.GetOr("") && r.squareCatalogId == src.item.id.GetOr("")
    ensures r.name == src.data.name.GetOr("") && r.description == src.data.description.GetOr("")
    ensures r.variationName == src.varData.name.GetOr("")
  {
    Service(
      id,
      src.data.name.GetOr(""),
      src.data.description.GetOr(""),
      PriceAmount(src.varData),
      PriceCurrency(src.varData),
      DurationOf(src.varData),
      src.variation.id.GetOr(""),
      src.item.id.GetOr(""),
      src.varData.name.GetOr(""),
      true,
      [],
      None)
  }

  /** The services for `sources`, numbered from 1 in order. */
  function Numbered(sources: seq<Source>): (r: seq<Service>)
    ensures |r| == |sources|
    ensures forall k :: 0 <= k < |r| ==> r[k] == ToService(sources[k], k + 1)
  {
    seq(|sources|, k requires 0 <= k < |sources| => ToService(sources[k], k + 1))
  }

  /** The services the route lists for a catalogue. */
  function Catalog(objects: seq<CatalogObject>): seq<Service>
  {
    Numbered(Emitted(objects))
  }

  // ---------------------------------------------------------------------------------------
  // Facts about emission
  // ---------------------------------------------------------------------------------------

  lemma NumberedSnoc(sources: seq<Source>, src: Source)
    ensures Numbered(sources + [src]) == Numbered(sources) + [ToService(src, |sources| + 1)]
  {
    var l := Numbered(sources + [src]);
    var r := Numbered(sources) + [ToService(src, |sources| + 1)];
    assert |l| == |r|;
    forall k | 0 <= k < |l|
      ensures l[k] == r[k]
    {
      if k < |sources| {
        assert (sources + [src])[k] == sources[k];
      }
    }
  }

  /** The catalogue of a concatenation is the concatenation of the two catalogues' sources. */
  lemma {:induction false} EmittedAppend(a: seq<CatalogObject>, b: seq<CatalogObject>)
    ensures Emitted(a + b) == Emitted(a) + Emitted(b)
  {
    if b == [] {
      assert a + b == a;
    } else {
      assert (a + b)[..|a + b| - 1] == a + b[..|b| - 1];
      EmittedAppend(a, b[..|b| - 1]);
      assert Emitted(b) == Emitted(b[..|b| - 1]) + ObjectSources(b[|b| - 1]);
    }
  }

  /** Exactly one source per variation with data, in variation order. */
  lemma {:induction false} VariationSourcesSpec(item: CatalogObject, data: ItemData, vs: seq<Variation>)
    ensures |VariationSources(item, data, vs)| == |Seqs.Filter(vs, HasData)|
    ensures forall src :: src in VariationSources(item, data, vs) <==>
      src.item == item && src.data == data && src.variation in vs && src.variation.itemVariationData == Some(src.varData)
  {
    if vs != [] {
      var init := vs[..|vs| - 1];
      var last := vs[|vs| - 1];
      VariationSourcesSpec(item, data, init);
      assert vs == init + [last];
      Seqs.FilterAppend(init, [last], HasData);
      assert Seqs.Filter([last], HasData) == if HasData(last) then [last] else [] by {
        assert [last][1..] == [];
      }
    }
  }

  function HasData(v: Variation): bool
  {
    v.itemVariationData.Some?
  }

  /** The sources one object yields are exactly those that come from it. */
  lemma ObjectSourcesMembers(o: CatalogObject, src: Source)
    ensures src in ObjectSources(o) <==> ComesFrom(src, o)
  {
    if IsServiceItem(o) {
      VariationSourcesSpec(o, o.itemData.value, o.itemData.value.variations.value);
    }
  }

  /** A source is emitted exactly when one of the listed objects yields it. */
  lemma {:induction false} EmittedMembers(objects: seq<CatalogObject>, src: Source)
    ensures src in Emitted(objects) <==> exists i :: 0 <= i < |objects| && ComesFrom(src, objects[i])
  {
    if objects != [] {
      var init := objects[..|objects| - 1];
      var last := objects[|objects| - 1];
      EmittedMembers(init, src);
      ObjectSourcesMembers(last, src);
      assert forall i :: 0 <= i < |init| ==> init[i] == objects[i];
    }
  }

  /** Objects that are not service items yield nothing. */
  lemma NonItemsYieldNothing(objects: seq<CatalogObject>, o: CatalogObject)
    requires !IsServiceItem(o)
    ensures Emitted(objects + [o]) == Emitted(objects)
  {
    assert (objects + [o])[..|objects + [o]| - 1] == objects;
  }

  // ---------------------------------------------------------------------------------------
  // The route
  // ---------------------------------------------------------------------------------------

  /** The inner loop: push one numbered service per variation of `o` that has data. */
  method PushVariations(ghost done: seq<Source>, services: seq<Service>, serviceId: int, o: CatalogObject)
      returns (r: seq<Service>, nextId: int)
    requires IsServiceItem(o)
    requires services == Numbered(done) && serviceId == |done| + 1
    ensures r == Numbered(done + ObjectSources(o)) && nextId == |r| + 1
  {
    var data := o.itemData.value;
    var vs := data.variations.value;
    r, nextId := services, serviceId;
    for j := 0 to |vs|
      invariant r == Numbered(done + VariationSources(o, data, vs[..j]))
      invariant nextId == |r| + 1
    {
      var variation := vs[j];
      ghost var before := done + VariationSources(o, data, vs[..j]);
      assert vs[..j + 1][..j] == vs[..j];
      if variation.itemVariationData.Some? {
        var src := Source(o, data, variation, variation.itemVariationData.value);
        NumberedSnoc(before, src);
        assert before + [src] == done + VariationSources(o, data, vs[..j + 1]);
        r := r + [ToService(src, nextId)];
        nextId := nextId + 1;
      } else {
        assert before == done + VariationSources(o, data, vs[..j + 1]);
      }
    }
    assert vs[..|vs|] == vs;
  }

  /** The nested loops of the route: the services of every listed object, numbered in order. */
  method ListServices(objects: seq<CatalogObject>) returns (services: seq<Service>)
    ensures services == Catalog(objects)
  {
    services := [];
    var serviceId := 1;
    for i := 0 to |objects|
      invariant services == Numbered(Emitted(objects[..i]))
      invariant serviceId == |services| + 1
    {
      var o := objects[i];
      assert objects[..i + 1][..i] == objects[..i];
      if IsServiceItem(o) {
        services, serviceId := PushVariations(Emitted(objects[..i]), services, serviceId, o);
      } else {
        assert Emitted(objects[..i + 1]) == Emitted(objects[..i]);
      }
    }
    assert objects[..|objects|] == objects;
  }

  /**
   * `GET`: a catalogue listing that throws gives 500 with the first error's detail or the
   * fallback; otherwise the listed services, whatever the team search does.
   */
  method Get(listing: Result<Option<seq<CatalogObject>>, Option<seq<ErrorDetail>>>, team: TeamSearch)
      returns (response: ServicesResponse)
    ensures listing.Err? ==> response == Failed(ErrorMessage(listing.error, FETCH_FAILED))
    ensures listing.Ok? ==> response == Listed(Catalog(listing.value.GetOr([])))
  {
    if listing.Err? {
      return Failed(ErrorMessage(listing.error, FETCH_FAILED));
    }
    var services := ListServices(listing.value.GetOr([]));
    // The booking-profile lookups per team member are disabled, so the team search leaves
    // `services` as it is whether it succeeds or fails.
    return Listed(services);
  }

  /** The numbering runs 1, 2, 3, … and each number belongs to the source at that position. */
  lemma CatalogIds(objects: seq<CatalogObject>)
    ensures |Catalog(objects)| == |Emitted(objects)|
    ensures forall k :: 0 <= k < |Catalog(objects)| ==> Catalog(objects)[k].id == k + 1
    ensures forall k, l :: 0 <= k < l < |Catalog(objects)| ==> Catalog(objects)[k].id < Catalog(objects)[l].id
  {
  }

  /** A failed response always carries status 500 and no data, with a non-empty message. */
  lemma FailedResponse(errors: Option<seq<ErrorDetail>>)
    ensures var r := Failed(ErrorMessage(errors, FETCH_FAILED));
      r.Status() == 500 && r.Data() == [] && r.message != ""
  {
  }
}
