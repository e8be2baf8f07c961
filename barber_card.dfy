/**
 * What a barber card derives from a barber and their services: the photo looked up by first
 * name (or the initials placeholder), the initials, the positive price range and the
 * "N service(s)" label. Prices stay in cents; the dollar text is not modelled.
 */
module BarberCard {
  import opened Wrappers
  import opened Entities
  import Text
  import Seqs

  /** Image paths keyed by an upper-case fragment of the first name, in table order. */
  const BARBER_IMAGES: seq<(string, string)> := [("CHRISTOS", "/assets/booking-list/christos.jpg")]

  // ---------------------------------------------------------------------------------------
  // Photo lookup
  // ---------------------------------------------------------------------------------------

  /** The value of the first entry of `table` whose key occurs in `upperName`. */
  function FirstImage(upperName: string, table: seq<(string, string)>): (r: Option<string>)
    ensures r.None? <==> forall k :: 0 <= k < |table| ==> !Text.Contains(upperName, table[k].0)
    ensures r.Some? ==>
      exists k :: 0 <= k < |table| && table[k].1 == r.value && Text.Contains(upperName, table[k].0)
        && forall j :: 0 <= j < k ==> !Text.Contains(upperName, table[j].0)
  {
    if table == [] then None
    else if Text.Contains(upperName, table[0].0) then Some(table[0].1)
    else
      var rest := FirstImage(upperName, table[1..]);
      assert forall k :: 1 <= k < |table| ==> table[k] == table[1..][k - 1];
      rest
  }

  /** `getBarberImage`: the first mapped path whose key occurs in the upper-cased first name. */
  function GetBarberImage(firstName: string): Option<string>
  {
    FirstImage(Text.ToUpper(firstName), BARBER_IMAGES)
  }

  /** Every first name that contains "christos" in any letter case gets that barber's photo. */
  lemma ChristosImage(firstName: string)
    requires Text.Contains(Text.ToUpper(firstName), "CHRISTOS")
    ensures GetBarberImage(firstName) == Some("/assets/booking-list/christos.jpg")
  {
  }

  /** A name whose upper-case form contains no key gets no photo. */
  lemma NoImage(firstName: string)
    requires !Text.Contains(Text.ToUpper(firstName), "CHRISTOS")
    ensures GetBarberImage(firstName).None?
  {
  }

  /** Every path the table can return is non-empty, so a found path always renders. */
  lemma ImagePathsNonEmpty(firstName: string)
    ensures GetBarberImage(firstName).Some? ==> GetBarberImage(firstName).value != ""
  {
  }

  // ---------------------------------------------------------------------------------------
  // Initials
  // ---------------------------------------------------------------------------------------

  /** `s.charAt(0)`: the first character, or the empty string. */
  function CharAt0(s: string): (r: string)
    ensures |r| == if |s| > 0 then 1 else 0
    ensures |s| > 0 ==> r[0] == s[0]
  {
    if |s| > 0 then [s[0]] else ""
  }

  /** `getBarberInitials`: the first characters of both names, upper-cased. */
  function GetBarberInitials(firstName: string, lastName: string): (r: string)
    ensures |r| <= 2
    ensures |r| == (if |firstName| > 0 then 1 else 0) + (if |lastName| > 0 then 1 else 0)
    ensures |firstName| > 0 ==> r[0] == Text.UpperChar(firstName[0])
    ensures |lastName| > 0 ==> r[|r| - 1] == Text.UpperChar(lastName[0])
  {
    Text.ToUpper(CharAt0(firstName) + CharAt0(lastName))
  }

  // ---------------------------------------------------------------------------------------
  // Price range
  // ---------------------------------------------------------------------------------------

  /** The text `extractPriceRange` renders: nothing, `$p`, or `$lo-$hi` (here in cents). */
  datatype PriceRange = NoPrice | Single(price: int) | Span(low: int, high: int)

  function IsPositive(price: int): bool
  {
    price > 0
  }

  /** The services' prices in order, keeping only the positive ones. */
  function PositivePrices(services: seq<Service>): (r: seq<int>)
    ensures forall p :: p in r ==> p > 0 && exists s :: s in services && s.priceAmount == p
    ensures forall s :: s in services && s.priceAmount > 0 ==> s.priceAmount in r
  {
    var prices := seq(|services|, k requires 0 <= k < |services| => services[k].priceAmount);
    assert forall s :: s in services ==> s.priceAmount in prices by {
      forall s | s in services
        ensures s.priceAmount in prices
      {
        var k :| 0 <= k < |services| && services[k] == s;
        assert prices[k] == s.priceAmount;
      }
    }
    Seqs.Filter(prices, IsPositive)
  }

  function MinOf(s: seq<int>): (r: int)
    requires |s| > 0
    ensures r in s && forall x :: x in s ==> r <= x
  {
    if |s| == 1 then s[0]
    else
      var m := MinOf(s[1..]);
      assert forall x :: x in s ==> x == s[0] || x in s[1..];
      if s[0] <= m then s[0] else m
  }

  function MaxOf(s: seq<int>): (r: int)
    requires |s| > 0
    ensures r in s && forall x :: x in s ==> x <= r
  {
    if |s| == 1 then s[0]
    else
      var m := MaxOf(s[1..]);
      assert forall x :: x in s ==> x == s[0] || x in s[1..];
      if s[0] >= m then s[0] else m
  }

  /**
   * `extractPriceRange`: no positive price gives nothing; otherwise the smallest and largest
   * positive prices, collapsed to one value when they are equal.
   */
  function ExtractPriceRange(services: seq<Service>): (r: PriceRange)
    ensures r == NoPrice <==> forall s :: s in services ==> s.priceAmount <= 0
    ensures r.Single? ==>
      && r.price > 0
      && (exists s :: s in services && s.priceAmount == r.price)
      && forall s :: s in services && s.priceAmount > 0 ==> s.priceAmount == r.price
    ensures r.Span? ==>
      && 0 < r.low < r.high
      && (exists s :: s in services && s.priceAmount == r.low)
      && (exists s :: s in services && s.priceAmount == r.high)
      && forall s :: s in services && s.priceAmount > 0 ==> r.low <= s.priceAmount <= r.high
  {
    var prices := PositivePrices(services);
    if |prices| == 0 then
      NoPrice
    else
      var lo := MinOf(prices);
      var hi := MaxOf(prices);
      if lo == hi then Single(lo) else Span(lo, hi)
  }

  // ---------------------------------------------------------------------------------------
  // The card
  // ---------------------------------------------------------------------------------------

  /** `{services.length} service{services.length !== 1 ? "s" : ""}`. */
  function ServiceLabel(count: int): (r: string)
    ensures r == "service" <==> count == 1
    ensures count != 1 ==> r == "services"
  {
    "service" + (if count != 1 then "s" else "")
  }

  /** What fills the top of the card: the photo, or the initials on a placeholder. */
  datatype Picture = Photo(path: string) | Placeholder(initials: string)

  /** A found (truthy) image path shows the photo; anything else shows the initials. */
  function CardPicture(barber: TeamMember): (r: Picture)
    ensures r.Placeholder? ==> r.initials == GetBarberInitials(barber.firstName, barber.lastName)
    ensures r.Photo? ==> GetBarberImage(barber.firstName) == Some(r.path)
  {
    var imagePath := GetBarberImage(barber.firstName);
    if imagePath.Some? && imagePath.value != "" then Photo(imagePath.value)
    else Placeholder(GetBarberInitials(barber.firstName, barber.lastName))
  }

  /** The placeholder is shown exactly when no image path is found. */
  lemma PlaceholderIffNoImage(barber: TeamMember)
    ensures CardPicture(barber).Placeholder? <==> GetBarberImage(barber.firstName).None?
  {
    ImagePathsNonEmpty(barber.firstName);
  }
}
