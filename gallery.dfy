/**
 * The gallery showcase: a carousel over a fixed list of barbers, with wrap-around previous and
 * next buttons, direct selection by carousel item or dot, and the shown name in title case.
 */
module Gallery {
  import Text

  /** One gallery entry; the badge and the description text are presentation only. */
  datatype GalleryBarber = GalleryBarber(name: string, image: string, thumbnail: string)

  const GALLERY_BARBERS: seq<GalleryBarber> :=
    [GalleryBarber("CHRISTOS", "/assets/barbers/christos.jpg", "/assets/barbers-gallery/christos.jpg")]

  /** `handleNext`'s update: the last index wraps to 0, any other moves up by one. */
  function Next(i: int, len: int): (r: int)
    requires 0 <= i < len
    ensures 0 <= r < len
    ensures r == (i + 1) % len
  {
    if i == len - 1 then ModOnce(len, len); 0 else ModOnce(i + 1, len); i + 1
  }

  /** `handlePrevious`'s update: 0 wraps to the last index, any other moves down by one. */
  function Prev(i: int, len: int): (r: int)
    requires 0 <= i < len
    ensures 0 <= r < len
    ensures r == (i + len - 1) % len
  {
    if i == 0 then ModOnce(len - 1, len); len - 1 else ModOnce(i + len - 1, len); i - 1
  }

  /** A value below twice the modulus reduces by at most one subtraction. */
  lemma ModOnce(x: int, len: int)
    requires 0 <= x < 2 * len
    ensures x % len == if x < len then x else x - len
  {
  }

  /** Next after previous, and previous after next, return to the original index. */
  lemma NextPrevInverse(i: int, len: int)
    requires 0 <= i < len
    ensures Next(Prev(i, len), len) == i
    ensures Prev(Next(i, len), len) == i
  {
  }

  /** `displayName`: the first character as it is and the rest lower-cased. */
  function DisplayName(name: string): (r: string)
    ensures |r| == |name|
    ensures |name| > 0 ==> r[0] == name[0]
    ensures forall k :: 1 <= k < |name| ==> r[k] == Text.LowerChar(name[k])
  {
    if |name| == 0 then "" else [name[0]] + Text.ToLower(name[1..])
  }

  /** Showing an already shown name changes nothing. */
  lemma DisplayNameIdempotent(name: string)
    ensures DisplayName(DisplayName(name)) == DisplayName(name)
  {
    var r := DisplayName(name);
    var rr := DisplayName(r);
    forall k | 1 <= k < |name|
      ensures rr[k] == r[k]
    {
      Text.LowerCharIdempotent(name[k]);
    }
  }

  /** A name that is all upper-case letters is shown with only its first letter upper-case. */
  lemma UpperNameShown(name: string)
    requires |name| > 0 && forall k :: 0 <= k < |name| ==> 'A' <= name[k] <= 'Z'
    ensures var r := DisplayName(name);
      && 'A' <= r[0] <= 'Z'
      && forall k :: 1 <= k < |r| ==> 'a' <= r[k] <= 'z'
  {
  }

  /** The showcase's selected index over a non-empty list of barbers. */
  class Showcase {
    const barbers: seq<GalleryBarber>
    var selected: int

    predicate Valid()
      reads this
    {
      0 <= selected < |barbers|
    }

    /** The showcase starts on the first barber. */
    constructor(barbers: seq<GalleryBarber>)
      requires |barbers| > 0
      ensures this.barbers == barbers && selected == 0 && Valid()
    {
      this.barbers := barbers;
      selected := 0;
    }

    method HandlePrevious()
      requires Valid()
      modifies this
      ensures Valid() && selected == Prev(old(selected), |barbers|)
    {
      selected := if selected == 0 then |barbers| - 1 else selected - 1;
    }

    method HandleNext()
      requires Valid()
      modifies this
      ensures Valid() && selected == Next(old(selected), |barbers|)
    {
      selected := if selected == |barbers| - 1 then 0 else selected + 1;
    }

    /** A carousel item or a dot selects the barber at its own position. */
    method HandleCarouselItemClick(index: int)
      requires Valid() && 0 <= index < |barbers|
      modifies this
      ensures Valid() && selected == index
    {
      selected := index;
    }

    /** The name the page shows for the selected barber. */
    function CurrentDisplayName(): (r: string)
      requires Valid()
      reads this
      ensures |r| == |barbers[selected].name|
    {
      DisplayName(barbers[selected].name)
    }
  }
}
