/** The restaurant card: the cuisine line under the name, the Sponsored badge and the
    click and Enter-key handlers that report the card's id. */
module Card {
  import opened Optional

  /** The separator between shown cuisines. */
  const Separator: string := " • "
  /** How many cuisines the card shows at most. */
  const MaxShown: nat := 3

  /** The parts laid end to end with `sep` between each two neighbours (none before the
      first or after the last). */
  function Join(parts: seq<string>, sep: string): (r: string)
    ensures parts == [] ==> r == ""
    ensures |parts| == 1 ==> r == parts[0]
  {
    if |parts| == 0 then ""
    else if |parts| == 1 then parts[0]
    else parts[0] + sep + Join(parts[1..], sep)
  }

  /** Joining two non-empty lists puts exactly one separator between their joins. */
  lemma {:induction false} JoinAppend(a: seq<string>, b: seq<string>, sep: string)
    requires a != [] && b != []
    ensures Join(a + b, sep) == Join(a, sep) + sep + Join(b, sep)
  {
    if |a| == 1 {
      assert (a + b)[1..] == b;
    } else {
      assert (a + b)[1..] == a[1..] + b;
      JoinAppend(a[1..], b, sep);
    }
  }

  /** Every pair of consecutive parts is separated by `sep`: cutting the list anywhere
      cuts the joined string at one separator. */
  lemma JoinSplitsAt(parts: seq<string>, k: nat, sep: string)
    requires 0 < k < |parts|
    ensures Join(parts, sep) == Join(parts[..k], sep) + sep + Join(parts[k..], sep)
  {
    assert parts == parts[..k] + parts[k..];
    JoinAppend(parts[..k], parts[k..], sep);
  }

  /** The length of a join: the parts plus one separator between each two. */
  lemma {:induction false} JoinLength(parts: seq<string>, sep: string)
    requires parts != []
    ensures |Join(parts, sep)| == TotalLength(parts) + (|parts| - 1) * |sep|
  {
    if |parts| > 1 {
      JoinLength(parts[1..], sep);
    }
  }

  function TotalLength(parts: seq<string>): nat {
    if |parts| == 0 then 0 else |parts[0]| + TotalLength(parts[1..])
  }

  /** `cuisineTypes.slice(0, 3)`: the first three cuisines, in order. */
  function ShownCuisines(cuisineTypes: seq<string>): (r: seq<string>)
    ensures |r| <= MaxShown
    ensures |r| == if |cuisineTypes| < MaxShown then |cuisineTypes| else MaxShown
    ensures r == cuisineTypes[..|r|]
  {
    if |cuisineTypes| <= MaxShown then cuisineTypes else cuisineTypes[..MaxShown]
  }

  /** The cuisine line: the shown cuisines joined by " • ", then "..." when some were cut. */
  function CuisineLabel(cuisineTypes: seq<string>): (r: string)
    ensures cuisineTypes == [] ==> r == ""
    ensures |cuisineTypes| <= MaxShown ==> r == Join(cuisineTypes, Separator)
    ensures |cuisineTypes| > MaxShown ==> r == Join(cuisineTypes[..MaxShown], Separator) + "..."
  {
    Join(ShownCuisines(cuisineTypes), Separator) + (if |cuisineTypes| > MaxShown then "..." else "")
  }

  /** Only the first four cuisines matter: the fourth decides the ellipsis, the rest
      are never looked at. */
  lemma LabelDependsOnFirstFour(cuisineTypes: seq<string>, more: seq<string>)
    requires |cuisineTypes| >= 4
    ensures CuisineLabel(cuisineTypes + more) == CuisineLabel(cuisineTypes[..4])
  {
    assert (cuisineTypes + more)[..MaxShown] == cuisineTypes[..4][..MaxShown];
  }

  /** With three cuisines a, b, c the line reads "a • b • c", with four or more it reads
      "a • b • c...". */
  lemma LabelShape(cuisineTypes: seq<string>)
    requires |cuisineTypes| >= 3
    ensures var a, b, c := cuisineTypes[0], cuisineTypes[1], cuisineTypes[2];
      CuisineLabel(cuisineTypes) ==
        a + Separator + b + Separator + c + (if |cuisineTypes| > 3 then "..." else "")
  {
    var a, b, c := cuisineTypes[0], cuisineTypes[1], cuisineTypes[2];
    var shown := cuisineTypes[..3];
    assert shown[1..] == [b, c];
    assert [b, c][1..] == [c];
    assert Join([b, c], Separator) == b + Separator + c;
    assert Join(shown, Separator) == a + Separator + (b + Separator + c);
    assert a + Separator + (b + Separator + c) == a + Separator + b + Separator + c;
    assert ShownCuisines(cuisineTypes) == shown;
  }

  /** What can happen on a card. */
  datatype CardEvent = Click | KeyPress(key: string)

  /** The id `onClick` is called with, if the event calls it at all. */
  function OnClickArgument(id: string, event: CardEvent): (r: Option<string>)
    ensures r.Some? ==> r.value == id
    ensures r.Some? <==> (event.Click? || event == KeyPress("Enter"))
  {
    match event
    case Click => Some(id)
    case KeyPress(key) => if key == "Enter" then Some(id) else None
  }

  /** The Sponsored badge: the optional `isSponsored` prop, false when absent. */
  function SponsoredBadgeShown(isSponsored: Option<bool>): (r: bool)
    ensures r <==> isSponsored == Some(true)
  {
    isSponsored.GetOr(false)
  }
}
