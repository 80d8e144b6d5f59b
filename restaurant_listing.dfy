/** The restaurant listing page: the cuisine filter chips, whose ids a click toggles in
    and out of `activeFilters`, the simulated load of the restaurant list, and the route a
    restaurant card leads to. */
module Listing {
  import opened Optional
  import opened Seqs
  import Card

  datatype Restaurant = Restaurant(
    id: string,
    name: string,
    cuisineTypes: seq<string>,
    rating: real,
    deliveryTime: string,
    priceRange: Option<string>,
    isSponsored: Option<bool>)

  /** The placeholder restaurants the simulated load delivers (images left out). */
  function InitialRestaurants(): seq<Restaurant> {
    [ Restaurant("1", "Pizza Heaven", ["Pizza", "Italian"], 4.5, "25-35 min", Some("$$"), Some(true)),
      Restaurant("2", "Burger Joint", ["Burgers", "Fast Food"], 4.2, "20-30 min", Some("$"), None),
      Restaurant("3", "Sushi World", ["Sushi", "Japanese"], 4.8, "30-40 min", Some("$$$"), None) ]
  }

  /** The ids of the filter chips, in display order. */
  function CuisineFilterIds(): seq<string> {
    ["pizza", "burgers", "sushi", "indian", "chinese", "offers"]
  }

  /** The filter list after a click on chip `filterId`: an active id is taken out (every
      occurrence of it), an inactive one is appended at the end. */
  function ToggleFilter(prev: seq<string>, filterId: string): (r: seq<string>)
    ensures filterId in r <==> filterId !in prev
    ensures forall other :: other != filterId ==> (other in r <==> other in prev)
    ensures filterId !in prev ==> r == prev + [filterId]
    ensures RemoveAll(r, filterId) == RemoveAll(prev, filterId)
  {
    if filterId in prev then
      RemoveAllIdempotent(prev, filterId);
      RemoveAll(prev, filterId)
    else
      RemoveAllAppend(prev, [filterId], filterId);
      assert RemoveAll([filterId], filterId) == [];
      prev + [filterId]
  }

  /** A toggle keeps the filter list free of duplicates. */
  lemma ToggleKeepsNoDuplicates(prev: seq<string>, filterId: string)
    requires NoDuplicates(prev)
    ensures NoDuplicates(ToggleFilter(prev, filterId))
  {
    if filterId in prev {
      RemoveAllNoDuplicates(prev, filterId);
    }
  }

  /** Toggling the same id twice restores every id's membership (the id itself may
      have moved to the end). */
  lemma ToggleTwiceRestoresMembership(prev: seq<string>, filterId: string)
    ensures forall x :: x in ToggleFilter(ToggleFilter(prev, filterId), filterId) <==> x in prev
  {
  }

  /** The filter list after the chips were clicked in the order given by `clicks`. */
  function AfterClicks(prev: seq<string>, clicks: seq<string>): seq<string>
    decreases |clicks|
  {
    if |clicks| == 0 then prev else AfterClicks(ToggleFilter(prev, clicks[0]), clicks[1..])
  }

  /** Starting from the empty list, no sequence of clicks produces a duplicate. */
  lemma {:induction false} ClicksKeepNoDuplicates(prev: seq<string>, clicks: seq<string>)
    requires NoDuplicates(prev)
    ensures NoDuplicates(AfterClicks(prev, clicks))
    decreases |clicks|
  {
    if |clicks| > 0 {
      ToggleKeepsNoDuplicates(prev, clicks[0]);
      ClicksKeepNoDuplicates(ToggleFilter(prev, clicks[0]), clicks[1..]);
    }
  }

  /** The route of a restaurant's menu: the id between "/restaurants/" and "/menu". */
  function RestaurantPath(id: string): (r: string)
    ensures |r| == |id| + 18
    ensures r[..13] == "/restaurants/" && r[13..13 + |id|] == id && r[13 + |id|..] == "/menu"
  {
    "/restaurants/" + id + "/menu"
  }

  /** Different restaurants lead to different routes. */
  lemma RestaurantPathInjective(a: string, b: string)
    requires RestaurantPath(a) == RestaurantPath(b)
    ensures a == b
  {
    assert RestaurantPath(a)[13..13 + |a|] == a;
  }

  /** Clicking ids that are all different and none of them active appends them, in the
      order clicked. */
  lemma {:induction false} ClickingFreshIdsAppends(prev: seq<string>, clicks: seq<string>)
    requires NoDuplicates(prev + clicks)
    ensures AfterClicks(prev, clicks) == prev + clicks
    decreases |clicks|
  {
    if |clicks| > 0 {
      var all := prev + clicks;
      assert all[|prev|] == clicks[0];
      assert clicks[0] !in prev by {
        forall i | 0 <= i < |prev| ensures prev[i] != clicks[0] {
          assert all[i] == prev[i];
        }
      }
      assert prev + [clicks[0]] + clicks[1..] == all;
      ClickingFreshIdsAppends(prev + [clicks[0]], clicks[1..]);
    }
  }

  /** The six chips carry different ids, so clicking each once, left to right, from no
      active filter activates all of them in display order. */
  lemma EveryChipClickedOnce()
    ensures NoDuplicates(CuisineFilterIds())
    ensures AfterClicks([], CuisineFilterIds()) == CuisineFilterIds()
  {
    var ids := CuisineFilterIds();
    assert ids[0][0] == 'p' && ids[1][0] == 'b' && ids[2][0] == 's';
    assert ids[3][0] == 'i' && ids[4][0] == 'c' && ids[5][0] == 'o';
    assert [] + ids == ids;
    ClickingFreshIdsAppends([], ids);
  }

  /** A chip is drawn active exactly when its id is among the active filters, which is
      exactly when filtering its id out would change the list. */
  function ChipActive(activeFilters: seq<string>, filterId: string): (r: bool)
    ensures r <==> RemoveAll(activeFilters, filterId) != activeFilters
  {
    if filterId in activeFilters then
      assert filterId !in RemoveAll(activeFilters, filterId);
      true
    else
      RemoveAllAbsent(activeFilters, filterId);
      false
  }

  /** The page's state: the loaded restaurants, the loading flag and the active filters. */
  class RestaurantListingPage {
    var restaurants: seq<Restaurant>
    var isLoading: bool
    var activeFilters: seq<string>

    ghost predicate Valid()
      reads this
    {
      && NoDuplicates(activeFilters)
      && (isLoading ==> restaurants == [])
    }

    constructor ()
      ensures Valid()
      ensures restaurants == [] && isLoading && activeFilters == []
      ensures !LoadMoreShown() && forall id :: !ChipActive(activeFilters, id)
    {
      restaurants := [];
      isLoading := true;
      activeFilters := [];
    }

    /** The simulated load completes. */
    method FinishLoading()
      requires Valid()
      modifies this
      ensures Valid()
      ensures restaurants == InitialRestaurants() && !isLoading
      ensures activeFilters == old(activeFilters)
      ensures LoadMoreShown()
    {
      restaurants := InitialRestaurants();
      isLoading := false;
    }

    /** A click on a filter chip toggles its id in the active filters. */
    method HandleFilterClick(filterId: string)
      requires Valid()
      modifies this
      ensures Valid()
      ensures activeFilters == ToggleFilter(old(activeFilters), filterId)
      ensures restaurants == old(restaurants) && isLoading == old(isLoading)
    {
      ToggleKeepsNoDuplicates(activeFilters, filterId);
      activeFilters := ToggleFilter(activeFilters, filterId);
    }

    /** "Load More" is shown once loading is over and some restaurant was loaded; since
        nothing is loaded while loading, that is exactly when the list is non-empty. */
    function LoadMoreShown(): (r: bool)
      reads this
      ensures r ==> !isLoading && restaurants != []
      ensures Valid() ==> (r <==> restaurants != [])
    {
      !isLoading && |restaurants| > 0
    }

    /** `handleRestaurantClick(id)`: the route it navigates to. */
    method HandleRestaurantClick(id: string) returns (path: string)
      ensures path == RestaurantPath(id)
    {
      path := RestaurantPath(id);
    }
  }

  /** Clicking a chip flips its own activity and no other chip's. */
  lemma ChipClickFlipsOnlyThatChip(prev: seq<string>, clicked: string, chip: string)
    ensures ChipActive(ToggleFilter(prev, clicked), chip) <==>
      (if chip == clicked then !ChipActive(prev, chip) else ChipActive(prev, chip))
  {
  }

  /** After the load, "Load More" is shown and the first card reads "Pizza • Italian"
      with the Sponsored badge. */
  lemma LoadedListing()
    ensures |InitialRestaurants()| > 0
    ensures Card.CuisineLabel(InitialRestaurants()[0].cuisineTypes) == "Pizza • Italian"
    ensures Card.SponsoredBadgeShown(InitialRestaurants()[0].isSponsored)
    ensures !Card.SponsoredBadgeShown(InitialRestaurants()[1].isSponsored)
  {
    var types := InitialRestaurants()[0].cuisineTypes;
    assert types[1..] == ["Italian"];
    assert Card.Join(types, Card.Separator) == "Pizza" + " • " + "Italian";
  }
}
