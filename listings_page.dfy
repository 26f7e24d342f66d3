/** The listings browser (src/pages/ListingsPage.js): the derived view computed on every render
    from the listing store, the favourites and the filter fields, and the event handlers that
    change those fields. */
module ListingsPage {
  import opened JsValues
  import opened JsStrings
  import opened JsArrays

  datatype Coords = Coords(lat: real, lon: real)

  /** A listing of the store. `posterEmail` is `listing.poster?.email`; `coords` is the geocoded
      position, absent when geocoding found nothing. */
  datatype Listing = Listing(
    id: JsId,
    title: string,
    description: string,
    category: string,
    price: int,
    location: string,
    posterEmail: Option<string>,
    datePosted: Option<int>,
    coords: Option<Coords>)

  /** The locale-dependent string operations: `toLowerCase`, taken one code unit at a time, and
      `localeCompare`. */
  datatype Locale = Locale(lower: char -> char, collate: (string, string) -> int)

  /** The filter and sort fields of the page. */
  datatype Filters = Filters(
    search: string,
    activeType: string,
    showOnlySaved: bool,
    priceLimit: Option<int>,
    clickedLocation: Option<string>,
    sortBy: string)

  /** The values "Clear All Filters" writes, which are also the initial ones. */
  const Cleared := Filters("", "All", false, None, None, "")

  // ---------------------------------------------------------------------------------
  // The filter predicate

  /** Lower-cased search text occurs in the lower-cased title or description. */
  predicate MatchesSearch(l: Listing, search: string, loc: Locale) {
    var q := Lower(search, loc.lower);
    Includes(Lower(l.title, loc.lower), q) || Includes(Lower(l.description, loc.lower), q)
  }

  predicate MatchesType(l: Listing, activeType: string, userEmail: string) {
    || activeType == "All"
    || l.category == activeType
    || (activeType == "Your Listings" && l.posterEmail == Some(userEmail))
  }

  /** `favorites.includes(item.id)`: strict equality, so only a string id can match. */
  predicate MatchesSaved(l: Listing, showOnlySaved: bool, favorites: seq<string>) {
    !showOnlySaved || (l.id.IdStr? && l.id.s in favorites)
  }

  /** `!priceLimit || item.price <= priceLimit`: null and 0 impose no ceiling. */
  predicate MatchesPrice(l: Listing, priceLimit: Option<int>) {
    priceLimit.None? || priceLimit.value == 0 || l.price <= priceLimit.value
  }

  /** `!clickedLocation || item.location === clickedLocation`. */
  predicate MatchesLocation(l: Listing, clickedLocation: Option<string>) {
    !Truthy(clickedLocation) || l.location == clickedLocation.value
  }

  predicate Matches(l: Listing, f: Filters, favorites: seq<string>, userEmail: string, loc: Locale) {
    && MatchesSearch(l, f.search, loc)
    && MatchesType(l, f.activeType, userEmail)
    && MatchesSaved(l, f.showOnlySaved, favorites)
    && MatchesPrice(l, f.priceLimit)
    && MatchesLocation(l, f.clickedLocation)
  }

  /** `listings.filter(...)`. */
  function Filtered(listings: seq<Listing>, f: Filters, favorites: seq<string>, userEmail: string, loc: Locale): seq<Listing> {
    Filter(listings, l => Matches(l, f, favorites, userEmail, loc))
  }

  // ---------------------------------------------------------------------------------
  // The sort

  function PriceLowFirst(a: Listing, b: Listing): int {
    a.price - b.price
  }

  function PriceHighFirst(a: Listing, b: Listing): int {
    b.price - a.price
  }

  /** `new Date(b.datePosted) - new Date(a.datePosted)`; a missing date gives NaN, which `sort` reads as 0. */
  function NewestFirst(a: Listing, b: Listing): int {
    if a.datePosted.Some? && b.datePosted.Some? then b.datePosted.value - a.datePosted.value else 0
  }

  /** The comparator `sortBy` selects; any other value leaves the filtered order alone. */
  function Comparator(sortBy: string, loc: Locale): Option<(Listing, Listing) -> int> {
    if sortBy == "low" then Some(PriceLowFirst)
    else if sortBy == "high" then Some(PriceHighFirst)
    else if sortBy == "az" then Some((a: Listing, b: Listing) => loc.collate(a.title, b.title))
    else if sortBy == "za" then Some((a: Listing, b: Listing) => loc.collate(b.title, a.title))
    else if sortBy == "recent" then Some(NewestFirst)
    else None
  }

  /** The list the page renders as cards and markers. */
  function Derive(listings: seq<Listing>, f: Filters, favorites: seq<string>, userEmail: string, loc: Locale): seq<Listing> {
    var filtered := Filtered(listings, f, favorites, userEmail, loc);
    match Comparator(f.sortBy, loc)
    case None => filtered
    case Some(cmp) => SortBy(filtered, cmp)
  }

  /** `localeCompare` orders every pair of titles and is transitive. */
  ghost predicate CollationIsOrder(collate: (string, string) -> int) {
    && (forall a, b :: collate(a, b) <= 0 || collate(b, a) <= 0)
    && (forall a, b, c :: collate(a, b) <= 0 && collate(b, c) <= 0 ==> collate(a, c) <= 0)
  }

  // ---------------------------------------------------------------------------------
  // Properties of the derived view

  lemma FilteredMembers(listings: seq<Listing>, f: Filters, favorites: seq<string>, userEmail: string, loc: Locale)
    ensures forall x ::
              x in Filtered(listings, f, favorites, userEmail, loc) <==> x in listings && Matches(x, f, favorites, userEmail, loc)
  {
    var r := Filtered(listings, f, favorites, userEmail, loc);
    forall x | x in listings && Matches(x, f, favorites, userEmail, loc)
      ensures x in r
    {
      var i :| 0 <= i < |listings| && listings[i] == x;
    }
    forall x | x in r
      ensures x in listings && Matches(x, f, favorites, userEmail, loc)
    {
      var i :| 0 <= i < |r| && r[i] == x;
    }
  }

  /** A listing is shown exactly when it is in the store and passes all five tests, whatever the sort. */
  lemma DeriveMembers(listings: seq<Listing>, f: Filters, favorites: seq<string>, userEmail: string, loc: Locale, x: Listing)
    ensures x in Derive(listings, f, favorites, userEmail, loc) <==>
              && x in listings
              && MatchesSearch(x, f.search, loc)
              && MatchesType(x, f.activeType, userEmail)
              && MatchesSaved(x, f.showOnlySaved, favorites)
              && MatchesPrice(x, f.priceLimit)
              && MatchesLocation(x, f.clickedLocation)
    ensures multiset(Derive(listings, f, favorites, userEmail, loc)) == multiset(Filtered(listings, f, favorites, userEmail, loc))
  {
    FilteredMembers(listings, f, favorites, userEmail, loc);
    var filtered := Filtered(listings, f, favorites, userEmail, loc);
    var v := Derive(listings, f, favorites, userEmail, loc);
    assert multiset(v) == multiset(filtered);
    assert x in v <==> x in multiset(v);
    assert x in filtered <==> x in multiset(filtered);
  }

  /** Without a recognised sort key the view is the store with some listings left out, in store order. */
  lemma DeriveUnsortedKeepsOrder(listings: seq<Listing>, f: Filters, favorites: seq<string>, userEmail: string, loc: Locale)
    requires f.sortBy !in {"low", "high", "az", "za", "recent"}
    ensures Derive(listings, f, favorites, userEmail, loc) == Filtered(listings, f, favorites, userEmail, loc)
    ensures IsSubseq(Derive(listings, f, favorites, userEmail, loc), listings)
  {
    FilterIsSubseq(listings, l => Matches(l, f, favorites, userEmail, loc));
  }

  /** 'low' shows prices in non-decreasing order, 'high' in non-increasing order. */
  lemma DerivePriceOrder(listings: seq<Listing>, f: Filters, favorites: seq<string>, userEmail: string, loc: Locale, i: int, j: int)
    requires f.sortBy == "low" || f.sortBy == "high"
    requires 0 <= i < j < |Derive(listings, f, favorites, userEmail, loc)|
    ensures var v := Derive(listings, f, favorites, userEmail, loc);
            if f.sortBy == "low" then v[i].price <= v[j].price else v[i].price >= v[j].price
  {
    var filtered := Filtered(listings, f, favorites, userEmail, loc);
    var cmp: (Listing, Listing) -> int := if f.sortBy == "low" then PriceLowFirst else PriceHighFirst;
    assert Comparator(f.sortBy, loc) == Some(cmp);
    assert TotalComparator(cmp);
    assert TransitiveComparator(cmp);
    SortBySorted(filtered, cmp);
    SortedPairwise(SortBy(filtered, cmp), cmp, i, j);
  }

  /** 'az' orders titles by `localeCompare`, 'za' by the reverse comparison. */
  lemma DeriveTitleOrder(listings: seq<Listing>, f: Filters, favorites: seq<string>, userEmail: string, loc: Locale, i: int, j: int)
    requires f.sortBy == "az" || f.sortBy == "za"
    requires CollationIsOrder(loc.collate)
    requires 0 <= i < j < |Derive(listings, f, favorites, userEmail, loc)|
    ensures var v := Derive(listings, f, favorites, userEmail, loc);
            if f.sortBy == "az" then loc.collate(v[i].title, v[j].title) <= 0
            else loc.collate(v[j].title, v[i].title) <= 0
  {
    var filtered := Filtered(listings, f, favorites, userEmail, loc);
    var cmp := Comparator(f.sortBy, loc).value;
    assert TotalComparator(cmp) by {
      forall a, b ensures cmp(a, b) <= 0 || cmp(b, a) <= 0 {
        assert loc.collate(a.title, b.title) <= 0 || loc.collate(b.title, a.title) <= 0;
      }
    }
    assert TransitiveComparator(cmp) by {
      forall a, b, c | cmp(a, b) <= 0 && cmp(b, c) <= 0
        ensures cmp(a, c) <= 0
      {
        if f.sortBy == "az" {
          assert loc.collate(a.title, b.title) <= 0 && loc.collate(b.title, c.title) <= 0;
        } else {
          assert loc.collate(c.title, b.title) <= 0 && loc.collate(b.title, a.title) <= 0;
        }
      }
    }
    SortBySorted(filtered, cmp);
    SortedPairwise(SortBy(filtered, cmp), cmp, i, j);
  }

  /** 'recent' shows the newest first when every listing carries a date. */
  lemma DeriveRecentOrder(listings: seq<Listing>, f: Filters, favorites: seq<string>, userEmail: string, loc: Locale, i: int, j: int)
    requires f.sortBy == "recent"
    requires forall x :: x in listings ==> x.datePosted.Some?
    requires 0 <= i < j < |Derive(listings, f, favorites, userEmail, loc)|
    ensures var v := Derive(listings, f, favorites, userEmail, loc);
            v[i].datePosted.Some? && v[j].datePosted.Some? && v[i].datePosted.value >= v[j].datePosted.value
  {
    var filtered := Filtered(listings, f, favorites, userEmail, loc);
    var sorted := SortBy(filtered, NewestFirst);
    assert Derive(listings, f, favorites, userEmail, loc) == sorted;
    forall x | x in sorted ensures x.datePosted.Some? {
      assert x in multiset(filtered);
      assert x in listings;
    }
    SortBySorted(filtered, NewestFirst);
    SortedPairwiseDated(sorted, i, j);
  }

  /** Newest-first neighbours with dates give a newest-first list. */
  lemma {:induction false} SortedPairwiseDated(s: seq<Listing>, i: int, j: int)
    requires forall x :: x in s ==> x.datePosted.Some?
    requires Sorted(s, NewestFirst)
    requires 0 <= i < j < |s|
    ensures s[i].datePosted.value >= s[j].datePosted.value
    decreases j - i
  {
    assert s[j - 1] in s && s[j] in s;
    if j > i + 1 {
      SortedPairwiseDated(s, i, j - 1);
    }
  }

  /** The sort is stable: for 'low' and 'high', listings of equal price keep their store order. */
  lemma DerivePriceStable(listings: seq<Listing>, f: Filters, favorites: seq<string>, userEmail: string, loc: Locale, z: Listing)
    requires f.sortBy == "low" || f.sortBy == "high"
    ensures Filter(Derive(listings, f, favorites, userEmail, loc), (y: Listing) => y.price == z.price)
         == Filter(Filtered(listings, f, favorites, userEmail, loc), (y: Listing) => y.price == z.price)
  {
    var filtered := Filtered(listings, f, favorites, userEmail, loc);
    var cmp: (Listing, Listing) -> int := if f.sortBy == "low" then PriceLowFirst else PriceHighFirst;
    assert Comparator(f.sortBy, loc) == Some(cmp);
    assert TransitiveComparator(cmp);
    SortByStable(filtered, cmp, z);
    FilterSame(SortBy(filtered, cmp), y => Ties(cmp, y, z), (y: Listing) => y.price == z.price);
    FilterSame(filtered, y => Ties(cmp, y, z), (y: Listing) => y.price == z.price);
  }

  /** Filters that agree on every element agree. */
  lemma {:induction false} FilterSame(s: seq<Listing>, p: Listing -> bool, q: Listing -> bool)
    requires forall x :: p(x) == q(x)
    ensures Filter(s, p) == Filter(s, q)
    decreases |s|
  {
    if |s| > 0 {
      FilterSame(s[1..], p, q);
    }
  }

  /** Empty search, a falsy price ceiling and a falsy clicked location restrict nothing. */
  lemma InertGuards(l: Listing, loc: Locale, priceLimit: Option<int>, clickedLocation: Option<string>)
    requires priceLimit == None || priceLimit == Some(0)
    requires clickedLocation == None || clickedLocation == Some("")
    ensures MatchesSearch(l, "", loc)
    ensures MatchesPrice(l, priceLimit)
    ensures MatchesLocation(l, clickedLocation)
  {
    assert Lower("", loc.lower) == "";
    assert StartsWith(Lower(l.title, loc.lower), "");
  }

  /** With every filter cleared the view is the whole store, in store order. */
  lemma ClearedViewIsStore(listings: seq<Listing>, favorites: seq<string>, userEmail: string, loc: Locale)
    ensures Derive(listings, Cleared, favorites, userEmail, loc) == listings
  {
    forall i | 0 <= i < |listings|
      ensures Matches(listings[i], Cleared, favorites, userEmail, loc)
    {
      InertGuards(listings[i], loc, None, None);
    }
    FilterKeepsAll(listings, l => Matches(l, Cleared, favorites, userEmail, loc));
  }

  /** Clicking a marker at a nonempty location, from a view not yet narrowed by a click, shows exactly
      the listings of that view at that location (the click also empties the search). */
  lemma ClickedLocationNarrows(listings: seq<Listing>, f: Filters, favorites: seq<string>, userEmail: string,
                               loc: Locale, where: string, x: Listing)
    requires where != "" && f.clickedLocation.None?
    ensures var g := f.(clickedLocation := Some(where), search := "");
            x in Derive(listings, g, favorites, userEmail, loc) <==>
              x in Derive(listings, f.(search := ""), favorites, userEmail, loc) && x.location == where
  {
    var g := f.(clickedLocation := Some(where), search := "");
    DeriveMembers(listings, g, favorites, userEmail, loc, x);
    DeriveMembers(listings, f.(search := ""), favorites, userEmail, loc, x);
    InertGuards(x, loc, None, None);
  }

  /** The price-ceiling scenario: with a ceiling of 1000 and no other filter, rents of 950, 675, 80
      and 1600 leave the first three, in store order, and the 1600 one out. */
  lemma PriceCeilingScenario(listings: seq<Listing>, favorites: seq<string>, userEmail: string, loc: Locale)
    requires |listings| == 4
    requires listings[0].price == 950 && listings[1].price == 675
    requires listings[2].price == 80 && listings[3].price == 1600
    ensures Derive(listings, Cleared.(priceLimit := Some(1000)), favorites, userEmail, loc) == listings[..3]
  {
    var f := Cleared.(priceLimit := Some(1000));
    var p := (l: Listing) => Matches(l, f, favorites, userEmail, loc);
    forall i | 0 <= i < 4 ensures MatchesSearch(listings[i], "", loc) {
      InertGuards(listings[i], loc, None, None);
    }
    assert !p(listings[3]);
    assert Filter(listings[3..], p) == [];
    assert listings[2..][1..] == listings[3..];
    assert listings[1..][1..] == listings[2..];
    assert listings[1..] == listings[0..][1..];
    assert Filter(listings[2..], p) == [listings[2]];
    assert Filter(listings[1..], p) == [listings[1], listings[2]];
    assert Filter(listings, p) == [listings[0], listings[1], listings[2]];
  }

  // ---------------------------------------------------------------------------------
  // Favourites and deletion

  /** The favourite toggle: remove every occurrence of a present id, append an absent one. */
  function Toggled(favorites: seq<string>, id: string): seq<string> {
    if id in favorites then Filter(favorites, x => x != id) else favorites + [id]
  }

  /** After a toggle the id is present exactly when it was absent before; other ids keep their order and count. */
  lemma ToggledEffect(favorites: seq<string>, id: string)
    ensures id in Toggled(favorites, id) <==> id !in favorites
    ensures Filter(Toggled(favorites, id), x => x != id) == Filter(favorites, x => x != id)
  {
    var other := (x: string) => x != id;
    if id in favorites {
      FilterKeepsAll(Filter(favorites, other), other);
    } else {
      FilterAppend(favorites, [id], other);
      assert Filter([id], other) == [];
    }
  }

  /** Toggling an absent id twice restores the list. */
  lemma ToggleTwiceRestores(favorites: seq<string>, id: string)
    requires id !in favorites
    ensures Toggled(Toggled(favorites, id), id) == favorites
  {
    var other := (x: string) => x != id;
    FilterAppend(favorites, [id], other);
    assert Filter([id], other) == [];
    FilterKeepsAll(favorites, other);
  }

  /** `prev.filter((listing) => String(listing.id) !== String(id))`. */
  function WithoutListing(listings: seq<Listing>, id: JsId): seq<Listing> {
    Filter(listings, (l: Listing) => JsString(l.id) != JsString(id))
  }

  /** Deletion removes exactly the listings whose id renders like `id`, keeping the rest in order. */
  lemma WithoutListingEffect(listings: seq<Listing>, id: JsId)
    ensures forall x :: x in WithoutListing(listings, id) <==> x in listings && JsString(x.id) != JsString(id)
    ensures IsSubseq(WithoutListing(listings, id), listings)
  {
    var keep := (l: Listing) => JsString(l.id) != JsString(id);
    var r := WithoutListing(listings, id);
    forall x | x in listings && JsString(x.id) != JsString(id)
      ensures x in r
    {
      var i :| 0 <= i < |listings| && listings[i] == x;
    }
    FilterIsSubseq(listings, keep);
  }

  // ---------------------------------------------------------------------------------
  // Loading

  /** `{ ...item, id: String(item.id), coords }` for every fetched listing. */
  function Normalized(data: seq<Listing>, coords: seq<Option<Coords>>): (r: seq<Listing>)
    requires |coords| == |data|
    ensures |r| == |data|
    ensures forall k :: 0 <= k < |r| ==> r[k] == data[k].(id := IdStr(JsString(data[k].id)), coords := coords[k])
  {
    seq(|data|, k requires 0 <= k < |data| => data[k].(id := IdStr(JsString(data[k].id)), coords := coords[k]))
  }

  /** `data.map(id => String(id))`. */
  function FavoriteStrings(data: seq<JsId>): (r: seq<string>)
    ensures |r| == |data|
    ensures forall k :: 0 <= k < |r| ==> r[k] == JsString(data[k])
  {
    seq(|data|, k requires 0 <= k < |data| => JsString(data[k]))
  }

  /** After both loads, a listing counts as saved exactly when some favourite renders like its id;
      for numeric ids on both sides that is plain membership. */
  lemma SavedAfterLoad(l: Listing, c: Option<Coords>, data: seq<JsId>)
    ensures var loaded := l.(id := IdStr(JsString(l.id)), coords := c);
            MatchesSaved(loaded, true, FavoriteStrings(data)) <==> exists k :: 0 <= k < |data| && JsString(data[k]) == JsString(l.id)
    ensures l.id.IdNum? && (forall k :: 0 <= k < |data| ==> data[k].IdNum?) ==>
              (MatchesSaved(l.(id := IdStr(JsString(l.id)), coords := c), true, FavoriteStrings(data)) <==> l.id in data)
  {
    var favs := FavoriteStrings(data);
    if exists k :: 0 <= k < |data| && JsString(data[k]) == JsString(l.id) {
      var k :| 0 <= k < |data| && JsString(data[k]) == JsString(l.id);
      assert favs[k] == JsString(l.id);
    }
    if JsString(l.id) in favs {
      var k :| 0 <= k < |favs| && favs[k] == JsString(l.id);
      assert JsString(data[k]) == JsString(l.id);
    }
    if l.id.IdNum? && (forall k :: 0 <= k < |data| ==> data[k].IdNum?) {
      forall k | 0 <= k < |data|
        ensures JsString(data[k]) == JsString(l.id) <==> data[k] == l.id
      {
        JsStringNumInjective(data[k].n, l.id.n);
      }
    }
  }

  // ---------------------------------------------------------------------------------
  // The component state

  /** The user shown in the header: `{name, email, avatar}` with defaults. */
  datatype Profile = Profile(name: string, email: string, avatar: string)

  const DefaultProfile := Profile("Unnamed User", "", "/default-avatar.png")

  /** Every state field of the page, as one value. */
  datatype BrowserState = BrowserState(
    search: string,
    activeType: string,
    favorites: seq<string>,
    sortBy: string,
    loading: bool,
    showOnlySaved: bool,
    listings: seq<Listing>,
    priceLimit: Option<int>,
    user: Profile,
    favoritesReady: bool,
    clickedLocation: Option<string>,
    filteredByMapClickId: Option<JsId>,
    pinnedPopupId: Option<JsId>,
    openPopups: set<JsId>)

  class ListingsBrowser {
    var search: string
    var activeType: string
    var favorites: seq<string>
    var sortBy: string
    var loading: bool
    var showOnlySaved: bool
    var listings: seq<Listing>
    var priceLimit: Option<int>
    var user: Profile
    var favoritesReady: bool
    var clickedLocation: Option<string>
    var filteredByMapClickId: Option<JsId>
    var pinnedPopupId: Option<JsId>
    /** Ids of the markers whose popup the map holds open. */
    var openPopups: set<JsId>
    const locale: Locale

    function State(): BrowserState
      reads this
    {
      BrowserState(search, activeType, favorites, sortBy, loading, showOnlySaved, listings, priceLimit,
                   user, favoritesReady, clickedLocation, filteredByMapClickId, pinnedPopupId, openPopups)
    }

    function CurrentFilters(): Filters
      reads this
    {
      Filters(search, activeType, showOnlySaved, priceLimit, clickedLocation, sortBy)
    }

    /** The listings rendered as cards and markers. */
    function View(): seq<Listing>
      reads this
    {
      Derive(listings, CurrentFilters(), favorites, user.email, locale)
    }

    /** A pinned popup is open. */
    predicate Valid()
      reads this
    {
      pinnedPopupId.Some? ==> pinnedPopupId.value in openPopups
    }

    constructor(locale: Locale)
      ensures Valid() && this.locale == locale
      ensures CurrentFilters() == Cleared
      ensures State() == BrowserState("", "All", [], "", true, false, [], None, DefaultProfile, false,
                                      None, None, None, {})
    {
      search, activeType, favorites, sortBy, loading, showOnlySaved := "", "All", [], "", true, false;
      listings, priceLimit, user, favoritesReady := [], None, DefaultProfile, false;
      clickedLocation, filteredByMapClickId, pinnedPopupId, openPopups := None, None, None, {};
      this.locale := locale;
    }

    /** The user read from storage on mount; each field falls back to its default when falsy. */
    method LoadUser(stored: Option<UserRecord>)
      requires Valid()
      modifies this
      ensures Valid()
      ensures stored.None? ==> State() == old(State())
      ensures stored.Some? ==>
                State() == old(State()).(user := Profile(
                  FirstTruthy([stored.value.name], "Unnamed User"),
                  FirstTruthy([stored.value.email], ""),
                  FirstTruthy([stored.value.avatar], "/default-avatar.png")))
    {
      if stored.Some? {
        var u := stored.value;
        user := Profile(FirstTruthy([u.name], "Unnamed User"), FirstTruthy([u.email], ""),
                        FirstTruthy([u.avatar], "/default-avatar.png"));
      }
    }

    /** The favourites fetch, issued only when the user has an email; `data` is its reply when `ok`. */
    method LoadFavorites(data: seq<JsId>, ok: bool)
      requires Valid()
      modifies this
      ensures Valid()
      ensures old(user.email) == "" ==> State() == old(State())
      ensures old(user.email) != "" ==>
                State() == old(State()).(favorites := if ok then FavoriteStrings(data) else old(favorites),
                                         favoritesReady := true)
    {
      if user.email != "" {
        if ok {
          favorites := FavoriteStrings(data);
        }
        favoritesReady := true;
      }
    }

    /** The listings fetch with one geocoding result per listing; `ok` is false when the fetch failed. */
    method LoadListings(data: seq<Listing>, coords: seq<Option<Coords>>, ok: bool)
      requires Valid()
      requires |coords| == |data|
      modifies this
      ensures Valid()
      ensures State() == old(State()).(listings := if ok then Normalized(data, coords) else old(listings),
                                       loading := false)
      ensures ok ==> forall k :: 0 <= k < |listings| ==> listings[k].id.IdStr?
    {
      if ok {
        listings := Normalized(data, coords);
      }
      loading := false;
    }

    method SetSearch(text: string)
      requires Valid()
      modifies this
      ensures Valid() && State() == old(State()).(search := text)
    {
      search := text;
    }

    method SetSortBy(key: string)
      requires Valid()
      modifies this
      ensures Valid() && State() == old(State()).(sortBy := key)
    {
      sortBy := key;
    }

    /** The price slider: `setPriceLimit(Number(e.target.value))`. */
    method SetPriceLimit(limit: int)
      requires Valid()
      modifies this
      ensures Valid() && State() == old(State()).(priceLimit := Some(limit))
    {
      priceLimit := Some(limit);
    }

    method ToggleShowOnlySaved()
      requires Valid()
      modifies this
      ensures Valid() && State() == old(State()).(showOnlySaved := !old(showOnlySaved))
    {
      showOnlySaved := !showOnlySaved;
    }

    method SetActiveType(category: string)
      requires Valid()
      modifies this
      ensures Valid() && State() == old(State()).(activeType := category)
    {
      activeType := category;
    }

    /** "Clear All Filters": the six filter fields go back to their initial values; the view becomes the store. */
    method ClearAllFilters()
      requires Valid()
      modifies this
      ensures Valid()
      ensures State() == old(State()).(search := "", sortBy := "", activeType := "All", priceLimit := None,
                                       showOnlySaved := false, clickedLocation := None)
      ensures CurrentFilters() == Cleared
      ensures View() == listings
    {
      search, sortBy, activeType, priceLimit, showOnlySaved, clickedLocation := "", "", "All", None, false, None;
      assert State() == old(State()).(search := "", sortBy := "", activeType := "All", priceLimit := None,
                                      showOnlySaved := false, clickedLocation := None);
      ClearedViewIsStore(listings, favorites, user.email, locale);
    }

    /** The star button of `listing`, shown only on listings the user did not post; `ok` is false
        when the request was rejected, which leaves favourites alone. */
    method ToggleFavorite(listing: Listing, ok: bool)
      requires Valid()
      requires listing.posterEmail != Some(user.email)
      modifies this
      ensures Valid()
      ensures State() == old(State()).(favorites := if ok then Toggled(old(favorites), JsString(listing.id))
                                                    else old(favorites))
    {
      var idStr := JsString(listing.id);
      if ok {
        if idStr in favorites {
          favorites := Filter(favorites, x => x != idStr);
        } else {
          favorites := favorites + [idStr];
        }
      }
    }

    /** handleDelete: after confirmation and a request that did not reject, the listing leaves the store. */
    method Delete(id: JsId, confirmed: bool, ok: bool)
      requires Valid()
      modifies this
      ensures Valid()
      ensures State() == old(State()).(listings := if confirmed && ok then WithoutListing(old(listings), id)
                                                   else old(listings))
    {
      if confirmed && ok {
        listings := WithoutListing(listings, id);
      }
    }

    /** A marker click: filter to its location, clear the search, pin and open its popup. */
    method MarkerClick(listing: Listing)
      requires Valid()
      modifies this
      ensures Valid()
      ensures State() == old(State()).(clickedLocation := Some(listing.location), search := "",
                                       filteredByMapClickId := None, pinnedPopupId := Some(listing.id),
                                       openPopups := old(openPopups) + {listing.id})
    {
      clickedLocation := Some(listing.location);
      search := "";
      filteredByMapClickId := None;
      pinnedPopupId := Some(listing.id);
      openPopups := openPopups + {listing.id};
    }

    /** Hovering a marker opens its popup unless it is the pinned one. */
    method MarkerOver(listing: Listing)
      requires Valid()
      modifies this
      ensures Valid()
      ensures State() == old(State()).(openPopups := if old(pinnedPopupId) != Some(listing.id)
                                                     then old(openPopups) + {listing.id} else old(openPopups))
    {
      if pinnedPopupId != Some(listing.id) {
        openPopups := openPopups + {listing.id};
      }
    }

    /** Leaving a marker closes its popup unless it is the pinned one, which stays open. */
    method MarkerOut(listing: Listing)
      requires Valid()
      modifies this
      ensures Valid()
      ensures State() == old(State()).(openPopups := if old(pinnedPopupId) != Some(listing.id)
                                                     then old(openPopups) - {listing.id} else old(openPopups))
    {
      if pinnedPopupId != Some(listing.id) {
        openPopups := openPopups - {listing.id};
      }
    }

    /** A popup has closed: unpin it if it was the pinned one. */
    method PopupClose(listing: Listing)
      requires Valid()
      modifies this
      ensures Valid()
      ensures State() == old(State()).(openPopups := old(openPopups) - {listing.id},
                                       pinnedPopupId := if old(pinnedPopupId) == Some(listing.id) then None
                                                        else old(pinnedPopupId))
    {
      openPopups := openPopups - {listing.id};
      if pinnedPopupId == Some(listing.id) {
        pinnedPopupId := None;
      }
    }
  }
}
