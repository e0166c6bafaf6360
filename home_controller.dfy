/**
 * The public catalogue of Controllers/HomeController.cs: the restaurant
 * list with its optional filters and average ratings, the choice of
 * recommender, the restaurant page's "can view AI analysis" flag, and the
 * favourite toggle.
 */
module HomeController {
  import opened Wrappers
  import opened Text
  import opened Tables
  import opened Entities

  // ---------------------------------------------------------------------------
  // Ratings
  // ---------------------------------------------------------------------------

  function ReviewFor(restaurantId: int): Review -> bool {
    (rv: Review) => rv.restaurantId == restaurantId
  }

  /** `r.Reviews`: the reviews of one restaurant. */
  function ReviewsOf(reviews: seq<Review>, restaurantId: int): seq<Review> {
    Where(reviews, ReviewFor(restaurantId))
  }

  function RatingValue(rv: Review): real { rv.rating as real }

  /** `Reviews.Average(rv => rv.Rating)`, as the database computes it: in floating point, not integer division. */
  function Average(rs: seq<Review>): (a: real)
    requires |rs| > 0
  {
    Sum(rs, RatingValue) / (|rs| as real)
  }

  /** The rating shown beside a restaurant: its review average, or 0 without reviews. */
  function DisplayedRating(reviews: seq<Review>, restaurantId: int): (a: real)
    ensures |ReviewsOf(reviews, restaurantId)| == 0 ==> a == 0.0
    ensures |ReviewsOf(reviews, restaurantId)| > 0 ==> a == Average(ReviewsOf(reviews, restaurantId))
  {
    var rs := ReviewsOf(reviews, restaurantId);
    if |rs| > 0 then Average(rs) else 0.0
  }

  // ---------------------------------------------------------------------------
  // Index
  // ---------------------------------------------------------------------------

  /** The optional query parameters of the restaurant list. */
  datatype Filters = Filters(
    search: Option<string>,
    city: Option<string>,
    address: Option<string>,
    cuisine: Option<string>,
    rating: Option<int>,
    minPrice: Option<real>,
    maxPrice: Option<real>)

  /** `!string.IsNullOrEmpty(s)`: a text filter is on. */
  predicate Given(s: Option<string>) { s.Some? && s.value != "" }

  function IsApproved(r: Restaurant): bool { r.isApproved }

  function SearchMatch(text: string): Restaurant -> bool {
    (r: Restaurant) => Contains(r.name, text) || Contains(r.description, text)
  }

  function CityMatch(text: string): Restaurant -> bool { (r: Restaurant) => Contains(r.city, text) }

  function AddressMatch(text: string): Restaurant -> bool { (r: Restaurant) => Contains(r.address, text) }

  function CuisineMatch(text: string): Restaurant -> bool { (r: Restaurant) => Contains(r.cuisineType, text) }

  function RatedAtLeast(reviews: seq<Review>, rating: int): Restaurant -> bool {
    (r: Restaurant) => |ReviewsOf(reviews, r.id)| > 0 && Average(ReviewsOf(reviews, r.id)) >= rating as real
  }

  function PriceAtLeast(p: real): Restaurant -> bool { (r: Restaurant) => r.averagePrice >= p }

  function PriceAtMost(p: real): Restaurant -> bool { (r: Restaurant) => r.averagePrice <= p }

  /** The query `Index` builds: approved restaurants, then each filter whose parameter is given. */
  function IndexQuery(restaurants: seq<Restaurant>, reviews: seq<Review>, f: Filters): seq<Restaurant> {
    var q0 := Where(restaurants, IsApproved);
    var q1 := Narrow(q0, Given(f.search), SearchMatch(f.search.GetOr("")));
    var q2 := Narrow(q1, Given(f.city), CityMatch(f.city.GetOr("")));
    var q3 := Narrow(q2, Given(f.address), AddressMatch(f.address.GetOr("")));
    var q4 := Narrow(q3, Given(f.cuisine), CuisineMatch(f.cuisine.GetOr("")));
    var q5 := Narrow(q4, f.rating.Some?, RatedAtLeast(reviews, f.rating.GetOr(0)));
    var q6 := Narrow(q5, f.minPrice.Some?, PriceAtLeast(f.minPrice.GetOr(0.0)));
    Narrow(q6, f.maxPrice.Some?, PriceAtMost(f.maxPrice.GetOr(0.0)))
  }

  /** What a listed restaurant satisfies, stated condition by condition. */
  predicate Matches(reviews: seq<Review>, f: Filters, r: Restaurant) {
    && r.isApproved
    && (Given(f.search) ==> Contains(r.name, f.search.value) || Contains(r.description, f.search.value))
    && (Given(f.city) ==> Contains(r.city, f.city.value))
    && (Given(f.address) ==> Contains(r.address, f.address.value))
    && (Given(f.cuisine) ==> Contains(r.cuisineType, f.cuisine.value))
    && (f.rating.Some? ==> |ReviewsOf(reviews, r.id)| > 0 && Average(ReviewsOf(reviews, r.id)) >= f.rating.value as real)
    && (f.minPrice.Some? ==> r.averagePrice >= f.minPrice.value)
    && (f.maxPrice.Some? ==> r.averagePrice <= f.maxPrice.value)
  }

  function MatchesAll(reviews: seq<Review>, f: Filters): Restaurant -> bool {
    (r: Restaurant) => Matches(reviews, f, r)
  }

  /** The conjunction the filter chain builds, one optional condition at a time. */
  function Chain(reviews: seq<Review>, f: Filters): Restaurant -> bool {
    var a1 := Both(IsApproved, When(Given(f.search), SearchMatch(f.search.GetOr(""))));
    var a2 := Both(a1, When(Given(f.city), CityMatch(f.city.GetOr(""))));
    var a3 := Both(a2, When(Given(f.address), AddressMatch(f.address.GetOr(""))));
    var a4 := Both(a3, When(Given(f.cuisine), CuisineMatch(f.cuisine.GetOr(""))));
    var a5 := Both(a4, When(f.rating.Some?, RatedAtLeast(reviews, f.rating.GetOr(0))));
    var a6 := Both(a5, When(f.minPrice.Some?, PriceAtLeast(f.minPrice.GetOr(0.0))));
    Both(a6, When(f.maxPrice.Some?, PriceAtMost(f.maxPrice.GetOr(0.0))))
  }

  /** Each optional `Where` adds its condition to the conjunction. */
  lemma IndexQueryChain(restaurants: seq<Restaurant>, reviews: seq<Review>, f: Filters)
    ensures IndexQuery(restaurants, reviews, f) == Where(restaurants, Chain(reviews, f))
  {
    var s := restaurants;
    var a1 := Both(IsApproved, When(Given(f.search), SearchMatch(f.search.GetOr(""))));
    var a2 := Both(a1, When(Given(f.city), CityMatch(f.city.GetOr(""))));
    var a3 := Both(a2, When(Given(f.address), AddressMatch(f.address.GetOr(""))));
    var a4 := Both(a3, When(Given(f.cuisine), CuisineMatch(f.cuisine.GetOr(""))));
    var a5 := Both(a4, When(f.rating.Some?, RatedAtLeast(reviews, f.rating.GetOr(0))));
    var a6 := Both(a5, When(f.minPrice.Some?, PriceAtLeast(f.minPrice.GetOr(0.0))));
    NarrowWhere(s, IsApproved, Given(f.search), SearchMatch(f.search.GetOr("")));
    NarrowWhere(s, a1, Given(f.city), CityMatch(f.city.GetOr("")));
    NarrowWhere(s, a2, Given(f.address), AddressMatch(f.address.GetOr("")));
    NarrowWhere(s, a3, Given(f.cuisine), CuisineMatch(f.cuisine.GetOr("")));
    NarrowWhere(s, a4, f.rating.Some?, RatedAtLeast(reviews, f.rating.GetOr(0)));
    NarrowWhere(s, a5, f.minPrice.Some?, PriceAtLeast(f.minPrice.GetOr(0.0)));
    NarrowWhere(s, a6, f.maxPrice.Some?, PriceAtMost(f.maxPrice.GetOr(0.0)));
  }

  /** Each optional condition of the chain, applied to a restaurant. */
  lemma ConditionsHold(reviews: seq<Review>, f: Filters, r: Restaurant)
    ensures When(Given(f.search), SearchMatch(f.search.GetOr("")))(r)
         == (Given(f.search) ==> Contains(r.name, f.search.value) || Contains(r.description, f.search.value))
    ensures When(Given(f.city), CityMatch(f.city.GetOr("")))(r) == (Given(f.city) ==> Contains(r.city, f.city.value))
    ensures When(Given(f.address), AddressMatch(f.address.GetOr("")))(r) == (Given(f.address) ==> Contains(r.address, f.address.value))
    ensures When(Given(f.cuisine), CuisineMatch(f.cuisine.GetOr("")))(r) == (Given(f.cuisine) ==> Contains(r.cuisineType, f.cuisine.value))
    ensures When(f.rating.Some?, RatedAtLeast(reviews, f.rating.GetOr(0)))(r)
         == (f.rating.Some? ==> |ReviewsOf(reviews, r.id)| > 0 && Average(ReviewsOf(reviews, r.id)) >= f.rating.value as real)
    ensures When(f.minPrice.Some?, PriceAtLeast(f.minPrice.GetOr(0.0)))(r) == (f.minPrice.Some? ==> r.averagePrice >= f.minPrice.value)
    ensures When(f.maxPrice.Some?, PriceAtMost(f.maxPrice.GetOr(0.0)))(r) == (f.maxPrice.Some? ==> r.averagePrice <= f.maxPrice.value)
  {
  }

  /** The chain applied to a restaurant is the conjunction of its conditions. */
  lemma ChainHolds(reviews: seq<Review>, f: Filters, r: Restaurant)
    ensures Chain(reviews, f)(r)
         == (&& r.isApproved
             && When(Given(f.search), SearchMatch(f.search.GetOr("")))(r)
             && When(Given(f.city), CityMatch(f.city.GetOr("")))(r)
             && When(Given(f.address), AddressMatch(f.address.GetOr("")))(r)
             && When(Given(f.cuisine), CuisineMatch(f.cuisine.GetOr("")))(r)
             && When(f.rating.Some?, RatedAtLeast(reviews, f.rating.GetOr(0)))(r)
             && When(f.minPrice.Some?, PriceAtLeast(f.minPrice.GetOr(0.0)))(r)
             && When(f.maxPrice.Some?, PriceAtMost(f.maxPrice.GetOr(0.0)))(r))
  {
    var a1 := Both(IsApproved, When(Given(f.search), SearchMatch(f.search.GetOr(""))));
    var a2 := Both(a1, When(Given(f.city), CityMatch(f.city.GetOr(""))));
    var a3 := Both(a2, When(Given(f.address), AddressMatch(f.address.GetOr(""))));
    var a4 := Both(a3, When(Given(f.cuisine), CuisineMatch(f.cuisine.GetOr(""))));
    var a5 := Both(a4, When(f.rating.Some?, RatedAtLeast(reviews, f.rating.GetOr(0))));
    var a6 := Both(a5, When(f.minPrice.Some?, PriceAtLeast(f.minPrice.GetOr(0.0))));
    assert Chain(reviews, f) == Both(a6, When(f.maxPrice.Some?, PriceAtMost(f.maxPrice.GetOr(0.0))));
    assert a1(r) == (r.isApproved && When(Given(f.search), SearchMatch(f.search.GetOr("")))(r));
  }

  /** The conjunction holds of a restaurant exactly when it matches. */
  lemma ChainMatches(reviews: seq<Review>, f: Filters, r: Restaurant)
    ensures Chain(reviews, f)(r) == Matches(reviews, f, r)
  {
    ConditionsHold(reviews, f, r);
    ChainHolds(reviews, f, r);
  }

  /** The chain of optional filters selects, in table order, exactly the restaurants that match them all. */
  lemma IndexQueryMatches(restaurants: seq<Restaurant>, reviews: seq<Review>, f: Filters)
    ensures IndexQuery(restaurants, reviews, f) == Where(restaurants, MatchesAll(reviews, f))
  {
    IndexQueryChain(restaurants, reviews, f);
    forall r: Restaurant ensures Chain(reviews, f)(r) == MatchesAll(reviews, f)(r) {
      ChainMatches(reviews, f, r);
    }
    WhereSame(restaurants, Chain(reviews, f), MatchesAll(reviews, f));
  }

  /** The recommender `Index` consults for a signed-in user. */
  datatype Recommender = Collaborative | AIRecommender

  function ReviewBy(userId: string): Review -> bool {
    (rv: Review) => rv.userId == Some(userId)
  }

  function FavoriteOf(userId: string): FavoriteRestaurant -> bool {
    (f: FavoriteRestaurant) => f.userId == userId
  }

  function FavoriteRestaurantId(f: FavoriteRestaurant): int { f.restaurantId }

  /** The page `Index` renders: restaurants with their displayed ratings, favourites and recommender. */
  datatype HomeIndex = HomeIndex(
    restaurants: seq<Restaurant>,
    ratings: seq<real>,
    favoriteIds: seq<int>,
    recommender: Option<Recommender>)

  /**
   * `Index`: the matching restaurants in table order, each with its
   * displayed rating; for a signed-in user their favourite restaurant ids
   * and collaborative filtering from the third review on, the AI
   * recommender before that.
   */
  function Index(restaurants: seq<Restaurant>, reviews: seq<Review>, favorites: seq<FavoriteRestaurant>,
                 meId: Option<string>, f: Filters): (r: HomeIndex)
    ensures r.restaurants == Where(restaurants, MatchesAll(reviews, f))
    ensures forall x :: x in r.restaurants <==> x in restaurants && Matches(reviews, f, x)
    ensures forall x :: x in r.restaurants ==> x.isApproved
    ensures f.rating.Some? ==> forall x :: x in r.restaurants ==> |ReviewsOf(reviews, x.id)| > 0
    ensures |r.ratings| == |r.restaurants|
    ensures forall i :: 0 <= i < |r.ratings| ==> r.ratings[i] == DisplayedRating(reviews, r.restaurants[i].id)
    ensures meId.None? ==> r.favoriteIds == [] && r.recommender.None?
    ensures meId.Some? ==> forall id :: id in r.favoriteIds <==> FavoriteRestaurant(meId.value, id) in favorites
    ensures meId.Some? ==> r.recommender == Some(if Count(reviews, ReviewBy(meId.value)) >= 3 then Collaborative else AIRecommender)
  {
    var listed := IndexQuery(restaurants, reviews, f);
    IndexQueryMatches(restaurants, reviews, f);
    var ratings := seq(|listed|, i requires 0 <= i < |listed| => DisplayedRating(reviews, listed[i].id));
    if meId.None? then HomeIndex(listed, ratings, [], None)
    else
      var mine := Where(favorites, FavoriteOf(meId.value));
      var ids := Select(mine, FavoriteRestaurantId);
      FavoriteIdsOf(favorites, meId.value);
      var source := if Count(reviews, ReviewBy(meId.value)) >= 3 then Collaborative else AIRecommender;
      HomeIndex(listed, ratings, ids, Some(source))
  }

  /** The favourite ids of a user are the restaurants of their favourite rows. */
  lemma FavoriteIdsOf(favorites: seq<FavoriteRestaurant>, userId: string)
    ensures forall id :: id in Select(Where(favorites, FavoriteOf(userId)), FavoriteRestaurantId)
                         <==> FavoriteRestaurant(userId, id) in favorites
  {
    var mine := Where(favorites, FavoriteOf(userId));
    var ids := Select(mine, FavoriteRestaurantId);
    forall id ensures id in ids <==> FavoriteRestaurant(userId, id) in favorites {
      if id in ids {
        var i :| 0 <= i < |ids| && ids[i] == id;
        assert mine[i] in mine;
        assert mine[i] == FavoriteRestaurant(userId, id);
      }
      if FavoriteRestaurant(userId, id) in favorites {
        var fr := FavoriteRestaurant(userId, id);
        assert fr in mine;
        var i :| 0 <= i < |mine| && mine[i] == fr;
        assert ids[i] == id;
      }
    }
  }

  /** With a rating filter, a restaurant nobody has reviewed is never listed, however low the rating asked for. */
  lemma UnreviewedNeverRated(restaurants: seq<Restaurant>, reviews: seq<Review>, favorites: seq<FavoriteRestaurant>,
                             meId: Option<string>, f: Filters, x: Restaurant)
    requires f.rating.Some? && forall i :: 0 <= i < |reviews| ==> reviews[i].restaurantId != x.id
    ensures x !in Index(restaurants, reviews, favorites, meId, f).restaurants
  {
    WhereNone(reviews, ReviewFor(x.id));
  }

  // ---------------------------------------------------------------------------
  // Detail
  // ---------------------------------------------------------------------------

  datatype DetailResult = DetailNotFound | DetailPage(restaurant: Restaurant, canViewAI: bool)

  /** `Detail(id)`: the analysis panel is for admins and for staff members who manage that restaurant. */
  function Detail(restaurants: seq<Restaurant>, links: seq<StaffRestaurant>, meId: Option<string>, isAdmin: bool, id: int)
    : (r: DetailResult)
    ensures r.DetailNotFound? <==> FindRestaurant(restaurants, id).None?
    ensures r.DetailPage? ==> r.restaurant == restaurants[FindRestaurant(restaurants, id).value] && r.restaurant.id == id
    ensures r.DetailPage? ==>
      (r.canViewAI <==> meId.Some? && (isAdmin || id in RestaurantsOf(links, meId.value)))
  {
    match FindRestaurant(restaurants, id)
    case None => DetailNotFound
    case Some(k) =>
      DetailPage(restaurants[k], meId.Some? && (isAdmin || StaffRestaurant(meId.value, id) in links))
  }

  // ---------------------------------------------------------------------------
  // ToggleFavorite
  // ---------------------------------------------------------------------------

  function IsFavorite(f: FavoriteRestaurant): FavoriteRestaurant -> bool {
    (g: FavoriteRestaurant) => g == f
  }

  /** The favourites table after a toggle of `f`: its first copy removed, or `f` appended when absent. */
  function Toggled(favorites: seq<FavoriteRestaurant>, f: FavoriteRestaurant): (r: seq<FavoriteRestaurant>)
    ensures f !in favorites ==> r == favorites + [f]
    ensures f in favorites ==> multiset(r) == multiset(favorites) - multiset{f}
  {
    match FirstIndex(favorites, IsFavorite(f))
    case None => favorites + [f]
    case Some(k) =>
      assert favorites == favorites[..k] + [f] + favorites[k + 1..];
      favorites[..k] + favorites[k + 1..]
  }

  /**
   * For a pair stored at most once, a toggle reports and leaves the pair
   * present exactly when it was absent, and a second toggle restores the
   * table's contents.
   */
  lemma ToggleTwice(favorites: seq<FavoriteRestaurant>, f: FavoriteRestaurant)
    requires multiset(favorites)[f] <= 1
    ensures f in Toggled(favorites, f) <==> f !in favorites
    ensures multiset(Toggled(Toggled(favorites, f), f)) == multiset(favorites)
  {
    var once := Toggled(favorites, f);
    if f in favorites {
      assert multiset(once)[f] == 0;
      assert f !in multiset(once);
    } else {
      assert f in once by { assert once[|favorites|] == f; }
      assert multiset(favorites)[f] == 0;
      assert multiset(once) == multiset(favorites) + multiset{f};
    }
  }

  datatype ToggleResult = ToggleUnauthorized | Favorite(isFavorite: bool)

  /** `ToggleFavorite(restaurantId)`: adds the pair and answers true, or removes it and answers false. */
  method ToggleFavorite(db: AppDbContext, meId: Option<string>, restaurantId: int) returns (r: ToggleResult)
    modifies db`favoriteRestaurants
    ensures r.ToggleUnauthorized? <==> meId.None?
    ensures meId.None? ==> db.favoriteRestaurants == old(db.favoriteRestaurants)
    ensures meId.Some? ==>
      var f := FavoriteRestaurant(meId.value, restaurantId);
      && db.favoriteRestaurants == Toggled(old(db.favoriteRestaurants), f)
      && r == Favorite(f !in old(db.favoriteRestaurants))
  {
    if meId.None? {
      return ToggleUnauthorized;
    }
    var f := FavoriteRestaurant(meId.value, restaurantId);
    var existing := FirstIndex(db.favoriteRestaurants, IsFavorite(f));
    if existing.None? {
      db.favoriteRestaurants := db.favoriteRestaurants + [f];
      r := Favorite(true);
    } else {
      var k := existing.value;
      db.favoriteRestaurants := db.favoriteRestaurants[..k] + db.favoriteRestaurants[k + 1..];
      r := Favorite(false);
    }
  }
}
