/** The planner for a user's own list of places: each place is filed under
    one category by its types, duplicates collapse through their ids, and
    the plan deals three attractions a day without wrapping round. */
module ItineraryHelpersCustom {
  import opened JsonModel
  import opened ItineraryHelpers

  // ---------------------------------------------------------------------
  // _segregate_and_simplify_places
  // ---------------------------------------------------------------------

  datatype Category = Tourist | Lodging | Restaurant

  /** The types that make a place an attraction whatever else it is. */
  const TouristTypes: set<Json> := {
    Str("tourist_attraction"), Str("point_of_interest"), Str("museum"), Str("park"),
    Str("adventure_sports_center"), Str("hiking_area"), Str("historical_place"),
    Str("national_park"), Str("zoo"), Str("beach"), Str("amusement_park")}

  /** `p.get("id") or p.get("place_id") or p.get("displayName")` */
  function NormalizeId(p: Dict): (r: Json)
    ensures Truthy(Get(p, "id")) ==> r == Get(p, "id")
    ensures !Truthy(Get(p, "id")) && Truthy(Get(p, "place_id")) ==> r == Get(p, "place_id")
    ensures !Truthy(Get(p, "id")) && !Truthy(Get(p, "place_id")) ==> r == Get(p, "displayName")
  {
    Or(Or(Get(p, "id"), Get(p, "place_id")), Get(p, "displayName"))
  }

  /** `set(p.get("types", []))`: fails on a value that is not iterable or
      holds an unhashable item. */
  function TypeSet(p: Dict): (r: Result<set<Json>>)
    ensures r.Raise? ==> r.error == TypeError
  {
    var items :- Iterate(GetOr(p, "types", Arr([])));
    if forall i :: 0 <= i < |items| ==> Hashable(items[i])
    then Ok(set i | 0 <= i < |items| :: items[i])
    else Raise(TypeError)
  }

  /** The category a place is filed under: attraction types win, then
      lodging, then restaurant, and anything else is an attraction. */
  function Categorize(p: Dict): (r: Result<Category>)
    ensures r.Ok? <==> TypeSet(p).Ok?
  {
    var types :- TypeSet(p);
    if types * TouristTypes != {} then Ok(Tourist)
    else if Str("lodging") in types then Ok(Lodging)
    else if Str("restaurant") in types then Ok(Restaurant)
    else Ok(Tourist)
  }

  /** The priority of the categories, case by case. */
  lemma CategorizePriority(p: Dict)
    requires TypeSet(p).Ok?
    ensures var types := TypeSet(p).value;
            && (types * TouristTypes != {} ==> Categorize(p) == Ok(Tourist))
            && (types * TouristTypes == {} && Str("lodging") in types ==> Categorize(p) == Ok(Lodging))
            && (types * TouristTypes == {} && Str("lodging") !in types && Str("restaurant") in types
                ==> Categorize(p) == Ok(Restaurant))
            && (Categorize(p) == Ok(Lodging) ==> Str("lodging") in types)
            && (Categorize(p) == Ok(Restaurant) ==> Str("restaurant") in types)
  {
  }

  datatype IdSets = IdSets(tourist: set<Json>, lodging: set<Json>, restaurants: set<Json>)
  {
    function All(): set<Json>
    {
      tourist + lodging + restaurants
    }

    function Add(c: Category, id: Json): IdSets
    {
      match c
      case Tourist => IdSets(tourist + {id}, lodging, restaurants)
      case Lodging => IdSets(tourist, lodging + {id}, restaurants)
      case Restaurant => IdSets(tourist, lodging, restaurants + {id})
    }
  }

  /** One iteration of the filing loop: `.get` needs a dict, `set(...)` an
      iterable of hashables, and `.add` a hashable id. */
  function FileOne(sets: IdSets, p: Json): (r: Result<IdSets>)
  {
    if !p.Obj? then Raise(AttributeError)
    else
      var c :- Categorize(p);
      if !Hashable(NormalizeId(p)) then Raise(TypeError)
      else Ok(sets.Add(c, NormalizeId(p)))
  }

  /** The id sets after the filing loop has run over `places`. */
  function Filed(places: seq<Json>): (r: Result<IdSets>)
    decreases |places|
  {
    if places == [] then Ok(IdSets({}, {}, {}))
    else
      var sets :- Filed(places[..|places| - 1]);
      FileOne(sets, places[|places| - 1])
  }

  lemma {:induction false} FiledFailureSticks(places: seq<Json>, n: int)
    requires 0 <= n <= |places|
    requires Filed(places[..n]).Raise?
    ensures Filed(places) == Raise(Filed(places[..n]).error)
    decreases |places| - n
  {
    if n < |places| {
      assert places[..n + 1][..n] == places[..n];
      FiledFailureSticks(places, n + 1);
    } else {
      assert places[..n] == places;
    }
  }

  /** `{normalize_id(p): p for p in places}`: a later place with the same id
      replaces an earlier one. */
  function IdMap(places: seq<Json>): (r: map<Json, Dict>)
    decreases |places|
  {
    if places == [] then map[]
    else
      var last := places[|places| - 1];
      var earlier := IdMap(places[..|places| - 1]);
      if last.Obj? then earlier[NormalizeId(last) := last] else earlier
  }

  /** Every place filed without error is a dict with a hashable id. */
  lemma {:induction false} FiledDicts(places: seq<Json>)
    requires Filed(places).Ok?
    ensures forall i :: 0 <= i < |places| ==> places[i].Obj? && Hashable(NormalizeId(places[i]))
    decreases |places|
  {
    if places != [] {
      var init := places[..|places| - 1];
      FiledDicts(init);
      assert forall i :: 0 <= i < |init| ==> places[i] == init[i];
    }
  }

  /** The ids filed are exactly the keys of the id map, and every place's
      id is among them. */
  lemma {:induction false} FiledIds(places: seq<Json>)
    requires Filed(places).Ok?
    ensures Filed(places).value.All() == IdMap(places).Keys
    ensures forall i :: 0 <= i < |places| && places[i].Obj? ==> NormalizeId(places[i]) in Filed(places).value.All()
    decreases |places|
  {
    if places != [] {
      var init := places[..|places| - 1];
      FiledDicts(places);
      var last: Dict := places[|places| - 1];
      FiledIds(init);
      var sets := Filed(init).value;
      var id := NormalizeId(last);
      assert Filed(places) == Ok(sets.Add(Categorize(last).value, id));
      assert Filed(places).value.All() == sets.All() + {id};
      assert IdMap(places).Keys == IdMap(init).Keys + {id};
      assert forall i :: 0 <= i < |init| ==> places[i] == init[i];
    }
  }

  /** A place's own category set holds its id. */
  lemma {:induction false} FiledCategory(places: seq<Json>, i: int)
    requires Filed(places).Ok? && 0 <= i < |places|
    ensures places[i].Obj? && Categorize(places[i]).Ok?
    ensures var sets := Filed(places).value;
            match Categorize(places[i]).value
            case Tourist => NormalizeId(places[i]) in sets.tourist
            case Lodging => NormalizeId(places[i]) in sets.lodging
            case Restaurant => NormalizeId(places[i]) in sets.restaurants
    decreases |places|
  {
    var init := places[..|places| - 1];
    if i < |places| - 1 {
      assert init[i] == places[i];
      FiledCategory(init, i);
    }
  }

  /** Places sharing an id collapse to the last of them. */
  lemma {:induction false} IdMapKeepsLast(places: seq<Json>, j: int)
    requires 0 <= j < |places| && places[j].Obj?
    requires forall k :: j < k < |places| && places[k].Obj? ==> NormalizeId(places[k]) != NormalizeId(places[j])
    ensures NormalizeId(places[j]) in IdMap(places)
    ensures IdMap(places)[NormalizeId(places[j])] == places[j]
    decreases |places|
  {
    var init := places[..|places| - 1];
    if j < |places| - 1 {
      assert init[j] == places[j];
      forall k | j < k < |init| && init[k].Obj? ensures NormalizeId(init[k]) != NormalizeId(init[j]) {
        assert init[k] == places[k];
      }
      IdMapKeepsLast(init, j);
    }
  }

  /** Every value of the id map is one of the places, under its own id. */
  lemma {:induction false} IdMapValues(places: seq<Json>, id: Json)
    requires id in IdMap(places)
    ensures IdMap(places)[id] in places
    ensures NormalizeId(IdMap(places)[id]) == id
    decreases |places|
  {
    var init := places[..|places| - 1];
    var last := places[|places| - 1];
    if !(last.Obj? && NormalizeId(last) == id) {
      IdMapValues(init, id);
      assert forall x :: x in init ==> x in places;
    }
  }

  /** Two places with one id but different categories put the same id in
      two sets, so the one kept place is listed in both. */
  lemma SharedIdInTwoCategories()
    ensures var museum := Obj([("id", Str("x")), ("types", Arr([Str("museum")]))]);
            var hotel := Obj([("id", Str("x")), ("types", Arr([Str("lodging")]))]);
            && Filed([museum, hotel]).Ok?
            && Str("x") in Filed([museum, hotel]).value.tourist
            && Str("x") in Filed([museum, hotel]).value.lodging
            && IdMap([museum, hotel])[Str("x")] == hotel
  {
    var museum := Obj([("id", Str("x")), ("types", Arr([Str("museum")]))]);
    var hotel := Obj([("id", Str("x")), ("types", Arr([Str("lodging")]))]);
    assert [museum, hotel][..1] == [museum];
    assert [museum][..0] == [];
    assert GetOr(museum, "types", Arr([])) == Arr([Str("museum")]);
    assert GetOr(hotel, "types", Arr([])) == Arr([Str("lodging")]);
    assert Str("museum") == [Str("museum")][0];
    assert Str("museum") in TypeSet(museum).value;
    assert Str("museum") in TypeSet(museum).value * TouristTypes;
    assert Categorize(museum) == Ok(Tourist);
    assert TypeSet(hotel).value == {Str("lodging")} by {
      var items := [Str("lodging")];
      assert forall x :: x in TypeSet(hotel).value <==> x == items[0];
    }
    assert Categorize(hotel) == Ok(Lodging) by {
      assert Str("lodging") !in TouristTypes;
      assert TypeSet(hotel).value * TouristTypes == {};
    }
    assert NormalizeId(museum) == Str("x") && NormalizeId(hotel) == Str("x");
    assert Filed([]) == Ok(IdSets({}, {}, {}));
    assert Hashable(NormalizeId(museum));
    assert IdSets({}, {}, {}).Add(Tourist, Str("x")) == IdSets({Str("x")}, {}, {});
    assert FileOne(IdSets({}, {}, {}), museum) == Ok(IdSets({Str("x")}, {}, {}));
    assert Filed([museum]) == Ok(IdSets({Str("x")}, {}, {}));
    assert FileOne(IdSets({Str("x")}, {}, {}), hotel) == Ok(IdSets({Str("x")}, {Str("x")}, {}));
    assert Filed([museum, hotel]) == Ok(IdSets({Str("x")}, {Str("x")}, {}));
    assert IdMap([museum]) == map[Str("x") := museum];
  }

  /** The filing loop. */
  method FileIds(custom: seq<Json>) returns (r: Result<IdSets>)
    ensures r == Filed(custom)
  {
    var touristIds, lodgingIds, restaurantIds := {}, {}, {};
    var i := 0;
    while i < |custom|
      invariant 0 <= i <= |custom|
      invariant Filed(custom[..i]) == Ok(IdSets(touristIds, lodgingIds, restaurantIds))
    {
      var p := custom[i];
      assert custom[..i + 1][..i] == custom[..i];
      if !p.Obj? {
        FiledFailureSticks(custom, i + 1);
        return Raise(AttributeError);
      }
      var types := TypeSet(p);
      if types.Raise? {
        FiledFailureSticks(custom, i + 1);
        return Raise(types.error);
      }
      var pid := NormalizeId(p);
      if !Hashable(pid) {
        FiledFailureSticks(custom, i + 1);
        return Raise(TypeError);
      }
      if types.value * TouristTypes != {} {
        touristIds := touristIds + {pid};
      } else if Str("lodging") in types.value {
        lodgingIds := lodgingIds + {pid};
      } else if Str("restaurant") in types.value {
        restaurantIds := restaurantIds + {pid};
      } else {
        touristIds := touristIds + {pid};
      }
      i := i + 1;
    }
    assert custom[..i] == custom;
    return Ok(IdSets(touristIds, lodgingIds, restaurantIds));
  }

  /** The id-map comprehension. */
  method BuildIdMap(custom: seq<Json>) returns (idMap: map<Json, Dict>)
    requires forall i :: 0 <= i < |custom| ==> custom[i].Obj?
    ensures idMap == IdMap(custom)
  {
    idMap := map[];
    var i := 0;
    while i < |custom|
      invariant 0 <= i <= |custom|
      invariant idMap == IdMap(custom[..i])
    {
      assert custom[..i + 1][..i] == custom[..i];
      var p: Dict := custom[i];
      idMap := idMap[NormalizeId(p) := p];
      i := i + 1;
    }
    assert custom[..i] == custom;
  }

  /** `order` lists every id of `ids` once. */
  ghost predicate Enumerates(order: seq<Json>, ids: set<Json>)
  {
    && |order| == |ids|
    && (forall k :: 0 <= k < |order| ==> order[k] in ids)
    && (forall x :: x in ids ==> x in order)
    && (forall k, l :: 0 <= k < l < |order| ==> order[k] != order[l])
  }

  /** `[id_map[i] for i in ids]`, in the set's iteration order, which the
      language leaves open: any order may come out. */
  method PlacesOf(ids: set<Json>, idMap: map<Json, Dict>) returns (places: seq<Dict>, ghost order: seq<Json>)
    requires ids <= idMap.Keys
    ensures Enumerates(order, ids)
    ensures |places| == |order| && forall k :: 0 <= k < |order| ==> places[k] == idMap[order[k]]
  {
    places, order := [], [];
    var remaining := ids;
    while remaining != {}
      invariant remaining <= ids
      invariant |order| + |remaining| == |ids|
      invariant forall k :: 0 <= k < |order| ==> order[k] in ids && order[k] !in remaining
      invariant forall x :: x in ids ==> x in order || x in remaining
      invariant forall k, l :: 0 <= k < l < |order| ==> order[k] != order[l]
      invariant |places| == |order| && forall k :: 0 <= k < |order| ==> places[k] == idMap[order[k]]
      decreases |remaining|
    {
      var i :| i in remaining;
      places := places + [idMap[i]];
      order := order + [i];
      remaining := remaining - {i};
    }
  }

  datatype Segregated = Segregated(tourist: seq<Dict>, lodging: seq<Dict>, restaurants: seq<Dict>)

  /** Simplifying a place can only fail with `AttributeError`. */
  lemma SimplifiedError(p: Dict)
    requires Simplified(p).Raise?
    ensures Simplified(p).error == AttributeError
  {
    MapOkError(Landmark, RawLandmarks(p), AttributeError);
  }

  /** `_segregate_and_simplify_places`: every place is filed by category and
      id; each category lists the place kept for each of its ids, once, in
      some order, simplified. */
  method SegregateAndSimplifyPlaces(custom: seq<Json>)
    returns (r: Result<Segregated>, ghost touristOrder: seq<Json>, ghost lodgingOrder: seq<Json>, ghost restaurantOrder: seq<Json>)
    ensures Filed(custom).Raise? ==> r == Raise(Filed(custom).error)
    ensures Filed(custom).Ok? ==>
              var sets := Filed(custom).value;
              var m := IdMap(custom);
              && sets.All() <= m.Keys
              && Enumerates(touristOrder, sets.tourist)
              && Enumerates(lodgingOrder, sets.lodging)
              && Enumerates(restaurantOrder, sets.restaurants)
              && (r.Ok? <==> forall id :: id in sets.All() ==> Simplified(m[id]).Ok?)
              && (r.Raise? ==> r.error == AttributeError)
              && (r.Ok? ==>
                    && r.value.tourist == MapOk(Simplified, Pick(m, touristOrder)).value
                    && r.value.lodging == MapOk(Simplified, Pick(m, lodgingOrder)).value
                    && r.value.restaurants == MapOk(Simplified, Pick(m, restaurantOrder)).value)
  {
    touristOrder, lodgingOrder, restaurantOrder := [], [], [];
    var sets := FileIds(custom);
    if sets.Raise? {
      return Raise(sets.error), touristOrder, lodgingOrder, restaurantOrder;
    }
    FiledDicts(custom);
    FiledIds(custom);
    var idMap := BuildIdMap(custom);
    var tourist, lodging, restaurants;
    tourist, touristOrder := PlacesOf(sets.value.tourist, idMap);
    lodging, lodgingOrder := PlacesOf(sets.value.lodging, idMap);
    restaurants, restaurantOrder := PlacesOf(sets.value.restaurants, idMap);
    assert tourist == Pick(idMap, touristOrder);
    assert lodging == Pick(idMap, lodgingOrder);
    assert restaurants == Pick(idMap, restaurantOrder);
    var touristS := SimplifyAll(tourist);
    var lodgingS := SimplifyAll(lodging);
    var restaurantsS := SimplifyAll(restaurants);
    PickSimplifies(idMap, sets.value.tourist, touristOrder);
    PickSimplifies(idMap, sets.value.lodging, lodgingOrder);
    PickSimplifies(idMap, sets.value.restaurants, restaurantOrder);
    if touristS.Raise? || lodgingS.Raise? || restaurantsS.Raise? {
      return Raise(AttributeError), touristOrder, lodgingOrder, restaurantOrder;
    }
    r := Ok(Segregated(touristS.value, lodgingS.value, restaurantsS.value));
  }

  /** `[m[id] for id in order]` */
  function Pick(m: map<Json, Dict>, order: seq<Json>): (r: seq<Dict>)
    requires forall k :: 0 <= k < |order| ==> order[k] in m
    ensures |r| == |order| && forall k :: 0 <= k < |order| ==> r[k] == m[order[k]]
  {
    seq(|order|, k requires 0 <= k < |order| => m[order[k]])
  }

  /** A list simplifies exactly when the place of every id it lists does. */
  lemma PickSimplifies(m: map<Json, Dict>, ids: set<Json>, order: seq<Json>)
    requires ids <= m.Keys && Enumerates(order, ids)
    ensures MapOk(Simplified, Pick(m, order)).Ok? <==> forall id :: id in ids ==> Simplified(m[id]).Ok?
    ensures MapOk(Simplified, Pick(m, order)).Raise? ==> MapOk(Simplified, Pick(m, order)).error == AttributeError
  {
    var places := Pick(m, order);
    if !forall id :: id in ids ==> Simplified(m[id]).Ok? {
      var id :| id in ids && !Simplified(m[id]).Ok?;
      var k :| 0 <= k < |order| && order[k] == id;
      assert places[k] == m[id];
    }
    forall p: Dict | Simplified(p).Raise? ensures Simplified(p).error == AttributeError {
      SimplifiedError(p);
    }
    MapOkError(Simplified, places, AttributeError);
  }

  // ---------------------------------------------------------------------
  // _build_places_plan
  // ---------------------------------------------------------------------

  /** Day `d` (from 0): the next three attractions, the first three
      restaurants for every meal, the first lodging on day 1 only. */
  function CustomPlanFor(tourist: seq<Dict>, lodging: seq<Dict>, restaurants: seq<Dict>, d: nat): DayPlan
  {
    DayPlan(d + 1, Slice(tourist, 3 * d, 3 * d + 3),
            Meals(Slice(restaurants, 0, 3), Slice(restaurants, 0, 3), Slice(restaurants, 0, 3)),
            if d == 0 then Slice(lodging, 0, 1) else [])
  }

  method BuildPlacesPlan(tourist: seq<Dict>, lodging: seq<Dict>, restaurants: seq<Dict>, days: int) returns (plan: seq<DayPlan>)
    ensures |plan| == if days > 0 then days else 0
    ensures forall d :: 0 <= d < |plan| ==> plan[d] == CustomPlanFor(tourist, lodging, restaurants, d)
  {
    plan := [];
    var tIdx := 0;
    var d := 0;
    while d < days
      invariant 0 <= d && |plan| == d && tIdx == 3 * d
      invariant days > 0 ==> d <= days
      invariant days <= 0 ==> d == 0
      invariant forall e :: 0 <= e < d ==> plan[e] == CustomPlanFor(tourist, lodging, restaurants, e)
    {
      var attractions := Slice(tourist, tIdx, tIdx + 3);
      tIdx := tIdx + 3;
      var meals := Meals(Slice(restaurants, 0, 3), Slice(restaurants, 0, 3), Slice(restaurants, 0, 3));
      plan := plan + [DayPlan(d + 1, attractions, meals, if d == 0 then Slice(lodging, 0, 1) else [])];
      d := d + 1;
    }
  }

  /** Attractions never repeat: the `k`-th is shown on day `k / 3` only,
      and a day past the end of the list has none. */
  lemma CustomAttractionsOnce(tourist: seq<Dict>, lodging: seq<Dict>, restaurants: seq<Dict>, k: nat, d: nat)
    requires k < |tourist|
    ensures |CustomPlanFor(tourist, lodging, restaurants, k / 3).attractions| > k % 3
    ensures CustomPlanFor(tourist, lodging, restaurants, k / 3).attractions[k % 3] == tourist[k]
    ensures 3 * d >= |tourist| ==> CustomPlanFor(tourist, lodging, restaurants, d).attractions == []
    ensures |CustomPlanFor(tourist, lodging, restaurants, d).attractions| <= 3
  {
    Split(k, 3);
  }

  /** Every day offers the same three restaurants for every meal, and only
      day 1 gets a lodging, the first one. */
  lemma CustomMealsAndLodging(tourist: seq<Dict>, lodging: seq<Dict>, restaurants: seq<Dict>, d: nat)
    ensures var p := CustomPlanFor(tourist, lodging, restaurants, d);
            && p.day == d + 1
            && p.restaurants.breakfast == p.restaurants.lunch == p.restaurants.dinner
            && p.restaurants.breakfast == restaurants[..if |restaurants| < 3 then |restaurants| else 3]
            && (d == 0 ==> p.lodgingOptions == lodging[..if lodging == [] then 0 else 1])
            && (d > 0 ==> p.lodgingOptions == [])
  {
  }
}
