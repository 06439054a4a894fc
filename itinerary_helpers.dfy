/** The default place planner: the grouped search results of each category
    are flattened in preference order without repeated ids, ranked by
    rating, cut down to the fields the itinerary model reads, and dealt out
    over the days of the trip. */
module ItineraryHelpers {
  import opened JsonModel
  import opened Sorting
  import opened UtilityHelpers

  // ---------------------------------------------------------------------
  // _extract_text
  // ---------------------------------------------------------------------

  /** The text of a localized-text dict, a plain string as it is, and
      `None` for anything else. */
  function ExtractText(obj: Json): (r: Json)
    ensures obj.Obj? && Has(obj, "text") ==> r == Get(obj, "text")
    ensures obj.Str? ==> r == obj
    ensures !obj.Str? && !(obj.Obj? && Has(obj, "text")) ==> r == Null
  {
    if obj.Obj? && Has(obj, "text") then Get(obj, "text")
    else if obj.Str? then obj
    else Null
  }

  // ---------------------------------------------------------------------
  // _simplify_place_for_ai
  // ---------------------------------------------------------------------

  /** The keys of a simplified place, in this order. */
  const SimplifiedKeys: seq<string> := [
    "id", "name", "types", "formatted_address", "rating", "user_rating_count",
    "price_level", "editorial_summary", "review_summary", "landmarks",
    "location", "google_maps_url", "directions_url", "photos"]

  /** The landmark list: the nested `addressDescriptor.landmarks` when the
      descriptor is a dict holding a list, else the flattened key's list
      when the nested one is empty, else nothing. */
  function RawLandmarks(place: Dict): (r: seq<Json>)
  {
    var descriptor := Get(place, "addressDescriptor");
    var nested := if descriptor.Obj? && Get(descriptor, "landmarks").Arr? then Get(descriptor, "landmarks").items else [];
    var flat := Get(place, "addressDescriptor.landmarks");
    if nested == [] && flat.Arr? then flat.items else nested
  }

  /** One landmark reduced to its name and distance; `.get` on anything but
      a dict raises `AttributeError`. */
  function Landmark(lm: Json): (r: Result<Json>)
    ensures r.Ok? <==> lm.Obj?
    ensures r.Raise? ==> r.error == AttributeError
    ensures r.Ok? ==> r.value.Obj? && |r.value.fields| == 2
  {
    if !lm.Obj? then Raise(AttributeError)
    else
      Ok(Obj([("display_name", Or(ExtractText(Get(lm, "displayName")), Get(lm, "name"))),
              ("distance_meters", Get(lm, "straightLineDistanceMeters"))]))
  }

  /** `{"lat": lat, "lng": lng}` from `location`, or else from
      `geometry.location`, when both coordinates are there; `None` otherwise.
      Reading `geometry` fails when it is present and not a dict. */
  function Location(place: Dict): (r: Result<Json>)
    ensures Truthy(Get(place, "location")) ==> r.Ok?
    ensures r.Ok? ==> r.value == Null || (r.value.Obj? && |r.value.fields| == 2
                                          && r.value.fields[0].0 == "lat" && r.value.fields[0].1 != Null
                                          && r.value.fields[1].0 == "lng" && r.value.fields[1].1 != Null)
  {
    var loc :- if Truthy(Get(place, "location")) then Ok(Get(place, "location"))
               else Chain(place, ["geometry", "location"], Null);
    if loc.Obj? then
      var lat := Or(Get(loc, "lat"), Get(loc, "latitude"));
      var lng := Or(Get(loc, "lng"), Get(loc, "longitude"));
      Ok(if lat != Null && lng != Null then Obj([("lat", lat), ("lng", lng)]) else Null)
    else Ok(Null)
  }

  /** The place link and the directions link, from `googleMapsLinks` or the
      flattened keys; a truthy `googleMapsLinks` that is not a dict raises. */
  function MapsLinks(place: Dict): (r: Result<(Json, Json)>)
    ensures r.Ok? <==> !Truthy(Get(place, "googleMapsLinks")) || Get(place, "googleMapsLinks").Obj?
  {
    var links := Or(Get(place, "googleMapsLinks"), Obj([]));
    if !links.Obj? then Raise(AttributeError)
    else
      Ok((Or(Or(Get(links, "placeUri"), Get(place, "googleMapsLinks.placeUri")), Get(place, "googleMapsUri")),
          Or(Get(links, "directionsUri"), Get(place, "googleMapsLinks.directionsUri"))))
  }

  /** The display name: the text of `displayName`, else `displayName`
      itself, else `name`. */
  function PlaceName(place: Dict): Json
  {
    Or(Or(ExtractText(Get(place, "displayName")), Get(place, "displayName")), Get(place, "name"))
  }

  /** `formattedAddress`, unwrapped when it is a localized-text dict. */
  function Address(place: Dict): Json
  {
    var address := Get(place, "formattedAddress");
    if address.Obj? then ExtractText(address) else address
  }

  /** A flattened `<key>.text` field, else the text of the nested dict. */
  function Summary(place: Dict, key: string): Json
  {
    Or(Get(place, key + ".text"), ExtractText(Get(place, key)))
  }

  /** The fields of the simplified record, assembled from its parts. */
  function RecordFields(place: Dict, landmarks: seq<Json>, location: Json, links: (Json, Json)): seq<(string, Json)>
  {
    [
      ("id", Get(place, "id")),
      ("name", PlaceName(place)),
      ("types", Or(Get(place, "types"), Arr([]))),
      ("formatted_address", Address(place)),
      ("rating", Get(place, "rating")),
      ("user_rating_count", Get(place, "userRatingCount")),
      ("price_level", Get(place, "priceLevel")),
      ("editorial_summary", Summary(place, "editorialSummary")),
      ("review_summary", Summary(place, "reviewSummary")),
      ("landmarks", Arr(landmarks)),
      ("location", location),
      ("google_maps_url", links.0),
      ("directions_url", links.1),
      ("photos", Or(Get(place, "photos"), Arr([])))]
  }

  function Record(place: Dict, landmarks: seq<Json>, location: Json, links: (Json, Json)): Dict
  {
    Obj(RecordFields(place, landmarks, location, links))
  }

  /** The simplified record of one place, or the error the first failing
      step raises: the landmark loop, then the location, then the links. */
  function Simplified(place: Dict): (r: Result<Dict>)
  {
    var landmarks :- MapOk(Landmark, RawLandmarks(place));
    var location :- Location(place);
    var links :- MapsLinks(place);
    Ok(Record(place, landmarks, location, links))
  }

  /** Simplifying fails exactly when a landmark is not a dict, `geometry`
      must be read and is not a dict, or the links are not a dict. */
  lemma SimplifiedFails(place: Dict)
    ensures Simplified(place).Ok? <==>
              (forall i :: 0 <= i < |RawLandmarks(place)| ==> RawLandmarks(place)[i].Obj?)
              && Location(place).Ok? && MapsLinks(place).Ok?
  {
  }

  /** A simplified place has exactly the planner's keys in order, keeps the
      id and rating, reduces every landmark, and carries a location only when
      both coordinates are known. */
  lemma SimplifiedShape(place: Dict)
    requires Simplified(place).Ok?
    ensures var fields := Simplified(place).value.fields;
            && |fields| == |SimplifiedKeys|
            && (forall i :: 0 <= i < |fields| ==> fields[i].0 == SimplifiedKeys[i])
            && fields[0].1 == Get(place, "id")
            && fields[4].1 == Get(place, "rating")
            && fields[9].1 == Arr(MapOk(Landmark, RawLandmarks(place)).value)
            && |MapOk(Landmark, RawLandmarks(place)).value| == |RawLandmarks(place)|
            && fields[10].1 == Location(place).value
  {
    var landmarks := MapOk(Landmark, RawLandmarks(place)).value;
    var location := Location(place).value;
    var links := MapsLinks(place).value;
    assert Simplified(place).value == Record(place, landmarks, location, links);
    RecordKeys(place, landmarks, location, links);
  }

  lemma RecordKeys(place: Dict, landmarks: seq<Json>, location: Json, links: (Json, Json))
    ensures var fields := RecordFields(place, landmarks, location, links);
            |fields| == |SimplifiedKeys| && forall i :: 0 <= i < |fields| ==> fields[i].0 == SimplifiedKeys[i]
  {
  }

  /** `_simplify_place_for_ai(place)`: the landmark loop reduces each
      landmark in turn. */
  method SimplifyPlaceForAi(place: Dict) returns (r: Result<Dict>)
    ensures r == Simplified(place)
  {
    var raw := RawLandmarks(place);
    var landmarks: seq<Json> := [];
    var i := 0;
    while i < |raw|
      invariant 0 <= i <= |raw|
      invariant |landmarks| == i
      invariant forall k :: 0 <= k < i ==> Landmark(raw[k]) == Ok(landmarks[k])
    {
      var item := Landmark(raw[i]);
      if item.Raise? {
        MapOkFails(Landmark, raw, i);
        return Raise(item.error);
      }
      landmarks := landmarks + [item.value];
      i := i + 1;
    }
    MapOkAll(Landmark, raw, landmarks);
    var location :- Location(place);
    var links :- MapsLinks(place);
    return Ok(Record(place, landmarks, location, links));
  }

  /** `[_simplify_place_for_ai(p) for p in places]` */
  method SimplifyAll(places: seq<Dict>) returns (r: Result<seq<Dict>>)
    ensures r == MapOk(Simplified, places)
  {
    var simplified: seq<Dict> := [];
    var i := 0;
    while i < |places|
      invariant 0 <= i <= |places|
      invariant |simplified| == i
      invariant forall k :: 0 <= k < i ==> Simplified(places[k]) == Ok(simplified[k])
    {
      var s := SimplifyPlaceForAi(places[i]);
      if s.Raise? {
        MapOkFails(Simplified, places, i);
        return Raise(s.error);
      }
      MapOkStep(Simplified, places, simplified, s.value);
      simplified := simplified + [s.value];
      i := i + 1;
    }
    MapOkAll(Simplified, places, simplified);
    return Ok(simplified);
  }

  // ---------------------------------------------------------------------
  // _flatten_grouped_places
  // ---------------------------------------------------------------------

  /** `p.get("id")` */
  function IdField(p: Dict): Json
  {
    Get(p, "id")
  }

  /** The groups read, in order: the preferences then `"_others"`, or
      `"General"` then `"_others"` when there are no preferences. */
  function FlattenOrder(preferences: seq<string>): (r: seq<string>)
    ensures |r| >= 2 && r[|r| - 1] == Others
    ensures preferences == [] ==> r == [General, Others]
    ensures preferences != [] ==> r[..|r| - 1] == preferences
  {
    (if preferences == [] then [General] else preferences) + [Others]
  }

  /** What reading one group member raises, if anything: `p.get("id")` on a
      member that is not a dict, or `pid not in seen_ids` on a truthy id that
      is a list or a dict. */
  function ItemFault(p: Json): (r: Option<PyError>)
    ensures r.None? <==> p.Obj? && (!Truthy(Get(p, "id")) || Hashable(Get(p, "id")))
    ensures r.Some? ==> (r.value == AttributeError <==> !p.Obj?)
    ensures r.Some? ==> (r.value == TypeError <==> p.Obj?)
  {
    if !p.Obj? then Some(AttributeError)
    else if Truthy(Get(p, "id")) && !Hashable(Get(p, "id")) then Some(TypeError)
    else None
  }

  /** What the first member that raises raises, if any member does. */
  function FirstFault(items: seq<Json>): (r: Option<PyError>)
    ensures r.None? <==> forall i :: 0 <= i < |items| ==> ItemFault(items[i]).None?
    ensures r.Some? ==> exists i :: 0 <= i < |items| && ItemFault(items[i]) == r &&
                                    forall j :: 0 <= j < i ==> ItemFault(items[j]).None?
  {
    if items == [] then None
    else if ItemFault(items[0]).Some? then ItemFault(items[0])
    else
      var r := FirstFault(items[1..]);
      assert forall i :: 1 <= i < |items| ==> items[i] == items[1..][i - 1];
      r
  }

  lemma {:induction false} FirstFaultAppend(a: seq<Json>, b: seq<Json>)
    ensures FirstFault(a + b) == if FirstFault(a).Some? then FirstFault(a) else FirstFault(b)
    decreases |a|
  {
    if a == [] {
      assert a + b == b;
    } else {
      assert (a + b)[1..] == a[1..] + b;
      FirstFaultAppend(a[1..], b);
    }
  }

  /** Members that raise nothing are dicts. */
  function AsDicts(items: seq<Json>): (r: seq<Dict>)
    requires forall i :: 0 <= i < |items| ==> items[i].Obj?
    ensures r == items
  {
    items
  }

  /** `grouped.get(key, [])`, iterated. */
  function GroupItems(grouped: Json, key: string): (r: Result<seq<Json>>)
    ensures !grouped.Obj? ==> r == Raise(AttributeError)
    ensures grouped.Obj? && !Has(grouped, key) ==> r == Ok([])
    ensures grouped.Obj? && Get(grouped, key).Arr? ==> r == Ok(Get(grouped, key).items)
    ensures grouped.Obj? && Has(grouped, key) ==>
              (r.Ok? <==> Get(grouped, key).Arr? || Get(grouped, key).Str? || Get(grouped, key).Obj?)
    ensures grouped.Obj? && r.Raise? ==> r.error == TypeError
  {
    var v :- GetFrom(grouped, key, Arr([]));
    Iterate(v)
  }

  /** The members read from a run of groups, one group after another, and
      the error of the first group that cannot be iterated, where reading
      stops. */
  datatype Read = Read(items: seq<Json>, failure: Option<PyError>)

  function ReadGroups(grouped: Json, keys: seq<string>): (r: Read)
    decreases |keys|
  {
    if keys == [] then Read([], None)
    else
      var init := ReadGroups(grouped, keys[..|keys| - 1]);
      if init.failure.Some? then init
      else
        match GroupItems(grouped, keys[|keys| - 1])
        case Raise(e) => Read(init.items, Some(e))
        case Ok(last) => Read(init.items + last, None)
  }

  /** The flattened places: the first place of each truthy id, in group
      order. The members of the groups read are handled one by one, so a
      member that raises does so before any later group is read. */
  function Flattened(grouped: Json, preferences: seq<string>): (r: Result<seq<Dict>>)
    ensures var read := ReadGroups(grouped, FlattenOrder(preferences));
            r.Ok? <==> FirstFault(read.items).None? && read.failure.None?
    ensures var read := ReadGroups(grouped, FlattenOrder(preferences));
            FirstFault(read.items).Some? ==> r == Raise(FirstFault(read.items).value)
  {
    var read := ReadGroups(grouped, FlattenOrder(preferences));
    match FirstFault(read.items)
    case Some(e) => Raise(e)
    case None =>
      if read.failure.Some? then Raise(read.failure.value)
      else Ok(NewPlaces(AsDicts(read.items), {}, IdField))
  }

  method FlattenGroupedPlaces(grouped: Json, preferences: seq<string>) returns (r: Result<seq<Dict>>)
    ensures r == Flattened(grouped, preferences)
  {
    var order := FlattenOrder(preferences);
    var result: seq<Dict> := [];
    var seenIds: set<Json> := {};
    ghost var all: seq<Dict> := [];
    var k := 0;
    while k < |order|
      invariant 0 <= k <= |order|
      invariant ReadGroups(grouped, order[..k]) == Read(all, None)
      invariant FirstFault(all) == None
      invariant result == NewPlaces(all, {}, IdField)
      invariant seenIds == SeenAfter(all, {}, IdField)
    {
      ReadStep(grouped, order, k);
      var members := GroupItems(grouped, order[k]);
      if members.Raise? {
        ReadStops(grouped, order, k + 1);
        return Raise(members.error);
      }
      var fault;
      fault, result, seenIds := AppendNew(result, seenIds, all, members.value);
      FirstFaultAppend(all, members.value);
      if fault.Some? {
        FaultSticks(grouped, order, k + 1);
        return Raise(fault.value);
      }
      all := all + AsDicts(members.value);
      k := k + 1;
    }
    assert order[..k] == order;
    return Ok(result);
  }

  /** One group's loop: each member whose truthy id is not yet seen is
      appended and its id recorded; the first member that raises ends it. */
  method AppendNew(result: seq<Dict>, seenIds: set<Json>, ghost before: seq<Dict>, group: seq<Json>)
    returns (fault: Option<PyError>, result': seq<Dict>, seenIds': set<Json>)
    requires result == NewPlaces(before, {}, IdField)
    requires seenIds == SeenAfter(before, {}, IdField)
    ensures fault == FirstFault(group)
    ensures fault.None? ==> result' == NewPlaces(before + AsDicts(group), {}, IdField)
    ensures fault.None? ==> seenIds' == SeenAfter(before + AsDicts(group), {}, IdField)
  {
    result', seenIds' := result, seenIds;
    var j := 0;
    assert before + AsDicts(group[..0]) == before;
    while j < |group|
      invariant 0 <= j <= |group|
      invariant FirstFault(group[..j]) == None
      invariant result' == NewPlaces(before + AsDicts(group[..j]), {}, IdField)
      invariant seenIds' == SeenAfter(before + AsDicts(group[..j]), {}, IdField)
    {
      var item := group[j];
      assert group[..j + 1] == group[..j] + [item];
      FirstFaultAppend(group[..j], [item]);
      assert FirstFault([item]) == ItemFault(item);
      if ItemFault(item).Some? {
        assert group == group[..j + 1] + group[j + 1..];
        FirstFaultAppend(group[..j + 1], group[j + 1..]);
        if !item.Obj? {
          return Some(AttributeError), result', seenIds';
        }
        return Some(TypeError), result', seenIds';
      }
      var p: Dict := item;
      var pid := Get(p, "id");
      NewPlacesSnoc(before + AsDicts(group[..j]), p, {}, IdField);
      assert before + AsDicts(group[..j + 1]) == before + AsDicts(group[..j]) + [p];
      if Truthy(pid) && pid !in seenIds' {
        seenIds' := seenIds' + {pid};
        result' := result' + [p];
      }
      j := j + 1;
    }
    assert group[..j] == group;
    return None, result', seenIds';
  }

  /** The loop over the group keys takes one more step. */
  lemma ReadStep(grouped: Json, keys: seq<string>, k: int)
    requires 0 <= k < |keys|
    ensures ReadGroups(grouped, keys[..k + 1]) ==
              var init := ReadGroups(grouped, keys[..k]);
              if init.failure.Some? then init
              else
                match GroupItems(grouped, keys[k])
                case Raise(e) => Read(init.items, Some(e))
                case Ok(last) => Read(init.items + last, None)
  {
    assert keys[..k + 1][..k] == keys[..k];
  }

  /** Once a group cannot be iterated, no later group is read. */
  lemma {:induction false} ReadStops(grouped: Json, keys: seq<string>, n: int)
    requires 0 <= n <= |keys|
    requires ReadGroups(grouped, keys[..n]).failure.Some?
    ensures ReadGroups(grouped, keys) == ReadGroups(grouped, keys[..n])
    decreases |keys| - n
  {
    if n < |keys| {
      assert keys[..n + 1][..n] == keys[..n];
      ReadStops(grouped, keys, n + 1);
    } else {
      assert keys[..n] == keys;
    }
  }

  /** Reading more groups only adds members behind those already read. */
  lemma {:induction false} ReadGrows(grouped: Json, keys: seq<string>, n: int)
    requires 0 <= n <= |keys|
    ensures ReadGroups(grouped, keys[..n]).items <= ReadGroups(grouped, keys).items
    decreases |keys| - n
  {
    if n < |keys| {
      assert keys[..n + 1][..n] == keys[..n];
      ReadGrows(grouped, keys, n + 1);
    } else {
      assert keys[..n] == keys;
    }
  }

  /** A member that raises among the groups read so far decides the error
      of the whole flattening. */
  lemma FaultSticks(grouped: Json, keys: seq<string>, n: int)
    requires 0 <= n <= |keys|
    requires FirstFault(ReadGroups(grouped, keys[..n]).items).Some?
    ensures FirstFault(ReadGroups(grouped, keys).items) == FirstFault(ReadGroups(grouped, keys[..n]).items)
  {
    var p := ReadGroups(grouped, keys[..n]).items;
    var whole := ReadGroups(grouped, keys).items;
    ReadGrows(grouped, keys, n);
    assert whole == p + whole[|p|..];
    FirstFaultAppend(p, whole[|p|..]);
  }

  /** A group that cannot be iterated, after members that all read, fails
      the whole flattening with its own error. */
  lemma ReadFailureSticks(grouped: Json, preferences: seq<string>, n: int)
    requires 0 <= n <= |FlattenOrder(preferences)|
    requires ReadGroups(grouped, FlattenOrder(preferences)[..n]).failure.Some?
    requires FirstFault(ReadGroups(grouped, FlattenOrder(preferences)[..n]).items).None?
    ensures Flattened(grouped, preferences) == Raise(ReadGroups(grouped, FlattenOrder(preferences)[..n]).failure.value)
  {
    ReadStops(grouped, FlattenOrder(preferences), n);
  }

  /** A list id, even in the last group read, makes the flattening raise
      `TypeError` rather than keep the place. */
  lemma UnhashableIdRaises(others: seq<Json>)
    ensures Flattened(Obj([(Others, Arr([Obj([("id", Arr([Str("x")]))])] + others))]), []) == Raise(TypeError)
  {
    var bad := Obj([("id", Arr([Str("x")]))]);
    var grouped := Obj([(Others, Arr([bad] + others))]);
    assert ItemFault(bad) == Some(TypeError);
    var read := ReadGroups(grouped, [General, Others]);
    assert [General, Others][..1] == [General];
    assert General != Others by { assert General[0] != Others[0]; }
    assert grouped.fields[0].0 != General;
    assert Lookup(grouped.fields, General) == Lookup(grouped.fields[1..], General);
    assert grouped.fields[1..] == [];
    assert !Has(grouped, General);
    assert GroupItems(grouped, General) == Ok([]);
    assert ReadGroups(grouped, [General]) == Read([], None);
    assert read.items == [bad] + others;
  }

  /** `all[j]` is the first place of `all` to carry its id. */
  ghost predicate FirstOfId(all: seq<Dict>, j: int)
  {
    0 <= j < |all| && forall i :: 0 <= i < j ==> IdField(all[i]) != IdField(all[j])
  }

  /** `r` holds the first place of `all` of every truthy id, and nothing
      else: its ids are truthy and pairwise different, each of its places is
      the first of `all` to carry its id, and every such first place with a
      truthy id is in it. */
  ghost predicate FirstOccurrences(all: seq<Dict>, r: seq<Dict>)
  {
    && (forall p :: p in r ==> Truthy(IdField(p)))
    && (forall i, j :: 0 <= i < j < |r| ==> IdField(r[i]) != IdField(r[j]))
    && (forall p :: p in r ==> exists j :: FirstOfId(all, j) && all[j] == p)
    && (forall j :: FirstOfId(all, j) && Truthy(IdField(all[j])) ==> all[j] in r)
  }

  lemma NewPlacesFirstOccurrences(all: seq<Dict>)
    ensures FirstOccurrences(all, NewPlaces(all, {}, IdField))
  {
    NewPlacesFresh(all, {}, IdField);
    forall p | p in NewPlaces(all, {}, IdField)
      ensures exists j :: FirstOfId(all, j) && all[j] == p
    {
      NewPlacesFromFirst(all, {}, IdField, p);
      var j :| 0 <= j < |all| && all[j] == p && forall i :: 0 <= i < j ==> IdField(all[i]) != IdField(p);
      assert FirstOfId(all, j);
    }
    forall j | FirstOfId(all, j) && Truthy(IdField(all[j]))
      ensures all[j] in NewPlaces(all, {}, IdField)
    {
      NewPlacesKeepsFirst(all, {}, IdField, j);
    }
  }

  /** The flattened list keeps exactly the first place of each truthy id of
      the groups read, in group order. */
  lemma FlattenedFirstOccurrences(grouped: Json, preferences: seq<string>)
    requires Flattened(grouped, preferences).Ok?
    ensures var items := ReadGroups(grouped, FlattenOrder(preferences)).items;
            && (forall i :: 0 <= i < |items| ==> items[i].Obj?)
            && FirstOccurrences(AsDicts(items), Flattened(grouped, preferences).value)
  {
    var items := ReadGroups(grouped, FlattenOrder(preferences)).items;
    NewPlacesFirstOccurrences(AsDicts(items));
  }

  /** Reading a group depends on nothing but that group's entry. */
  lemma {:induction false} ReadFrame(grouped: Json, other: Json, keys: seq<string>)
    requires grouped.Obj? && other.Obj?
    requires forall k :: k in keys ==> Lookup(grouped.fields, k) == Lookup(other.fields, k)
    ensures ReadGroups(grouped, keys) == ReadGroups(other, keys)
    decreases |keys|
  {
    if keys != [] {
      ReadFrame(grouped, other, keys[..|keys| - 1]);
      assert keys[|keys| - 1] in keys;
    }
  }

  /** Groups that are not read (any key other than the preferences and
      `"_others"`, such as `"General"` when there are preferences) have no
      effect on the flattened list. */
  lemma FlattenIgnoresOtherGroups(grouped: Dict, preferences: seq<string>, key: string, v: Json)
    requires key !in FlattenOrder(preferences)
    ensures Flattened(Put(grouped, key, v), preferences) == Flattened(grouped, preferences)
  {
    ReadFrame(Put(grouped, key, v), grouped, FlattenOrder(preferences));
  }

  // ---------------------------------------------------------------------
  // sort_by_rating
  // ---------------------------------------------------------------------

  /** `x.get("rating") is not None` */
  predicate Rated(p: Dict)
  {
    Get(p, "rating") != Null
  }

  /** `x.get("rating") or 0`, the second part of the sort key. */
  function Score(p: Dict): Json
  {
    Or(Get(p, "rating"), Int(0))
  }

  /** The key `(rating is not None, rating or 0)` in ascending order. */
  function RatingKey(p: Dict): SortKey
  {
    var k := KeyOrLast(Score(p));
    SortKey(if Rated(p) then 1 else 0, k.num, k.text)
  }

  /** The second parts Python compares with one another: those of the rated
      places (every unrated place has the second part 0). */
  function RatedScores(places: seq<Dict>): (r: seq<Json>)
    ensures |r| <= |places|
  {
    if places == [] then []
    else (if Rated(places[0]) then [Score(places[0])] else []) + RatedScores(places[1..])
  }

  /** Python compares two keys `(True, a)` and `(True, b)` by checking
      `a == b` first and only then `a < b`: every two rated scores are
      equal, or both numbers, or both strings. */
  predicate ScoresComparable(scores: seq<Json>)
  {
    forall i, j :: 0 <= i < j < |scores| ==>
      PyEq(scores[i], scores[j]) || (IsNumber(scores[i]) && IsNumber(scores[j])) || (scores[i].Str? && scores[j].Str?)
  }

  /** `sorted(lst, key=..., reverse=True)`; two unequal rated scores that
      are not both numbers or both strings raise `TypeError`. */
  function SortByRating(places: seq<Dict>): (r: Result<seq<Dict>>)
    ensures r.Ok? <==> ScoresComparable(RatedScores(places))
    ensures Orderable(RatedScores(places)) ==> r.Ok?
  {
    OrderableComparable(RatedScores(places));
    if ScoresComparable(RatedScores(places)) then Ok(SortDesc(places, RatingKey)) else Raise(TypeError)
  }

  /** Scores Python can order are comparable. */
  lemma OrderableComparable(scores: seq<Json>)
    ensures Orderable(scores) ==> ScoresComparable(scores)
  {
  }

  /** A value Python equates with a non-number, non-string value is one too. */
  lemma PyEqOther(a: Json, b: Json)
    requires PyEq(a, b) || PyEq(b, a)
    requires !IsNumber(a) && !a.Str?
    ensures !IsNumber(b) && !b.Str?
  {
  }

  /** Comparable scores are all numbers, all strings, or all equal to one
      another and neither numbers nor strings, so that they share the last
      sort key. */
  lemma {:induction false} ComparableScoresCases(scores: seq<Json>)
    requires ScoresComparable(scores)
    ensures || (forall i :: 0 <= i < |scores| ==> IsNumber(scores[i]))
            || (forall i :: 0 <= i < |scores| ==> scores[i].Str?)
            || ((forall i, j :: 0 <= i < j < |scores| ==> PyEq(scores[i], scores[j])) &&
                (forall i :: 0 <= i < |scores| ==> KeyOrLast(scores[i]) == SortKey(2, 0.0, "")))
  {
    if k :| 0 <= k < |scores| && !IsNumber(scores[k]) && !scores[k].Str? {
      forall i | 0 <= i < |scores| ensures !IsNumber(scores[i]) && !scores[i].Str? {
        if i < k {
          assert PyEq(scores[i], scores[k]);
          PyEqOther(scores[k], scores[i]);
        } else if i > k {
          assert PyEq(scores[k], scores[i]);
          PyEqOther(scores[k], scores[i]);
        }
      }
    } else if n :| 0 <= n < |scores| && !IsNumber(scores[n]) {
      forall i | 0 <= i < |scores| ensures scores[i].Str? {
        if i < n {
          assert PyEq(scores[i], scores[n]) || scores[i].Str?;
        } else if i > n {
          assert PyEq(scores[n], scores[i]) || scores[i].Str?;
        }
      }
    }
  }

  /** The numeric value of a rating, for places rated with a number. */
  function RatingValue(p: Dict): real
  {
    KeyOrLast(Score(p)).num
  }

  /** The ranked list is a permutation of its input; every rated place comes
      before every unrated one; numeric ratings never increase; and places
      with equal keys keep their flattened order. */
  lemma SortByRatingCorrect(places: seq<Dict>)
    requires SortByRating(places).Ok?
    ensures var r := SortByRating(places).value;
            && multiset(r) == multiset(places)
            && (forall i, j :: 0 <= i < j < |r| && Rated(r[j]) ==> Rated(r[i]))
            && (forall i, j :: 0 <= i < j < |r| && Rated(r[i]) && Rated(r[j]) && IsNumber(Score(r[i])) && IsNumber(Score(r[j]))
                  ==> RatingValue(r[j]) <= RatingValue(r[i]))
            && (forall k :: WithKey(r, RatingKey, k) == WithKey(places, RatingKey, k))
  {
    SortDescCorrect(places, RatingKey);
  }

  /** Two places rated with the same dict keep their order: Python finds
      the two keys equal and never asks which is smaller. */
  lemma EqualDictRatingsKeepOrder()
    ensures var p: Dict := Obj([("name", Str("a")), ("rating", Obj([("v", Int(1))]))]);
            var q: Dict := Obj([("name", Str("b")), ("rating", Obj([("v", Int(1))]))]);
            SortByRating([p, q]) == Ok([p, q])
  {
    var p: Dict := Obj([("name", Str("a")), ("rating", Obj([("v", Int(1))]))]);
    var q: Dict := Obj([("name", Str("b")), ("rating", Obj([("v", Int(1))]))]);
    var rating := Obj([("v", Int(1))]);
    assert "name" != "rating";
    LookupAt(p.fields, 1, "rating");
    LookupAt(q.fields, 1, "rating");
    assert RatedScores([p, q]) == [rating, rating] by {
      assert [p, q][1..] == [q];
    }
    assert PyEq(rating, rating) by {
      assert Lookup(rating.fields, "v") == Some(Int(1));
    }
    assert ScoresComparable([rating, rating]);
    SortDescTied([p, q], RatingKey);
  }

  /** Two places rated with different dicts: Python goes on to `<` on two
      dicts, which raises `TypeError`. */
  lemma UnequalDictRatingsRaise()
    ensures var p: Dict := Obj([("rating", Obj([("v", Int(1))]))]);
            var q: Dict := Obj([("rating", Obj([("v", Int(1)), ("w", Int(2))]))]);
            SortByRating([p, q]) == Raise(TypeError)
  {
    var p: Dict := Obj([("rating", Obj([("v", Int(1))]))]);
    var q: Dict := Obj([("rating", Obj([("v", Int(1)), ("w", Int(2))]))]);
    LookupAt(p.fields, 0, "rating");
    LookupAt(q.fields, 0, "rating");
    var a, b := Obj([("v", Int(1))]), Obj([("v", Int(1)), ("w", Int(2))]);
    assert RatedScores([p, q]) == [a, b] by {
      assert [p, q][1..] == [q];
    }
    assert !PyEq(a, b) by {
      assert |a.fields| != |b.fields|;
    }
    assert !ScoresComparable([a, b]) by {
      assert [a, b][0] == a && [a, b][1] == b;
    }
  }

  // ---------------------------------------------------------------------
  // build_daywise_place_plan
  // ---------------------------------------------------------------------

  datatype Meals = Meals(breakfast: seq<Dict>, lunch: seq<Dict>, dinner: seq<Dict>)

  /** One entry of the day-wise plan: `{"day", "attractions", "restaurants",
      "lodging_options"}`. */
  datatype DayPlan = DayPlan(day: int, attractions: seq<Dict>, restaurants: Meals, lodgingOptions: seq<Dict>)

  /** Python's `s[a:b]` for `0 <= a <= b`. */
  function Slice(s: seq<Dict>, a: nat, b: nat): (r: seq<Dict>)
    requires a <= b
    ensures |r| <= b - a
  {
    if a >= |s| then [] else if b >= |s| then s[a..] else s[a..b]
  }

  /** Five attractions per day, continuing round the ranked pool. */
  function AttractionsFor(ta: seq<Dict>, dayIdx: nat): (r: seq<Dict>)
  {
    if ta == [] then [] else seq(5, i requires 0 <= i < 5 => ta[(5 * dayIdx + i) % |ta|])
  }

  /** Where the day's restaurant block starts: its own window while
      restaurants last, the top of the list afterwards. */
  function WindowStart(rest: seq<Dict>, dayIdx: nat): nat
  {
    if 3 * dayIdx < |rest| then 3 * dayIdx else 0
  }

  /** `rest[3d:3d+3] or rest[:3]` */
  function RestaurantWindow(rest: seq<Dict>, dayIdx: nat): (r: seq<Dict>)
  {
    var start := if rest != [] then 3 * dayIdx else 0;
    var block := Slice(rest, start, start + 3);
    if block != [] then block else Slice(rest, 0, 3)
  }

  /** Lodging suggestions go to day 1 only. */
  function LodgingFor(lodg: seq<Dict>, dayNumber: int): seq<Dict>
  {
    if dayNumber == 1 then Slice(lodg, 0, 5) else []
  }

  function PlanFor(ta: seq<Dict>, rest: seq<Dict>, lodg: seq<Dict>, dayIdx: nat): DayPlan
  {
    var block := RestaurantWindow(rest, dayIdx);
    DayPlan(dayIdx + 1, AttractionsFor(ta, dayIdx),
            Meals(Slice(block, 0, 3), Slice(block, 0, 3), Slice(block, 0, 3)),
            LodgingFor(lodg, dayIdx + 1))
  }

  /** Day `d` (from 0) has exactly five attractions when the pool is not
      empty, none otherwise, and repeats one within the day only when the
      pool holds fewer than five. */
  lemma AttractionsShape(ta: seq<Dict>, dayIdx: nat)
    ensures ta == [] ==> AttractionsFor(ta, dayIdx) == []
    ensures ta != [] ==> |AttractionsFor(ta, dayIdx)| == 5
    ensures ta != [] ==> forall i :: 0 <= i < 5 ==> AttractionsFor(ta, dayIdx)[i] in ta
    ensures |ta| >= 5 && (forall i, j :: 0 <= i < j < |ta| ==> ta[i] != ta[j]) ==>
              forall i, j :: 0 <= i < j < 5 ==> AttractionsFor(ta, dayIdx)[i] != AttractionsFor(ta, dayIdx)[j]
  {
    if |ta| >= 5 && (forall i, j :: 0 <= i < j < |ta| ==> ta[i] != ta[j]) {
      forall i, j | 0 <= i < j < 5 ensures AttractionsFor(ta, dayIdx)[i] != AttractionsFor(ta, dayIdx)[j] {
        ModDiffers(5 * dayIdx, i, j, |ta|);
      }
    }
  }

  lemma ModDiffers(base: nat, i: nat, j: nat, n: nat)
    requires i < j < 5 <= n
    ensures (base + i) % n != (base + j) % n
  {
    var a, d := base + i, j - i;
    var k := (a + d) / n - a / n;
    assert (a + d) % n - a % n == d - n * k by {
      assert a == n * (a / n) + a % n;
      assert a + d == n * ((a + d) / n) + (a + d) % n;
      MulSub(n, (a + d) / n, a / n);
    }
    if k >= 1 {
      MulAtLeast(n, k);
    } else {
      MulAtMost(n, k);
    }
  }

  lemma MulSub(n: int, x: int, y: int)
    ensures n * x - n * y == n * (x - y)
  {
  }

  lemma {:induction false} MulAtLeast(n: nat, k: int)
    requires k >= 1
    ensures n * k >= n
    decreases k
  {
    if k > 1 {
      MulAtLeast(n, k - 1);
      assert n * k == n * (k - 1) + n;
    }
  }

  lemma {:induction false} MulAtMost(n: nat, k: int)
    requires k <= 0
    ensures n * k <= 0
    decreases -k
  {
    if k < 0 {
      MulAtMost(n, k + 1);
      assert n * k == n * (k + 1) - n;
    }
  }

  /** The `k`-th ranked attraction is shown on day `k / 5` (from 0), in slot
      `k % 5`; so a trip of at least `len / 5` rounded up days shows them all. */
  lemma EveryAttractionShown(ta: seq<Dict>, k: nat)
    requires k < |ta|
    ensures AttractionsFor(ta, k / 5)[k % 5] == ta[k]
  {
    var day, slot := k / 5, k % 5;
    Split(k, 5);
    ModSmall(k, |ta|);
    assert AttractionsFor(ta, day)[slot] == ta[(5 * day + slot) % |ta|];
  }

  lemma Split(k: nat, n: nat)
    requires n > 0
    ensures n * (k / n) + k % n == k && 0 <= k % n < n
  {
  }

  lemma ModSmall(k: nat, n: nat)
    requires k < n
    ensures k % n == k
  {
  }

  /** The restaurant block holds at most three places, is empty only when
      there are no restaurants, is a run of consecutive ranked restaurants,
      and is the day's own fresh window while restaurants last. */
  lemma RestaurantWindowShape(rest: seq<Dict>, dayIdx: nat)
    ensures |RestaurantWindow(rest, dayIdx)| <= 3
    ensures RestaurantWindow(rest, dayIdx) == [] <==> rest == []
    ensures WindowStart(rest, dayIdx) + |RestaurantWindow(rest, dayIdx)| <= |rest|
    ensures RestaurantWindow(rest, dayIdx)
            == rest[WindowStart(rest, dayIdx)..WindowStart(rest, dayIdx) + |RestaurantWindow(rest, dayIdx)|]
    ensures 3 * dayIdx + 3 <= |rest| ==> RestaurantWindow(rest, dayIdx) == rest[3 * dayIdx..3 * dayIdx + 3]
    ensures 3 * dayIdx >= |rest| ==> RestaurantWindow(rest, dayIdx) == Slice(rest, 0, 3)
  {
  }

  /** Every ranked restaurant `k` is offered on day `k / 3` (from 0). */
  lemma EveryRestaurantOffered(rest: seq<Dict>, k: nat)
    requires k < |rest|
    ensures |RestaurantWindow(rest, k / 3)| > k % 3
    ensures RestaurantWindow(rest, k / 3)[k % 3] == rest[k]
  {
    assert 3 * (k / 3) + k % 3 == k;
  }

  /** A day's plan: numbered from 1, breakfast, lunch and dinner the same
      block of at most three restaurants, lodging (the first five ranked)
      on day 1 only. */
  lemma PlanShape(ta: seq<Dict>, rest: seq<Dict>, lodg: seq<Dict>, dayIdx: nat)
    ensures PlanFor(ta, rest, lodg, dayIdx).day == dayIdx + 1
    ensures var m := PlanFor(ta, rest, lodg, dayIdx).restaurants;
            m.breakfast == m.lunch == m.dinner == RestaurantWindow(rest, dayIdx)
    ensures dayIdx == 0 ==> PlanFor(ta, rest, lodg, dayIdx).lodgingOptions == lodg[..if |lodg| < 5 then |lodg| else 5]
    ensures dayIdx > 0 ==> PlanFor(ta, rest, lodg, dayIdx).lodgingOptions == []
  {
    RestaurantWindowShape(rest, dayIdx);
  }

  /** The day's five attractions, continuing round the pool. */
  method PickAttractions(ta: seq<Dict>, dayIdx: nat) returns (attractions: seq<Dict>)
    ensures attractions == AttractionsFor(ta, dayIdx)
  {
    var taStart := dayIdx * 5;
    attractions := [];
    var i := 0;
    while i < 5
      invariant 0 <= i <= 5
      invariant ta == [] ==> attractions == []
      invariant ta != [] ==> attractions == AttractionsFor(ta, dayIdx)[..i]
    {
      if ta == [] {
        break;
      }
      var idx := (taStart + i) % |ta|;
      attractions := attractions + [ta[idx]];
      i := i + 1;
    }
    assert ta != [] ==> i == 5 && AttractionsFor(ta, dayIdx)[..5] == AttractionsFor(ta, dayIdx);
  }

  /** One iteration of the day loop. */
  method PlanDay(ta: seq<Dict>, rest: seq<Dict>, lodg: seq<Dict>, dayIdx: nat) returns (plan: DayPlan)
    ensures plan == PlanFor(ta, rest, lodg, dayIdx)
  {
    var dayNumber := dayIdx + 1;
    var attractions := PickAttractions(ta, dayIdx);
    var restStart := if rest != [] then dayIdx * 3 else 0;
    var block := Slice(rest, restStart, restStart + 3);
    if block == [] {
      block := Slice(rest, 0, 3);
    }
    var meals := Meals(Slice(block, 0, 3), Slice(block, 0, 3), Slice(block, 0, 3));
    var lodging := if dayNumber == 1 then Slice(lodg, 0, 5) else [];
    plan := DayPlan(dayNumber, attractions, meals, lodging);
  }

  /** The `days` day plans, built one day at a time. */
  method DayPlans(ta: seq<Dict>, rest: seq<Dict>, lodg: seq<Dict>, days: int) returns (plans: seq<DayPlan>)
    ensures |plans| == if days > 0 then days else 0
    ensures forall d :: 0 <= d < |plans| ==> plans[d] == PlanFor(ta, rest, lodg, d)
  {
    plans := [];
    var dayIdx := 0;
    while dayIdx < days
      invariant 0 <= dayIdx && |plans| == dayIdx
      invariant days > 0 ==> dayIdx <= days
      invariant days <= 0 ==> dayIdx == 0
      invariant forall d :: 0 <= d < dayIdx ==> plans[d] == PlanFor(ta, rest, lodg, d)
    {
      var plan := PlanDay(ta, rest, lodg, dayIdx);
      ExtendByIndex(plans, plan, d => PlanFor(ta, rest, lodg, d));
      plans := plans + [plan];
      dayIdx := dayIdx + 1;
    }
  }

  /** `reference_places.get(key, {}) or {}` */
  function Grouped(reference: Dict, key: string): Json
  {
    Or(GetOr(reference, key, Obj([])), Obj([]))
  }

  /** One category's ranked, simplified pool. */
  function Pool(grouped: Json, preferences: seq<string>): Result<seq<Dict>>
  {
    var flat :- Flattened(grouped, preferences);
    var ranked :- SortByRating(flat);
    MapOk(Simplified, ranked)
  }

  /** `build_daywise_place_plan`: the plan of `days` days dealt from the
      ranked pools of attractions, restaurants and lodging. */
  method BuildDaywisePlacePlan(reference: Dict, preferences: seq<string>, days: int) returns (r: Result<seq<DayPlan>>)
    ensures r.Ok? <==> && Pool(Grouped(reference, "tourist_attractions"), preferences).Ok?
                       && Pool(Grouped(reference, "restaurants"), preferences).Ok?
                       && Pool(Grouped(reference, "lodging"), preferences).Ok?
    ensures r.Ok? ==> |r.value| == (if days > 0 then days else 0)
    ensures r.Ok? ==> forall d :: 0 <= d < |r.value| ==>
              r.value[d] == PlanFor(Pool(Grouped(reference, "tourist_attractions"), preferences).value,
                                    Pool(Grouped(reference, "restaurants"), preferences).value,
                                    Pool(Grouped(reference, "lodging"), preferences).value, d)
  {
    var taFlat :- FlattenGroupedPlaces(Grouped(reference, "tourist_attractions"), preferences);
    var restFlat :- FlattenGroupedPlaces(Grouped(reference, "restaurants"), preferences);
    var lodgFlat :- FlattenGroupedPlaces(Grouped(reference, "lodging"), preferences);
    var taRanked :- SortByRating(taFlat);
    var restRanked :- SortByRating(restFlat);
    var lodgRanked :- SortByRating(lodgFlat);
    var taSimple :- SimplifyAll(taRanked);
    var restSimple :- SimplifyAll(restRanked);
    var lodgSimple :- SimplifyAll(lodgRanked);
    var plans := DayPlans(taSimple, restSimple, lodgSimple, days);
    return Ok(plans);
  }
}
