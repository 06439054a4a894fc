/** Place helpers of the backend: rendering any JSON value as text, grouping
    places under the user's preferences, dropping places already seen, and
    cutting a Places text-search response down to the fields the planner
    uses. */
module UtilityHelpers {
  import opened Text
  import opened JsonModel

  // ---------------------------------------------------------------------
  // safe_str
  // ---------------------------------------------------------------------

  /** Any value as text: a dict is the space-joined text of its values, a
      list that of its items, `None` the empty string, anything else `str`.
      The rendering of floats is supplied by the caller. */
  function SafeStr(v: Json, floatText: real -> string): (r: string)
    ensures v.Null? ==> r == []
    ensures v.Str? ==> r == v.s
    decreases v
  {
    match v
    case Obj(fields) =>
      Join(" ", seq(|fields|, i requires 0 <= i < |fields| => SafeStr(fields[i].1, floatText)))
    case Arr(items) =>
      Join(" ", seq(|items|, i requires 0 <= i < |items| => SafeStr(items[i], floatText)))
    case Null => []
    case _ => ScalarText(v, floatText)
  }

  /** The text of every item of a list, and of every value of a dict, occurs
      in the text of the container. */
  lemma SafeStrHasParts(v: Json, i: int, floatText: real -> string)
    requires v.Arr? ==> 0 <= i < |v.items|
    requires v.Obj? ==> 0 <= i < |v.fields|
    requires v.Arr? || v.Obj?
    ensures v.Arr? ==> IsSubstring(SafeStr(v.items[i], floatText), SafeStr(v, floatText))
    ensures v.Obj? ==> IsSubstring(SafeStr(v.fields[i].1, floatText), SafeStr(v, floatText))
  {
    match v
    case Obj(fields) =>
      JoinHasPart(" ", seq(|fields|, k requires 0 <= k < |fields| => SafeStr(fields[k].1, floatText)), i);
    case Arr(items) =>
      JoinHasPart(" ", seq(|items|, k requires 0 <= k < |items| => SafeStr(items[k], floatText)), i);
  }

  // ---------------------------------------------------------------------
  // group_places_by_preference
  // ---------------------------------------------------------------------

  const Others := "_others"
  const General := "General"

  /** The lower-cased text a place is matched against: its name, types,
      editorial summary, review summary and address, space-separated. The
      summaries are read under the flattened keys `editorialSummary.text` and
      `reviewSummary.text`. */
  function CombinedText(place: Dict, floatText: real -> string): string
  {
    Lower(SafeStr(Get(place, "name"), floatText)
          + " " + SafeStr(Get(place, "types"), floatText)
          + " " + SafeStr(Get(place, "editorialSummary.text"), floatText)
          + " " + SafeStr(Get(place, "reviewSummary.text"), floatText)
          + " " + SafeStr(Get(place, "formattedAddress"), floatText))
  }

  /** The first preference whose lower-cased form occurs in `text`. */
  function FirstMatch(text: string, preferences: seq<string>): (r: Option<string>)
    ensures r.Some? ==> r.value in preferences && Contains(text, Lower(r.value))
    ensures r.None? <==> forall p :: p in preferences ==> !Contains(text, Lower(p))
  {
    if preferences == [] then None
    else if Contains(text, Lower(preferences[0])) then Some(preferences[0])
    else
      var r := FirstMatch(text, preferences[1..]);
      assert forall p :: p in preferences ==> p == preferences[0] || p in preferences[1..];
      r
  }

  /** The match is the earliest preference that occurs in the text. */
  lemma {:induction false} FirstMatchIsFirst(text: string, preferences: seq<string>, j: int)
    requires 0 <= j < |preferences| && IsSubstring(Lower(preferences[j]), text)
    requires forall m :: 0 <= m < j ==> !IsSubstring(Lower(preferences[m]), text)
    ensures FirstMatch(text, preferences) == Some(preferences[j])
  {
    if j > 0 {
      assert !Contains(text, Lower(preferences[0]));
      assert forall m :: 1 <= m <= j ==> preferences[m] == preferences[1..][m - 1];
      FirstMatchIsFirst(text, preferences[1..], j - 1);
    }
  }

  /** The inner loop of the grouping: the first preference found in `text`. */
  method MatchPreference(text: string, preferences: seq<string>) returns (m: Option<string>)
    ensures m == FirstMatch(text, preferences)
  {
    var j := 0;
    while j < |preferences|
      invariant 0 <= j <= |preferences|
      invariant FirstMatch(text, preferences[j..]) == FirstMatch(text, preferences)
    {
      if Contains(text, Lower(preferences[j])) {
        return Some(preferences[j]);
      }
      assert preferences[j..][1..] == preferences[j + 1..];
      j := j + 1;
    }
    return None;
  }

  /** The group a place lands in when preferences are given. */
  function GroupOf(place: Dict, preferences: seq<string>, floatText: real -> string): (r: string)
    ensures r in preferences || r == Others
  {
    match FirstMatch(CombinedText(place, floatText), preferences)
    case Some(p) => p
    case None => Others
  }

  /** `GroupOf` for fixed preferences, as a function of the place. */
  function Classifier(preferences: seq<string>, floatText: real -> string): Dict -> string
  {
    (place: Dict) => GroupOf(place, preferences, floatText)
  }

  /** The elements of `s` whose group is `k`, in input order. */
  function Members(s: seq<Dict>, group: Dict -> string, k: string): (r: seq<Dict>)
    ensures |r| <= |s|
  {
    if s == [] then []
    else
      var last := s[|s| - 1];
      Members(s[..|s| - 1], group, k) + (if group(last) == k then [last] else [])
  }

  lemma MembersStep(s: seq<Dict>, i: int, group: Dict -> string, k: string)
    requires 0 <= i < |s|
    ensures Members(s[..i + 1], group, k) == Members(s[..i], group, k) + (if group(s[i]) == k then [s[i]] else [])
  {
    assert s[..i + 1][..i] == s[..i];
  }

  /** A group holds exactly the elements whose group it is, each as often as
      it occurs in the input. */
  lemma {:induction false} MembersExact(s: seq<Dict>, group: Dict -> string, k: string, x: Dict)
    ensures x in Members(s, group, k) <==> x in s && group(x) == k
    ensures group(x) == k ==> multiset(Members(s, group, k))[x] == multiset(s)[x]
  {
    if s != [] {
      var init := s[..|s| - 1];
      MembersExact(init, group, k, x);
      assert s == init + [s[|s| - 1]];
    }
  }

  /** With no preferences every place is under `General` and `_others` is
      empty. Otherwise there is one group per distinct preference plus
      `_others`, and each place sits, in input order, in the group of the
      first preference found in its text, or in `_others`. */
  method GroupPlacesByPreference(places: seq<Dict>, preferences: seq<string>, floatText: real -> string)
    returns (grouped: map<string, seq<Dict>>)
    ensures preferences == [] ==> grouped == map[General := places, Others := []]
    ensures preferences != [] ==> grouped.Keys == (set p | p in preferences) + {Others}
    ensures preferences != [] ==>
              forall k :: k in grouped ==> grouped[k] == Members(places, Classifier(preferences, floatText), k)
  {
    if |preferences| == 0 {
      return map[General := places, Others := []];
    }
    var group := Classifier(preferences, floatText);
    grouped := map p | p in preferences :: [];
    grouped := grouped[Others := []];
    GroupedStart(places, group, grouped);
    ghost var keys := grouped.Keys;
    assert keys == (set p | p in preferences) + {Others};
    var i := 0;
    while i < |places|
      invariant 0 <= i <= |places|
      invariant grouped.Keys == keys
      invariant GroupedUpTo(grouped, places, i, group)
    {
      var place := places[i];
      var matched := MatchPreference(CombinedText(place, floatText), preferences);
      var key := if matched.Some? then matched.value else Others;
      assert key in keys;
      ghost var before := grouped;
      grouped := grouped[key := grouped[key] + [place]];
      GroupedStep(before, grouped, places, i, group, key);
      i := i + 1;
    }
    assert places[..|places|] == places;
  }

  /** The groups hold the members among the first `i` places. */
  ghost predicate GroupedUpTo(grouped: map<string, seq<Dict>>, places: seq<Dict>, i: int, group: Dict -> string)
    requires 0 <= i <= |places|
  {
    forall k :: k in grouped ==> grouped[k] == Members(places[..i], group, k)
  }

  lemma GroupedStart(places: seq<Dict>, group: Dict -> string, grouped: map<string, seq<Dict>>)
    requires forall k :: k in grouped ==> grouped[k] == []
    ensures GroupedUpTo(grouped, places, 0, group)
  {
    assert places[..0] == [];
  }

  lemma GroupedStep(grouped: map<string, seq<Dict>>, updated: map<string, seq<Dict>>, places: seq<Dict>, i: int,
                    group: Dict -> string, key: string)
    requires 0 <= i < |places| && GroupedUpTo(grouped, places, i, group)
    requires key in grouped && key == group(places[i])
    requires updated == grouped[key := grouped[key] + [places[i]]]
    ensures GroupedUpTo(updated, places, i + 1, group)
    ensures updated.Keys == grouped.Keys
  {
    forall k | k in updated
      ensures updated[k] == Members(places[..i + 1], group, k)
    {
      MembersStep(places, i, group, k);
    }
  }

  /** How many times `g` occurs in `keys`. */
  function Occurrences(keys: seq<string>, g: string): nat
  {
    if keys == [] then 0 else (if keys[0] == g then 1 else 0) + Occurrences(keys[1..], g)
  }

  /** The total size of the groups named in `keys`. */
  function GroupSizes(s: seq<Dict>, group: Dict -> string, keys: seq<string>): nat
  {
    if keys == [] then 0
    else |Members(s, group, keys[0])| + GroupSizes(s, group, keys[1..])
  }

  lemma {:induction false} OccursOnce(keys: seq<string>, g: string)
    requires forall i, j :: 0 <= i < j < |keys| ==> keys[i] != keys[j]
    requires g in keys
    ensures Occurrences(keys, g) == 1
  {
    if keys[0] != g {
      OccursOnce(keys[1..], g);
    } else {
      NotOccurring(keys[1..], g);
    }
  }

  lemma {:induction false} NotOccurring(keys: seq<string>, g: string)
    requires g !in keys
    ensures Occurrences(keys, g) == 0
  {
    if keys != [] {
      NotOccurring(keys[1..], g);
    }
  }

  lemma {:induction false} GroupSizesStep(s: seq<Dict>, group: Dict -> string, keys: seq<string>)
    requires s != []
    ensures GroupSizes(s, group, keys) == GroupSizes(s[..|s| - 1], group, keys) + Occurrences(keys, group(s[|s| - 1]))
  {
    if keys != [] {
      GroupSizesStep(s, group, keys[1..]);
    }
  }

  lemma {:induction false} EmptyGroups(group: Dict -> string, keys: seq<string>)
    ensures GroupSizes([], group, keys) == 0
  {
    if keys != [] {
      EmptyGroups(group, keys[1..]);
    }
  }

  /** When every element's group is among `keys`, listed without repeats, the
      group sizes add up to the number of elements. */
  lemma {:induction false} GroupSizesSum(s: seq<Dict>, group: Dict -> string, keys: seq<string>)
    requires forall i, j :: 0 <= i < j < |keys| ==> keys[i] != keys[j]
    requires forall x :: x in s ==> group(x) in keys
    ensures GroupSizes(s, group, keys) == |s|
  {
    if s == [] {
      EmptyGroups(group, keys);
    } else {
      var init := s[..|s| - 1];
      assert forall x :: x in init ==> x in s;
      GroupSizesStep(s, group, keys);
      GroupSizesSum(init, group, keys);
      OccursOnce(keys, group(s[|s| - 1]));
    }
  }

  /** The preference groups partition the places: over any listing of the
      preferences and `_others` without repeats, the group sizes add up to
      the number of places. */
  lemma PreferenceGroupsPartition(places: seq<Dict>, preferences: seq<string>, keys: seq<string>, floatText: real -> string)
    requires forall i, j :: 0 <= i < j < |keys| ==> keys[i] != keys[j]
    requires forall p :: p in preferences ==> p in keys
    requires Others in keys
    ensures GroupSizes(places, Classifier(preferences, floatText), keys) == |places|
  {
    GroupSizesSum(places, Classifier(preferences, floatText), keys);
  }

  // ---------------------------------------------------------------------
  // filter_new_places
  // ---------------------------------------------------------------------

  /** `place.get("id") or place.get("place_id")` */
  function PlaceId(place: Dict): (r: Json)
    ensures Truthy(Get(place, "id")) ==> r == Get(place, "id")
  {
    Or(Get(place, "id"), Get(place, "place_id"))
  }

  /** The places of `data` kept when the ids in `seen` are already known:
      those with a truthy id (read by `idOf`) not seen before, earlier places
      first. */
  function NewPlaces(data: seq<Dict>, seen: set<Json>, idOf: Dict -> Json): (r: seq<Dict>)
    ensures |r| <= |data|
    ensures forall p :: p in r ==> p in data
  {
    if data == [] then []
    else
      var pid := idOf(data[0]);
      if Truthy(pid) && pid !in seen then [data[0]] + NewPlaces(data[1..], seen + {pid}, idOf)
      else NewPlaces(data[1..], seen, idOf)
  }

  /** The known ids after `data` has been filtered against `seen`. */
  function SeenAfter(data: seq<Dict>, seen: set<Json>, idOf: Dict -> Json): (r: set<Json>)
  {
    if data == [] then seen
    else
      var pid := idOf(data[0]);
      if Truthy(pid) && pid !in seen then SeenAfter(data[1..], seen + {pid}, idOf)
      else SeenAfter(data[1..], seen, idOf)
  }

  /** The set of ids the caller shares between successive searches. */
  class SeenIds {
    var ids: set<Json>

    constructor(initial: set<Json>)
      ensures ids == initial
    {
      ids := initial;
    }
  }

  /** The position of the first place whose id is truthy but cannot be
      looked up in a set, or `|data|` when there is none. */
  function FirstUnhashable(data: seq<Dict>, idOf: Dict -> Json): (k: nat)
    ensures k <= |data|
    ensures forall j :: 0 <= j < k ==> !Truthy(idOf(data[j])) || Hashable(idOf(data[j]))
    ensures k < |data| ==> Truthy(idOf(data[k])) && !Hashable(idOf(data[k]))
  {
    if data == [] then 0
    else if Truthy(idOf(data[0])) && !Hashable(idOf(data[0])) then 0
    else 1 + FirstUnhashable(data[1..], idOf)
  }

  /** Keep the places whose id is truthy and not yet in the container,
      adding each kept id to the container. A truthy id that is a list or a
      dict raises `TypeError` at the membership test, after the ids of the
      places before it have been added. */
  method FilterNewPlaces(data: seq<Dict>, container: SeenIds) returns (r: Result<seq<Dict>>)
    modifies container
    ensures r.Ok? <==> FirstUnhashable(data, PlaceId) == |data|
    ensures r.Ok? ==> r.value == NewPlaces(data, old(container.ids), PlaceId)
    ensures r.Raise? ==> r.error == TypeError
    ensures container.ids == SeenAfter(data[..FirstUnhashable(data, PlaceId)], old(container.ids), PlaceId)
  {
    var filtered := [];
    var i := 0;
    while i < |data|
      invariant 0 <= i <= |data|
      invariant forall j :: 0 <= j < i ==> !Truthy(PlaceId(data[j])) || Hashable(PlaceId(data[j]))
      invariant filtered == NewPlaces(data[..i], old(container.ids), PlaceId)
      invariant container.ids == SeenAfter(data[..i], old(container.ids), PlaceId)
    {
      var place := data[i];
      var pid := PlaceId(place);
      if Truthy(pid) && !Hashable(pid) {
        return Raise(TypeError);
      }
      NewPlacesSnoc(data[..i], place, old(container.ids), PlaceId);
      assert data[..i + 1] == data[..i] + [place];
      if Truthy(pid) && pid !in container.ids {
        container.ids := container.ids + {pid};
        filtered := filtered + [place];
      }
      i := i + 1;
    }
    assert data[..i] == data;
    return Ok(filtered);
  }

  /** The ids of a run of places. */
  function IdsOf(places: seq<Dict>, idOf: Dict -> Json): set<Json>
  {
    set p | p in places :: idOf(p)
  }

  /** The container ends up holding exactly the ids it had plus the ids of the
      places returned. */
  lemma {:induction false} NewPlacesIds(data: seq<Dict>, seen: set<Json>, idOf: Dict -> Json)
    ensures SeenAfter(data, seen, idOf) == seen + IdsOf(NewPlaces(data, seen, idOf), idOf)
  {
    if data != [] {
      var pid := idOf(data[0]);
      if Truthy(pid) && pid !in seen {
        NewPlacesIds(data[1..], seen + {pid}, idOf);
        var rest := NewPlaces(data[1..], seen + {pid}, idOf);
        assert NewPlaces(data, seen, idOf) == [data[0]] + rest;
        assert IdsOf([data[0]] + rest, idOf) == {pid} + IdsOf(rest, idOf);
      } else {
        NewPlacesIds(data[1..], seen, idOf);
      }
    }
  }

  /** Every place returned has a truthy id that was not known before, and no
      two places returned share an id. */
  lemma {:induction false} NewPlacesFresh(data: seq<Dict>, seen: set<Json>, idOf: Dict -> Json)
    ensures forall p :: p in NewPlaces(data, seen, idOf) ==> Truthy(idOf(p)) && idOf(p) !in seen
    ensures forall i, j :: 0 <= i < j < |NewPlaces(data, seen, idOf)| ==>
              idOf(NewPlaces(data, seen, idOf)[i]) != idOf(NewPlaces(data, seen, idOf)[j])
  {
    if data != [] {
      var pid := idOf(data[0]);
      if Truthy(pid) && pid !in seen {
        NewPlacesFresh(data[1..], seen + {pid}, idOf);
        var rest := NewPlaces(data[1..], seen + {pid}, idOf);
        var r := NewPlaces(data, seen, idOf);
        assert r == [data[0]] + rest;
        forall i, j | 0 <= i < j < |r| ensures idOf(r[i]) != idOf(r[j]) {
          assert r[j] == rest[j - 1] && rest[j - 1] in rest;
          if i > 0 {
            assert r[i] == rest[i - 1];
          }
        }
      } else {
        NewPlacesFresh(data[1..], seen, idOf);
      }
    }
  }

  /** A place is kept exactly when it is the first of `data` to carry its
      truthy, not yet known id. */
  lemma {:induction false} NewPlacesKeepsFirst(data: seq<Dict>, seen: set<Json>, idOf: Dict -> Json, j: int)
    requires 0 <= j < |data|
    requires Truthy(idOf(data[j])) && idOf(data[j]) !in seen
    requires forall i :: 0 <= i < j ==> idOf(data[i]) != idOf(data[j])
    ensures data[j] in NewPlaces(data, seen, idOf)
  {
    var pid := idOf(data[0]);
    if j > 0 {
      assert data[1..][j - 1] == data[j];
      if Truthy(pid) && pid !in seen {
        NewPlacesKeepsFirst(data[1..], seen + {pid}, idOf, j - 1);
      } else {
        NewPlacesKeepsFirst(data[1..], seen, idOf, j - 1);
      }
    }
  }

  lemma {:induction false} NewPlacesFromFirst(data: seq<Dict>, seen: set<Json>, idOf: Dict -> Json, x: Dict)
    requires x in NewPlaces(data, seen, idOf)
    ensures exists j :: 0 <= j < |data| && data[j] == x && forall i :: 0 <= i < j ==> idOf(data[i]) != idOf(x)
  {
    var pid := idOf(data[0]);
    if x == data[0] {
      assert data[0] == x;
    } else {
      var seen' := if Truthy(pid) && pid !in seen then seen + {pid} else seen;
      assert x in NewPlaces(data[1..], seen', idOf);
      NewPlacesFromFirst(data[1..], seen', idOf, x);
      var j :| 0 <= j < |data[1..]| && data[1..][j] == x && forall i :: 0 <= i < j ==> idOf(data[1..][i]) != idOf(x);
      NewPlacesFresh(data[1..], seen', idOf);
      assert idOf(x) !in seen';
      assert Truthy(idOf(x)) && idOf(x) !in seen';
      forall i | 0 <= i < j + 1 ensures idOf(data[i]) != idOf(x) {
        if i > 0 {
          assert data[i] == data[1..][i - 1];
        }
      }
    }
  }

  /** Filtering a run extended by one place keeps what the run kept, plus
      the new place when its id is truthy and still unknown. */
  lemma {:induction false} NewPlacesSnoc(data: seq<Dict>, x: Dict, seen: set<Json>, idOf: Dict -> Json)
    ensures NewPlaces(data + [x], seen, idOf) == NewPlaces(data, seen, idOf) +
              (if Truthy(idOf(x)) && idOf(x) !in SeenAfter(data, seen, idOf) then [x] else [])
    ensures SeenAfter(data + [x], seen, idOf) ==
              if Truthy(idOf(x)) && idOf(x) !in SeenAfter(data, seen, idOf)
              then SeenAfter(data, seen, idOf) + {idOf(x)} else SeenAfter(data, seen, idOf)
  {
    if data == [] {
      assert [x][1..] == [];
    } else {
      var pid := idOf(data[0]);
      assert (data + [x])[1..] == data[1..] + [x];
      if Truthy(pid) && pid !in seen {
        NewPlacesSnoc(data[1..], x, seen + {pid}, idOf);
      } else {
        NewPlacesSnoc(data[1..], x, seen, idOf);
      }
    }
  }

  /** Every truthy id of the filtered data is known afterwards. */
  lemma {:induction false} SeenAfterCovers(data: seq<Dict>, seen: set<Json>, idOf: Dict -> Json)
    ensures seen <= SeenAfter(data, seen, idOf)
    ensures forall p :: p in data && Truthy(idOf(p)) ==> idOf(p) in SeenAfter(data, seen, idOf)
  {
    if data != [] {
      var pid := idOf(data[0]);
      if Truthy(pid) && pid !in seen {
        SeenAfterCovers(data[1..], seen + {pid}, idOf);
      } else {
        SeenAfterCovers(data[1..], seen, idOf);
      }
      assert data == [data[0]] + data[1..];
    }
  }

  /** Filtering the same batch a second time against the updated container
      keeps nothing. */
  lemma {:induction false} FilterNewPlacesIdempotent(data: seq<Dict>, seen: set<Json>)
    ensures NewPlaces(data, SeenAfter(data, seen, PlaceId), PlaceId) == []
  {
    SeenAfterCovers(data, seen, PlaceId);
    NothingNew(data, SeenAfter(data, seen, PlaceId), PlaceId);
  }

  lemma {:induction false} NothingNew(data: seq<Dict>, seen: set<Json>, idOf: Dict -> Json)
    requires forall p :: p in data && Truthy(idOf(p)) ==> idOf(p) in seen
    ensures NewPlaces(data, seen, idOf) == []
  {
    if data != [] {
      assert data[0] in data;
      assert forall p :: p in data[1..] ==> p in data;
      NothingNew(data[1..], seen, idOf);
    }
  }

  // ---------------------------------------------------------------------
  // filter_textSearch_place_data
  // ---------------------------------------------------------------------

  /** `[photo.get("name") for photo in photos[:3]]`. Slicing fails on
      anything but a list or a string, and `.get` on anything but a dict. */
  function PhotoNames(photos: Json): (r: Result<seq<Json>>)
    ensures r.Ok? ==> |r.value| <= 3
    ensures photos.Arr? ==>
              (r.Ok? <==> forall i :: 0 <= i < |photos.items| && i < 3 ==> photos.items[i].Obj?)
    ensures r.Ok? && photos.Arr? ==> |r.value| == if |photos.items| < 3 then |photos.items| else 3
    ensures r.Ok? && photos.Arr? ==>
              forall i :: 0 <= i < |r.value| ==> r.value[i] == Get(photos.items[i], "name")
  {
    match photos
    case Arr(items) =>
      var first := if |items| <= 3 then items else items[..3];
      if forall i :: 0 <= i < |first| ==> first[i].Obj? then
        Ok(seq(|first|, i requires 0 <= i < |first| => Get(first[i], "name")))
      else Raise(AttributeError)
    case Str(s) => if s == [] then Ok([]) else Raise(AttributeError)
    case _ => Raise(TypeError)
  }

  /** Where a kept field comes from: a top-level key, a key of a nested dict
      (read with an empty-dict default, so it fails only when present and not
      a dict), or the names of the first three photos. */
  datatype FieldSource = Field(key: string) | Nested(outer: string, inner: string) | FirstPhotoNames

  function ReadField(place: Dict, source: FieldSource): (r: Result<Json>)
    ensures source.Field? ==> r == Ok(Get(place, source.key))
    ensures source.FirstPhotoNames? && r.Ok? ==> r.value.Arr? && |r.value.items| <= 3
  {
    match source
    case Field(k) => Ok(Get(place, k))
    case Nested(outer, inner) => Chain(place, [outer, inner], Null)
    case FirstPhotoNames =>
      var names :- PhotoNames(GetOr(place, "photos", Arr([])));
      Ok(Arr(names))
  }

  /** The fields of one text-search place kept for planning, in this order. */
  const PlaceRecord: seq<(string, FieldSource)> := [
    ("name", Field("name")),
    ("id", Field("id")),
    ("types", Field("types")),
    ("displayName", Nested("displayName", "text")),
    ("internationalPhoneNumber", Field("internationalPhoneNumber")),
    ("formattedAddress", Field("formattedAddress")),
    ("editorialSummary.text", Nested("editorialSummary", "text")),
    ("addressDescriptor.landmarks", Nested("addressDescriptor", "landmarks")),
    ("googleMapsLinks.directionsUri", Nested("googleMapsLinks", "directionsUri")),
    ("googleMapsLinks.placeUri", Nested("googleMapsLinks", "placeUri")),
    ("googleMapsLinks.reviewsUri", Nested("googleMapsLinks", "reviewsUri")),
    ("googleMapsLinks.photosUri", Nested("googleMapsLinks", "photosUri")),
    ("reviewSummary.text", Nested("reviewSummary", "text")),
    ("rating", Field("rating")),
    ("userRatingCount", Field("userRatingCount")),
    ("priceLevel", Field("priceLevel")),
    ("websiteUri", Field("websiteUri")),
    ("location", Field("location")),
    ("currentOpeningHours", Nested("currentOpeningHours", "weekdayDescriptions")),
    ("photos", FirstPhotoNames)]

  /** The kept fields, read left to right; the first read that fails raises. */
  function ReadFields(place: Dict, specs: seq<(string, FieldSource)>): (r: Result<seq<(string, Json)>>)
    ensures r.Ok? <==> forall i :: 0 <= i < |specs| ==> ReadField(place, specs[i].1).Ok?
    ensures r.Ok? ==> |r.value| == |specs|
    ensures r.Ok? ==> forall i :: 0 <= i < |specs| ==>
                        r.value[i] == (specs[i].0, ReadField(place, specs[i].1).value)
  {
    if specs == [] then Ok([])
    else
      var v :- ReadField(place, specs[0].1);
      var rest :- ReadFields(place, specs[1..]);
      assert forall i :: 1 <= i < |specs| ==> specs[i] == specs[1..][i - 1];
      Ok([(specs[0].0, v)] + rest)
  }

  /** One place cut down to the planner's fields, in the order of
      `PlaceRecord`; anything but a dict raises `AttributeError`. */
  function FilterPlace(place: Json): (r: Result<Dict>)
    ensures !place.Obj? ==> r == Raise(AttributeError)
    ensures place.Obj? ==> (r.Ok? <==> forall i :: 0 <= i < |PlaceRecord| ==> ReadField(place, PlaceRecord[i].1).Ok?)
    ensures r.Ok? ==> |r.value.fields| == |PlaceRecord|
    ensures r.Ok? ==> forall i :: 0 <= i < |PlaceRecord| ==>
                        r.value.fields[i] == (PlaceRecord[i].0, ReadField(place, PlaceRecord[i].1).value)
  {
    if !place.Obj? then Raise(AttributeError)
    else
      var fields :- ReadFields(place, PlaceRecord);
      var record: Dict := Obj(fields);
      Ok(record)
  }

  /** The photos of a kept place are at most three names. */
  lemma FilterPlacePhotos(place: Json)
    requires FilterPlace(place).Ok?
    ensures FilterPlace(place).value.fields[19] == ("photos", FilterPlace(place).value.fields[19].1)
    ensures FilterPlace(place).value.fields[19].1.Arr?
    ensures |FilterPlace(place).value.fields[19].1.items| <= 3
  {
    assert PlaceRecord[19] == ("photos", FirstPhotoNames);
  }

  /** The filtered places, one per entry of `raw["places"]` (default none),
      in order; the first entry that cannot be filtered raises. */
  method FilterTextSearchPlaceData(raw: Dict) returns (r: Result<seq<Dict>>)
    ensures Iterate(GetOr(raw, "places", Arr([]))).Raise? ==> r == Raise(TypeError)
    ensures Iterate(GetOr(raw, "places", Arr([]))).Ok? ==>
              r == MapOk(FilterPlace, Iterate(GetOr(raw, "places", Arr([]))).value)
    ensures r.Ok? ==>
              var entries := Iterate(GetOr(raw, "places", Arr([]))).value;
              |r.value| == |entries| && forall i :: 0 <= i < |entries| ==> FilterPlace(entries[i]) == Ok(r.value[i])
    ensures r.Raise? && Iterate(GetOr(raw, "places", Arr([]))).Ok? ==>
              var entries := Iterate(GetOr(raw, "places", Arr([]))).value;
              exists i :: 0 <= i < |entries| && FilterPlace(entries[i]) == Raise(r.error)
                          && forall k :: 0 <= k < i ==> FilterPlace(entries[k]).Ok?
  {
    var entries :- Iterate(GetOr(raw, "places", Arr([])));
    var filtered: seq<Dict> := [];
    var i := 0;
    while i < |entries|
      invariant 0 <= i <= |entries|
      invariant |filtered| == i
      invariant forall k :: 0 <= k < i ==> FilterPlace(entries[k]) == Ok(filtered[k])
    {
      var place := FilterPlace(entries[i]);
      if place.Raise? {
        MapOkFails(FilterPlace, entries, i);
        return Raise(place.error);
      }
      filtered := filtered + [place.value];
      i := i + 1;
    }
    assert MapOk(FilterPlace, entries).value == filtered;
    return Ok(filtered);
  }
}
