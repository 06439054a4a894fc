/** Search queries for the places service: tourist attractions from the
    traveller's preferences, restaurants and lodging from the experience
    type with a few preference add-ons.

    Every generator ends with `list(set(queries))[:n]`. The order in which a
    Python set yields its strings is not modelled: `TakeDistinct` may keep
    any `n` of the distinct candidates, and the contracts say only how many
    survive, that they are distinct and that each is a candidate. The query
    table read from the configuration file is a parameter. */
module PlaceQueries {
  import opened Text
  import opened JsonModel

  // ---------------------------------------------------------------------
  // list(set(queries))[:limit]
  // ---------------------------------------------------------------------

  function Elements(s: seq<string>): set<string>
  {
    set q | q in s
  }

  predicate Distinct(s: seq<string>)
  {
    forall i, j :: 0 <= i < j < |s| ==> s[i] != s[j]
  }

  /** `list(set(queries))[:limit]`: at most `limit` of the distinct
      queries, all of them when there are no more than `limit`. */
  method TakeDistinct(queries: seq<string>, limit: nat) returns (r: seq<string>)
    ensures Distinct(r)
    ensures Elements(r) <= Elements(queries)
    ensures |r| == if |Elements(queries)| < limit then |Elements(queries)| else limit
    ensures |Elements(queries)| <= limit ==> Elements(r) == Elements(queries)
  {
    var remaining := Elements(queries);
    r := [];
    while |r| < limit && remaining != {}
      invariant Distinct(r)
      invariant Elements(r) !! remaining
      invariant Elements(r) + remaining == Elements(queries)
      invariant |r| + |remaining| == |Elements(queries)|
      invariant |r| <= limit
      decreases |remaining|
    {
      var q :| q in remaining;
      assert Elements(r + [q]) == Elements(r) + {q};
      r := r + [q];
      remaining := remaining - {q};
    }
  }

  /** A subset has no more elements than its superset. */
  lemma SubsetCard(a: set<string>, b: set<string>)
    requires a <= b
    ensures |a| <= |b|
    decreases a
  {
    if a != {} {
      var x :| x in a;
      SubsetCard(a - {x}, b - {x});
    }
  }

  /** A sequence of distinct strings has as many elements as entries. */
  lemma {:induction false} DistinctCard(s: seq<string>)
    requires Distinct(s)
    ensures |Elements(s)| == |s|
  {
    if s != [] {
      var init := s[..|s| - 1];
      DistinctCard(init);
      assert Elements(s) == Elements(init) + {s[|s| - 1]};
      assert s[|s| - 1] !in Elements(init);
    }
  }

  // ---------------------------------------------------------------------
  // One list of queries per preference
  // ---------------------------------------------------------------------

  /** The queries of every preference, in preference order:
      `for preference in prefs: queries.extend(f(preference))`. */
  function Collect(prefs: seq<string>, f: string -> seq<string>): seq<string>
  {
    if prefs == [] then []
    else Collect(prefs[..|prefs| - 1], f) + f(prefs[|prefs| - 1])
  }

  /** A query is collected exactly when some preference contributes it. */
  lemma {:induction false} CollectMembers(prefs: seq<string>, f: string -> seq<string>, q: string)
    ensures q in Collect(prefs, f) <==> exists p :: p in prefs && q in f(p)
  {
    if prefs != [] {
      var init := prefs[..|prefs| - 1];
      CollectMembers(init, f, q);
      assert prefs == init + [prefs[|prefs| - 1]];
    }
  }

  /** The loop over the preferences takes one more step. */
  lemma CollectStep(prefs: seq<string>, i: int, f: string -> seq<string>)
    requires 0 <= i < |prefs|
    ensures Collect(prefs[..i + 1], f) == Collect(prefs[..i], f) + f(prefs[i])
  {
    assert prefs[..i + 1][..i] == prefs[..i];
  }

  /** `for preference in prefs: queries.extend(addOn(preference))`,
      starting from `base`. */
  method ExtendWithAddOns(base: seq<string>, prefs: seq<string>, addOn: string -> seq<string>)
    returns (queries: seq<string>)
    ensures queries == base + Collect(prefs, addOn)
  {
    queries := base;
    for i := 0 to |prefs|
      invariant queries == base + Collect(prefs[..i], addOn)
    {
      CollectStep(prefs, i, addOn);
      queries := queries + addOn(prefs[i]);
    }
    assert prefs[..|prefs|] == prefs;
  }

  /** `preference.strip().title()` */
  function CleanPreference(preference: string): string
  {
    Title(Strip(preference))
  }

  // ---------------------------------------------------------------------
  // generate_tourist_queries
  // ---------------------------------------------------------------------

  /** A preference the table knows contributes the table's queries, any
      other one `"<preference lower-cased> attractions"`, not stripped. */
  function TouristQueriesFor(table: map<string, seq<string>>, preference: string): seq<string>
  {
    var key := CleanPreference(preference);
    if key in table then table[key] else [Lower(preference) + " attractions"]
  }

  function TouristQueries(table: map<string, seq<string>>): string -> seq<string>
  {
    p => TouristQueriesFor(table, p)
  }

  function TouristCandidates(prefs: seq<string>, table: map<string, seq<string>>): seq<string>
  {
    Collect(prefs, TouristQueries(table))
  }

  /** Where every tourist candidate comes from. */
  lemma TouristCandidateSource(prefs: seq<string>, table: map<string, seq<string>>, q: string)
    ensures q in TouristCandidates(prefs, table) <==>
              exists p :: p in prefs &&
                ((CleanPreference(p) in table && q in table[CleanPreference(p)]) ||
                 (CleanPreference(p) !in table && q == Lower(p) + " attractions"))
  {
    CollectMembers(prefs, TouristQueries(table), q);
    forall p ensures q in TouristQueries(table)(p) <==>
                       ((CleanPreference(p) in table && q in table[CleanPreference(p)]) ||
                        (CleanPreference(p) !in table && q == Lower(p) + " attractions"))
    {
      TouristQueryOf(table, p, q);
    }
  }

  lemma TouristQueryOf(table: map<string, seq<string>>, p: string, q: string)
    ensures q in TouristQueries(table)(p) <==>
              ((CleanPreference(p) in table && q in table[CleanPreference(p)]) ||
               (CleanPreference(p) !in table && q == Lower(p) + " attractions"))
  {
    var key := CleanPreference(p);
    var qs := TouristQueries(table)(p);
    assert qs == TouristQueriesFor(table, p);
    if key in table {
      assert qs == table[key];
    } else {
      var fallback := Lower(p) + " attractions";
      assert qs == [fallback];
      assert q in qs <==> q == fallback;
    }
  }

  /** At most eight distinct queries, each a candidate of some preference;
      the experience type takes no part. */
  method GenerateTouristQueries(prefs: seq<string>, experienceType: Json, table: map<string, seq<string>>)
    returns (r: seq<string>)
    ensures Distinct(r)
    ensures Elements(r) <= Elements(TouristCandidates(prefs, table))
    ensures var n := |Elements(TouristCandidates(prefs, table))|;
            |r| == if n < 8 then n else 8
  {
    var queries := [];
    for i := 0 to |prefs|
      invariant queries == Collect(prefs[..i], TouristQueries(table))
    {
      CollectStep(prefs, i, TouristQueries(table));
      var clean := CleanPreference(prefs[i]);
      if clean in table {
        queries := queries + table[clean];
      } else {
        queries := queries + [Lower(prefs[i]) + " attractions"];
      }
    }
    assert prefs[..|prefs|] == prefs;
    r := TakeDistinct(queries, 8);
  }

  // ---------------------------------------------------------------------
  // The experience type of the restaurant and lodging generators
  // ---------------------------------------------------------------------

  /** `str(experience_type).lower()`, after a list has been replaced by its
      first element or `"moderate"`; `render` is `str` on anything that is
      not a string. */
  function ExperienceKey(experienceType: Json, render: Json -> string): (r: string)
    ensures forall i :: 0 <= i < |r| ==> !IsUpperAscii(r[i])
    ensures experienceType.Str? ==> r == Lower(experienceType.s)
    ensures experienceType == Arr([]) ==> r == "moderate"
    ensures experienceType.Arr? && experienceType.items != [] && experienceType.items[0].Str? ==>
              r == Lower(experienceType.items[0].s)
  {
    var e := if experienceType.Arr? then
               (if experienceType.items != [] then experienceType.items[0] else Str("moderate"))
             else experienceType;
    LowerOfLower("moderate");
    Lower(if e.Str? then e.s else render(e))
  }

  // ---------------------------------------------------------------------
  // generate_restaurant_queries
  // ---------------------------------------------------------------------

  /** The restaurant table looked up with `experience.lower()`: the budget
      and luxury rows, and the moderate row for every other key. */
  function RestaurantTableFor(experience: string): seq<string>
  {
    var k := Lower(experience);
    if k == "budget" then
      ["budget restaurants", "cheap eats", "affordable dining",
       "street food", "local cheap restaurants", "fast food restaurants"]
    else if k == "luxury" then
      ["fine dining restaurants", "luxury dining", "premium restaurants",
       "gourmet restaurants", "award-winning restaurants", "upscale restaurants"]
    else
      ["good restaurants", "popular dining spots", "local cuisine restaurants",
       "mid-range restaurants", "family restaurants", "casual dining"]
  }

  /** The cuisine mapping looked up with a cleaned preference; nothing for a
      preference that is not one of its keys. */
  function CuisineAddOn(preference: string): seq<string>
  {
    var key := CleanPreference(preference);
    if key == "Food & Cuisine" then ["local cuisine restaurants", "food tours", "culinary experiences"]
    else if key == "Local Experiences" then ["authentic local restaurants", "traditional dining"]
    else if key == "Romantic" then ["romantic restaurants", "candlelight dining", "intimate cafes"]
    else if key == "Adventure" then ["unique dining experiences", "adventure-themed restaurants"]
    else if key == "Culture" then ["traditional cultural restaurants", "ethnic cuisine"]
    else if key == "Nature" then ["restaurants with scenic views", "garden restaurants"]
    else if key == "Budget Travel" then ["budget restaurants", "affordable dining"]
    else []
  }

  function RestaurantCandidates(experience: string, prefs: seq<string>): seq<string>
  {
    RestaurantTableFor(experience) + Collect(prefs, CuisineAddOn)
  }

  /** Every restaurant row lists six different queries. */
  lemma RestaurantTablesDistinct(experience: string)
    ensures |Elements(RestaurantTableFor(experience))| == 6
  {
    var t := RestaurantTableFor(experience);
    assert Distinct(t);
    DistinctCard(t);
  }

  lemma RestaurantCandidatesMany(experience: string, prefs: seq<string>)
    ensures |Elements(RestaurantCandidates(experience, prefs))| >= 6
  {
    var base := RestaurantTableFor(experience);
    RestaurantTablesDistinct(experience);
    SubsetCard(Elements(base), Elements(base + Collect(prefs, CuisineAddOn)));
  }

  /** A restaurant candidate comes from the experience row or from the
      cuisine add-on of some preference. */
  lemma RestaurantCandidateSource(experience: string, prefs: seq<string>, q: string)
    ensures q in RestaurantCandidates(experience, prefs) <==>
              q in RestaurantTableFor(experience) || exists p :: p in prefs && q in CuisineAddOn(p)
  {
    CollectMembers(prefs, CuisineAddOn, q);
  }

  /** Always exactly five distinct restaurant queries: the experience row
      alone has six. */
  method GenerateRestaurantQueries(experienceType: Json, prefs: seq<string>, render: Json -> string)
    returns (r: seq<string>)
    ensures Distinct(r) && |r| == 5
    ensures Elements(r) <= Elements(RestaurantCandidates(ExperienceKey(experienceType, render), prefs))
  {
    var experience := ExperienceKey(experienceType, render);
    var queries := ExtendWithAddOns(RestaurantTableFor(experience), prefs, CuisineAddOn);
    RestaurantCandidatesMany(experience, prefs);
    r := TakeDistinct(queries, 5);
  }

  // ---------------------------------------------------------------------
  // generate_lodging_queries
  // ---------------------------------------------------------------------

  /** The lodging table looked up with `experience.lower()`, as for
      restaurants. */
  function LodgingTableFor(experience: string): seq<string>
  {
    var k := Lower(experience);
    if k == "budget" then
      ["budget hotels", "hostels", "affordable accommodation", "cheap hotels", "budget stays"]
    else if k == "luxury" then
      ["luxury hotels", "5-star hotels", "premium resorts", "boutique hotels", "deluxe accommodation"]
    else
      ["comfortable hotels", "good hotels", "mid-range accommodation", "standard hotels"]
  }

  /** Only eco-friendly travel and relaxation add lodging queries. */
  function LodgingAddOn(preference: string): seq<string>
  {
    var key := CleanPreference(preference);
    if key == "Eco-Friendly Travel" then ["eco hotels", "sustainable accommodation"]
    else if key == "Relaxation" then ["spa resorts", "wellness hotels"]
    else []
  }

  function LodgingCandidates(experience: string, prefs: seq<string>): seq<string>
  {
    LodgingTableFor(experience) + Collect(prefs, LodgingAddOn)
  }

  /** Every lodging row lists at least four different queries, and no eco
      or spa query. */
  lemma LodgingTablesDistinct(experience: string)
    ensures |Elements(LodgingTableFor(experience))| >= 4
    ensures "eco hotels" !in LodgingTableFor(experience)
    ensures "spa resorts" !in LodgingTableFor(experience)
  {
    var t := LodgingTableFor(experience);
    assert Distinct(t);
    DistinctCard(t);
  }

  lemma LodgingCandidatesMany(experience: string, prefs: seq<string>)
    ensures |Elements(LodgingCandidates(experience, prefs))| >= 4
  {
    var base := LodgingTableFor(experience);
    LodgingTablesDistinct(experience);
    SubsetCard(Elements(base), Elements(base + Collect(prefs, LodgingAddOn)));
  }

  lemma LodgingAddOnKeys(p: string)
    ensures "eco hotels" in LodgingAddOn(p) <==> CleanPreference(p) == "Eco-Friendly Travel"
    ensures "spa resorts" in LodgingAddOn(p) <==> CleanPreference(p) == "Relaxation"
  {
  }

  /** Eco queries appear exactly when some preference is eco-friendly
      travel, spa queries exactly when some preference is relaxation. */
  lemma LodgingAddOnsOnlyWhenAsked(experience: string, prefs: seq<string>)
    ensures "eco hotels" in LodgingCandidates(experience, prefs) <==>
              exists p :: p in prefs && CleanPreference(p) == "Eco-Friendly Travel"
    ensures "spa resorts" in LodgingCandidates(experience, prefs) <==>
              exists p :: p in prefs && CleanPreference(p) == "Relaxation"
  {
    LodgingTablesDistinct(experience);
    forall p ensures "eco hotels" in LodgingAddOn(p) <==> CleanPreference(p) == "Eco-Friendly Travel"
    {
      LodgingAddOnKeys(p);
    }
    forall p ensures "spa resorts" in LodgingAddOn(p) <==> CleanPreference(p) == "Relaxation"
    {
      LodgingAddOnKeys(p);
    }
    CollectMembers(prefs, LodgingAddOn, "eco hotels");
    CollectMembers(prefs, LodgingAddOn, "spa resorts");
  }

  /** Four or five distinct lodging queries, each from the experience row
      or a preference add-on. */
  method GenerateLodgingQueries(experienceType: Json, prefs: seq<string>, render: Json -> string)
    returns (r: seq<string>)
    ensures Distinct(r) && 4 <= |r| <= 5
    ensures Elements(r) <= Elements(LodgingCandidates(ExperienceKey(experienceType, render), prefs))
  {
    var experience := ExperienceKey(experienceType, render);
    var queries := ExtendWithAddOns(LodgingTableFor(experience), prefs, LodgingAddOn);
    LodgingCandidatesMany(experience, prefs);
    r := TakeDistinct(queries, 5);
  }
}
