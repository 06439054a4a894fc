/** The values the itinerary prompt is built from: the request's fields with
    their defaults, the cultural note for the destination, the seasonal note
    for the start date, and the focus of an alternative itinerary.

    The prompt's wording and the budget shares printed in it are not
    modelled; only the values and the exceptions raised while computing
    them are. Parsing the start date is the caller's `monthOf`, which
    answers the month of `datetime.strptime(s, '%Y-%m-%d')`, or `None`
    where Python raises. */
module PromptBuilder {
  import opened Text
  import opened JsonModel
  import opened Sorting

  // ---------------------------------------------------------------------
  // _get_cultural_considerations
  // ---------------------------------------------------------------------

  /** The cultural notes, in the order the table is written. */
  const CulturalDb: seq<(string, string)> := [
    ("japan", "Remove shoes indoors, bow as greeting, quiet on public transport, no tipping"),
    ("india", "Dress modestly, remove shoes in temples, use right hand for eating, bargaining expected"),
    ("UAE", "Modest dress required, no public alcohol consumption, respect for Islamic customs"),
    ("france", "Formal greetings, dining etiquette important, shops close for lunch"),
    ("thailand", "Buddhist temple etiquette, modest dress, no touching heads, wai greeting"),
    ("china", "Business card etiquette, no tipping, respect for hierarchy, face-saving important")]

  const GenericCulturalNote := "Research local customs and dress codes before visiting"

  /** The note of the first entry whose key occurs in `text`. */
  function FirstContained(db: seq<(string, string)>, text: string): (r: Option<string>)
  {
    if db == [] then None
    else if Contains(text, db[0].0) then Some(db[0].1)
    else FirstContained(db[1..], text)
  }

  /** The search answers the note of the first key found, and nothing only
      when no key is found. */
  lemma {:induction false} FirstContainedFinds(db: seq<(string, string)>, text: string)
    ensures FirstContained(db, text).None? <==> forall i :: 0 <= i < |db| ==> !IsSubstring(db[i].0, text)
    ensures FirstContained(db, text).Some? ==>
              exists i :: 0 <= i < |db| && IsSubstring(db[i].0, text) &&
                          FirstContained(db, text).value == db[i].1 &&
                          forall j :: 0 <= j < i ==> !IsSubstring(db[j].0, text)
  {
    if db != [] && !Contains(text, db[0].0) {
      FirstContainedFinds(db[1..], text);
      assert forall i :: 1 <= i < |db| ==> db[i] == db[1..][i - 1];
      if FirstContained(db, text).Some? {
        var k :| 0 <= k < |db[1..]| && IsSubstring(db[1..][k].0, text) &&
                 FirstContained(db, text).value == db[1..][k].1 &&
                 forall j :: 0 <= j < k ==> !IsSubstring(db[1..][j].0, text);
        assert db[k + 1] == db[1..][k];
      }
    } else if db != [] {
      assert IsSubstring(db[0].0, text);
    }
  }

  function CulturalConsiderations(destination: string): (r: string)
  {
    match FirstContained(CulturalDb, Lower(destination))
    case Some(note) => note
    case None => GenericCulturalNote
  }

  /** The note of the first key, in table order, found in the lower-cased
      destination, and the generic advice when there is none. */
  lemma CulturalFirstMatch(destination: string)
    ensures var d := Lower(destination);
            || (CulturalConsiderations(destination) == GenericCulturalNote &&
                forall i :: 0 <= i < |CulturalDb| ==> !IsSubstring(CulturalDb[i].0, d))
            || exists i :: 0 <= i < |CulturalDb| && IsSubstring(CulturalDb[i].0, d) &&
                           CulturalConsiderations(destination) == CulturalDb[i].1 &&
                           forall j :: 0 <= j < i ==> !IsSubstring(CulturalDb[j].0, d)
  {
    FirstContainedFinds(CulturalDb, Lower(destination));
  }

  /** A key with an upper-case letter never occurs in a lower-cased text. */
  lemma UpperNeverInLower(key: string, text: string, k: int)
    requires 0 <= k < |key| && IsUpperAscii(key[k])
    ensures !IsSubstring(key, Lower(text))
  {
    var low := Lower(text);
    forall i | 0 <= i <= |low| - |key|
      ensures !OccursAt(key, low, i)
    {
      assert low[i..i + |key|][k] == low[i + k];
    }
  }

  /** The `'UAE'` entry is written in capitals and so is never chosen: no
      destination gets its note. */
  lemma UaeNeverMatches(destination: string)
    ensures CulturalConsiderations(destination) != CulturalDb[2].1
  {
    UpperNeverInLower("UAE", destination, 0);
    var d := Lower(destination);
    FirstContainedFinds(CulturalDb, d);
    if FirstContained(CulturalDb, d).Some? {
      var i :| 0 <= i < |CulturalDb| && IsSubstring(CulturalDb[i].0, d) &&
               FirstContained(CulturalDb, d).value == CulturalDb[i].1;
      assert i != 2;
    }
  }

  // ---------------------------------------------------------------------
  // _get_seasonal_considerations
  // ---------------------------------------------------------------------

  datatype Season = Summer | Winter | Spring | Fall

  /** The month tests in the order the source makes them. */
  function SeasonOf(month: int): Season
  {
    if month in [6, 7, 8] then Summer
    else if month in [12, 1, 2] then Winter
    else if month in [3, 4, 5] then Spring
    else Fall
  }

  /** On the twelve months the seasons are June to August, December to
      February, March to May and September to November. */
  lemma SeasonsOfMonths(month: int)
    requires 1 <= month <= 12
    ensures SeasonOf(month) == Summer <==> 6 <= month <= 8
    ensures SeasonOf(month) == Winter <==> month == 12 || month <= 2
    ensures SeasonOf(month) == Spring <==> 3 <= month <= 5
    ensures SeasonOf(month) == Fall <==> 9 <= month <= 11
  {
  }

  function SeasonNote(s: Season): string
  {
    match s
    case Summer => "Hot weather - plan indoor activities during peak hours, bring sun protection"
    case Winter => "Cold weather - include indoor alternatives, check for seasonal closures"
    case Spring => "Pleasant weather - good for outdoor activities, possible rain showers"
    case Fall => "Mild weather - ideal for sightseeing, check for seasonal events"
  }

  const NoDateNote := "Check seasonal weather and events for optimal planning"
  const BadDateNote := "Consider seasonal weather patterns and local events"

  /** The seasonal note for a start date; the destination plays no part.
      Every failure to parse the date, including a date that is not a
      string, is caught. */
  function SeasonalConsiderations(startDate: Json, monthOf: string -> Option<int>): (r: string)
  {
    if !Truthy(startDate) then NoDateNote
    else if startDate.Str? && monthOf(startDate.s).Some? then SeasonNote(SeasonOf(monthOf(startDate.s).value))
    else BadDateNote
  }

  /** No date asks for planning; a date that does not parse gives the
      general advice; a parsed one gives the note of its season, and a
      season note is neither of the other two. */
  lemma SeasonalCases(startDate: Json, monthOf: string -> Option<int>)
    ensures !Truthy(startDate) ==> SeasonalConsiderations(startDate, monthOf) == NoDateNote
    ensures Truthy(startDate) && !(startDate.Str? && monthOf(startDate.s).Some?) ==>
              SeasonalConsiderations(startDate, monthOf) == BadDateNote
    ensures Truthy(startDate) && startDate.Str? && monthOf(startDate.s).Some? ==>
              var note := SeasonalConsiderations(startDate, monthOf);
              note != NoDateNote && note != BadDateNote &&
              note == SeasonNote(SeasonOf(monthOf(startDate.s).value))
  {
  }

  // ---------------------------------------------------------------------
  // build_itinerary_prompt
  // ---------------------------------------------------------------------

  datatype PromptValues = PromptValues(
    destination: string, duration: Json, budget: Json, groupSize: Json,
    interests: string, travelStyle: Json, startDate: Json, endDate: Json,
    culturalNotes: string, seasonalNotes: string)

  /** The request's fields with their defaults, in the order the source
      computes them: joining the interests raises `TypeError` on anything
      but strings, lower-casing a destination that is not a string raises
      `AttributeError`, and `budget * 0.4` raises `TypeError` on a budget
      that is not a number. */
  function ItineraryPromptValues(request: Dict, monthOf: string -> Option<int>): (r: Result<PromptValues>)
    ensures r.Ok? ==> IsNumber(GetOr(request, "budget", Int(1000)))
    ensures r.Ok? ==> GetOr(request, "destination", Str("")).Str?
  {
    var destination := GetOr(request, "destination", Str(""));
    var budget := GetOr(request, "budget", Int(1000));
    var startDate := GetOr(request, "start_date", Str(""));
    var interests :- JoinOr(GetOr(request, "interests", Arr([])), "general tourism");
    if !destination.Str? then Raise(AttributeError)
    else
      var cultural := CulturalConsiderations(destination.s);
      var seasonal := SeasonalConsiderations(startDate, monthOf);
      if !IsNumber(budget) then Raise(TypeError)
      else
        Ok(PromptValues(destination.s, GetOr(request, "duration", Int(3)), budget,
                        GetOr(request, "group_size", Int(2)), interests,
                        GetOr(request, "travel_style", Str("mid_range")), startDate,
                        GetOr(request, "end_date", Str("")), cultural, seasonal))
  }

  /** An empty request plans three days for two people on a budget of 1000
      in the mid-range style, for general tourism, with no dates. */
  lemma EmptyRequestDefaults(monthOf: string -> Option<int>)
    ensures ItineraryPromptValues(Obj([]), monthOf) ==
              Ok(PromptValues("", Int(3), Int(1000), Int(2), "general tourism", Str("mid_range"),
                              Str(""), Str(""), GenericCulturalNote, NoDateNote))
  {
    FirstContainedFinds(CulturalDb, Lower(""));
    assert FirstContained(CulturalDb, Lower("")).None?;
  }

  /** A budget that is not a number fails the prompt. */
  lemma TextBudgetFails(request: Dict, monthOf: string -> Option<int>, b: string)
    requires Get(request, "budget") == Str(b)
    ensures ItineraryPromptValues(request, monthOf).Raise?
  {
  }

  // ---------------------------------------------------------------------
  // build_alternative_prompt
  // ---------------------------------------------------------------------

  const AlternativeInstructions: seq<(string, string)> := [
    ("budget", "Focus on free activities, local food, budget accommodation, and public transport"),
    ("luxury", "Include high-end restaurants, luxury hotels, private tours, and premium experiences"),
    ("adventure", "Emphasize outdoor activities, extreme sports, hiking, and thrilling experiences"),
    ("cultural", "Focus on museums, historical sites, local traditions, and authentic cultural experiences"),
    ("family", "Include family-friendly activities, kid-safe venues, and educational experiences"),
    ("romantic", "Emphasize couples activities, romantic dining, and intimate experiences")]

  const DefaultInstruction := "Create a different perspective on the trip"

  /** `dict.get(key, default)` on a table given as its entries. */
  function TableGet(table: seq<(string, string)>, key: string, default: string): (r: string)
    ensures (forall i :: 0 <= i < |table| ==> table[i].0 != key) ==> r == default
    ensures forall i :: (0 <= i < |table| && table[i].0 == key &&
                         forall j :: 0 <= j < i ==> table[j].0 != key) ==> r == table[i].1
  {
    if table == [] then default
    else if table[0].0 == key then table[0].1
    else
      assert forall i :: 1 <= i < |table| ==> table[i] == table[1..][i - 1];
      TableGet(table[1..], key, default)
  }

  datatype AlternativeValues = AlternativeValues(title: string, instruction: string)

  /** The focus of an alternative itinerary and its title-cased type. */
  function AlternativePromptValues(alternativeType: string): (r: AlternativeValues)
    ensures |r.title| == |alternativeType|
    ensures (forall i :: 0 <= i < |AlternativeInstructions| ==> AlternativeInstructions[i].0 != alternativeType) ==>
              r.instruction == DefaultInstruction
  {
    AlternativeValues(Title(alternativeType),
                      TableGet(AlternativeInstructions, alternativeType, DefaultInstruction))
  }

  /** Each of the six known types gets its own focus. */
  lemma KnownAlternatives(i: int)
    requires 0 <= i < |AlternativeInstructions|
    ensures AlternativePromptValues(AlternativeInstructions[i].0).instruction == AlternativeInstructions[i].1
  {
    var t := AlternativeInstructions;
    assert forall j :: 0 <= j < i ==> t[j].0 != t[i].0;
  }
}
