/** The validator that repairs the itinerary JSON returned by the
    generative model: it fills in missing sections, normalises activity
    times and numbers, sorts days and activities, reshapes the budget, adds
    per-day and per-trip statistics and scores how complete the result is.

    `json.loads` is not modelled: the parser receives what it returned, or
    `None` when it raised. Python's `float(str)` is the caller's `floatOf`,
    which answers `None` where Python raises `ValueError`. */
module ResponseParser {
  import opened Text
  import opened JsonModel
  import opened Sorting
  import opened Numeric

  // ---------------------------------------------------------------------
  // _validate_time_format
  // ---------------------------------------------------------------------

  function DigitValue(c: char): (r: nat)
    requires IsDigit(c)
    ensures r < 10
  {
    c as int - '0' as int
  }

  function DigitChar(n: nat): (r: char)
    requires n < 10
    ensures IsDigit(r) && DigitValue(r) == n
  {
    ('0' as int + n) as char
  }

  /** What `\s*` consumes: the white space at the front. */
  function DropSpaces(s: string): (r: string)
    ensures |r| <= |s|
    ensures r == [] || !IsSpace(r[0])
  {
    if s != [] && IsSpace(s[0]) then DropSpaces(s[1..]) else s
  }

  /** `re.match(r'^\s*(\d{1,2})\s*:\s*(\d{2})\s*', s)`: the hour and the
      minute captured when the pattern matches a prefix of `s`. Three digits
      before the colon never match (neither one nor two digits can be
      followed by a digit), and whatever follows the minute is ignored. */
  function MatchTime(s: string): (r: Option<(nat, nat)>)
    ensures r.Some? ==> r.value.0 < 100 && r.value.1 < 100
  {
    var a := DropSpaces(s);
    if a == [] || !IsDigit(a[0]) then None
    else
      var twoDigits := |a| >= 2 && IsDigit(a[1]);
      var hour := if twoDigits then 10 * DigitValue(a[0]) + DigitValue(a[1]) else DigitValue(a[0]);
      var rest := if twoDigits then a[2..] else a[1..];
      if rest != [] && IsDigit(rest[0]) then None
      else
        var b := DropSpaces(rest);
        if b == [] || b[0] != ':' then None
        else
          var c := DropSpaces(b[1..]);
          if |c| >= 2 && IsDigit(c[0]) && IsDigit(c[1])
          then Some((hour, 10 * DigitValue(c[0]) + DigitValue(c[1])))
          else None
  }

  /** `f"{n:02d}"` for `n < 100` */
  function Pad2(n: nat): (r: string)
    requires n < 100
    ensures |r| == 2 && IsDigit(r[0]) && IsDigit(r[1])
    ensures 10 * DigitValue(r[0]) + DigitValue(r[1]) == n
  {
    [DigitChar(n / 10), DigitChar(n % 10)]
  }

  /** Two digits, a colon, two digits. */
  predicate IsClock(t: string)
  {
    |t| == 5 && IsDigit(t[0]) && IsDigit(t[1]) && t[2] == ':' && IsDigit(t[3]) && IsDigit(t[4])
  }

  function Clock(hour: nat, minute: nat): string
    requires hour < 100 && minute < 100
  {
    Pad2(hour) + ":" + Pad2(minute)
  }

  function ValidateTimeFormat(s: string): (r: string)
    ensures IsClock(r)
    ensures MatchTime(s).None? ==> r == "09:00"
    ensures MatchTime(s).Some? ==> r == Clock(MatchTime(s).value.0, MatchTime(s).value.1)
  {
    match MatchTime(s)
    case Some((hour, minute)) => Clock(hour, minute)
    case None => "09:00"
  }

  /** A clock string is read back as the hour and minute it was made from. */
  lemma ClockRoundTrip(hour: nat, minute: nat)
    requires hour < 100 && minute < 100
    ensures MatchTime(Clock(hour, minute)) == Some((hour, minute))
  {
    var t := Clock(hour, minute);
    assert DropSpaces(t) == t;
    assert t[2..] == [':'] + t[3..];
    assert DropSpaces(t[2..]) == t[2..];
    assert DropSpaces(t[3..]) == t[3..];
  }

  /** Normalising a normalised time changes nothing. */
  lemma ValidateTimeFormatIdempotent(s: string)
    ensures ValidateTimeFormat(ValidateTimeFormat(s)) == ValidateTimeFormat(s)
  {
    match MatchTime(s)
    case Some((hour, minute)) => ClockRoundTrip(hour, minute);
    case None =>
      assert Clock(9, 0) == "09:00";
      ClockRoundTrip(9, 0);
  }

  /** Strings whose heads have equal length compare head first. */
  lemma {:induction false} StrLtConcat(p1: string, q1: string, p2: string, q2: string)
    requires |p1| == |p2|
    ensures StrLt(p1 + q1, p2 + q2) <==> StrLt(p1, p2) || (p1 == p2 && StrLt(q1, q2))
    decreases |p1|
  {
    if p1 == [] {
      assert p1 + q1 == q1 && p2 + q2 == q2;
    } else {
      assert (p1 + q1)[1..] == p1[1..] + q1;
      assert (p2 + q2)[1..] == p2[1..] + q2;
      StrLtConcat(p1[1..], q1, p2[1..], q2);
      assert p1 == p2 <==> p1[0] == p2[0] && p1[1..] == p2[1..];
    }
  }

  lemma StrLtChar(c: char, d: char)
    ensures StrLt([c], [d]) <==> c < d
  {
    assert [c][1..] == [] && [d][1..] == [];
  }

  /** Two-digit numbers compare as text the way they compare as numbers. */
  lemma Pad2Order(x: nat, y: nat)
    requires x < 100 && y < 100
    ensures StrLt(Pad2(x), Pad2(y)) <==> x < y
    ensures Pad2(x) == Pad2(y) <==> x == y
  {
    var a, b := Pad2(x), Pad2(y);
    assert a == [a[0]] + [a[1]] && b == [b[0]] + [b[1]];
    StrLtConcat([a[0]], [a[1]], [b[0]], [b[1]]);
    StrLtChar(a[0], b[0]);
    StrLtChar(a[1], b[1]);
  }

  /** Comparing two clock strings as text compares their times. */
  lemma ClockOrder(h1: nat, m1: nat, h2: nat, m2: nat)
    requires h1 < 100 && m1 < 100 && h2 < 100 && m2 < 100
    ensures StrLt(Clock(h1, m1), Clock(h2, m2)) <==> (h1 < h2 || (h1 == h2 && m1 < m2))
  {
    assert Clock(h1, m1) == Pad2(h1) + (":" + Pad2(m1));
    assert Clock(h2, m2) == Pad2(h2) + (":" + Pad2(m2));
    Pad2Order(h1, h2);
    Pad2Order(m1, m2);
    StrLtConcat(Pad2(h1), ":" + Pad2(m1), Pad2(h2), ":" + Pad2(m2));
    StrLtConcat(":", Pad2(m1), ":", Pad2(m2));
    StrLtIrreflexive(":");
  }

  /** Text after the minute is ignored, so a 12-hour suffix is dropped
      rather than applied. */
  lemma TwelveHourSuffixIgnored()
    ensures ValidateTimeFormat("2:30 PM") == "02:30"
  {
    assert DropSpaces("2:30 PM") == "2:30 PM";
    assert "2:30 PM"[1..] == ":30 PM";
    assert DropSpaces(":30 PM") == ":30 PM";
    assert ":30 PM"[1..] == "30 PM";
    assert DropSpaces("30 PM") == "30 PM";
    assert Clock(2, 30) == "02:30";
  }

  /** White space may surround the hour and the colon. */
  lemma SpacedTimeAccepted()
    ensures ValidateTimeFormat(" 7 : 05") == "07:05"
  {
    assert " 7 : 05"[1..] == "7 : 05";
    assert DropSpaces(" 7 : 05") == "7 : 05";
    assert "7 : 05"[1..] == " : 05";
    assert " : 05"[1..] == ": 05";
    assert DropSpaces(" : 05") == ": 05";
    assert ": 05"[1..] == " 05";
    assert " 05"[1..] == "05";
    assert DropSpaces(" 05") == "05";
    assert Clock(7, 5) == "07:05";
  }

  /** A one-digit minute is no time at all, even with a 12-hour suffix. */
  lemma OneDigitMinuteRejected()
    ensures ValidateTimeFormat("2:5 PM") == "09:00"
  {
    assert DropSpaces("2:5 PM") == "2:5 PM";
    assert "2:5 PM"[1..] == ":5 PM";
    assert DropSpaces(":5 PM") == ":5 PM";
    assert ":5 PM"[1..] == "5 PM";
    assert DropSpaces("5 PM") == "5 PM";
  }

  /** Three digits before the colon are no time at all. */
  lemma ThreeDigitHourRejected()
    ensures ValidateTimeFormat("123:45") == "09:00"
  {
    assert DropSpaces("123:45") == "123:45";
    assert "123:45"[2..] == "3:45";
  }

  // ---------------------------------------------------------------------
  // _validate_activity
  // ---------------------------------------------------------------------

  /** `float(v)`; a string goes through `floatOf`. */
  function ToFloat(v: Json, floatOf: string -> Option<real>): (r: Result<real>)
    ensures r.Raise? ==> r.error == ValueError || r.error == TypeError
    ensures IsNumber(v) ==> r.Ok?
  {
    match v
    case Bool(b) => Ok(if b then 1.0 else 0.0)
    case Int(i) => Ok(i as real)
    case Float(f) => Ok(f)
    case Str(s) => if floatOf(s).Some? then Ok(floatOf(s).value) else Raise(ValueError)
    case _ => Raise(TypeError)
  }

  /** `float(v)`, or `0.0` when that raises. */
  function Coerced(v: Json, floatOf: string -> Option<real>): real
  {
    match ToFloat(v, floatOf)
    case Ok(x) => x
    case Raise(_) => 0.0
  }

  /** `str(v)` run through `_validate_time_format`. Only a string can match
      the time pattern: `str` of a number, a boolean or `None` has no colon
      after its leading digits, and that of a list or dict starts with a
      bracket. */
  function TimeOf(v: Json): (r: string)
    ensures IsClock(r)
  {
    if v.Str? then ValidateTimeFormat(v.s) else "09:00"
  }

  const NumericFields: seq<string> := ["estimated_cost", "duration_minutes"]

  function CoerceField(a: Dict, field: string, floatOf: string -> Option<real>): Dict
  {
    if Has(a, field) then Put(a, field, Float(Coerced(Get(a, field), floatOf))) else a
  }

  /** The loop over the numeric fields, after its first `fields` rounds. */
  function CoerceFields(a: Dict, fields: seq<string>, floatOf: string -> Option<real>): Dict
    decreases |fields|
  {
    if fields == [] then a
    else CoerceField(CoerceFields(a, fields[..|fields| - 1], floatOf), fields[|fields| - 1], floatOf)
  }

  function ActivityDefaults(a: Dict): Dict
  {
    SetDefault(SetDefault(SetDefault(a, "title", Str("Activity")), "type", Str("sightseeing")), "time", Str("09:00"))
  }

  /** An activity after `_validate_activity`. */
  function ValidActivity(a: Dict, floatOf: string -> Option<real>): Dict
  {
    var d := ActivityDefaults(a);
    CoerceFields(Put(d, "time", Str(TimeOf(Get(d, "time")))), NumericFields, floatOf)
  }

  method ValidateActivity(activity: Dict, floatOf: string -> Option<real>) returns (r: Dict)
    ensures r == ValidActivity(activity, floatOf)
  {
    r := activity;
    if !Has(r, "title") { r := Put(r, "title", Str("Activity")); }
    if !Has(r, "type") { r := Put(r, "type", Str("sightseeing")); }
    if !Has(r, "time") { r := Put(r, "time", Str("09:00")); }
    assert r == ActivityDefaults(activity);
    r := Put(r, "time", Str(TimeOf(Get(r, "time"))));
    ghost var timed := r;
    for i := 0 to |NumericFields|
      invariant r == CoerceFields(timed, NumericFields[..i], floatOf)
    {
      CoerceFieldsStep(timed, NumericFields, i, floatOf);
      ghost var before := r;
      var field := NumericFields[i];
      if Has(r, field) {
        var value := ToFloat(Get(r, field), floatOf);
        if value.Ok? {
          r := Put(r, field, Float(value.value));
        } else {
          r := Put(r, field, Float(0.0));
        }
      }
      assert r == CoerceField(before, field, floatOf);
    }
    assert NumericFields[..|NumericFields|] == NumericFields;
  }

  /** The loop over the numeric fields takes one more step. */
  lemma CoerceFieldsStep(a: Dict, fields: seq<string>, i: int, floatOf: string -> Option<real>)
    requires 0 <= i < |fields|
    ensures CoerceFields(a, fields[..i + 1], floatOf) == CoerceField(CoerceFields(a, fields[..i], floatOf), fields[i], floatOf)
  {
    assert fields[..i + 1][..i] == fields[..i];
  }

  lemma CoerceFieldsUnfold(a: Dict, floatOf: string -> Option<real>)
    ensures CoerceFields(a, NumericFields, floatOf)
            == CoerceField(CoerceField(a, "estimated_cost", floatOf), "duration_minutes", floatOf)
  {
    assert NumericFields[..1][..0] == [];
    assert NumericFields[..2][..1] == NumericFields[..1] == ["estimated_cost"];
    assert NumericFields[..2] == NumericFields;
  }

  lemma CoerceFieldFrame(a: Dict, field: string, floatOf: string -> Option<real>, k: string)
    requires k != field
    ensures Lookup(CoerceField(a, field, floatOf).fields, k) == Lookup(a.fields, k)
  {
  }

  /** A validated activity keeps a present title and type and gets the
      defaults otherwise. */
  lemma ValidActivityDefaults(a: Dict, floatOf: string -> Option<real>)
    ensures var r := ValidActivity(a, floatOf);
            && Get(r, "title") == (if Has(a, "title") then Get(a, "title") else Str("Activity"))
            && Get(r, "type") == (if Has(a, "type") then Get(a, "type") else Str("sightseeing"))
  {
    ActivityDefaultsFields(a);
    ValidActivityKeeps(a, floatOf, "title");
    ValidActivityKeeps(a, floatOf, "type");
  }

  /** Past the defaults, only the time and the numbers change. */
  lemma ValidActivityKeeps(a: Dict, floatOf: string -> Option<real>, k: string)
    requires k != "time" && k != "estimated_cost" && k != "duration_minutes"
    ensures Lookup(ValidActivity(a, floatOf).fields, k) == Lookup(ActivityDefaults(a).fields, k)
  {
    var d := ActivityDefaults(a);
    var timed := Put(d, "time", Str(TimeOf(Get(d, "time"))));
    assert Lookup(timed.fields, k) == Lookup(d.fields, k);
    CoercedKeeps(timed, floatOf, k);
  }

  /** A validated activity's time is the normalised form of its own time,
      or of the default one. */
  lemma ValidActivityTime(a: Dict, floatOf: string -> Option<real>)
    ensures var r := ValidActivity(a, floatOf);
            && Get(r, "time") == Str(TimeOf(if Has(a, "time") then Get(a, "time") else Str("09:00")))
            && IsClock(Get(r, "time").s)
  {
    var d := ActivityDefaults(a);
    ActivityDefaultsFields(a);
    var timed := Put(d, "time", Str(TimeOf(Get(d, "time"))));
    CoercedKeeps(timed, floatOf, "time");
  }

  /** Coercing the numbers touches no other field. */
  lemma CoercedKeeps(t: Dict, floatOf: string -> Option<real>, k: string)
    requires k != "estimated_cost" && k != "duration_minutes"
    ensures Lookup(CoerceFields(t, NumericFields, floatOf).fields, k) == Lookup(t.fields, k)
  {
    CoerceFieldsUnfold(t, floatOf);
    CoerceFieldFrame(t, "estimated_cost", floatOf, k);
    CoerceFieldFrame(CoerceField(t, "estimated_cost", floatOf), "duration_minutes", floatOf, k);
  }

  lemma ActivityDefaultsFields(a: Dict)
    ensures var d := ActivityDefaults(a);
            && Get(d, "title") == (if Has(a, "title") then Get(a, "title") else Str("Activity"))
            && Get(d, "type") == (if Has(a, "type") then Get(a, "type") else Str("sightseeing"))
            && Get(d, "time") == (if Has(a, "time") then Get(a, "time") else Str("09:00"))
  {
    var d1 := SetDefault(a, "title", Str("Activity"));
    var d2 := SetDefault(d1, "type", Str("sightseeing"));
    assert Lookup(d1.fields, "type") == Lookup(a.fields, "type");
    assert Lookup(d1.fields, "time") == Lookup(a.fields, "time");
    assert Lookup(d2.fields, "time") == Lookup(a.fields, "time");
    assert Lookup(d2.fields, "title") == Lookup(d1.fields, "title");
  }

  /** A present number field becomes a float (`0.0` when `float` rejects
      it); an absent one stays absent. */
  lemma ValidActivityNumbers(a: Dict, floatOf: string -> Option<real>, f: string)
    requires f in NumericFields
    ensures var r := ValidActivity(a, floatOf);
            && (Has(r, f) <==> Has(a, f))
            && (Has(a, f) ==> Get(r, f) == Float(Coerced(Get(a, f), floatOf)))
  {
    var d := ActivityDefaults(a);
    var timed := Put(d, "time", Str(TimeOf(Get(d, "time"))));
    CoerceFieldsUnfold(timed, floatOf);
    var c1 := CoerceField(timed, "estimated_cost", floatOf);
    assert Lookup(timed.fields, f) == Lookup(a.fields, f);
    if f == "estimated_cost" {
      CoerceFieldFrame(c1, "duration_minutes", floatOf, f);
    } else {
      CoerceFieldFrame(timed, "estimated_cost", floatOf, f);
    }
  }

  /** Validation touches no other field. */
  lemma ValidActivityFrame(a: Dict, floatOf: string -> Option<real>, k: string)
    requires k !in ["title", "type", "time", "estimated_cost", "duration_minutes"]
    ensures Lookup(ValidActivity(a, floatOf).fields, k) == Lookup(a.fields, k)
  {
    ValidActivityKeeps(a, floatOf, k);
    var d1 := SetDefault(a, "title", Str("Activity"));
    var d2 := SetDefault(d1, "type", Str("sightseeing"));
    assert Lookup(d1.fields, k) == Lookup(a.fields, k);
    assert Lookup(d2.fields, k) == Lookup(a.fields, k);
  }

  /** An activity whose only field is a time with a one-digit minute gets
      the default time, title and type. */
  lemma OneDigitMinuteActivity(floatOf: string -> Option<real>)
    ensures var r := ValidActivity(Obj([("time", Str("2:5 PM"))]), floatOf);
            Get(r, "time") == Str("09:00") && Get(r, "title") == Str("Activity") && Get(r, "type") == Str("sightseeing")
  {
    OneDigitMinuteRejected();
    ValidActivityDefaults(Obj([("time", Str("2:5 PM"))]), floatOf);
    ValidActivityTime(Obj([("time", Str("2:5 PM"))]), floatOf);
  }

  // ---------------------------------------------------------------------
  // _validate_itinerary_structure
  // ---------------------------------------------------------------------

  /** `len(v)` */
  function LenOf(v: Json): (r: Result<nat>)
    ensures r.Ok? <==> (v.Arr? || v.Str? || v.Obj?)
  {
    match v
    case Arr(items) => Ok(|items|)
    case Str(s) => Ok(|s|)
    case Obj(fields) => Ok(|fields|)
    case _ => Raise(TypeError)
  }

  function OverviewFields(duration: nat): seq<(string, Json)>
  {
    [("title", Str("Generated Trip")), ("destination", Str("Unknown")), ("duration", Int(duration))]
  }

  const BudgetCategories: seq<string> := ["accommodation", "food", "activities", "transportation"]

  function DefaultBudgetFields(): seq<(string, Json)>
  {
    seq(4, i requires 0 <= i < 4 => (BudgetCategories[i], Obj([("total", Int(0))])))
  }

  /** The activities after validation: dicts are validated, anything else
      is left as it is. */
  function ValidActivities(acts: seq<Json>, floatOf: string -> Option<real>): (r: seq<Json>)
    ensures |r| == |acts|
  {
    seq(|acts|, i requires 0 <= i < |acts| => if acts[i].Obj? then ValidActivity(acts[i], floatOf) else acts[i])
  }

  /** A day at position `idx` after validation. */
  function ValidDay(day: Json, idx: nat, floatOf: string -> Option<real>): Json
  {
    if !day.Obj? then day
    else
      var numbered := SetDefault(day, "day", Int(idx + 1));
      var listed := if Get(numbered, "activities").Arr? then numbered else Put(numbered, "activities", Arr([]));
      Put(listed, "activities", Arr(ValidActivities(Get(listed, "activities").items, floatOf)))
  }

  function ValidSchedule(days: seq<Json>, floatOf: string -> Option<real>): (r: seq<Json>)
    ensures |r| == |days|
  {
    seq(|days|, i requires 0 <= i < |days| => ValidDay(days[i], i, floatOf))
  }

  /** The top-level sections after defaulting. */
  /** The overview, added when missing: it needs the schedule's length. */
  function WithOverview(it: Dict): (r: Result<Dict>)
    ensures r.Ok? ==> forall k :: k != "trip_overview" ==> Lookup(r.value.fields, k) == Lookup(it.fields, k)
  {
    if Has(it, "trip_overview") then Ok(it)
    else
      var n :- LenOf(GetOr(it, "daily_schedule", Arr([])));
      Ok(Put(it, "trip_overview", Obj(OverviewFields(n))))
  }

  function WithSections(it: Dict): Result<Dict>
  {
    var withOverview :- WithOverview(it);
    var withSchedule := SetDefault(withOverview, "daily_schedule", Arr([]));
    Ok(SetDefault(withSchedule, "budget_breakdown", Obj(DefaultBudgetFields())))
  }

  /** The itinerary after `_validate_itinerary_structure`: only a dict has
      the `copy`/`get` it needs; a schedule that is a string or a dict is
      iterated but yields no dict days. */
  function ValidatedStructure(it: Json, floatOf: string -> Option<real>): (r: Result<Dict>)
  {
    if !it.Obj? then Raise(AttributeError)
    else
      var v :- WithSections(it);
      var schedule := Get(v, "daily_schedule");
      if schedule.Arr? then Ok(Put(v, "daily_schedule", Arr(ValidSchedule(schedule.items, floatOf))))
      else if Iterate(schedule).Ok? then Ok(v)
      else Raise(TypeError)
  }

  /** Validating the activities of one day, in place. */
  method ValidateActivities(acts: seq<Json>, floatOf: string -> Option<real>) returns (r: seq<Json>)
    ensures r == ValidActivities(acts, floatOf)
  {
    r := acts;
    for j := 0 to |r|
      invariant |r| == |acts|
      invariant forall k :: 0 <= k < j ==> r[k] == ValidActivities(acts, floatOf)[k]
      invariant r[j..] == acts[j..]
    {
      if r[j].Obj? {
        var a := ValidateActivity(r[j], floatOf);
        r := r[j := a];
      }
    }
  }

  /** The top-level defaults, filled in one by one. */
  method AddSections(it: Dict) returns (r: Result<Dict>)
    ensures r == WithSections(it)
  {
    var validated := it;
    if !Has(validated, "trip_overview") {
      var n := LenOf(GetOr(validated, "daily_schedule", Arr([])));
      if n.Raise? {
        return Raise(n.error);
      }
      validated := Put(validated, "trip_overview", Obj(OverviewFields(n.value)));
    }
    if !Has(validated, "daily_schedule") {
      validated := Put(validated, "daily_schedule", Arr([]));
    }
    if !Has(validated, "budget_breakdown") {
      validated := Put(validated, "budget_breakdown", Obj(DefaultBudgetFields()));
    }
    r := Ok(validated);
  }

  /** Validating one day in place. */
  method ValidateDay(day: Json, dayIdx: nat, floatOf: string -> Option<real>) returns (r: Json)
    ensures r == ValidDay(day, dayIdx, floatOf)
  {
    if !day.Obj? {
      return day;
    }
    var d: Dict := day;
    if !Has(d, "day") {
      d := Put(d, "day", Int(dayIdx + 1));
    }
    if !Has(d, "activities") || !Get(d, "activities").Arr? {
      d := Put(d, "activities", Arr([]));
    }
    var acts := ValidateActivities(Get(d, "activities").items, floatOf);
    r := Put(d, "activities", Arr(acts));
  }

  method ValidateItineraryStructure(it: Json, floatOf: string -> Option<real>) returns (r: Result<Dict>)
    ensures r == ValidatedStructure(it, floatOf)
  {
    if !it.Obj? {
      return Raise(AttributeError);
    }
    var sections := AddSections(it);
    if sections.Raise? {
      return Raise(sections.error);
    }
    var validated := sections.value;
    var schedule := Get(validated, "daily_schedule");
    if !schedule.Arr? {
      if Iterate(schedule).Raise? {
        return Raise(TypeError);
      }
      return Ok(validated);
    }
    var days := schedule.items;
    for dayIdx := 0 to |days|
      invariant |days| == |schedule.items|
      invariant forall k :: 0 <= k < dayIdx ==> days[k] == ValidSchedule(schedule.items, floatOf)[k]
      invariant days[dayIdx..] == schedule.items[dayIdx..]
    {
      assert days[dayIdx] == schedule.items[dayIdx];
      var day := ValidateDay(days[dayIdx], dayIdx, floatOf);
      days := days[dayIdx := day];
    }
    assert days == ValidSchedule(schedule.items, floatOf);
    r := Ok(Put(validated, "daily_schedule", Arr(days)));
  }

  /** A missing overview names a generated trip whose duration is the length
      of the schedule; a present one is kept. */
  lemma SectionOverview(it: Dict)
    requires WithSections(it).Ok?
    ensures var v := WithSections(it).value;
            && Has(v, "trip_overview")
            && (Has(it, "trip_overview") ==> Get(v, "trip_overview") == Get(it, "trip_overview"))
            && (!Has(it, "trip_overview") ==>
                  Get(v, "trip_overview") == Obj(OverviewFields(LenOf(GetOr(it, "daily_schedule", Arr([]))).value)))
  {
    var w := WithOverview(it).value;
    var ws := SetDefault(w, "daily_schedule", Arr([]));
    assert Lookup(ws.fields, "trip_overview") == Lookup(w.fields, "trip_overview");
  }

  /** A missing schedule becomes empty and a missing budget gets four zero
      categories; present ones are kept. */
  lemma SectionScheduleAndBudget(it: Dict)
    requires WithSections(it).Ok?
    ensures var v := WithSections(it).value;
            && Has(v, "daily_schedule") && Has(v, "budget_breakdown")
            && Get(v, "daily_schedule") == (if Has(it, "daily_schedule") then Get(it, "daily_schedule") else Arr([]))
            && Get(v, "budget_breakdown") == (if Has(it, "budget_breakdown") then Get(it, "budget_breakdown") else Obj(DefaultBudgetFields()))
  {
    var w := WithOverview(it).value;
    TwoDefaults(it, w, "trip_overview", "daily_schedule", Arr([]), "budget_breakdown", Obj(DefaultBudgetFields()));
  }

  /** Two `setdefault` calls on different keys, after a change to a third. */
  lemma TwoDefaults(d0: Dict, d: Dict, k0: string, k1: string, v1: Json, k2: string, v2: Json)
    requires k1 != k2 && k0 != k1 && k0 != k2
    requires forall k :: k != k0 ==> Lookup(d.fields, k) == Lookup(d0.fields, k)
    ensures var r := SetDefault(SetDefault(d, k1, v1), k2, v2);
            && Has(r, k1) && Has(r, k2)
            && Get(r, k1) == (if Has(d0, k1) then Get(d0, k1) else v1)
            && Get(r, k2) == (if Has(d0, k2) then Get(d0, k2) else v2)
  {
    var r1 := SetDefault(d, k1, v1);
    assert Lookup(r1.fields, k2) == Lookup(d.fields, k2);
    assert Lookup(d.fields, k1) == Lookup(d0.fields, k1);
    assert Lookup(d.fields, k2) == Lookup(d0.fields, k2);
  }

  /** A section-less itinerary fails only when its schedule has no length. */
  lemma SectionsFail(it: Dict)
    ensures WithSections(it).Raise? <==>
              !Has(it, "trip_overview") && LenOf(GetOr(it, "daily_schedule", Arr([]))).Raise?
  {
  }

  /** A dict day gets its position (from 1) as its number when it has none,
      and a list of activities (empty when it had none or not a list), each
      dict among them validated. */
  lemma ValidDayFields(day: Dict, idx: nat, floatOf: string -> Option<real>)
    ensures var r := ValidDay(day, idx, floatOf);
            && r.Obj?
            && Get(r, "day") == (if Has(day, "day") then Get(day, "day") else Int(idx + 1))
            && Get(r, "activities").Arr?
            && Get(r, "activities").items ==
                 ValidActivities(if Get(day, "activities").Arr? then Get(day, "activities").items else [], floatOf)
  {
  }

  // ---------------------------------------------------------------------
  // _format_budget_breakdown
  // ---------------------------------------------------------------------

  const Categories: seq<string> := ["accommodation", "food", "activities", "transportation", "miscellaneous"]

  /** The total one category gets: a dict's `total` as a float, a bare
      number as a float, anything else (a missing category among them)
      `0.0`. */
  function CategoryTotal(budget: Dict, category: string, floatOf: string -> Option<real>): (r: Result<real>)
  {
    var value := GetOr(budget, category, Obj([("total", Float(0.0))]));
    if value.Obj? && Has(value, "total") then ToFloat(Get(value, "total"), floatOf)
    else if IsNumber(value) then ToFloat(value, floatOf)
    else Ok(0.0)
  }

  function Sum(xs: seq<real>): real
  {
    if xs == [] then 0.0 else Sum(xs[..|xs| - 1]) + xs[|xs| - 1]
  }

  function TotalsFields(categories: seq<string>, totals: seq<real>): (r: seq<(string, Json)>)
    requires |categories| == |totals|
    ensures |r| == |categories|
  {
    seq(|categories|, i requires 0 <= i < |categories| => (categories[i], Obj([("total", Float(totals[i]))])))
  }

  function FormatBudget(budget: Json, floatOf: string -> Option<real>): (r: Result<Dict>)
  {
    if !budget.Obj? then Raise(AttributeError)
    else
      var b: Dict := budget;
      var totals :- MapOk((c: string) => CategoryTotal(b, c, floatOf), Categories);
      var formatted: Dict := Obj(TotalsFields(Categories, totals) + [("grand_total", Float(Sum(totals)))]);
      Ok(formatted)
  }

  /** The budget has the five categories, in order, each `{"total": t}`
      with `t` as `CategoryTotal` gives it, then the grand total, their sum;
      it fails only for a non-dict budget or a category total that `float`
      rejects. */
  lemma FormatBudgetShape(budget: Dict, floatOf: string -> Option<real>)
    ensures FormatBudget(budget, floatOf).Ok? <==> forall c :: c in Categories ==> CategoryTotal(budget, c, floatOf).Ok?
    ensures FormatBudget(budget, floatOf).Ok? ==>
              var fields := FormatBudget(budget, floatOf).value.fields;
              && |fields| == 6
              && (forall i :: 0 <= i < 5 ==>
                    fields[i] == (Categories[i], Obj([("total", Float(CategoryTotal(budget, Categories[i], floatOf).value))])))
              && fields[5].0 == "grand_total"
              && fields[5].1 == Float(Sum(seq(5, i requires 0 <= i < 5 => CategoryTotal(budget, Categories[i], floatOf).value)))
  {
    var f := (c: string) => CategoryTotal(budget, c, floatOf);
    var m := MapOk(f, Categories);
    if m.Ok? {
      assert m.value == seq(5, i requires 0 <= i < 5 => CategoryTotal(budget, Categories[i], floatOf).value);
    }
    assert (forall c :: c in Categories ==> f(c).Ok?) <==> (forall i :: 0 <= i < |Categories| ==> f(Categories[i]).Ok?);
  }

  /** How each kind of category value is read. */
  lemma CategoryTotalCases(budget: Dict, category: string, floatOf: string -> Option<real>)
    ensures !Has(budget, category) ==> CategoryTotal(budget, category, floatOf) == Ok(0.0)
    ensures Get(budget, category).Int? ==> CategoryTotal(budget, category, floatOf) == Ok(Get(budget, category).i as real)
    ensures Get(budget, category).Float? ==> CategoryTotal(budget, category, floatOf) == Ok(Get(budget, category).f)
    ensures Get(budget, category).Obj? && !Has(Get(budget, category), "total") ==> CategoryTotal(budget, category, floatOf) == Ok(0.0)
    ensures Get(budget, category).Str? || Get(budget, category).Arr? ==> CategoryTotal(budget, category, floatOf) == Ok(0.0)
  {
    assert Lookup([("total", Float(0.0))], "total") == Some(Float(0.0));
  }

  // ---------------------------------------------------------------------
  // _format_itinerary_data: sorting
  // ---------------------------------------------------------------------

  /** `x.get('day', 0)` */
  function DayKey(day: Json): Json
  {
    if day.Obj? then GetOr(day, "day", Int(0)) else Null
  }

  /** `x.get('time', '00:00')` */
  function TimeKey(activity: Json): Json
  {
    if activity.Obj? then GetOr(activity, "time", Str("00:00")) else Null
  }

  predicate AllDicts(items: seq<Json>)
  {
    forall i :: 0 <= i < |items| ==> items[i].Obj?
  }

  /** `if day.get('activities'): day['activities'].sort(key=...)` */
  function SortActivities(day: Json): (r: Result<Json>)
  {
    if !day.Obj? then Raise(AttributeError)
    else
      var acts := Get(day, "activities");
      if !Truthy(acts) then Ok(day)
      else if !acts.Arr? || !AllDicts(acts.items) then Raise(AttributeError)
      else
        var sorted :- PySorted(acts.items, TimeKey);
        Ok(Put(day, "activities", Arr(sorted)))
  }

  /** The schedule sorted by day, then every day's activities by time. */
  function SortedSchedule(days: seq<Json>): (r: Result<seq<Json>>)
  {
    if !AllDicts(days) then Raise(AttributeError)
    else
      var sorted :- PySorted(days, DayKey);
      MapOk(SortActivities, sorted)
  }

  /** The sort of the days keeps every day and puts their numbers in
      ascending order, days with equal numbers keeping their order. */
  lemma SortedDays(days: seq<Json>)
    requires PySorted(days, DayKey).Ok?
    ensures var r := PySorted(days, DayKey).value;
            && multiset(r) == multiset(days)
            && SortedBy(r, KeyBy(DayKey))
            && forall k :: WithKey(r, KeyBy(DayKey), k) == WithKey(days, KeyBy(DayKey), k)
  {
    SortByCorrect(days, KeyBy(DayKey));
  }

  /** The time of an activity, as the sort sees it, is a clock string. */
  predicate HasClock(activity: Json)
  {
    TimeKey(activity).Str? && IsClock(TimeKey(activity).s)
  }

  /** After validation every activity time is a clock string, so sorting
      activities by time cannot fail, keeps every activity and puts them in
      order of time of day. */
  lemma ActivitiesSortedByClock(items: seq<Json>)
    requires forall i :: 0 <= i < |items| ==> HasClock(items[i])
    ensures PySorted(items, TimeKey).Ok?
    ensures var r := PySorted(items, TimeKey).value;
            && multiset(r) == multiset(items)
            && forall i, j :: 0 <= i < j < |r| ==>
                 HasClock(r[i]) && HasClock(r[j]) && !StrLt(TimeKey(r[j]).s, TimeKey(r[i]).s)
  {
    ClockTimesSortable(items);
    SortByCorrect(items, KeyBy(TimeKey));
    var r := SortBy(items, KeyBy(TimeKey));
    ClocksKept(items, r);
    forall i, j | 0 <= i < j < |r|
      ensures !StrLt(TimeKey(r[j]).s, TimeKey(r[i]).s)
    {
      assert !KeyLt(KeyBy(TimeKey)(r[j]), KeyBy(TimeKey)(r[i]));
    }
  }

  lemma ClockTimesSortable(items: seq<Json>)
    requires forall i :: 0 <= i < |items| ==> HasClock(items[i])
    ensures PySorted(items, TimeKey).Ok?
  {
    var keys := seq(|items|, i requires 0 <= i < |items| => TimeKey(items[i]));
    assert forall i :: 0 <= i < |keys| ==> keys[i].Str?;
  }

  lemma ClocksKept(items: seq<Json>, r: seq<Json>)
    requires forall i :: 0 <= i < |items| ==> HasClock(items[i])
    requires multiset(r) == multiset(items)
    ensures forall i :: 0 <= i < |r| ==> HasClock(r[i])
  {
    forall i | 0 <= i < |r| ensures HasClock(r[i]) {
      assert r[i] in multiset(items);
      var a :| 0 <= a < |items| && items[a] == r[i];
    }
  }

  // ---------------------------------------------------------------------
  // _add_calculated_fields
  // ---------------------------------------------------------------------

  function IntValue(j: Json): int
    requires j.Bool? || j.Int?
  {
    if j.Bool? then (if j.b then 1 else 0) else j.i
  }

  /** `a + b` on numbers: an int unless a float takes part (a bool adds as
      an int); anything else raises `TypeError`. */
  function AddNum(a: Json, b: Json): (r: Result<Json>)
    ensures r.Ok? <==> IsNumber(a) && IsNumber(b)
    ensures r.Ok? ==> (r.value.Int? || r.value.Float?) && NumValue(r.value) == NumValue(a) + NumValue(b)
  {
    if !IsNumber(a) || !IsNumber(b) then Raise(TypeError)
    else if a.Float? || b.Float? then Ok(Float(NumValue(a) + NumValue(b)))
    else Ok(Int(IntValue(a) + IntValue(b)))
  }

  /** `sum(xs)`, which starts from the int `0`. */
  function PySum(xs: seq<Json>): (r: Result<Json>)
    ensures r.Ok? <==> forall i :: 0 <= i < |xs| ==> IsNumber(xs[i])
    ensures r.Ok? ==> IsNumber(r.value) && !r.value.Bool?
    decreases |xs|
  {
    if xs == [] then Ok(Int(0))
    else
      var s :- PySum(xs[..|xs| - 1]);
      AddNum(s, xs[|xs| - 1])
  }

  function NumSum(xs: seq<Json>): real
    requires forall i :: 0 <= i < |xs| ==> IsNumber(xs[i])
  {
    if xs == [] then 0.0 else NumSum(xs[..|xs| - 1]) + NumValue(xs[|xs| - 1])
  }

  /** The sum's value is the sum of the values. */
  lemma {:induction false} PySumValue(xs: seq<Json>)
    requires forall i :: 0 <= i < |xs| ==> IsNumber(xs[i])
    ensures NumValue(PySum(xs).value) == NumSum(xs)
    decreases |xs|
  {
    if xs != [] {
      PySumValue(xs[..|xs| - 1]);
    }
  }

  /** The set of `xs` added to the set listed by `acc`, listed in the order
      the values first appear (the model's choice of set iteration order). */
  function AddNew(acc: seq<Json>, xs: seq<Json>): (r: seq<Json>)
    decreases |xs|
  {
    if xs == [] then acc
    else
      var a := AddNew(acc, xs[..|xs| - 1]);
      if xs[|xs| - 1] in a then a else a + [xs[|xs| - 1]]
  }

  ghost predicate Distinct(s: seq<Json>)
  {
    forall i, j :: 0 <= i < j < |s| ==> s[i] != s[j]
  }

  /** Adding keeps the list free of repeats and lists exactly the union. */
  lemma {:induction false} AddNewUnion(acc: seq<Json>, xs: seq<Json>)
    requires Distinct(acc)
    ensures Distinct(AddNew(acc, xs))
    ensures forall x :: x in AddNew(acc, xs) <==> x in acc || x in xs
    decreases |xs|
  {
    if xs != [] {
      var init := xs[..|xs| - 1];
      AddNewUnion(acc, init);
      assert forall x :: x in xs <==> x in init || x == xs[|xs| - 1];
    }
  }

  datatype DayStats = DayStats(count: nat, cost: Json, types: seq<Json>)

  function CostOf(act: Dict): Json
  {
    GetOr(act, "estimated_cost", Int(0))
  }

  function TypeOf(act: Dict): Json
  {
    GetOr(act, "type", Str("unknown"))
  }

  function Costs(acts: seq<Json>): (r: seq<Json>)
    requires AllDicts(acts)
    ensures |r| == |acts|
    ensures forall i :: 0 <= i < |acts| ==> r[i] == CostOf(acts[i])
  {
    seq(|acts|, i requires 0 <= i < |acts| => CostOf(acts[i]))
  }

  function Types(acts: seq<Json>): (r: seq<Json>)
    requires AllDicts(acts)
    ensures |r| == |acts|
    ensures forall i :: 0 <= i < |acts| ==> r[i] == TypeOf(acts[i])
  {
    seq(|acts|, i requires 0 <= i < |acts| => TypeOf(acts[i]))
  }

  predicate AllHashable(items: seq<Json>)
  {
    forall i :: 0 <= i < |items| ==> Hashable(items[i])
  }

  /** One day's summary: the number of activities, the sum of their costs
      (a missing cost counts as 0) and their distinct types. */
  function StatsOfDay(day: Json): (r: Result<DayStats>)
    ensures r.Ok? ==> day.Obj? && IsNumber(r.value.cost)
  {
    if !day.Obj? then Raise(AttributeError)
    else
      var acts :- Iterate(GetOr(day, "activities", Arr([])));
      if !AllDicts(acts) then Raise(AttributeError)
      else
        var cost :- PySum(Costs(acts));
        if !AllHashable(Types(acts)) then Raise(TypeError)
        else Ok(DayStats(|acts|, cost, AddNew([], Types(acts))))
  }

  function SummaryFields(s: DayStats): seq<(string, Json)>
  {
    [("total_activities", Int(s.count)), ("estimated_cost", s.cost), ("activity_types", Arr(s.types))]
  }

  datatype Totals = Totals(days: seq<Json>, activities: nat, cost: Json, types: seq<Json>)

  /** `out` is `day` with the summary of its statistics added. */
  predicate Summarized(day: Json, out: Json)
  {
    StatsOfDay(day).Ok? && out == Put(day, "summary", Obj(SummaryFields(StatsOfDay(day).value)))
  }

  /** One round of the loop over the days: the day gets its summary and the
      totals grow by the day's figures. */
  function Step(t: Totals, day: Json): (r: Result<Totals>)
    ensures r.Ok? ==> |r.value.days| == |t.days| + 1
    ensures r.Ok? ==> r.value.days[..|t.days|] == t.days && Summarized(day, r.value.days[|t.days|])
  {
    var s :- StatsOfDay(day);
    var cost :- AddNum(t.cost, s.cost);
    var summarized: Dict := Put(day, "summary", Obj(SummaryFields(s)));
    Ok(Totals(t.days + [summarized], t.activities + s.count, cost, AddNew(t.types, s.types)))
  }

  lemma StepOk(t: Totals, day: Json)
    requires StatsOfDay(day).Ok? && AddNum(t.cost, StatsOfDay(day).value.cost).Ok?
    ensures var s := StatsOfDay(day).value;
            && Step(t, day).Ok?
            && Step(t, day).value.days == t.days + [Put(day, "summary", Obj(SummaryFields(s)))]
            && Step(t, day).value.activities == t.activities + s.count
            && Step(t, day).value.cost == AddNum(t.cost, s.cost).value
            && Step(t, day).value.types == AddNew(t.types, s.types)
  {
  }

  /** The loop over the days after its first `|days|` rounds: each day with
      its summary, and the running totals. */
  function Calculated(days: seq<Json>): (r: Result<Totals>)
    ensures r.Ok? ==> |r.value.days| == |days|
    decreases |days|
  {
    if days == [] then Ok(Totals([], 0, Int(0), []))
    else
      var t :- Calculated(days[..|days| - 1]);
      Step(t, days[|days| - 1])
  }

  function StatisticsFields(t: Totals): seq<(string, Json)>
  {
    [("total_activities", Int(t.activities)), ("total_estimated_cost", t.cost),
     ("unique_activity_types", Int(|t.types|)), ("activity_types", Arr(t.types))]
  }

  /** The itinerary after `_add_calculated_fields`. */
  function WithCalculatedFields(it: Dict): (r: Result<Dict>)
  {
    var schedule := GetOr(it, "daily_schedule", Arr([]));
    var days :- Iterate(schedule);
    var t :- Calculated(days);
    var withDays := if schedule.Arr? && Has(it, "daily_schedule") then Put(it, "daily_schedule", Arr(t.days)) else it;
    var overview := GetOr(withDays, "trip_overview", Obj([]));
    if !overview.Obj? then Raise(TypeError)
    else Ok(Put(withDays, "trip_overview", Put(overview, "statistics", Obj(StatisticsFields(t)))))
  }

  method AddCalculatedFields(it: Dict) returns (r: Result<Dict>)
    ensures r == WithCalculatedFields(it)
  {
    var schedule := GetOr(it, "daily_schedule", Arr([]));
    var iterated := Iterate(schedule);
    if iterated.Raise? {
      return Raise(iterated.error);
    }
    var totals := CalculateTotals(iterated.value);
    if totals.Raise? {
      return Raise(totals.error);
    }
    var t := totals.value;
    var withDays := it;
    if schedule.Arr? && Has(it, "daily_schedule") {
      withDays := Put(it, "daily_schedule", Arr(t.days));
    }
    var overview := GetOr(withDays, "trip_overview", Obj([]));
    if !overview.Obj? {
      return Raise(TypeError);
    }
    r := Ok(Put(withDays, "trip_overview", Put(overview, "statistics", Obj(StatisticsFields(t)))));
  }

  /** The loop over the days, summarizing each and keeping running totals. */
  method CalculateTotals(days: seq<Json>) returns (r: Result<Totals>)
    ensures r == Calculated(days)
  {
    var summarized: seq<Json> := [];
    var totalActivities: nat, totalCost: Json := 0, Int(0);
    var activityTypes: seq<Json> := [];
    for i := 0 to |days|
      invariant Calculated(days[..i]).Ok?
      invariant Calculated(days[..i]).value.days == summarized
      invariant Calculated(days[..i]).value.activities == totalActivities
      invariant Calculated(days[..i]).value.cost == totalCost
      invariant Calculated(days[..i]).value.types == activityTypes
    {
      var s := StatsOfDay(days[i]);
      if s.Raise? {
        CalculatedStep(days, i);
        CalculatedFailureSticks(days, i + 1);
        return Raise(s.error);
      }
      var cost := AddNum(totalCost, s.value.cost);
      if cost.Raise? {
        CalculatedStep(days, i);
        CalculatedFailureSticks(days, i + 1);
        return Raise(cost.error);
      }
      var day: Dict := days[i];
      var summary := Put(day, "summary", Obj(SummaryFields(s.value)));
      CalculatedExtends(days, i, Totals(summarized, totalActivities, totalCost, activityTypes), s.value, cost.value, summary);
      summarized := summarized + [summary];
      totalActivities, totalCost := totalActivities + s.value.count, cost.value;
      activityTypes := AddNew(activityTypes, s.value.types);
    }
    assert days[..|days|] == days;
    r := Ok(Totals(summarized, totalActivities, totalCost, activityTypes));
  }

  /** One more round of the loop over the days. */
  lemma CalculatedStep(days: seq<Json>, i: int)
    requires 0 <= i < |days|
    requires Calculated(days[..i]).Ok?
    ensures Calculated(days[..i + 1]) == Step(Calculated(days[..i]).value, days[i])
  {
    assert days[..i + 1][..i] == days[..i];
  }

  /** A round that neither raises extends the totals by the day's figures. */
  lemma CalculatedExtends(days: seq<Json>, i: int, t: Totals, s: DayStats, cost: Json, summary: Dict)
    requires 0 <= i < |days|
    requires Calculated(days[..i]).Ok? && Calculated(days[..i]).value == t
    requires StatsOfDay(days[i]) == Ok(s)
    requires AddNum(t.cost, s.cost) == Ok(cost)
    requires days[i].Obj? && summary == Put(days[i], "summary", Obj(SummaryFields(s)))
    ensures Calculated(days[..i + 1]).Ok?
    ensures var next := Calculated(days[..i + 1]).value;
            && next.days == t.days + [summary]
            && next.activities == t.activities + s.count
            && next.cost == cost
            && next.types == AddNew(t.types, s.types)
  {
    CalculatedStep(days, i);
    StepOk(t, days[i]);
  }

  lemma {:induction false} CalculatedFailureSticks(days: seq<Json>, n: int)
    requires 0 <= n <= |days|
    requires Calculated(days[..n]).Raise?
    ensures Calculated(days) == Raise(Calculated(days[..n]).error)
    decreases |days| - n
  {
    if n < |days| {
      assert days[..n + 1][..n] == days[..n];
      CalculatedFailureSticks(days, n + 1);
    } else {
      assert days[..n] == days;
    }
  }

  /** The last round of the loop, taken apart. */
  lemma CalculatedLast(days: seq<Json>)
    requires days != [] && Calculated(days).Ok?
    ensures var init := days[..|days| - 1];
            var last := days[|days| - 1];
            && Calculated(init).Ok?
            && StatsOfDay(last).Ok?
            && var t := Calculated(init).value;
               var s := StatsOfDay(last).value;
               var summarized: Dict := Put(last, "summary", Obj(SummaryFields(s)));
               && AddNum(t.cost, s.cost).Ok?
               && Calculated(days).value
                  == Totals(t.days + [summarized], t.activities + s.count,
                            AddNum(t.cost, s.cost).value, AddNew(t.types, s.types))
  {
  }

  /** Every day comes out of the loop carrying its own summary. */
  lemma {:induction false} CalculatedDays(days: seq<Json>)
    requires Calculated(days).Ok?
    ensures forall i :: 0 <= i < |days| ==> Summarized(days[i], Calculated(days).value.days[i])
    decreases |days|
  {
    if days != [] {
      var init := days[..|days| - 1];
      CalculatedDays(init);
      var t := Calculated(init).value;
      var r := Calculated(days).value.days;
      assert Step(t, days[|days| - 1]).Ok? && r == Step(t, days[|days| - 1]).value.days;
      SplitLast(days);
      SplitLast(r);
      PairsExtend(init, days[|days| - 1], t.days, r[|t.days|], Summarized);
    }
  }

  lemma SplitLast<T>(s: seq<T>)
    requires s != []
    ensures s == s[..|s| - 1] + [s[|s| - 1]]
  {
  }

  /** A relation that holds pairwise on two lists, and on two more
      elements, holds pairwise on the lists extended by them. */
  lemma PairsExtend<T>(xs: seq<T>, x: T, ys: seq<T>, y: T, P: (T, T) -> bool)
    requires |xs| == |ys|
    requires forall i :: 0 <= i < |xs| ==> P(xs[i], ys[i])
    requires P(x, y)
    ensures forall i :: 0 <= i <= |xs| ==> P((xs + [x])[i], (ys + [y])[i])
  {
  }

  /** The trip's activity count is the sum of the days' counts. */
  lemma {:induction false} CalculatedCount(days: seq<Json>)
    requires Calculated(days).Ok?
    ensures forall i :: 0 <= i < |days| ==> StatsOfDay(days[i]).Ok?
    ensures Calculated(days).value.activities == CountSum(days)
    decreases |days|
  {
    assert forall i :: 0 <= i < |days| ==> StatsOfDay(days[i]).Ok? by {
      CalculatedDays(days);
    }
    if days != [] {
      CalculatedLast(days);
      CalculatedCount(days[..|days| - 1]);
    }
  }

  /** The trip's cost is a number, the sum of the days' costs. */
  lemma {:induction false} CalculatedCost(days: seq<Json>)
    requires Calculated(days).Ok?
    ensures forall i :: 0 <= i < |days| ==> StatsOfDay(days[i]).Ok?
    ensures IsNumber(Calculated(days).value.cost)
    ensures NumValue(Calculated(days).value.cost) == CostSum(days)
    decreases |days|
  {
    assert forall i :: 0 <= i < |days| ==> StatsOfDay(days[i]).Ok? by {
      CalculatedDays(days);
    }
    if days != [] {
      CalculatedLast(days);
      CalculatedCost(days[..|days| - 1]);
    }
  }

  /** `day` has statistics, and `x` among their activity types. */
  predicate HasType(day: Json, x: Json)
  {
    StatsOfDay(day).Ok? && x in StatsOfDay(day).value.types
  }

  /** The trip's types are the distinct types of all days, each once. */
  lemma {:induction false} CalculatedTypes(days: seq<Json>)
    requires Calculated(days).Ok?
    ensures forall i :: 0 <= i < |days| ==> StatsOfDay(days[i]).Ok?
    ensures Distinct(Calculated(days).value.types)
    ensures forall x :: x in Calculated(days).value.types <==>
              exists i :: 0 <= i < |days| && HasType(days[i], x)
    decreases |days|
  {
    assert forall i :: 0 <= i < |days| ==> StatsOfDay(days[i]).Ok? by {
      CalculatedDays(days);
    }
    if days != [] {
      var init := days[..|days| - 1];
      CalculatedLast(days);
      CalculatedTypes(init);
      var t := Calculated(init).value;
      var s := StatsOfDay(days[|days| - 1]).value;
      AddNewUnion(t.types, s.types);
      assert forall x :: x in Calculated(days).value.types <==> x in t.types || HasType(days[|days| - 1], x);
      UnionStep(days, init, t.types, Calculated(days).value.types, HasType);
    }
  }

  /** What was seen up to the last element, joined with what the last one
      holds, is what some element holds. */
  lemma UnionStep<T, U>(xs: seq<T>, init: seq<T>, acc: seq<U>, r: seq<U>, P: (T, U) -> bool)
    requires xs != [] && init == xs[..|xs| - 1]
    requires forall x :: x in acc <==> exists i :: 0 <= i < |init| && P(init[i], x)
    requires forall x :: x in r <==> x in acc || P(xs[|xs| - 1], x)
    ensures forall x :: x in r <==> exists i :: 0 <= i < |xs| && P(xs[i], x)
  {
    forall x ensures x in r <==> exists i :: 0 <= i < |xs| && P(xs[i], x)
    {
      if x in acc {
        var i :| 0 <= i < |init| && P(init[i], x);
        assert xs[i] == init[i];
      } else if !P(xs[|xs| - 1], x) {
        forall i | 0 <= i < |xs| ensures !P(xs[i], x) {
          if i < |init| {
            assert xs[i] == init[i];
          }
        }
      }
    }
  }

  function CountSum(days: seq<Json>): nat
    requires forall i :: 0 <= i < |days| ==> StatsOfDay(days[i]).Ok?
  {
    if days == [] then 0 else CountSum(days[..|days| - 1]) + StatsOfDay(days[|days| - 1]).value.count
  }

  function CostSum(days: seq<Json>): real
    requires forall i :: 0 <= i < |days| ==> StatsOfDay(days[i]).Ok?
  {
    if days == [] then 0.0 else CostSum(days[..|days| - 1]) + NumValue(StatsOfDay(days[|days| - 1]).value.cost)
  }

  /** One day's summary counts its activities, sums their costs and lists
      their distinct types. */
  lemma StatsOfDayFacts(day: Dict)
    requires StatsOfDay(day).Ok?
    ensures var acts := Iterate(GetOr(day, "activities", Arr([]))).value;
            var s := StatsOfDay(day).value;
            && s.count == |acts|
            && AllDicts(acts)
            && NumValue(s.cost) == NumSum(Costs(acts))
            && Distinct(s.types)
            && (forall x :: x in s.types <==> exists i :: 0 <= i < |acts| && x == TypeOf(acts[i]))
  {
    var acts := Iterate(GetOr(day, "activities", Arr([]))).value;
    PySumValue(Costs(acts));
    AddNewUnion([], Types(acts));
  }

  // ---------------------------------------------------------------------
  // _format_itinerary_data
  // ---------------------------------------------------------------------

  function WithBudget(it: Dict, floatOf: string -> Option<real>): Result<Dict>
  {
    if Has(it, "budget_breakdown") then
      var b :- FormatBudget(Get(it, "budget_breakdown"), floatOf);
      Ok(Put(it, "budget_breakdown", b))
    else Ok(it)
  }

  function WithSortedSchedule(it: Dict): Result<Dict>
  {
    if Has(it, "daily_schedule") then
      var schedule := Get(it, "daily_schedule");
      if !schedule.Arr? then Raise(AttributeError)
      else
        var sorted :- SortedSchedule(schedule.items);
        Ok(Put(it, "daily_schedule", Arr(sorted)))
    else Ok(it)
  }

  /** The itinerary after `_format_itinerary_data`. */
  function Formatted(it: Dict, floatOf: string -> Option<real>): Result<Dict>
  {
    var budgeted :- WithBudget(it, floatOf);
    var sorted :- WithSortedSchedule(budgeted);
    WithCalculatedFields(sorted)
  }

  method FormatItineraryData(it: Dict, floatOf: string -> Option<real>) returns (r: Result<Dict>)
    ensures r == Formatted(it, floatOf)
  {
    var formatted := it;
    if Has(formatted, "budget_breakdown") {
      var b := FormatBudget(Get(formatted, "budget_breakdown"), floatOf);
      if b.Raise? {
        return Raise(b.error);
      }
      formatted := Put(formatted, "budget_breakdown", b.value);
    }
    assert WithBudget(it, floatOf) == Ok(formatted);
    ghost var budgeted := formatted;
    if Has(formatted, "daily_schedule") {
      var schedule := Get(formatted, "daily_schedule");
      if !schedule.Arr? {
        return Raise(AttributeError);
      }
      if !AllDicts(schedule.items) {
        return Raise(AttributeError);
      }
      var sortedDays := PySorted(schedule.items, DayKey);
      if sortedDays.Raise? {
        return Raise(sortedDays.error);
      }
      var days := sortedDays.value;
      for i := 0 to |days|
        invariant |days| == |sortedDays.value|
        invariant forall k :: 0 <= k < i ==> SortActivities(sortedDays.value[k]) == Ok(days[k])
        invariant days[i..] == sortedDays.value[i..]
      {
        assert days[i] == sortedDays.value[i];
        var day := SortActivities(days[i]);
        if day.Raise? {
          MapOkFails(SortActivities, sortedDays.value, i);
          return Raise(day.error);
        }
        days := days[i := day.value];
      }
      MapOkAll(SortActivities, sortedDays.value, days);
      formatted := Put(formatted, "daily_schedule", Arr(days));
    }
    assert WithSortedSchedule(budgeted) == Ok(formatted);
    r := AddCalculatedFields(formatted);
  }

  // ---------------------------------------------------------------------
  // _calculate_confidence_score
  // ---------------------------------------------------------------------

  function Min(a: real, b: real): real
  {
    if a <= b then a else b
  }

  /** `x > 0` */
  function Positive(x: Json): (r: Result<bool>)
  {
    if IsNumber(x) then Ok(NumValue(x) > 0.0) else Raise(TypeError)
  }

  /** Up to 30 points, 10 per activity in an average day. */
  function Density(days: Json): (r: Result<real>)
    requires Truthy(days)
    ensures r.Ok? ==> 0.0 <= r.value <= 30.0
  {
    var items :- Iterate(days);
    var lens :- MapOk((d: Json) => if d.Obj? then LenOf(GetOr(d, "activities", Arr([]))) else Raise(AttributeError), items);
    var average := NatSum(lens) as real / |items| as real;
    Ok(Min(average * 10.0, 30.0))
  }

  function NatSum(xs: seq<nat>): nat
  {
    if xs == [] then 0 else NatSum(xs[..|xs| - 1]) + xs[|xs| - 1]
  }

  function Bonus(it: Dict, key: string, points: real): real
  {
    if Truthy(Get(it, key)) then points else 0.0
  }

  /** The points for the required sections and the schedule's density,
      from the overview, the schedule (if present) and the budget. */
  function CorePoints(overview: Json, schedule: Option<Json>, budget: Json): (r: Result<real>)
    ensures r.Ok? ==> 0.0 <= r.value <= 75.0
    ensures r.Ok? && Truthy(overview) ==> 15.0 <= r.value
  {
    var grandTotal :- GetFrom(budget, "grand_total", Int(0));
    var positive :- Positive(grandTotal);
    var days := if schedule.Some? then schedule.value else Arr([]);
    var density :- if Truthy(days) then Density(days) else Ok(0.0);
    Ok((if Truthy(overview) then 15.0 else 0.0) + (if Truthy(days) then 15.0 else 0.0)
       + (if positive then 15.0 else 0.0) + density)
  }

  function CoreScore(it: Dict): (r: Result<real>)
    ensures r.Ok? ==> 0.0 <= r.value <= 75.0
    ensures r.Ok? && Truthy(Get(it, "trip_overview")) ==> 15.0 <= r.value
  {
    CorePoints(Get(it, "trip_overview"), Lookup(it.fields, "daily_schedule"), GetOr(it, "budget_breakdown", Obj([])))
  }

  /** The points for the optional extra sections. */
  function ExtrasScore(it: Dict): (r: real)
    ensures 0.0 <= r <= 15.0
  {
    Bonus(it, "travel_tips", 5.0) + Bonus(it, "packing_suggestions", 5.0) + Bonus(it, "emergency_info", 5.0)
  }

  /** The score before rounding. */
  function RawScore(it: Dict): (r: Result<real>)
    ensures r.Ok? <==> CoreScore(it).Ok?
  {
    var core :- CoreScore(it);
    Ok(core + ExtrasScore(it))
  }

  function ConfidenceScore(it: Dict): (r: Result<real>)
  {
    var score :- RawScore(it);
    Ok(Round2(Min(score, 100.0)))
  }

  /** The score lies between 0 and 90, and an itinerary with an overview
      scores at least 15. */
  lemma ConfidenceBounds(it: Dict)
    requires ConfidenceScore(it).Ok?
    ensures 0.0 <= ConfidenceScore(it).value <= 90.0
    ensures Truthy(Get(it, "trip_overview")) ==> 15.0 <= ConfidenceScore(it).value
  {
    var score := RawScore(it).value;
    if Truthy(Get(it, "trip_overview")) {
      Round2Between(score, 15, 90);
    } else {
      Round2Between(score, 0, 90);
    }
  }

  /** Adding one of the optional sections never lowers the score. */
  lemma ConfidenceMonotone(it: Dict, key: string, v: Json)
    requires key == "travel_tips" || key == "packing_suggestions" || key == "emergency_info"
    requires Truthy(v) && ConfidenceScore(it).Ok?
    ensures ConfidenceScore(Put(it, key, v)).Ok?
    ensures ConfidenceScore(it).value <= ConfidenceScore(Put(it, key, v)).value
  {
    var it' := Put(it, key, v);
    CoreScoreFrame(it, key, v);
    ExtrasScoreGrows(it, key, v);
    Round2Monotone(Min(RawScore(it).value, 100.0), Min(RawScore(it').value, 100.0));
  }

  /** Setting an optional section leaves the core points as they were. */
  lemma CoreScoreFrame(it: Dict, key: string, v: Json)
    requires key == "travel_tips" || key == "packing_suggestions" || key == "emergency_info"
    ensures CoreScore(Put(it, key, v)) == CoreScore(it)
  {
    PutKeepsCoreFields(it, key, v);
  }

  lemma PutKeepsCoreFields(it: Dict, key: string, v: Json)
    requires key == "travel_tips" || key == "packing_suggestions" || key == "emergency_info"
    ensures Lookup(Put(it, key, v).fields, "budget_breakdown") == Lookup(it.fields, "budget_breakdown")
    ensures Lookup(Put(it, key, v).fields, "daily_schedule") == Lookup(it.fields, "daily_schedule")
    ensures Lookup(Put(it, key, v).fields, "trip_overview") == Lookup(it.fields, "trip_overview")
  {
  }

  /** Setting an optional section to a truthy value never lowers the extra
      points. */
  lemma ExtrasScoreGrows(it: Dict, key: string, v: Json)
    requires key == "travel_tips" || key == "packing_suggestions" || key == "emergency_info"
    requires Truthy(v)
    ensures ExtrasScore(it) <= ExtrasScore(Put(it, key, v))
  {
  }

  // ---------------------------------------------------------------------
  // parse_itinerary_response
  // ---------------------------------------------------------------------

  function MetadataFields(now: string, score: real): seq<(string, Json)>
  {
    [("generated_at", Str(now)), ("version", Str("1.1")), ("confidence_score", Float(score))]
  }

  /** The parsed, validated and formatted itinerary with its metadata;
      every failure surfaces as `ValueError`. */
  function Parsed(loaded: Option<Json>, now: string, floatOf: string -> Option<real>): (r: Result<Dict>)
    ensures r.Raise? ==> r.error == ValueError
  {
    if loaded.None? then Raise(ValueError)
    else
      match ValidatedStructure(loaded.value, floatOf)
      case Raise(_) => Raise(ValueError)
      case Ok(validated) =>
        match Formatted(validated, floatOf)
        case Raise(_) => Raise(ValueError)
        case Ok(formatted) =>
          match ConfidenceScore(formatted)
          case Raise(_) => Raise(ValueError)
          case Ok(score) => Ok(Put(formatted, "metadata", Obj(MetadataFields(now, score))))
  }

  /** A parsed itinerary carries its metadata: the time it was generated,
      version `1.1` and a confidence score between 0 and 90. */
  lemma ParsedMetadata(loaded: Option<Json>, now: string, floatOf: string -> Option<real>)
    requires Parsed(loaded, now, floatOf).Ok?
    ensures loaded.Some?
    ensures var m := Get(Parsed(loaded, now, floatOf).value, "metadata");
            && m.Obj? && |m.fields| == 3
            && m.fields[0] == ("generated_at", Str(now))
            && m.fields[1] == ("version", Str("1.1"))
            && m.fields[2].0 == "confidence_score" && m.fields[2].1.Float?
            && 0.0 <= m.fields[2].1.f <= 90.0
  {
    var validated := ValidatedStructure(loaded.value, floatOf).value;
    var formatted := Formatted(validated, floatOf).value;
    ConfidenceBounds(formatted);
  }

  /** `parse_itinerary_response`, given what `json.loads` returned (`None`
      for a decoding error) and the current time as text. */
  method ParseItineraryResponse(loaded: Option<Json>, now: string, floatOf: string -> Option<real>) returns (r: Result<Dict>)
    ensures r == Parsed(loaded, now, floatOf)
  {
    if loaded.None? {
      return Raise(ValueError);
    }
    var validated := ValidateItineraryStructure(loaded.value, floatOf);
    if validated.Raise? {
      return Raise(ValueError);
    }
    var formatted := FormatItineraryData(validated.value, floatOf);
    if formatted.Raise? {
      return Raise(ValueError);
    }
    var score := ConfidenceScore(formatted.value);
    if score.Raise? {
      return Raise(ValueError);
    }
    r := Ok(Put(formatted.value, "metadata", Obj(MetadataFields(now, score.value))));
  }
}
