/** The key under which a trip's places response is cached: destination,
    experience type and the preference list, each trimmed and lower-cased,
    the preferences sorted and joined with `|`, the three parts joined with
    `__`. */
module DbHelpers {
  import opened Text
  import opened Sorting
  import opened JsonModel

  /** `s.strip().lower()` */
  function Normalize(s: string): string
  {
    Lower(Strip(s))
  }

  /** `[p.strip().lower() for p in preferences]` */
  function NormalizeAll(preferences: seq<string>): seq<string>
  {
    MapSeq(Normalize, preferences)
  }

  /** The preferences part of the key: normalised, sorted, joined with `|`. */
  function PreferencesText(preferences: seq<string>): string
  {
    Join("|", SortStrings(NormalizeAll(preferences)))
  }

  /** `str(experience_type)`: a string is itself, and `render` is `str` on
      anything else. */
  function ExperienceText(experience: Json, render: Json -> string): (r: string)
    ensures experience.Str? ==> r == experience.s
  {
    if experience.Str? then experience.s else render(experience)
  }

  /** A missing preference list (`None`) is replaced by `[]` before it is
      read, so the empty sequence stands for both. */
  function BuildCacheKey(destination: string, preferences: seq<string>, experience: Json, render: Json -> string): string
  {
    Normalize(destination) + "__" + Normalize(ExperienceText(experience, render)) + "__" + PreferencesText(preferences)
  }

  /** Without preferences the key ends with its second separator, and its
      two other parts are the normalised destination and experience. */
  lemma CacheKeyWithoutPreferences(destination: string, experience: Json, render: Json -> string)
    ensures var key := BuildCacheKey(destination, [], experience, render);
            && |key| >= 4 && key[|key| - 2..] == "__"
            && key[..|key| - 2] == Normalize(destination) + "__" + Normalize(ExperienceText(experience, render))
  {
    assert PreferencesText([]) == "" by {
      assert NormalizeAll([]) == [];
      assert SortStrings([]) == [];
    }
    var front := Normalize(destination) + "__" + Normalize(ExperienceText(experience, render));
    var key := BuildCacheKey(destination, [], experience, render);
    assert key == front + "__";
    assert key[|key| - 2..] == "__";
    assert key[..|key| - 2] == front;
  }

  lemma {:induction false} LowerAppend(a: string, b: string)
    ensures Lower(a + b) == Lower(a) + Lower(b)
  {
    if a != [] {
      assert (a + b)[1..] == a[1..] + b;
      LowerAppend(a[1..], b);
    } else {
      assert a + b == b;
    }
  }

  /** Joining lower-case parts with a lower-case separator is lower-case. */
  lemma {:induction false} LowerJoin(sep: string, parts: seq<string>)
    requires Lower(sep) == sep
    requires forall p :: p in parts ==> Lower(p) == p
    ensures Lower(Join(sep, parts)) == Join(sep, parts)
  {
    if |parts| > 1 {
      assert parts[0] in parts;
      assert forall p :: p in parts[1..] ==> p in parts;
      LowerJoin(sep, parts[1..]);
      LowerAppend(parts[0], sep);
      LowerAppend(parts[0] + sep, Join(sep, parts[1..]));
    } else if |parts| == 1 {
      assert parts[0] in parts;
    }
  }

  lemma NormalizeIsLower(s: string)
    ensures Lower(Normalize(s)) == Normalize(s)
  {
    LowerIdempotent(Strip(s));
  }

  /** The key is already lower-case. */
  lemma CacheKeyIsLowerCase(destination: string, preferences: seq<string>, experience: Json, render: Json -> string)
    ensures Lower(BuildCacheKey(destination, preferences, experience, render))
            == BuildCacheKey(destination, preferences, experience, render)
  {
    var d := Normalize(destination);
    var e := Normalize(ExperienceText(experience, render));
    var p := PreferencesText(preferences);
    NormalizeIsLower(destination);
    NormalizeIsLower(ExperienceText(experience, render));
    PreferencesTextIsLower(preferences);
    LowerParts(d, e, p);
  }

  lemma LowerParts(d: string, e: string, p: string)
    requires Lower(d) == d && Lower(e) == e && Lower(p) == p
    ensures Lower(d + "__" + e + "__" + p) == d + "__" + e + "__" + p
  {
    var sep := "__";
    assert Lower(sep) == sep;
    var x1 := d + sep;
    LowerConcat(d, sep);
    var x2 := x1 + e;
    LowerConcat(x1, e);
    var x3 := x2 + sep;
    LowerConcat(x2, sep);
    LowerConcat(x3, p);
  }

  lemma LowerConcat(a: string, b: string)
    requires Lower(a) == a && Lower(b) == b
    ensures Lower(a + b) == a + b
  {
    LowerAppend(a, b);
  }

  lemma PreferencesTextIsLower(preferences: seq<string>)
    ensures Lower(PreferencesText(preferences)) == PreferencesText(preferences)
  {
    SortedNormalizedAreLower(preferences);
    assert Lower("|") == "|";
    LowerJoin("|", SortStrings(NormalizeAll(preferences)));
  }

  lemma SortedNormalizedAreLower(preferences: seq<string>)
    ensures forall p :: p in SortStrings(NormalizeAll(preferences)) ==> Lower(p) == p
  {
    var all := NormalizeAll(preferences);
    forall j | 0 <= j < |all| ensures Lower(all[j]) == all[j] {
      NormalizeIsLower(preferences[j]);
    }
    SortKeepsMembers(all, TextKey);
  }

  /** The order in which preferences are listed does not change the key;
      only which preferences, and how often each, matter. */
  lemma CacheKeyIgnoresOrder(destination: string, prefs1: seq<string>, prefs2: seq<string>,
                             experience: Json, render: Json -> string)
    requires multiset(prefs1) == multiset(prefs2)
    ensures BuildCacheKey(destination, prefs1, experience, render) == BuildCacheKey(destination, prefs2, experience, render)
  {
    MapPermutes(Normalize, prefs1, prefs2);
    SortStringsCanonical(NormalizeAll(prefs1), NormalizeAll(prefs2));
  }

  /** `Normalize` ignores letter case and surrounding whitespace. */
  lemma NormalizeCanonical(s: string)
    ensures Normalize(Lower(s)) == Normalize(s)
    ensures Normalize(Strip(s)) == Normalize(s)
  {
    StripLower(s);
    LowerIdempotent(Strip(s));
    StripIdempotent(s);
  }

  lemma NormalizeAllCanonical(preferences: seq<string>)
    ensures NormalizeAll(MapSeq(Lower, preferences)) == NormalizeAll(preferences)
    ensures NormalizeAll(MapSeq(Strip, preferences)) == NormalizeAll(preferences)
  {
    forall x ensures Normalize(Lower(x)) == Normalize(x) && Normalize(Strip(x)) == Normalize(x) {
      NormalizeCanonical(x);
    }
    MapAbsorbs(Normalize, Lower, preferences);
    MapAbsorbs(Normalize, Strip, preferences);
  }

  /** Letter case and surrounding whitespace of any part do not change the
      key. */
  lemma CacheKeyIgnoresCaseAndPadding(destination: string, preferences: seq<string>,
                                      experience: Json, render: Json -> string)
    ensures var text := ExperienceText(experience, render);
            BuildCacheKey(Lower(destination), MapSeq(Lower, preferences), Str(Lower(text)), render)
            == BuildCacheKey(destination, preferences, experience, render)
    ensures var text := ExperienceText(experience, render);
            BuildCacheKey(Strip(destination), MapSeq(Strip, preferences), Str(Strip(text)), render)
            == BuildCacheKey(destination, preferences, experience, render)
  {
    NormalizeCanonical(destination);
    NormalizeCanonical(ExperienceText(experience, render));
    NormalizeAllCanonical(preferences);
  }

  /** Repeating a preference changes the key. */
  lemma CacheKeyCountsRepeats(destination: string, preference: string, experience: Json, render: Json -> string)
    ensures BuildCacheKey(destination, [preference, preference], experience, render)
            != BuildCacheKey(destination, [preference], experience, render)
  {
    var n := Normalize(preference);
    assert NormalizeAll([preference, preference]) == [n, n];
    assert NormalizeAll([preference]) == [n];
    assert SortStrings([n]) == [n] by {
      assert [n][1..] == [];
      assert SortBy([n], TextKey) == Insert(n, SortBy([], TextKey), TextKey);
    }
    assert SortStrings([n, n]) == [n, n] by {
      assert [n, n][1..] == [n];
      StrLtIrreflexive(n);
      assert Insert(n, [n], TextKey) == [n, n];
    }
    assert |PreferencesText([preference, preference])| == 2 * |n| + 1;
    assert |PreferencesText([preference])| == |n|;
  }
}
