/** The two-tier cache in front of the AI itinerary service.

    A request is reduced to its allow-listed fields, with list values sorted,
    and the digest of that reduced request is the cache key. Entries live in
    a memory tier and a file tier (one pickle file per key). Both tiers are
    tables in insertion order: for memory this is the Python dict's order,
    and for the files it is a fixed choice standing for the order in which
    `glob` lists them, which the file system decides. An entry's file
    modification time is its timestamp. Expiry is
    lazy: an expired entry is removed only when `get` meets it. */
module Cache {
  import opened JsonModel
  import opened Sorting

  // ---------------------------------------------------------------------
  // Request normalisation and the cache key
  // ---------------------------------------------------------------------

  /** The request fields that take part in the key, in this order. */
  const CacheFields: seq<string> :=
    ["destination", "duration", "budget", "group_size", "travel_style", "interests", "start_date"]

  /** A field value as it enters the key: a list is sorted (raising
      `TypeError` when its items cannot be compared), anything else is kept. */
  function NormalizeValue(v: Json): (r: Result<Json>)
    ensures !v.Arr? ==> r == Ok(v)
    ensures v.Arr? ==> (r.Ok? <==> Orderable(v.items))
    ensures v.Arr? && r.Ok? ==> r.value.Arr? && multiset(r.value.items) == multiset(v.items)
                                && SortedBy(r.value.items, KeyOrLast)
  {
    if v.Arr? then
      if Orderable(v.items) then
        SortByCorrect(v.items, KeyOrLast);
        Ok(Arr(SortBy(v.items, KeyOrLast)))
      else Raise(TypeError)
    else Ok(v)
  }

  /** The normalised bindings of `fields`, in the order of `fields`. */
  function NormalizedFields(data: Dict, fields: seq<string>): (r: Result<seq<(string, Json)>>)
    ensures r.Raise? ==> r.error == TypeError
    decreases |fields|
  {
    if fields == [] then Ok([])
    else
      var init := fields[..|fields| - 1];
      var f := fields[|fields| - 1];
      var front :- NormalizedFields(data, init);
      if Has(data, f) then
        var w :- NormalizeValue(Get(data, f));
        Ok(front + [(f, w)])
      else Ok(front)
  }

  /** `_normalize_data(data)` */
  function Normalized(data: Dict): Result<Dict>
  {
    var fields :- NormalizedFields(data, CacheFields);
    var d: Dict := Obj(fields);
    Ok(d)
  }

  /** Normalisation fails exactly when some present field cannot be
      normalised, and it only produces bindings of the fields asked for. */
  lemma {:induction false} FieldsOk(data: Dict, fields: seq<string>)
    ensures NormalizedFields(data, fields).Ok? <==>
            forall k :: k in fields && Has(data, k) ==> NormalizeValue(Get(data, k)).Ok?
    ensures NormalizedFields(data, fields).Ok? ==>
            forall p :: p in NormalizedFields(data, fields).value ==> p.0 in fields
    decreases |fields|
  {
    if fields != [] {
      var init := fields[..|fields| - 1];
      var f := fields[|fields| - 1];
      assert fields == init + [f];
      FieldsOk(data, init);
    }
  }

  lemma LookupAppend(a: seq<(string, Json)>, f: string, w: Json, k: string)
    ensures Lookup(a + [(f, w)], k) == if Lookup(a, k).Some? then Lookup(a, k)
                                       else if f == k then Some(w) else None
  {
    if a != [] {
      assert (a + [(f, w)])[1..] == a[1..] + [(f, w)];
      LookupAppend(a[1..], f, w, k);
    }
  }

  lemma PutFieldAbsent(a: seq<(string, Json)>, k: string, v: Json)
    requires forall p :: p in a ==> p.0 != k
    ensures PutField(a, k, v) == a + [(k, v)]
  {
    if a != [] {
      assert a[0] in a;
      assert forall p :: p in a[1..] ==> p in a;
      PutFieldAbsent(a[1..], k, v);
    }
  }

  lemma {:induction false} FieldsLookup(data: Dict, fields: seq<string>, k: string)
    requires NormalizedFields(data, fields).Ok?
    ensures var r := NormalizedFields(data, fields).value;
            Lookup(r, k).Some? <==> k in fields && Has(data, k)
    ensures var r := NormalizedFields(data, fields).value;
            Lookup(r, k).Some? ==> NormalizeValue(Get(data, k)) == Ok(Lookup(r, k).value)
    decreases |fields|
  {
    if fields != [] {
      var init := fields[..|fields| - 1];
      var f := fields[|fields| - 1];
      assert fields == init + [f];
      FieldsLookup(data, init, k);
      if Has(data, f) {
        LookupAppend(NormalizedFields(data, init).value, f, NormalizeValue(Get(data, f)).value, k);
      }
    }
  }

  /** The normalised request holds exactly the allow-listed fields present
      in the request; lists are sorted, other values copied. Normalisation
      fails only when some allow-listed list cannot be sorted. */
  lemma NormalizedKeeps(data: Dict, k: string)
    ensures Normalized(data).Ok? <==>
            forall f :: f in CacheFields && Has(data, f) ==> NormalizeValue(Get(data, f)).Ok?
    ensures Normalized(data).Ok? ==>
            (Has(Normalized(data).value, k) <==> k in CacheFields && Has(data, k))
    ensures Normalized(data).Ok? && Has(Normalized(data).value, k) ==>
            NormalizeValue(Get(data, k)) == Ok(Get(Normalized(data).value, k))
  {
    FieldsOk(data, CacheFields);
    if Normalized(data).Ok? {
      FieldsLookup(data, CacheFields, k);
    }
  }

  /** Two values of an allow-listed field give the same normalised value:
      equal values, or lists of the same items in any order as long as no
      two of those items tie in Python's ordering. */
  ghost predicate SameField(a: Option<Json>, b: Option<Json>)
  {
    || a == b
    || (&& a.Some? && b.Some? && a.value.Arr? && b.value.Arr?
        && multiset(a.value.items) == multiset(b.value.items)
        && KeyTellsApart(a.value.items, KeyOrLast))
  }

  /** Two requests that the cache must treat as one. */
  ghost predicate SameRequest(d1: Dict, d2: Dict)
  {
    forall k :: k in CacheFields ==> SameField(Lookup(d1.fields, k), Lookup(d2.fields, k))
  }

  lemma OrderablePermutes(a: seq<Json>, b: seq<Json>)
    requires multiset(a) == multiset(b)
    ensures Orderable(a) ==> Orderable(b)
  {
    assert |a| == |b| by { assert |multiset(a)| == |multiset(b)|; }
    forall i | 0 <= i < |b| ensures b[i] in a {
      assert b[i] in multiset(b);
    }
  }

  lemma NormalizeValueCanonical(v1: Json, v2: Json)
    requires SameField(Some(v1), Some(v2))
    ensures NormalizeValue(v1) == NormalizeValue(v2)
  {
    if v1 != v2 {
      OrderablePermutes(v1.items, v2.items);
      OrderablePermutes(v2.items, v1.items);
      if Orderable(v1.items) {
        var s1 := SortBy(v1.items, KeyOrLast);
        var s2 := SortBy(v2.items, KeyOrLast);
        SortByCorrect(v1.items, KeyOrLast);
        SortByCorrect(v2.items, KeyOrLast);
        forall x | x in s1 ensures x in v1.items {
          assert x in multiset(s1);
        }
        SortedUnique(s1, s2, KeyOrLast);
      }
    }
  }

  lemma {:induction false} FieldsCanonical(d1: Dict, d2: Dict, fields: seq<string>)
    requires forall k :: k in fields ==> SameField(Lookup(d1.fields, k), Lookup(d2.fields, k))
    ensures NormalizedFields(d1, fields) == NormalizedFields(d2, fields)
    decreases |fields|
  {
    if fields != [] {
      var init := fields[..|fields| - 1];
      var f := fields[|fields| - 1];
      assert fields == init + [f];
      FieldsCanonical(d1, d2, init);
      assert SameField(Lookup(d1.fields, f), Lookup(d2.fields, f));
      if Has(d1, f) {
        NormalizeValueCanonical(Get(d1, f), Get(d2, f));
      }
    }
  }

  /** Fields outside the allow-list, and the order of list items that do
      not tie, do not change the normalised request. */
  lemma NormalizedCanonical(d1: Dict, d2: Dict)
    requires SameRequest(d1, d2)
    ensures Normalized(d1) == Normalized(d2)
  {
    FieldsCanonical(d1, d2, CacheFields);
  }

  /** Items that tie in Python's ordering keep their input order, so the
      list `[1, 1.0]` and its reversal normalise differently (and serialise
      differently, as `[1, 1.0]` and `[1.0, 1]`). */
  lemma TiedItemsKeepOrder()
    ensures NormalizeValue(Arr([Int(1), Float(1.0)])) == Ok(Arr([Int(1), Float(1.0)]))
    ensures NormalizeValue(Arr([Float(1.0), Int(1)])) == Ok(Arr([Float(1.0), Int(1)]))
  {
    assert KeyOrLast(Int(1)) == KeyOrLast(Float(1.0));
    assert Orderable([Int(1), Float(1.0)]);
    TiedPairStays(Int(1), Float(1.0));
    assert Orderable([Float(1.0), Int(1)]);
    TiedPairStays(Float(1.0), Int(1));
  }

  lemma TiedPairStays(x: Json, y: Json)
    requires KeyOrLast(x) == KeyOrLast(y) && Orderable([x, y])
    ensures NormalizeValue(Arr([x, y])) == Ok(Arr([x, y]))
  {
    TiedPairSorted(x, y, KeyOrLast);
  }

  /** The allow-listed fields are pairwise different. */
  lemma CacheFieldsDistinct(i: int)
    requires 0 <= i < |CacheFields|
    ensures CacheFields[i] !in CacheFields[..i]
  {
    assert CacheFields[..i] == if i == 0 then [] else CacheFields[..i - 1] + [CacheFields[i - 1]];
  }

  /** `_normalize_data`: copies each allow-listed field present in the
      request into a fresh dict, sorting list values. */
  method NormalizeData(data: Dict) returns (r: Result<Dict>)
    ensures r == Normalized(data)
  {
    var normalized: Dict := Obj([]);
    var i := 0;
    while i < |CacheFields|
      invariant 0 <= i <= |CacheFields|
      invariant NormalizedFields(data, CacheFields[..i]) == Ok(normalized.fields)
    {
      var field := CacheFields[i];
      assert CacheFields[..i + 1][..i] == CacheFields[..i];
      if Has(data, field) {
        var value := Get(data, field);
        if value.Arr? {
          if !Orderable(value.items) {
            FieldsOk(data, CacheFields);
            assert field in CacheFields;
            return Raise(TypeError);
          }
          value := Arr(SortBy(value.items, KeyOrLast));
        }
        FieldsOk(data, CacheFields[..i]);
        CacheFieldsDistinct(i);
        PutFieldAbsent(normalized.fields, field, value);
        normalized := Put(normalized, field, value);
      }
      i := i + 1;
    }
    assert CacheFields[..i] == CacheFields;
    return Ok(normalized);
  }

  /** `generate_key(data)`: the digest of the normalised request. The
      digest (`md5` of `json.dumps(..., sort_keys=True)`) is a parameter. */
  function CacheKey(data: Dict, digest: Dict -> string): Result<string>
  {
    var n :- Normalized(data);
    Ok(digest(n))
  }

  method GenerateKey(data: Dict, digest: Dict -> string) returns (r: Result<string>)
    ensures r == CacheKey(data, digest)
  {
    var normalized :- NormalizeData(data);
    r := Ok(digest(normalized));
  }

  /** Requests that differ only in fields outside the allow-list, or in the
      order of list items that do not tie, share a cache key. */
  lemma CacheKeyCanonical(d1: Dict, d2: Dict, digest: Dict -> string)
    requires SameRequest(d1, d2)
    ensures CacheKey(d1, digest) == CacheKey(d2, digest)
  {
    NormalizedCanonical(d1, d2);
  }

  // ---------------------------------------------------------------------
  // Entries and tables
  // ---------------------------------------------------------------------

  datatype Entry = Entry(data: Json, timestamp: real, ttl: int)

  /** `_is_expired`: strictly more than `ttl` seconds have passed. */
  predicate IsExpired(e: Entry, now: real)
  {
    now - e.timestamp > e.ttl as real
  }

  /** An entry is live when stored and, once expired, stays expired. */
  lemma ExpiryMonotone(e: Entry, now: real, later: real)
    requires now <= later
    ensures e.ttl >= 0 ==> !IsExpired(e, e.timestamp)
    ensures IsExpired(e, now) ==> IsExpired(e, later)
    ensures !IsExpired(e, later) ==> !IsExpired(e, now)
  {
  }

  /** A dict, or the cache directory in the fixed order the model gives
      its files, keyed by string. */
  type Table = seq<(string, Entry)>

  ghost predicate Distinct(t: Table)
  {
    forall i, j :: 0 <= i < j < |t| ==> t[i].0 != t[j].0
  }

  lemma DistinctCons(x: (string, Entry), w: Table)
    ensures Distinct([x] + w) <==> (forall y :: y in w ==> y.0 != x.0) && Distinct(w)
  {
    var s := [x] + w;
    if Distinct(s) {
      forall y | y in w ensures y.0 != x.0 {
        var j :| 0 <= j < |w| && w[j] == y;
        assert s[0] == x && s[j + 1] == y;
        assert s[0].0 != s[j + 1].0;
      }
      forall i, j | 0 <= i < j < |w| ensures w[i].0 != w[j].0 {
        assert s[i + 1] == w[i] && s[j + 1] == w[j];
      }
    }
    if (forall y :: y in w ==> y.0 != x.0) && Distinct(w) {
      forall i, j | 0 <= i < j < |s| ensures s[i].0 != s[j].0 {
        if i == 0 {
          assert s[j] == w[j - 1];
        } else {
          assert s[i] == w[i - 1] && s[j] == w[j - 1];
        }
      }
    }
  }

  /** With distinct keys, a key names one binding. */
  lemma SameKey(t: Table, x: (string, Entry), y: (string, Entry))
    requires Distinct(t) && x in t && y in t && x.0 == y.0
    ensures x == y
  {
    var i :| 0 <= i < |t| && t[i] == x;
    var j :| 0 <= j < |t| && t[j] == y;
    assert i == j;
  }

  /** `t.get(k)` */
  function Find(t: Table, k: string): Option<Entry>
  {
    if t == [] then None
    else if t[0].0 == k then Some(t[0].1)
    else Find(t[1..], k)
  }

  /** A key is found exactly when some binding has it, and what is found
      is a binding of the table. */
  lemma {:induction false} FindIn(t: Table, k: string)
    ensures Find(t, k).Some? ==> (k, Find(t, k).value) in t
    ensures Find(t, k).None? <==> forall p :: p in t ==> p.0 != k
  {
    if t != [] {
      FindIn(t[1..], k);
      assert forall p :: p in t ==> p == t[0] || p in t[1..];
    }
  }

  /** `t[k] = e`: overwrites the binding in place or appends a new one. */
  function Store(t: Table, k: string, e: Entry): (r: Table)
    ensures Find(r, k) == Some(e)
  {
    if t == [] then [(k, e)]
    else if t[0].0 == k then [(k, e)] + t[1..]
    else [t[0]] + Store(t[1..], k, e)
  }

  /** Storing under one key changes no other key's binding and grows the
      table only by a new key. */
  lemma {:induction false} StoreOthers(t: Table, k: string, e: Entry, k': string)
    requires k' != k
    ensures Find(Store(t, k, e), k') == Find(t, k')
    ensures |Store(t, k, e)| == if Find(t, k).Some? then |t| else |t| + 1
  {
    if t != [] && t[0].0 != k {
      StoreOthers(t[1..], k, e, k');
    }
  }

  lemma {:induction false} StoreMembers(t: Table, k: string, e: Entry)
    ensures forall p :: p in Store(t, k, e) ==> p == (k, e) || p in t
  {
    if t != [] && t[0].0 != k {
      StoreMembers(t[1..], k, e);
    }
  }

  lemma {:induction false} StoreDistinct(t: Table, k: string, e: Entry)
    requires Distinct(t)
    ensures Distinct(Store(t, k, e))
  {
    if t != [] {
      assert t == [t[0]] + t[1..];
      DistinctCons(t[0], t[1..]);
      if t[0].0 == k {
        DistinctCons((k, e), t[1..]);
      } else {
        StoreDistinct(t[1..], k, e);
        StoreMembers(t[1..], k, e);
        DistinctCons(t[0], Store(t[1..], k, e));
      }
    }
  }

  /** The table without the bindings of the keys in `ks` (`del t[k]` for
      each `k`), the rest in their order. */
  function Without(t: Table, ks: seq<string>): (r: Table)
    ensures |r| <= |t|
  {
    if t == [] then []
    else (if t[0].0 in ks then [] else [t[0]]) + Without(t[1..], ks)
  }

  lemma {:induction false} WithoutMembers(t: Table, ks: seq<string>)
    ensures forall p :: p in Without(t, ks) <==> p in t && p.0 !in ks
  {
    if t != [] {
      WithoutMembers(t[1..], ks);
      assert forall p :: p in t <==> p == t[0] || p in t[1..];
    }
  }

  lemma {:induction false} WithoutDistinct(t: Table, ks: seq<string>)
    requires Distinct(t)
    ensures Distinct(Without(t, ks))
  {
    if t != [] {
      assert t == [t[0]] + t[1..];
      DistinctCons(t[0], t[1..]);
      WithoutDistinct(t[1..], ks);
      WithoutMembers(t[1..], ks);
      DistinctCons(t[0], Without(t[1..], ks));
    }
  }

  /** Deleting some keys leaves the other keys' bindings as they were. */
  lemma {:induction false} WithoutFind(t: Table, ks: seq<string>, k: string)
    ensures k !in ks ==> Find(Without(t, ks), k) == Find(t, k)
    ensures k in ks ==> Find(Without(t, ks), k).None?
  {
    if t != [] {
      WithoutFind(t[1..], ks, k);
      var w := Without(t[1..], ks);
      if t[0].0 !in ks {
        assert Without(t, ks) == [t[0]] + w;
        assert ([t[0]] + w)[1..] == w;
      } else {
        assert Without(t, ks) == w;
      }
    }
  }

  lemma {:induction false} WithoutAppend(a: Table, b: Table, ks: seq<string>)
    ensures Without(a + b, ks) == Without(a, ks) + Without(b, ks)
  {
    if a != [] {
      assert (a + b)[1..] == a[1..] + b;
      WithoutAppend(a[1..], b, ks);
    } else {
      assert a + b == b;
    }
  }

  /** Deleting one more key from a table already without `ks`. */
  lemma {:induction false} WithoutMore(t: Table, ks: seq<string>, k: string)
    ensures Without(Without(t, ks), [k]) == Without(t, ks + [k])
  {
    if t != [] {
      var h := if t[0].0 in ks then [] else [t[0]];
      WithoutAppend(h, Without(t[1..], ks), [k]);
      WithoutMore(t[1..], ks, k);
    }
  }

  lemma {:induction false} WithoutCounts(t: Table, ks: seq<string>)
    ensures forall x :: multiset(Without(t, ks))[x] == if x.0 in ks then 0 else multiset(t)[x]
  {
    if t != [] {
      WithoutCounts(t[1..], ks);
      assert t == [t[0]] + t[1..];
      var h := if t[0].0 in ks then [] else [t[0]];
      assert multiset(Without(t, ks)) == multiset(h) + multiset(Without(t[1..], ks));
    }
  }

  lemma WithoutPermutes(a: Table, b: Table, ks: seq<string>)
    requires multiset(a) == multiset(b)
    ensures |Without(a, ks)| == |Without(b, ks)|
  {
    WithoutCounts(a, ks);
    WithoutCounts(b, ks);
    assert multiset(Without(a, ks)) == multiset(Without(b, ks));
  }

  /** Dropping the keys of a prefix, then the next key. */
  lemma WithoutNext(t: Table, ks: seq<string>, i: nat)
    requires i < |ks|
    ensures Without(Without(t, ks[..i]), [ks[i]]) == Without(t, ks[..i + 1])
  {
    WithoutMore(t, ks[..i], ks[i]);
    assert ks[..i + 1] == ks[..i] + [ks[i]];
  }

  lemma {:induction false} WithoutNone(t: Table, ks: seq<string>)
    requires forall p :: p in t ==> p.0 !in ks
    ensures Without(t, ks) == t
  {
    if t != [] {
      assert t[0] in t;
      assert forall p :: p in t[1..] ==> p in t;
      WithoutNone(t[1..], ks);
      assert t == [t[0]] + t[1..];
    }
  }

  function KeysOf(t: Table): (r: seq<string>)
    ensures |r| == |t|
    ensures forall i :: 0 <= i < |t| ==> r[i] == t[i].0
  {
    seq(|t|, i requires 0 <= i < |t| => t[i].0)
  }

  lemma {:induction false} WithoutAll(t: Table, ks: seq<string>)
    requires forall p :: p in t ==> p.0 in ks
    ensures Without(t, ks) == []
  {
    if t != [] {
      assert t[0] in t;
      assert forall p :: p in t[1..] ==> p in t;
      WithoutAll(t[1..], ks);
    }
  }

  lemma WithoutOwnKeys(t: Table)
    ensures Without(t, KeysOf(t)) == []
  {
    forall p | p in t ensures p.0 in KeysOf(t) {
      var i :| 0 <= i < |t| && t[i] == p;
      assert KeysOf(t)[i] == p.0;
    }
    WithoutAll(t, KeysOf(t));
  }

  // ---------------------------------------------------------------------
  // Eviction of the oldest entries
  // ---------------------------------------------------------------------

  function Age(p: (string, Entry)): SortKey
  {
    SortKey(0, p.1.timestamp, "")
  }

  /** The keys of the `n` oldest entries, ties in table order:
      `sorted(t.items(), key=timestamp)[:n]`. */
  function Oldest(t: Table, n: int): (r: seq<string>)
    ensures |r| <= |t|
  {
    SortByLength(t, Age);
    var c := if n < 0 then 0 else if n > |t| then |t| else n;
    KeysOf(SortBy(t, Age)[..c])
  }

  /** One tier of `_cleanup_cache` when only the first `done` deletions
      happen: above `maxSize` entries, the `size - maxSize + 10` oldest
      are deleted. */
  function Pruned(t: Table, maxSize: int, done: nat): (r: Table)
  {
    if |t| <= maxSize then t
    else
      var victims := Oldest(t, |t| - maxSize + 10);
      Without(t, victims[..if done < |victims| then done else |victims|])
  }

  /** A complete cleanup of one tier. */
  function Evict(t: Table, maxSize: int): Table
  {
    Pruned(t, maxSize, |t|)
  }

  lemma PrunedDistinct(t: Table, maxSize: int, done: nat)
    requires Distinct(t)
    ensures Distinct(Pruned(t, maxSize, done))
  {
    if |t| > maxSize {
      var victims := Oldest(t, |t| - maxSize + 10);
      WithoutDistinct(t, victims[..if done < |victims| then done else |victims|]);
    }
  }

  lemma {:induction false} DistinctInsert(x: (string, Entry), s: Table)
    requires Distinct(s) && forall y :: y in s ==> y.0 != x.0
    ensures Distinct(Insert(x, s, Age))
  {
    if s == [] || !KeyLt(Age(s[0]), Age(x)) {
      DistinctCons(x, s);
    } else {
      assert s == [s[0]] + s[1..];
      DistinctCons(s[0], s[1..]);
      assert forall y :: y in s[1..] ==> y in s;
      DistinctInsert(x, s[1..]);
      var t := Insert(x, s[1..], Age);
      InsertPermutes(x, s[1..], Age);
      forall y | y in t ensures y.0 != s[0].0 {
        assert y in multiset(t);
      }
      DistinctCons(s[0], t);
    }
  }

  lemma {:induction false} DistinctSortBy(s: Table)
    requires Distinct(s)
    ensures Distinct(SortBy(s, Age))
  {
    if s != [] {
      assert s == [s[0]] + s[1..];
      DistinctCons(s[0], s[1..]);
      DistinctSortBy(s[1..]);
      var t := SortBy(s[1..], Age);
      SortByCorrect(s[1..], Age);
      forall y | y in t ensures y.0 != s[0].0 {
        assert y in multiset(t);
      }
      DistinctInsert(s[0], t);
    }
  }

  /** The facts about the sorted table that eviction rests on. */
  lemma EvictFacts(t: Table, maxSize: int) returns (s: Table, c: int)
    requires Distinct(t) && |t| > maxSize
    ensures s == SortBy(t, Age) && |s| == |t| && multiset(s) == multiset(t)
    ensures SortedBy(s, Age) && Distinct(s)
    ensures 0 <= c <= |t|
    ensures c == if |t| - maxSize + 10 > |t| then |t| else |t| - maxSize + 10
    ensures Evict(t, maxSize) == Without(t, KeysOf(s[..c]))
  {
    s := SortBy(t, Age);
    SortByCorrect(t, Age);
    SortByLength(t, Age);
    DistinctSortBy(t);
    c := if |t| - maxSize + 10 > |t| then |t| else |t| - maxSize + 10;
    var victims := Oldest(t, |t| - maxSize + 10);
    assert victims[..|victims|] == victims;
  }

  /** No key of the newer part of the sorted table is a victim. */
  lemma SuffixKept(s: Table, c: int)
    requires Distinct(s) && 0 <= c <= |s|
    ensures forall y :: y in s[c..] ==> y.0 !in KeysOf(s[..c])
  {
    forall y, i | y in s[c..] && 0 <= i < c ensures KeysOf(s[..c])[i] != y.0 {
      var j :| 0 <= j < |s[c..]| && s[c..][j] == y;
      assert s[c + j] == y;
      assert s[i].0 != s[c + j].0;
    }
  }

  /** After a cleanup of an overfull tier, `maxSize - 10` entries remain
      (none when `maxSize` is below 10); a tier within bounds is left alone. */
  lemma EvictSize(t: Table, maxSize: int)
    requires Distinct(t)
    ensures |t| <= maxSize ==> Evict(t, maxSize) == t
    ensures |t| > maxSize ==> |Evict(t, maxSize)| == if maxSize >= 10 then maxSize - 10 else 0
  {
    if |t| > maxSize {
      var s, c := EvictFacts(t, maxSize);
      var victims := KeysOf(s[..c]);
      WithoutPermutes(t, s, victims);
      assert s == s[..c] + s[c..];
      WithoutAppend(s[..c], s[c..], victims);
      WithoutOwnKeys(s[..c]);
      SuffixKept(s, c);
      WithoutNone(s[c..], victims);
    }
  }

  /** A cleanup keeps bindings of the tier, and nothing else. */
  lemma PrunedMembers(t: Table, maxSize: int, done: nat)
    ensures forall p :: p in Pruned(t, maxSize, done) ==> p in t
  {
    if |t| > maxSize {
      var victims := Oldest(t, |t| - maxSize + 10);
      WithoutMembers(t, victims[..if done < |victims| then done else |victims|]);
    }
  }

  lemma EvictBound(t: Table, maxSize: int)
    ensures Distinct(t) && maxSize >= 0 ==> |Evict(t, maxSize)| <= maxSize
  {
    if Distinct(t) {
      EvictSize(t, maxSize);
    }
  }

  /** Every entry a cleanup deletes is at least as old as every entry it
      keeps, and the kept entries are bindings of the original tier. */
  lemma EvictOldest(t: Table, maxSize: int)
    requires Distinct(t)
    ensures forall x, y :: x in t && x !in Evict(t, maxSize) && y in Evict(t, maxSize) ==>
              x.1.timestamp <= y.1.timestamp
  {
    if |t| > maxSize {
      var s, c := EvictFacts(t, maxSize);
      var victims := KeysOf(s[..c]);
      SuffixKept(s, c);
      WithoutMembers(t, victims);
      forall x, y | x in t && x !in Evict(t, maxSize) && y in Evict(t, maxSize)
        ensures x.1.timestamp <= y.1.timestamp
      {
        VictimNotNewer(t, s, c, x, y);
      }
    }
  }

  lemma VictimNotNewer(t: Table, s: Table, c: int, x: (string, Entry), y: (string, Entry))
    requires Distinct(t) && multiset(s) == multiset(t) && SortedBy(s, Age) && 0 <= c <= |s|
    requires x in t && x.0 in KeysOf(s[..c])
    requires y in t && y.0 !in KeysOf(s[..c])
    ensures x.1.timestamp <= y.1.timestamp
  {
    var victims := KeysOf(s[..c]);
    var i :| 0 <= i < c && victims[i] == x.0;
    assert s[i] in multiset(t);
    SameKey(t, s[i], x);
    assert y in multiset(s);
    var j :| 0 <= j < |s| && s[j] == y;
    assert forall m :: 0 <= m < c ==> victims[m] == s[m].0;
    assert j >= c;
    assert !KeyLt(Age(s[j]), Age(s[i]));
  }

  // ---------------------------------------------------------------------
  // The two tiers, `get` and `set`
  // ---------------------------------------------------------------------

  /** The state of a cache: the memory tier, the file tier and the
      `cache_stats` counters. */
  datatype Tiers = Tiers(memory: Table, files: Table, hits: nat, misses: nat)

  ghost predicate ValidTiers(t: Tiers)
  {
    Distinct(t.memory) && Distinct(t.files)
  }

  /** `get(key)` at time `now`. `fileFault` means that reading or deleting
      the key's file raises; the call then returns `None` and leaves the
      counters alone. */
  function GetStep(t: Tiers, key: string, now: real, fileFault: bool): (Option<Json>, Tiers)
  {
    var m := Find(t.memory, key);
    if m.Some? && !IsExpired(m.value, now) then
      (Some(m.value.data), t.(hits := t.hits + 1))
    else
      FileStage(if m.Some? then t.(memory := Without(t.memory, [key])) else t, key, now, fileFault)
  }

  /** The file-tier half of `get`, reached when memory has no live entry. */
  function FileStage(t: Tiers, key: string, now: real, fileFault: bool): (Option<Json>, Tiers)
  {
    var f := Find(t.files, key);
    if f.None? then (None, t.(misses := t.misses + 1))
    else if fileFault then (None, t)
    else if !IsExpired(f.value, now) then
      (Some(f.value.data), t.(memory := Store(t.memory, key, f.value), hits := t.hits + 1))
    else (None, t.(files := Without(t.files, [key]), misses := t.misses + 1))
  }

  /** A hit counts a hit, a miss a miss; a failed file access counts
      nothing. */
  lemma GetCounts(t: Tiers, key: string, now: real, fileFault: bool)
    ensures var (r, t2) := GetStep(t, key, now, fileFault);
            && (r.Some? ==> t2.hits == t.hits + 1 && t2.misses == t.misses)
            && (r.None? ==> t2.hits == t.hits && t.misses <= t2.misses <= t.misses + 1)
            && (!fileFault ==> t2.hits + t2.misses == t.hits + t.misses + 1)
  {
  }

  lemma FileStageLive(t: Tiers, key: string, now: real, fileFault: bool)
    requires Find(t.memory, key).None?
    ensures var (r, t2) := FileStage(t, key, now, fileFault);
            && (r.Some? ==> Find(t2.memory, key) == Find(t.files, key) && r.value == Find(t2.memory, key).value.data)
            && (Find(t2.memory, key).Some? ==> !IsExpired(Find(t2.memory, key).value, now))
  {
  }

  /** `get` returns only live data: what it returns is the live entry the
      key then has in memory, promoted from the file tier when memory had
      no live entry; and afterwards memory holds no expired entry for the
      key. */
  lemma GetReturnsLive(t: Tiers, key: string, now: real, fileFault: bool)
    ensures var (r, t2) := GetStep(t, key, now, fileFault);
            && (r.Some? ==> Find(t2.memory, key).Some? && r.value == Find(t2.memory, key).value.data)
            && (r.Some? ==> Find(t2.memory, key) == Find(t.memory, key)
                            || Find(t2.memory, key) == Find(t.files, key))
            && (Find(t2.memory, key).Some? ==> !IsExpired(Find(t2.memory, key).value, now))
  {
    var m := Find(t.memory, key);
    if m.Some? && IsExpired(m.value, now) {
      WithoutFind(t.memory, [key], key);
      FileStageLive(t.(memory := Without(t.memory, [key])), key, now, fileFault);
    } else if m.None? {
      FileStageLive(t, key, now, fileFault);
    }
  }

  lemma FileStageFrame(t: Tiers, key: string, now: real, fileFault: bool, k: string)
    requires k != key
    ensures var (_, t2) := FileStage(t, key, now, fileFault);
            && Find(t2.memory, k) == Find(t.memory, k)
            && Find(t2.files, k) == Find(t.files, k)
            && (Find(t2.files, key) == Find(t.files, key)
                || (Find(t2.files, key).None? && IsExpired(Find(t.files, key).value, now)))
  {
    assert k !in [key] && key in [key];
    WithoutFind(t.files, [key], k);
    WithoutFind(t.files, [key], key);
    if Find(t.files, key).Some? {
      StoreOthers(t.memory, key, Find(t.files, key).value, k);
    }
  }

  /** `get` touches only the key it is asked for, and removes the key's
      file only when that file has expired. */
  lemma GetFrame(t: Tiers, key: string, now: real, fileFault: bool, k: string)
    requires k != key
    ensures var (_, t2) := GetStep(t, key, now, fileFault);
            && Find(t2.memory, k) == Find(t.memory, k)
            && Find(t2.files, k) == Find(t.files, k)
            && (Find(t2.files, key) == Find(t.files, key)
                || (Find(t2.files, key).None? && IsExpired(Find(t.files, key).value, now)))
  {
    assert k !in [key];
    WithoutFind(t.memory, [key], k);
    FileStageFrame(t, key, now, fileFault, k);
    FileStageFrame(t.(memory := Without(t.memory, [key])), key, now, fileFault, k);
  }

  lemma FileStageValid(t: Tiers, key: string, now: real, fileFault: bool)
    requires ValidTiers(t)
    ensures ValidTiers(FileStage(t, key, now, fileFault).1)
  {
    WithoutDistinct(t.files, [key]);
    if Find(t.files, key).Some? {
      StoreDistinct(t.memory, key, Find(t.files, key).value);
    }
  }

  lemma GetValid(t: Tiers, key: string, now: real, fileFault: bool)
    requires ValidTiers(t)
    ensures ValidTiers(GetStep(t, key, now, fileFault).1)
  {
    WithoutDistinct(t.memory, [key]);
    FileStageValid(t, key, now, fileFault);
    FileStageValid(t.(memory := Without(t.memory, [key])), key, now, fileFault);
  }

  /** `set(key, data)` at time `now` for a cache with the given `maxSize`
      and `ttl`. `writeFault` means that writing the file raises (the rest
      is skipped); `failAt` is the number of file deletions the cleanup
      completes before one raises. */
  function SetStep(t: Tiers, key: string, data: Json, now: real, ttl: int, maxSize: int,
                   writeFault: bool, failAt: nat): Tiers
  {
    var e := Entry(data, now, ttl);
    var memory := Store(t.memory, key, e);
    if writeFault then t.(memory := memory)
    else t.(memory := Evict(memory, maxSize), files := Pruned(Store(t.files, key, e), maxSize, failAt))
  }

  /** `set` leaves the counters alone, keeps the memory tier within
      `maxSize` after a cleanup, and brings no entry into memory except the
      one it stores; a failed file write still leaves the entry in memory. */
  lemma SetFacts(t: Tiers, key: string, data: Json, now: real, ttl: int, maxSize: int,
                 writeFault: bool, failAt: nat)
    ensures var t2 := SetStep(t, key, data, now, ttl, maxSize, writeFault, failAt);
            && t2.hits == t.hits && t2.misses == t.misses
            && (writeFault ==> Find(t2.memory, key) == Some(Entry(data, now, ttl)) && t2.files == t.files)
            && (forall p :: p in t2.memory ==> p == (key, Entry(data, now, ttl)) || p in t.memory)
            && (!writeFault && Distinct(t.memory) && maxSize >= 0 ==> |t2.memory| <= maxSize)
  {
    var e := Entry(data, now, ttl);
    var memory := Store(t.memory, key, e);
    StoreMembers(t.memory, key, e);
    PrunedMembers(memory, maxSize, |memory|);
    if Distinct(t.memory) {
      StoreDistinct(t.memory, key, e);
      EvictBound(memory, maxSize);
    }
  }

  lemma SetValid(t: Tiers, key: string, data: Json, now: real, ttl: int, maxSize: int,
                 writeFault: bool, failAt: nat)
    requires ValidTiers(t)
    ensures ValidTiers(SetStep(t, key, data, now, ttl, maxSize, writeFault, failAt))
  {
    var e := Entry(data, now, ttl);
    StoreDistinct(t.memory, key, e);
    StoreDistinct(t.files, key, e);
    PrunedDistinct(Store(t.memory, key, e), maxSize, |Store(t.memory, key, e)|);
    PrunedDistinct(Store(t.files, key, e), maxSize, failAt);
  }

  /** A value just stored is returned by a `get` within its time to live,
      whatever the file tier does, as long as the store did not overflow
      the memory tier. */
  lemma GetAfterSet(t: Tiers, key: string, data: Json, setTime: real, ttl: int, maxSize: int,
                    writeFault: bool, failAt: nat, now: real, fileFault: bool)
    requires |Store(t.memory, key, Entry(data, setTime, ttl))| <= maxSize
    requires now - setTime <= ttl as real
    ensures var t2 := SetStep(t, key, data, setTime, ttl, maxSize, writeFault, failAt);
            GetStep(t2, key, now, fileFault).0 == Some(data)
  {
    var t2 := SetStep(t, key, data, setTime, ttl, maxSize, writeFault, failAt);
    assert Find(t2.memory, key) == Some(Entry(data, setTime, ttl));
  }

  /** With `maxSize` of 10 or less, a `set` that overflows the memory tier
      empties it, the value just stored included. */
  lemma SmallLimitEmptiesMemory(t: Tiers, key: string, data: Json, now: real, ttl: int, maxSize: int,
                                failAt: nat)
    requires Distinct(t.memory) && maxSize <= 10
    requires |Store(t.memory, key, Entry(data, now, ttl))| > maxSize
    ensures SetStep(t, key, data, now, ttl, maxSize, false, failAt).memory == []
  {
    StoreDistinct(t.memory, key, Entry(data, now, ttl));
    EvictSize(Store(t.memory, key, Entry(data, now, ttl)), maxSize);
  }

  datatype Stats = Stats(hits: nat, misses: nat, hitRate: real, memorySize: nat, fileSize: nat)

  class CacheManager {
    const maxSize: int
    const ttl: int
    var memory: Table
    var files: Table
    var hits: nat
    var misses: nat

    ghost predicate Valid()
      reads this
    {
      Distinct(memory) && Distinct(files)
    }

    function State(): Tiers
      reads this
    {
      Tiers(memory, files, hits, misses)
    }

    /** `existing` is what the cache directory already holds. */
    constructor (maxSize: int, ttl: int, existing: Table)
      requires Distinct(existing)
      ensures Valid()
      ensures this.maxSize == maxSize && this.ttl == ttl
      ensures memory == [] && files == existing && hits == 0 && misses == 0
    {
      this.maxSize := maxSize;
      this.ttl := ttl;
      memory := [];
      files := existing;
      hits := 0;
      misses := 0;
    }

    method Get(key: string, now: real, fileFault: bool) returns (r: Option<Json>)
      requires Valid()
      modifies this
      ensures Valid()
      ensures (r, State()) == GetStep(old(State()), key, now, fileFault)
    {
      GetValid(State(), key, now, fileFault);
      var m := Find(memory, key);
      if m.Some? {
        if !IsExpired(m.value, now) {
          hits := hits + 1;
          return Some(m.value.data);
        }
        memory := Without(memory, [key]);
      }
      var f := Find(files, key);
      if f.Some? {
        if fileFault {
          return None;
        }
        if !IsExpired(f.value, now) {
          memory := Store(memory, key, f.value);
          hits := hits + 1;
          return Some(f.value.data);
        }
        files := Without(files, [key]);
      }
      misses := misses + 1;
      return None;
    }

    method Set(key: string, data: Json, now: real, writeFault: bool, failAt: nat)
      requires Valid()
      modifies this
      ensures Valid()
      ensures State() == SetStep(old(State()), key, data, now, ttl, maxSize, writeFault, failAt)
    {
      var entry := Entry(data, now, ttl);
      StoreDistinct(memory, key, entry);
      StoreDistinct(files, key, entry);
      memory := Store(memory, key, entry);
      if writeFault {
        return;
      }
      files := Store(files, key, entry);
      CleanupCache(failAt);
    }

    /** `_cleanup_cache`; `failAt` is the number of file deletions that
        complete before one raises. */
    method CleanupCache(failAt: nat)
      requires Valid()
      modifies this
      ensures Valid()
      ensures memory == Evict(old(memory), maxSize)
      ensures files == Pruned(old(files), maxSize, failAt)
      ensures hits == old(hits) && misses == old(misses)
    {
      EvictMemory();
      PruneFiles(failAt);
    }

    /** The memory half of `_cleanup_cache`. */
    method EvictMemory()
      requires Valid()
      modifies this
      ensures Valid()
      ensures memory == Evict(old(memory), maxSize)
      ensures files == old(files) && hits == old(hits) && misses == old(misses)
    {
      PrunedDistinct(memory, maxSize, |memory|);
      if |memory| > maxSize {
        var victims := Oldest(memory, |memory| - maxSize + 10);
        var i := 0;
        WithoutNone(memory, []);
        while i < |victims|
          invariant 0 <= i <= |victims|
          invariant memory == Without(old(memory), victims[..i])
          invariant files == old(files) && hits == old(hits) && misses == old(misses)
        {
          WithoutMore(old(memory), victims[..i], victims[i]);
          assert victims[..i + 1] == victims[..i] + [victims[i]];
          memory := Without(memory, [victims[i]]);
          i := i + 1;
        }
        assert victims[..i] == victims[..|victims|];
      }
    }

    /** The file half of `_cleanup_cache`: the deletion after the first
        `failAt` raises, and the exception ends the cleanup. */
    method PruneFiles(failAt: nat)
      requires Valid()
      modifies this
      ensures Valid()
      ensures files == Pruned(old(files), maxSize, failAt)
      ensures memory == old(memory) && hits == old(hits) && misses == old(misses)
    {
      PrunedDistinct(files, maxSize, failAt);
      if |files| > maxSize {
        var victims := Oldest(files, |files| - maxSize + 10);
        var i := 0;
        WithoutNone(files, []);
        while i < |victims|
          invariant 0 <= i <= |victims| && i <= failAt
          invariant files == Without(old(files), victims[..i])
          invariant memory == old(memory) && hits == old(hits) && misses == old(misses)
        {
          if i == failAt {
            break;
          }
          WithoutNext(old(files), victims, i);
          files := Without(files, [victims[i]]);
          i := i + 1;
        }
      }
    }

    /** `clear()`; `failAt` is the number of file deletions that complete
        before one raises. The counters are kept. */
    method Clear(failAt: nat)
      requires Valid()
      modifies this
      ensures Valid()
      ensures memory == []
      ensures files == Without(old(files), KeysOf(old(files))[..if failAt < |old(files)| then failAt else |old(files)|])
      ensures failAt >= |old(files)| ==> files == []
      ensures hits == old(hits) && misses == old(misses)
    {
      memory := [];
      var listing := KeysOf(files);
      var i := 0;
      WithoutNone(files, []);
      while i < |listing|
        invariant 0 <= i <= |listing| && i <= failAt
        invariant files == Without(old(files), listing[..i])
        invariant memory == [] && hits == old(hits) && misses == old(misses)
      {
        if i == failAt {
          break;
        }
        WithoutNext(old(files), listing, i);
        files := Without(files, [listing[i]]);
        i := i + 1;
      }
      WithoutDistinct(old(files), listing[..i]);
      if failAt >= |listing| {
        assert files == [] by {
          assert listing[..i] == KeysOf(old(files));
          WithoutOwnKeys(old(files));
        }
      }
    }

    /** `get_stats()`; the hit rate is a percentage, not yet formatted. */
    method GetStats() returns (s: Stats)
      ensures s.hits == hits && s.misses == misses
      ensures s.memorySize == |memory| && s.fileSize == |files|
      ensures hits + misses == 0 ==> s.hitRate == 0.0
      ensures hits + misses > 0 ==> s.hitRate * (hits + misses) as real == 100.0 * hits as real
      ensures 0.0 <= s.hitRate <= 100.0
    {
      var total := hits + misses;
      var rate := if total > 0 then hits as real / total as real * 100.0 else 0.0;
      s := Stats(hits, misses, rate, |memory|, |files|);
    }
  }
}
