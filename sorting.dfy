/** Python's `sorted(xs, key=...)` and `list.sort(key=...)`: a stable sort
    ascending by key. Keys are compared lexicographically on
    (rank, number, text); strings compare by code point, as in Python.

    A descending sort with `reverse=True` is stable too in Python, so it is
    the ascending sort on a negated key. */
module Sorting {
  import opened JsonModel

  /** Python's `a < b` on strings. */
  predicate StrLt(a: string, b: string)
    decreases |a|
  {
    if a == [] then b != []
    else b != [] && (a[0] < b[0] || (a[0] == b[0] && StrLt(a[1..], b[1..])))
  }

  lemma {:induction false} StrLtIrreflexive(a: string)
    ensures !StrLt(a, a)
    decreases |a|
  {
    if a != [] { StrLtIrreflexive(a[1..]); }
  }

  lemma {:induction false} StrLtTransitive(a: string, b: string, c: string)
    requires StrLt(a, b) && StrLt(b, c)
    ensures StrLt(a, c)
    decreases |a|
  {
    if a != [] && a[0] == b[0] && b[0] == c[0] {
      StrLtTransitive(a[1..], b[1..], c[1..]);
    }
  }

  lemma {:induction false} StrLtTotal(a: string, b: string)
    ensures a == b || StrLt(a, b) || StrLt(b, a)
    decreases |a|
  {
    if a != [] && b != [] && a[0] == b[0] {
      StrLtTotal(a[1..], b[1..]);
      if a[1..] == b[1..] {
        assert a == [a[0]] + a[1..] && b == [b[0]] + b[1..];
      }
    }
  }

  datatype SortKey = SortKey(rank: int, num: real, text: string)

  predicate KeyLt(a: SortKey, b: SortKey)
  {
    || a.rank < b.rank
    || (a.rank == b.rank && a.num < b.num)
    || (a.rank == b.rank && a.num == b.num && StrLt(a.text, b.text))
  }

  /** `KeyLt` is a strict total order. */
  lemma KeyLtOrder(a: SortKey, b: SortKey, c: SortKey)
    ensures !KeyLt(a, a)
    ensures KeyLt(a, b) && KeyLt(b, c) ==> KeyLt(a, c)
    ensures a == b || KeyLt(a, b) || KeyLt(b, a)
  {
    StrLtIrreflexive(a.text);
    StrLtTotal(a.text, b.text);
    if KeyLt(a, b) && KeyLt(b, c) && a.rank == b.rank == c.rank && a.num == b.num == c.num {
      StrLtTransitive(a.text, b.text, c.text);
    }
  }

  /** Insert `x` before the first element whose key is not smaller than its own. */
  function Insert<T>(x: T, s: seq<T>, key: T -> SortKey): seq<T>
  {
    if s == [] || !KeyLt(key(s[0]), key(x)) then [x] + s
    else [s[0]] + Insert(x, s[1..], key)
  }

  function SortBy<T>(s: seq<T>, key: T -> SortKey): seq<T>
  {
    if s == [] then [] else Insert(s[0], SortBy(s[1..], key), key)
  }

  ghost predicate SortedBy<T>(s: seq<T>, key: T -> SortKey)
  {
    forall i, j :: 0 <= i < j < |s| ==> !KeyLt(key(s[j]), key(s[i]))
  }

  /** The elements of `s` whose key is `k`, in order. */
  function WithKey<T>(s: seq<T>, key: T -> SortKey, k: SortKey): (r: seq<T>)
    ensures |r| <= |s|
  {
    if s == [] then []
    else (if key(s[0]) == k then [s[0]] else []) + WithKey(s[1..], key, k)
  }

  lemma SortedTail<T>(s: seq<T>, key: T -> SortKey)
    requires s != [] && SortedBy(s, key)
    ensures SortedBy(s[1..], key)
  {
    forall i, j | 0 <= i < j < |s[1..]| ensures !KeyLt(key(s[1..][j]), key(s[1..][i])) {
      assert s[1..][i] == s[i + 1] && s[1..][j] == s[j + 1];
    }
  }

  lemma {:induction false} InsertPermutes<T>(x: T, s: seq<T>, key: T -> SortKey)
    ensures multiset(Insert(x, s, key)) == multiset(s) + multiset{x}
  {
    if s != [] && KeyLt(key(s[0]), key(x)) {
      InsertPermutes(x, s[1..], key);
      assert s == [s[0]] + s[1..];
    }
  }

  /** Placing `x` in front of an ordered sequence whose head is not smaller. */
  lemma InsertFront<T>(x: T, s: seq<T>, key: T -> SortKey)
    requires SortedBy(s, key)
    requires s == [] || !KeyLt(key(s[0]), key(x))
    ensures SortedBy([x] + s, key)
  {
    var r := [x] + s;
    forall j | 0 < j < |r| ensures !KeyLt(key(r[j]), key(x)) {
      assert r[j] == s[j - 1];
      if j - 1 > 0 {
        assert !KeyLt(key(s[j - 1]), key(s[0]));
      }
      KeyLtOrder(key(s[j - 1]), key(x), key(s[0]));
      KeyLtOrder(key(x), key(s[0]), key(x));
    }
    forall i, j | 0 < i < j < |r| ensures !KeyLt(key(r[j]), key(r[i])) {
      assert r[i] == s[i - 1] && r[j] == s[j - 1];
    }
  }

  /** Keeping a head that is smaller than `x` in front of an ordered tail. */
  lemma InsertBehind<T>(h: T, x: T, t: seq<T>, rest: seq<T>, key: T -> SortKey)
    requires KeyLt(key(h), key(x))
    requires SortedBy(t, key) && SortedBy([h] + rest, key)
    requires multiset(t) == multiset(rest) + multiset{x}
    ensures SortedBy([h] + t, key)
  {
    var r := [h] + t;
    forall j | 0 < j < |r| ensures !KeyLt(key(r[j]), key(h)) {
      var y := r[j];
      assert y == t[j - 1];
      assert y in multiset(t);
      if y == x {
        KeyLtOrder(key(x), key(h), key(x));
      } else {
        assert y in multiset(rest);
        var m :| 0 <= m < |rest| && rest[m] == y;
        assert ([h] + rest)[m + 1] == y && ([h] + rest)[0] == h;
        assert !KeyLt(key(([h] + rest)[m + 1]), key(([h] + rest)[0]));
      }
    }
    forall i, j | 0 < i < j < |r| ensures !KeyLt(key(r[j]), key(r[i])) {
      assert r[i] == t[i - 1] && r[j] == t[j - 1];
    }
  }

  lemma {:induction false} InsertSorted<T>(x: T, s: seq<T>, key: T -> SortKey)
    requires SortedBy(s, key)
    ensures SortedBy(Insert(x, s, key), key)
  {
    if s == [] || !KeyLt(key(s[0]), key(x)) {
      InsertFront(x, s, key);
    } else {
      SortedTail(s, key);
      InsertSorted(x, s[1..], key);
      InsertPermutes(x, s[1..], key);
      assert s == [s[0]] + s[1..];
      InsertBehind(s[0], x, Insert(x, s[1..], key), s[1..], key);
    }
  }

  lemma {:induction false} InsertWithKey<T>(x: T, s: seq<T>, key: T -> SortKey, k: SortKey)
    ensures WithKey(Insert(x, s, key), key, k) == (if key(x) == k then [x] else []) + WithKey(s, key, k)
  {
    var r := Insert(x, s, key);
    if s == [] || !KeyLt(key(s[0]), key(x)) {
      assert r[1..] == s;
    } else {
      var t := Insert(x, s[1..], key);
      assert r[1..] == t;
      InsertWithKey(x, s[1..], key, k);
      KeyLtOrder(key(s[0]), key(x), key(x));
    }
  }

  /** The sort yields an ordered permutation of its input, and it is stable:
      the elements sharing any one key keep their relative order. */
  lemma {:induction false} SortByCorrect<T>(s: seq<T>, key: T -> SortKey)
    ensures SortedBy(SortBy(s, key), key)
    ensures multiset(SortBy(s, key)) == multiset(s)
    ensures forall k :: WithKey(SortBy(s, key), key, k) == WithKey(s, key, k)
  {
    if s != [] {
      SortByCorrect(s[1..], key);
      InsertSorted(s[0], SortBy(s[1..], key), key);
      InsertPermutes(s[0], SortBy(s[1..], key), key);
      forall k ensures WithKey(SortBy(s, key), key, k) == WithKey(s, key, k) {
        InsertWithKey(s[0], SortBy(s[1..], key), key, k);
      }
      assert s == [s[0]] + s[1..];
    }
  }

  lemma SortByLength<T>(s: seq<T>, key: T -> SortKey)
    ensures |SortBy(s, key)| == |s|
  {
    SortByCorrect(s, key);
    assert |multiset(SortBy(s, key))| == |multiset(s)|;
  }

  /** Two elements with the same key stay in their order. */
  lemma TiedPairSorted<T>(x: T, y: T, key: T -> SortKey)
    requires key(x) == key(y)
    ensures SortBy([x, y], key) == [x, y]
  {
    KeyLtOrder(key(x), key(x), key(x));
    assert [x, y][1..] == [y] && [y][1..] == [];
    assert SortBy([y], key) == Insert(y, [], key) == [y];
    assert [x, y] == [x] + [y];
  }

  /** The sort neither adds nor drops an element. */
  lemma SortKeepsMembers<T>(s: seq<T>, key: T -> SortKey)
    ensures forall x :: x in SortBy(s, key) <==> x in s
  {
    SortByCorrect(s, key);
    forall x ensures x in SortBy(s, key) <==> x in s {
      assert x in SortBy(s, key) <==> x in multiset(SortBy(s, key));
      assert x in s <==> x in multiset(s);
    }
  }

  /** The head of an ordered sequence has the least key. */
  lemma HeadIsLeast<T>(a: seq<T>, key: T -> SortKey, y: T)
    requires a != [] && SortedBy(a, key) && y in multiset(a)
    ensures !KeyLt(key(y), key(a[0]))
  {
    var j :| 0 <= j < |a| && a[j] == y;
    if j > 0 {
      assert !KeyLt(key(a[j]), key(a[0]));
    } else {
      KeyLtOrder(key(y), key(y), key(y));
    }
  }

  /** Removing equal heads from equal multisets leaves equal multisets. */
  lemma TailsPermute<T>(a: seq<T>, b: seq<T>)
    requires a != [] && b != [] && a[0] == b[0] && multiset(a) == multiset(b)
    ensures multiset(a[1..]) == multiset(b[1..])
  {
    assert a == [a[0]] + a[1..];
    assert b == [b[0]] + b[1..];
    assert multiset(a[1..]) == multiset(a) - multiset{a[0]};
    assert multiset(b[1..]) == multiset(b) - multiset{b[0]};
  }

  /** No two distinct elements of `s` share a key. */
  ghost predicate KeyTellsApart<T>(s: seq<T>, key: T -> SortKey)
  {
    forall x, y :: x in s && y in s && key(x) == key(y) ==> x == y
  }

  /** Two ordered permutations of each other start with the same element
      when the key tells elements apart. */
  lemma SameHead<T>(a: seq<T>, b: seq<T>, key: T -> SortKey)
    requires KeyTellsApart(a, key)
    requires a != [] && b != [] && SortedBy(a, key) && SortedBy(b, key)
    requires multiset(a) == multiset(b)
    ensures a[0] == b[0]
  {
    assert a[0] in a;
    assert a[0] in multiset(b) && b[0] in multiset(a);
    HeadIsLeast(a, key, b[0]);
    HeadIsLeast(b, key, a[0]);
    KeyLtOrder(key(a[0]), key(b[0]), key(a[0]));
  }

  /** With a key that tells the elements apart, there is exactly one ordered
      arrangement of a multiset: sorting forgets the input order. */
  lemma {:induction false} SortedUnique<T>(a: seq<T>, b: seq<T>, key: T -> SortKey)
    requires KeyTellsApart(a, key)
    requires SortedBy(a, key) && SortedBy(b, key)
    requires multiset(a) == multiset(b)
    ensures a == b
    decreases |a|
  {
    assert |a| == |b| by {
      assert |multiset(a)| == |multiset(b)|;
    }
    if a != [] {
      SameHead(a, b, key);
      TailsPermute(a, b);
      SortedTail(a, key);
      SortedTail(b, key);
      assert forall x :: x in a[1..] ==> x in a;
      SortedUnique(a[1..], b[1..], key);
      assert a == [a[0]] + a[1..] && b == [b[0]] + b[1..];
    }
  }

  // ---------------------------------------------------------------------
  // Descending order (`reverse=True`)
  // ---------------------------------------------------------------------

  function Reverse<T>(s: seq<T>): (r: seq<T>)
    ensures |r| == |s|
    ensures forall i :: 0 <= i < |s| ==> r[i] == s[|s| - 1 - i]
  {
    if s == [] then [] else Reverse(s[1..]) + [s[0]]
  }

  lemma ReverseReverse<T>(s: seq<T>)
    ensures Reverse(Reverse(s)) == s
  {
  }

  lemma {:induction false} ReversePermutes<T>(s: seq<T>)
    ensures multiset(Reverse(s)) == multiset(s)
  {
    if s != [] {
      ReversePermutes(s[1..]);
      assert s == [s[0]] + s[1..];
    }
  }

  lemma {:induction false} WithKeyAppend<T>(a: seq<T>, b: seq<T>, key: T -> SortKey, k: SortKey)
    ensures WithKey(a + b, key, k) == WithKey(a, key, k) + WithKey(b, key, k)
  {
    if a != [] {
      assert (a + b)[1..] == a[1..] + b;
      WithKeyAppend(a[1..], b, key, k);
    } else {
      assert a + b == b;
    }
  }

  lemma {:induction false} WithKeyReverse<T>(s: seq<T>, key: T -> SortKey, k: SortKey)
    ensures WithKey(Reverse(s), key, k) == Reverse(WithKey(s, key, k))
  {
    if s != [] {
      WithKeyReverse(s[1..], key, k);
      WithKeyAppend(Reverse(s[1..]), [s[0]], key, k);
      assert [s[0]][1..] == [];
      var head := if key(s[0]) == k then [s[0]] else [];
      assert WithKey([s[0]], key, k) == head;
      assert Reverse(head + WithKey(s[1..], key, k)) == Reverse(WithKey(s[1..], key, k)) + head;
    }
  }

  /** `sorted(s, key=key, reverse=True)`: CPython reverses the list, sorts it
      stably and reverses the result, so equal keys keep their input order. */
  function SortDesc<T>(s: seq<T>, key: T -> SortKey): seq<T>
  {
    Reverse(SortBy(Reverse(s), key))
  }

  /** Sorting in reverse gives a permutation whose keys never increase, and
      the elements sharing any one key keep their relative order. */
  lemma SortDescCorrect<T>(s: seq<T>, key: T -> SortKey)
    ensures multiset(SortDesc(s, key)) == multiset(s)
    ensures forall i, j :: 0 <= i < j < |SortDesc(s, key)| ==>
              !KeyLt(key(SortDesc(s, key)[i]), key(SortDesc(s, key)[j]))
    ensures forall k :: WithKey(SortDesc(s, key), key, k) == WithKey(s, key, k)
  {
    SortByCorrect(Reverse(s), key);
    SortDescPermutes(s, key);
    SortDescOrdered(SortBy(Reverse(s), key), key);
    forall k ensures WithKey(SortDesc(s, key), key, k) == WithKey(s, key, k) {
      SortDescStable(s, key, k);
    }
  }

  lemma SortDescPermutes<T>(s: seq<T>, key: T -> SortKey)
    ensures multiset(SortDesc(s, key)) == multiset(s)
  {
    SortByCorrect(Reverse(s), key);
    ReversePermutes(s);
    ReversePermutes(SortBy(Reverse(s), key));
  }

  lemma SortDescOrdered<T>(t: seq<T>, key: T -> SortKey)
    requires SortedBy(t, key)
    ensures forall i, j :: 0 <= i < j < |Reverse(t)| ==> !KeyLt(key(Reverse(t)[i]), key(Reverse(t)[j]))
  {
    forall i, j | 0 <= i < j < |Reverse(t)| ensures !KeyLt(key(Reverse(t)[i]), key(Reverse(t)[j])) {
      assert Reverse(t)[i] == t[|t| - 1 - i] && Reverse(t)[j] == t[|t| - 1 - j];
    }
  }

  lemma SortDescStable<T>(s: seq<T>, key: T -> SortKey, k: SortKey)
    ensures WithKey(SortDesc(s, key), key, k) == WithKey(s, key, k)
  {
    var t := SortBy(Reverse(s), key);
    SortByCorrect(Reverse(s), key);
    WithKeyReverse(t, key, k);
    WithKeyReverse(s, key, k);
    ReverseReverse(WithKey(s, key, k));
  }

  lemma {:induction false} WithKeyAll<T>(s: seq<T>, key: T -> SortKey, k: SortKey)
    requires forall i :: 0 <= i < |s| ==> key(s[i]) == k
    ensures WithKey(s, key, k) == s
  {
    if s != [] {
      WithKeyAll(s[1..], key, k);
    }
  }

  /** When every element has the same key, sorting leaves the sequence as
      it is. */
  lemma SortDescTied<T>(s: seq<T>, key: T -> SortKey)
    requires forall i, j :: 0 <= i < j < |s| ==> key(s[i]) == key(s[j])
    ensures SortDesc(s, key) == s
  {
    if s != [] {
      var k := key(s[0]);
      assert forall i :: 0 <= i < |s| ==> key(s[i]) == k by {
        forall i | 0 < i < |s| ensures key(s[i]) == k {
          assert key(s[0]) == key(s[i]);
        }
      }
      var r := SortDesc(s, key);
      SortDescPermutes(s, key);
      forall i | 0 <= i < |r| ensures key(r[i]) == k {
        assert r[i] in multiset(r);
        assert r[i] in s;
      }
      WithKeyAll(s, key, k);
      WithKeyAll(r, key, k);
      SortDescStable(s, key, k);
    }
  }

  // ---------------------------------------------------------------------
  // Mapping over a sequence
  // ---------------------------------------------------------------------

  /** `[f(x) for x in s]` */
  function MapSeq<T>(f: T -> T, s: seq<T>): (r: seq<T>)
    ensures |r| == |s|
    ensures forall i :: 0 <= i < |s| ==> r[i] == f(s[i])
  {
    if s == [] then [] else [f(s[0])] + MapSeq(f, s[1..])
  }

  lemma RemoveAt<T>(b: seq<T>, j: int)
    requires 0 <= j < |b|
    ensures multiset(b[..j] + b[j + 1..]) == multiset(b) - multiset{b[j]}
    ensures multiset{b[j]} + multiset(b[..j] + b[j + 1..]) == multiset(b)
  {
    assert b[j..] == [b[j]] + b[j + 1..];
    assert b == b[..j] + b[j..];
  }

  lemma MapRemoveAt<T>(f: T -> T, b: seq<T>, j: int)
    requires 0 <= j < |b|
    ensures MapSeq(f, b[..j] + b[j + 1..]) == MapSeq(f, b)[..j] + MapSeq(f, b)[j + 1..]
  {
    var rest := b[..j] + b[j + 1..];
    var m := MapSeq(f, b);
    var r := MapSeq(f, rest);
    var s := m[..j] + m[j + 1..];
    assert |r| == |s|;
    forall i | 0 <= i < |r| ensures r[i] == s[i] {
      if i < j {
        assert rest[i] == b[i] && s[i] == m[i];
      } else {
        assert rest[i] == b[i + 1] && s[i] == m[i + 1];
      }
    }
  }

  lemma MapCons<T>(f: T -> T, a: seq<T>)
    requires a != []
    ensures multiset(MapSeq(f, a)) == multiset{f(a[0])} + multiset(MapSeq(f, a[1..]))
  {
    assert MapSeq(f, a) == [f(a[0])] + MapSeq(f, a[1..]);
  }

  /** Mapping a permutation yields a permutation. */
  lemma {:induction false} MapPermutes<T>(f: T -> T, a: seq<T>, b: seq<T>)
    requires multiset(a) == multiset(b)
    ensures multiset(MapSeq(f, a)) == multiset(MapSeq(f, b))
    decreases |a|
  {
    if a != [] {
      assert a[0] in multiset(b);
      var j :| 0 <= j < |b| && b[j] == a[0];
      var rest := b[..j] + b[j + 1..];
      RemoveAt(b, j);
      assert multiset(a[1..]) == multiset(rest) by {
        assert a == [a[0]] + a[1..];
      }
      MapPermutes(f, a[1..], rest);
      var mb := MapSeq(f, b);
      MapCons(f, a);
      assert multiset(MapSeq(f, a)) == multiset{f(a[0])} + multiset(MapSeq(f, rest));
      MapRemoveAt(f, b, j);
      RemoveAt(mb, j);
      assert mb[j] == f(a[0]);
    } else {
      assert |multiset(b)| == 0;
    }
  }

  /** Mapping `g` first changes nothing when `f` absorbs it. */
  lemma MapAbsorbs<T>(f: T -> T, g: T -> T, s: seq<T>)
    requires forall x :: f(g(x)) == f(x)
    ensures MapSeq(f, MapSeq(g, s)) == MapSeq(f, s)
  {
    var l := MapSeq(f, MapSeq(g, s));
    assert |l| == |MapSeq(f, s)|;
    forall i | 0 <= i < |s| ensures l[i] == MapSeq(f, s)[i] {
      assert MapSeq(g, s)[i] == g(s[i]);
    }
  }

  // ---------------------------------------------------------------------
  // Python's ordering of JSON values
  // ---------------------------------------------------------------------

  /** The position of a value in Python's ordering: numbers (bool is an int)
      compare among themselves, strings among themselves. */
  function OrderKey(j: Json): Option<SortKey>
  {
    match j
    case Bool(b) => Some(SortKey(0, if b then 1.0 else 0.0, ""))
    case Int(i) => Some(SortKey(0, i as real, ""))
    case Float(f) => Some(SortKey(0, f, ""))
    case Str(s) => Some(SortKey(1, 0.0, s))
    case _ => None
  }

  predicate IsNumber(j: Json) { j.Bool? || j.Int? || j.Float? }

  /** The value of a number; `True` is 1. */
  function NumValue(j: Json): real
    requires IsNumber(j)
  {
    match j
    case Bool(b) => if b then 1.0 else 0.0
    case Int(i) => i as real
    case Float(f) => f
  }

  /** Python's `a == b` on JSON values: numbers by value (`1 == 1.0 ==
      True`), strings and `None` as themselves, lists item by item, and
      dicts by looking up each binding's key in the other dict (decoded
      JSON repeats no key). */
  predicate PyEq(a: Json, b: Json)
    decreases a
  {
    if IsNumber(a) || IsNumber(b) then IsNumber(a) && IsNumber(b) && NumValue(a) == NumValue(b)
    else match a
      case Arr(xs) =>
        b.Arr? && |xs| == |b.items| && forall i :: 0 <= i < |xs| ==> PyEq(xs[i], b.items[i])
      case Obj(fs) =>
        b.Obj? && |fs| == |b.fields| &&
        forall i :: 0 <= i < |fs| ==>
          Lookup(b.fields, fs[i].0).Some? && PyEq(fs[i].1, Lookup(b.fields, fs[i].0).value)
      case _ => a == b
  }

  /** Python can put these values in order without a `TypeError`: fewer than
      two of them (nothing is compared), or all numbers, or all strings. */
  predicate Orderable(keys: seq<Json>)
  {
    || |keys| <= 1
    || (forall i :: 0 <= i < |keys| ==> IsNumber(keys[i]))
    || (forall i :: 0 <= i < |keys| ==> keys[i].Str?)
  }

  function KeyOrLast(j: Json): SortKey
  {
    match OrderKey(j)
    case Some(k) => k
    case None => SortKey(2, 0.0, "")
  }

  /** The sort key of `keyOf(x)` in Python's ordering. */
  function KeyBy<T>(keyOf: T -> Json): T -> SortKey
  {
    x => KeyOrLast(keyOf(x))
  }

  /** `sorted(s, key=keyOf)`; raises `TypeError` when two keys cannot be compared. */
  function PySorted<T>(s: seq<T>, keyOf: T -> Json): (r: Result<seq<T>>)
    ensures r.Ok? <==> Orderable(seq(|s|, i requires 0 <= i < |s| => keyOf(s[i])))
    ensures r.Ok? ==> r.value == SortBy(s, KeyBy(keyOf))
  {
    if Orderable(seq(|s|, i requires 0 <= i < |s| => keyOf(s[i])))
    then Ok(SortBy(s, KeyBy(keyOf)))
    else Raise(TypeError)
  }

  /** The key of a list of strings sorted as themselves. */
  function TextKey(s: string): SortKey
  {
    SortKey(1, 0.0, s)
  }

  /** `sorted(strings)` */
  function SortStrings(s: seq<string>): (r: seq<string>)
  {
    SortBy(s, TextKey)
  }

  /** `sorted` on strings gives an ordered permutation, and any two
      permutations of the same strings sort to the same list. */
  lemma SortStringsCanonical(a: seq<string>, b: seq<string>)
    requires multiset(a) == multiset(b)
    ensures SortStrings(a) == SortStrings(b)
    ensures multiset(SortStrings(a)) == multiset(a)
  {
    SortByCorrect(a, TextKey);
    SortByCorrect(b, TextKey);
    SortedUnique(SortStrings(a), SortStrings(b), TextKey);
  }
}
