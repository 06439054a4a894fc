/** JSON-shaped values as the Python backend sees them after `json.loads`,
    and the handful of dict operations the backend performs on them.

    A Python dict keeps insertion order, so an object is an association list:
    `Get` reads the first binding of a key, `Put` overwrites that binding in
    place or appends a new one at the end, as `d[k] = v` does. */
module JsonModel {
  import opened Text

  datatype Json =
    | Null
    | Bool(b: bool)
    | Int(i: int)
    | Float(f: real)
    | Str(s: string)
    | Arr(items: seq<Json>)
    | Obj(fields: seq<(string, Json)>)

  /** A value annotated `Dict[str, Any]` in the source. */
  type Dict = j: Json | j.Obj? witness Obj([])

  datatype Option<T> = None | Some(value: T)

  /** The Python exceptions the modelled code can raise. */
  datatype PyError = TypeError | AttributeError | ValueError

  datatype Result<T> = Ok(value: T) | Raise(error: PyError)
  {
    predicate IsFailure() { Raise? }

    function PropagateFailure<U>(): Result<U>
      requires Raise?
    {
      Raise(error)
    }

    function Extract(): T
      requires Ok?
    {
      value
    }
  }

  /** `[f(x) for x in s]` where `f` may raise: the first failure propagates. */
  function MapOk<A, B>(f: A -> Result<B>, s: seq<A>): (r: Result<seq<B>>)
    ensures r.Ok? <==> forall i :: 0 <= i < |s| ==> f(s[i]).Ok?
    ensures r.Ok? ==> |r.value| == |s| && forall i :: 0 <= i < |s| ==> f(s[i]) == Ok(r.value[i])
  {
    if s == [] then Ok([])
    else
      var head :- f(s[0]);
      var tail :- MapOk(f, s[1..]);
      assert forall i :: 1 <= i < |s| ==> s[i] == s[1..][i - 1];
      Ok([head] + tail)
  }

  /** The error of the mapping is the error of the first element that fails. */
  lemma {:induction false} MapOkFails<A, B>(f: A -> Result<B>, s: seq<A>, i: int)
    requires 0 <= i < |s| && f(s[i]).Raise?
    requires forall k :: 0 <= k < i ==> f(s[k]).Ok?
    ensures MapOk(f, s) == Raise(f(s[i]).error)
  {
    if i > 0 {
      assert s[1..][i - 1] == s[i];
      assert forall k :: 0 <= k < i - 1 ==> s[1..][k] == s[k + 1];
      MapOkFails(f, s[1..], i - 1);
    }
  }

  /** One more round of a loop that maps `f` over `s`. */
  lemma MapOkStep<A, B>(f: A -> Result<B>, s: seq<A>, out: seq<B>, y: B)
    requires |out| < |s|
    requires forall k :: 0 <= k < |out| ==> f(s[k]) == Ok(out[k])
    requires f(s[|out|]) == Ok(y)
    ensures forall k :: 0 <= k < |out| + 1 ==> f(s[k]) == Ok((out + [y])[k])
  {
  }

  /** One more round of a loop whose `d`-th output is `g(d)`. */
  lemma ExtendByIndex<T>(out: seq<T>, y: T, g: nat -> T)
    requires forall d :: 0 <= d < |out| ==> out[d] == g(d)
    requires y == g(|out|)
    ensures forall d :: 0 <= d < |out| + 1 ==> (out + [y])[d] == g(d)
  {
  }

  lemma MapOkAll<A, B>(f: A -> Result<B>, s: seq<A>, out: seq<B>)
    requires |out| == |s|
    requires forall k :: 0 <= k < |s| ==> f(s[k]) == Ok(out[k])
    ensures MapOk(f, s) == Ok(out)
  {
    assert MapOk(f, s).Ok?;
    assert MapOk(f, s).value == out;
  }

  /** When every failure of `f` is the same error, so is a failure of the
      mapping. */
  lemma {:induction false} MapOkError<A, B>(f: A -> Result<B>, s: seq<A>, e: PyError)
    requires forall x :: f(x).Raise? ==> f(x).error == e
    ensures MapOk(f, s).Raise? ==> MapOk(f, s).error == e
  {
    if s != [] && f(s[0]).Ok? {
      MapOkError(f, s[1..], e);
    }
  }

  /** The value bound to `k` first, if any. */
  function Lookup(fields: seq<(string, Json)>, k: string): (r: Option<Json>)
  {
    if fields == [] then None
    else if fields[0].0 == k then Some(fields[0].1)
    else Lookup(fields[1..], k)
  }

  /** A key is found exactly when some binding carries it, and what is found
      is the value of its first binding. */
  lemma {:induction false} LookupFinds(fields: seq<(string, Json)>, k: string)
    ensures Lookup(fields, k).Some? <==> exists i :: 0 <= i < |fields| && fields[i].0 == k
    ensures Lookup(fields, k).Some? ==>
              exists i :: 0 <= i < |fields| && fields[i] == (k, Lookup(fields, k).value)
                          && forall j :: 0 <= j < i ==> fields[j].0 != k
  {
    if fields != [] && fields[0].0 != k {
      LookupFinds(fields[1..], k);
      assert forall i :: 1 <= i < |fields| ==> fields[i] == fields[1..][i - 1];
      if Lookup(fields, k).Some? {
        var i :| 0 <= i < |fields[1..]| && fields[1..][i] == (k, Lookup(fields, k).value)
                 && forall j :: 0 <= j < i ==> fields[1..][j].0 != k;
        assert fields[i + 1] == (k, Lookup(fields, k).value);
        assert forall j :: 1 <= j < i + 1 ==> fields[j] == fields[1..][j - 1];
      }
    } else if fields != [] {
      assert fields[0] == (k, Lookup(fields, k).value);
    }
  }

  /** The binding at `i` is the first one of its key. */
  lemma {:induction false} LookupAt(fields: seq<(string, Json)>, i: int, k: string)
    requires 0 <= i < |fields| && fields[i].0 == k
    requires forall j :: 0 <= j < i ==> fields[j].0 != k
    ensures Lookup(fields, k) == Some(fields[i].1)
  {
    if i > 0 {
      assert fields[1..][i - 1] == fields[i];
      LookupAt(fields[1..], i - 1, k);
    }
  }

  /** `k in d` */
  predicate Has(d: Dict, k: string)
  {
    Lookup(d.fields, k).Some?
  }

  /** `d.get(k, default)` */
  function GetOr(d: Dict, k: string, default: Json): Json
  {
    match Lookup(d.fields, k)
    case Some(v) => v
    case None => default
  }

  /** `d.get(k)` */
  function Get(d: Dict, k: string): Json
  {
    GetOr(d, k, Null)
  }

  function PutField(fields: seq<(string, Json)>, k: string, v: Json): (r: seq<(string, Json)>)
    ensures Lookup(r, k) == Some(v)
    ensures forall k' :: k' != k ==> Lookup(r, k') == Lookup(fields, k')
    ensures |r| == if Lookup(fields, k).Some? then |fields| else |fields| + 1
  {
    if fields == [] then [(k, v)]
    else if fields[0].0 == k then [(k, v)] + fields[1..]
    else [fields[0]] + PutField(fields[1..], k, v)
  }

  /** `d[k] = v` */
  function Put(d: Dict, k: string, v: Json): (r: Dict)
    ensures Get(r, k) == v && Has(r, k)
    ensures forall k' :: k' != k ==> Lookup(r.fields, k') == Lookup(d.fields, k')
  {
    Obj(PutField(d.fields, k, v))
  }

  /** `if k not in d: d[k] = v` */
  function SetDefault(d: Dict, k: string, v: Json): (r: Dict)
    ensures Has(r, k)
    ensures Has(d, k) ==> r == d
    ensures !Has(d, k) ==> Get(r, k) == v
    ensures forall k' :: k' != k ==> Lookup(r.fields, k') == Lookup(d.fields, k')
  {
    if Has(d, k) then d else Put(d, k, v)
  }

  /** The values of a dict, in insertion order (`d.values()`). */
  function Values(d: Dict): (r: seq<Json>)
    ensures |r| == |d.fields|
  {
    seq(|d.fields|, i requires 0 <= i < |d.fields| => d.fields[i].1)
  }

  /** Python truthiness (`bool(x)`). */
  predicate Truthy(j: Json)
  {
    match j
    case Null => false
    case Bool(b) => b
    case Int(i) => i != 0
    case Float(f) => f != 0.0
    case Str(s) => s != []
    case Arr(items) => items != []
    case Obj(fields) => fields != []
  }

  /** Python can put the value in a set or use it as a dict key: JSON
      lists and dicts cannot. */
  predicate Hashable(j: Json)
  {
    !j.Arr? && !j.Obj?
  }

  /** `a or b` */
  function Or(a: Json, b: Json): (r: Json)
    ensures Truthy(a) ==> r == a
    ensures !Truthy(a) ==> r == b
  {
    if Truthy(a) then a else b
  }

  /** `x.get(k, default)` on a value that is not known to be a dict: anything
      other than a dict raises `AttributeError`. */
  function GetFrom(x: Json, k: string, default: Json): (r: Result<Json>)
    ensures r.Ok? <==> x.Obj?
  {
    if x.Obj? then Ok(GetOr(x, k, default)) else Raise(AttributeError)
  }

  /** `x.get(p0, {}).get(p1, {}) ... .get(pn, last)`: every intermediate step
      defaults to an empty dict, the final one to `last`. */
  function Chain(x: Json, path: seq<string>, last: Json): (r: Result<Json>)
    requires |path| >= 1
    decreases |path|
  {
    if |path| == 1 then GetFrom(x, path[0], last)
    else
      match GetFrom(x, path[0], Obj([]))
      case Raise(e) => Raise(e)
      case Ok(next) => Chain(next, path[1..], last)
  }

  /** `for x in v`: a list yields its items, a string its characters, a dict
      its keys; anything else is not iterable. */
  function Iterate(v: Json): (r: Result<seq<Json>>)
    ensures v.Arr? ==> r == Ok(v.items)
    ensures r.Ok? <==> (v.Arr? || v.Str? || v.Obj?)
    ensures r.Ok? ==> |r.value| == match v
                                   case Arr(items) => |items|
                                   case Str(s) => |s|
                                   case Obj(fields) => |fields|
                                   case _ => 0
  {
    match v
    case Arr(items) => Ok(items)
    case Str(s) => Ok(seq(|s|, i requires 0 <= i < |s| => Str([s[i]])))
    case Obj(fields) => Ok(seq(|fields|, i requires 0 <= i < |fields| => Str(fields[i].0)))
    case _ => Raise(TypeError)
  }

  predicate AllText(items: seq<Json>)
  {
    forall i :: 0 <= i < |items| ==> items[i].Str?
  }

  function Texts(items: seq<Json>): (r: seq<string>)
    requires AllText(items)
    ensures |r| == |items|
    ensures forall i :: 0 <= i < |items| ==> r[i] == items[i].s
  {
    seq(|items|, i requires 0 <= i < |items| => items[i].s)
  }

  /** `', '.join(v) if v else fallback`: only strings can be joined, and a
      string joins its characters. */
  function JoinOr(v: Json, fallback: string): (r: Result<string>)
    ensures !Truthy(v) ==> r == Ok(fallback)
  {
    if !Truthy(v) then Ok(fallback)
    else
      var items :- Iterate(v);
      if AllText(items) then Ok(Join(", ", Texts(items)))
      else Raise(TypeError)
  }

  /** A non-empty list of strings is rendered as those strings, each in
      place. */
  lemma JoinOrListed(parts: seq<string>, fallback: string)
    requires parts != []
    ensures JoinOr(Arr(seq(|parts|, i requires 0 <= i < |parts| => Str(parts[i]))), fallback) == Ok(Join(", ", parts))
  {
    var items := seq(|parts|, i requires 0 <= i < |parts| => Str(parts[i]));
    JoinOrOfTexts(items, fallback);
    assert Texts(items) == parts;
  }

  lemma JoinOrOfTexts(items: seq<Json>, fallback: string)
    requires items != [] && AllText(items)
    ensures JoinOr(Arr(items), fallback) == Ok(Join(", ", Texts(items)))
  {
  }

  /** Anything but a string in the list makes the join raise. */
  lemma JoinOrNotText(items: seq<Json>, k: int, fallback: string)
    requires 0 <= k < |items| && !items[k].Str?
    ensures JoinOr(Arr(items), fallback) == Raise(TypeError)
  {
  }

  /** Python's `str(x)` for a scalar, with the rendering of floats supplied
      by the caller (Python prints the shortest repr that round-trips). */
  function ScalarText(x: Json, floatText: real -> string): string
    requires !x.Arr? && !x.Obj?
  {
    match x
    case Null => "None"
    case Bool(b) => if b then "True" else "False"
    case Int(i) => IntText(i)
    case Float(f) => floatText(f)
    case Str(s) => s
  }
}
