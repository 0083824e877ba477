/** Vocabulary shared by the server and the browser side: optional values,
    JSON-like values as a parsed frame or a spread object holds them, and the
    ready states of a WebSocket transport. */
module Common {

  datatype Option<+T> = None | Some(value: T)

  datatype Result<+R, +E> = Success(value: R) | Failure(error: E)

  /** Instruments are identified by an opaque string token. */
  type Token = string

  /** A JSON value. `Stamp(ms)` stands for a `Date` (or its ISO string) taken at
      time `ms`; clocks are inputs of the model. */
  datatype Value =
    | Null
    | Bool(b: bool)
    | Num(n: real)
    | Str(s: string)
    | Stamp(ms: int)
    | Arr(items: seq<Value>)
    | Obj(fields: map<string, Value>)

  /** A plain JavaScript object, as a map from property names to values. */
  type Fields = map<string, Value>

  /** `{...a, ...b}`: every property of `b`, and those of `a` that `b` lacks. */
  function Spread(a: Fields, b: Fields): (r: Fields)
    ensures r.Keys == a.Keys + b.Keys
    ensures forall k :: k in b ==> r[k] == b[k]
    ensures forall k :: k in a && k !in b ==> r[k] == a[k]
  {
    a + b
  }

  /** The object a spread `...v` contributes: the properties of an object,
      nothing for `undefined`, `null`, numbers and booleans. */
  function SpreadOf(v: Option<Value>): Fields
  {
    match v
    case Some(Obj(f)) => f
    case _ => map[]
  }

  /** JavaScript truthiness of a property that may be missing. */
  predicate Truthy(v: Option<Value>)
  {
    match v
    case None => false
    case Some(Null) => false
    case Some(Bool(b)) => b
    case Some(Num(n)) => n != 0.0
    case Some(Str(s)) => s != ""
    case Some(Stamp(_)) => true
    case Some(Arr(_)) => true
    case Some(Obj(_)) => true
  }

  /** `obj[key]`, with `None` for `undefined`. */
  function Get(f: Fields, key: string): Option<Value>
  {
    if key in f then Some(f[key]) else None
  }

  /** The WebSocket `readyState` values; `Code` gives the numeric constant. */
  datatype ReadyState = Connecting | Open | Closing | Closed
  {
    function Code(): (c: int)
      ensures 0 <= c <= 3
      ensures c == 1 <==> this == Open
    {
      match this
      case Connecting => 0
      case Open => 1
      case Closing => 2
      case Closed => 3
    }
  }

  /** The elements of a sequence, as a set. */
  function Elems<T>(s: seq<T>): set<T>
  {
    set x | x in s
  }

  /** No element occurs twice. */
  predicate NoDup<T(==)>(s: seq<T>)
  {
    forall i, j :: 0 <= i < j < |s| ==> s[i] != s[j]
  }

  /** A sequence without duplicates has as many elements as its set. */
  lemma {:induction false} NoDupCard<T>(s: seq<T>)
    requires NoDup(s)
    ensures |Elems(s)| == |s|
  {
    if s != [] {
      var t := s[..|s| - 1];
      assert NoDup(t);
      NoDupCard(t);
      assert Elems(s) == Elems(t) + {s[|s| - 1]};
      assert forall i :: 0 <= i < |t| ==> t[i] != s[|s| - 1];
    }
  }

  /** `s.filter(y => y !== x)`. */
  function Without<T(==)>(s: seq<T>, x: T): seq<T>
  {
    if s == [] then []
    else
      var last := s[|s| - 1];
      Without(s[..|s| - 1], x) + (if last == x then [] else [last])
  }

  /** The filter drops every occurrence of `x` and keeps every other element
      as often as it occurs. */
  lemma {:induction false} WithoutCount<T>(s: seq<T>, x: T)
    ensures multiset(Without(s, x))[x] == 0
    ensures forall y :: y != x ==> multiset(Without(s, x))[y] == multiset(s)[y]
  {
    if s != [] {
      var front, last := s[..|s| - 1], s[|s| - 1];
      assert s == front + [last];
      WithoutCount(front, x);
    }
  }

  /** Lists the elements of a finite set once each (the order is not specified,
      as the source's insertion order is not modelled). */
  method SetToSeq<T(==)>(xs: set<T>) returns (s: seq<T>)
    ensures Elems(s) == xs
    ensures NoDup(s)
  {
    s := [];
    var rest := xs;
    while rest != {}
      invariant Elems(s) + rest == xs
      invariant Elems(s) !! rest
      invariant NoDup(s)
      decreases rest
    {
      var x :| x in rest;
      s := s + [x];
      rest := rest - {x};
    }
  }
}
