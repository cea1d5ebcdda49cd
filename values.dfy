/**
 * Loaded records. A record is a JSON object or a CSV row: a map from field
 * name to value. JavaScript `undefined` (a field that is absent) is `Undef`;
 * a derived ratio field is kept as the pair of operand values it was
 * computed from, not as a floating-point number.
 */
module Values {
  import opened Wrappers
  import opened Text

  datatype Value =
    | Undef
    | Null
    | Bool(b: bool)
    | Num(x: real)
    | Str(s: string)
    | Date(ms: int)                  // a JavaScript Date: milliseconds since 1970-01-01T00:00Z
    | Quot(num: Value, den: Value)   // the value of `num / den` at the time it was computed

  type Record = map<string, Value>

  /** JavaScript's `r[k]`: undefined when the field is absent. */
  function Get(r: Record, k: string): Value {
    if k in r then r[k] else Undef
  }

  predicate IsDigit(c: char) {
    '0' <= c <= '9'
  }

  predicate AllDigits(d: string) {
    forall i :: 0 <= i < |d| ==> IsDigit(d[i])
  }

  function DigitsValue(d: string): nat
    requires AllDigits(d)
  {
    if d == [] then 0 else 10 * DigitsValue(d[..|d| - 1]) + (d[|d| - 1] as int - '0' as int)
  }

  /**
   * JavaScript's numeric conversion of a string (`+s`) restricted to
   * integer literals: surrounding white space is ignored, the empty string
   * is 0, and anything that is not an optionally signed run of digits is NaN (None).
   */
  function StrToNumber(s: string): Option<real> {
    var t := Trim(s);
    if t == "" then Some(0.0)
    else if (t[0] == '-' || t[0] == '+') && |t| > 1 && AllDigits(t[1..]) then
      var m := DigitsValue(t[1..]) as real;
      Some(if t[0] == '-' then -m else m)
    else if AllDigits(t) then Some(DigitsValue(t) as real)
    else None
  }

  /** JavaScript's numeric conversion (`+v`), None standing for NaN. */
  function ToNumber(v: Value): Option<real> {
    match v
    case Undef => None
    case Null => Some(0.0)
    case Bool(b) => Some(if b then 1.0 else 0.0)
    case Num(x) => Some(x)
    case Str(s) => StrToNumber(s)
    case Date(ms) => Some(ms as real)
    case Quot(a, b) =>
      var na, nb := ToNumber(a), ToNumber(b);
      if na.Some? && nb.Some? && nb.value != 0.0 then Some(na.value / nb.value) else None
  }

  /**
   * JavaScript truthiness. A quotient `a / b` of two numbers is falsy
   * exactly when it is 0 or NaN, that is when `a` is 0 or either operand is NaN.
   */
  predicate Truthy(v: Value) {
    match v
    case Undef => false
    case Null => false
    case Bool(b) => b
    case Num(x) => x != 0.0
    case Str(s) => s != ""
    case Date(_) => true
    case Quot(a, b) => ToNumber(a).Some? && ToNumber(b).Some? && ToNumber(a).value != 0.0
  }

  /** JavaScript's loose equality `v == s` against a string. */
  predicate LooseEqualsString(v: Value, s: string) {
    match v
    case Str(t) => t == s
    case Num(_) => ToNumber(Str(s)).Some? && ToNumber(v) == ToNumber(Str(s))
    case Bool(_) => ToNumber(Str(s)).Some? && ToNumber(v) == ToNumber(Str(s))
    case _ => false
  }

  /** Order-preserving filter, as `Array.prototype.filter` and Python 2's `filter`. */
  function Filter<T>(s: seq<T>, p: T -> bool): (r: seq<T>)
    ensures |r| <= |s|
    ensures forall x :: x in r ==> x in s && p(x)
  {
    if s == [] then []
    else Filter(s[..|s| - 1], p) + (if p(s[|s| - 1]) then [s[|s| - 1]] else [])
  }

  /** The indices of `s` whose elements satisfy `p`, in increasing order. */
  function KeptIndices<T>(s: seq<T>, p: T -> bool): seq<nat> {
    if s == [] then []
    else KeptIndices(s[..|s| - 1], p) + (if p(s[|s| - 1]) then [|s| - 1] else [])
  }

  /** Every kept index is an index of `s` whose element satisfies `p`, and they increase. */
  lemma {:induction false} KeptIndicesValid<T>(s: seq<T>, p: T -> bool)
    ensures forall k :: 0 <= k < |KeptIndices(s, p)| ==> KeptIndices(s, p)[k] < |s| && p(s[KeptIndices(s, p)[k]])
    ensures forall k, l :: 0 <= k < l < |KeptIndices(s, p)| ==> KeptIndices(s, p)[k] < KeptIndices(s, p)[l]
  {
    if s != [] {
      var init := s[..|s| - 1];
      KeptIndicesValid(init, p);
      var ix0 := KeptIndices(init, p);
      var ix := KeptIndices(s, p);
      assert ix == ix0 + (if p(s[|s| - 1]) then [|s| - 1] else []);
      forall k | 0 <= k < |ix| ensures ix[k] < |s| && p(s[ix[k]]) {
        if k < |ix0| {
          assert ix[k] == ix0[k];
          assert s[ix[k]] == init[ix0[k]];
        } else {
          assert ix[k] == |s| - 1;
        }
      }
      forall k, l | 0 <= k < l < |ix| ensures ix[k] < ix[l] {
        assert ix[k] == ix0[k] && ix0[k] < |init|;
        if l < |ix0| {
          assert ix[l] == ix0[l];
        } else {
          assert ix[l] == |s| - 1;
        }
      }
    }
  }

  /** Every index whose element satisfies `p` is kept. */
  lemma {:induction false} KeptIndicesComplete<T>(s: seq<T>, p: T -> bool, i: nat)
    requires i < |s| && p(s[i])
    ensures i in KeptIndices(s, p)
  {
    var init := s[..|s| - 1];
    if i < |init| {
      assert init[i] == s[i];
      KeptIndicesComplete(init, p, i);
    }
  }

  /**
   * What an order-preserving filter is: the result lists, in increasing
   * index order, exactly the elements at the indices that satisfy `p`.
   */
  lemma {:induction false} FilterExact<T>(s: seq<T>, p: T -> bool)
    ensures var r, ix := Filter(s, p), KeptIndices(s, p);
      && |r| == |ix|
      && (forall k :: 0 <= k < |ix| ==> ix[k] < |s| && r[k] == s[ix[k]] && p(s[ix[k]]))
      && (forall k, l :: 0 <= k < l < |ix| ==> ix[k] < ix[l])
      && (forall i :: 0 <= i < |s| && p(s[i]) ==> i in ix)
  {
    KeptIndicesValid(s, p);
    forall i | 0 <= i < |s| && p(s[i]) ensures i in KeptIndices(s, p) {
      KeptIndicesComplete(s, p, i);
    }
    FilterAtKept(s, p);
  }

  lemma {:induction false} FilterAtKept<T>(s: seq<T>, p: T -> bool)
    ensures var r, ix := Filter(s, p), KeptIndices(s, p);
      |r| == |ix| && forall k :: 0 <= k < |ix| ==> ix[k] < |s| && r[k] == s[ix[k]]
  {
    if s != [] {
      var init := s[..|s| - 1];
      FilterAtKept(init, p);
      var r, ix := Filter(s, p), KeptIndices(s, p);
      var r0, ix0 := Filter(init, p), KeptIndices(init, p);
      forall k | 0 <= k < |ix| ensures ix[k] < |s| && r[k] == s[ix[k]] {
        if k < |ix0| {
          assert r[k] == r0[k] && ix[k] == ix0[k];
          assert init[ix0[k]] == s[ix0[k]];
        }
      }
    }
  }

  /** A filter that meets an element failing the test is shorter than its input. */
  lemma {:induction false} FilterDrops<T>(s: seq<T>, p: T -> bool, j: nat)
    requires j < |s| && !p(s[j])
    ensures |Filter(s, p)| < |s|
  {
    var init := s[..|s| - 1];
    if j < |init| {
      assert init[j] == s[j];
      FilterDrops(init, p, j);
    }
  }

  /** A filter keeps every element when all satisfy the test. */
  lemma {:induction false} FilterAll<T>(s: seq<T>, p: T -> bool)
    requires forall i :: 0 <= i < |s| ==> p(s[i])
    ensures Filter(s, p) == s
  {
    if s != [] {
      var init, last := s[..|s| - 1], s[|s| - 1];
      assert s == init + [last];
      forall i | 0 <= i < |init| ensures p(init[i]) {
        assert init[i] == s[i];
      }
      FilterAll(init, p);
      assert Filter(s, p) == Filter(init, p) + [last];
    }
  }

  /** A filter keeps every element when all satisfy the test, and only then. */
  lemma FilterKeepsAll<T>(s: seq<T>, p: T -> bool)
    ensures Filter(s, p) == s <==> forall i :: 0 <= i < |s| ==> p(s[i])
  {
    if forall i :: 0 <= i < |s| ==> p(s[i]) {
      FilterAll(s, p);
    } else {
      var j :| 0 <= j < |s| && !p(s[j]);
      FilterDrops(s, p, j);
    }
  }

  /**
   * `dst` after copying every field of `src` whose name is not in `skip`,
   * overwriting fields of the same name: no field of `dst` is removed.
   */
  function Overlay<K, V>(dst: map<K, V>, src: map<K, V>, skip: set<K>): (r: map<K, V>)
    ensures r.Keys == dst.Keys + (src.Keys - skip)
    ensures forall k :: k in src && k !in skip ==> r[k] == src[k]
    ensures forall k :: k in dst && (k !in src || k in skip) ==> r[k] == dst[k]
  {
    dst + map k | k in src.Keys - skip :: src[k]
  }

  /**
   * The field-copy loop the scripts share: Python's
   * `for k in src: if k not in skip: dst[k] = src[k]` and JavaScript's
   * `for (var k in src) dst[k] = src[k]`.
   */
  method CopyFields<K, V>(dst: map<K, V>, src: map<K, V>, skip: set<K>)
    returns (r: map<K, V>)
    ensures r == Overlay(dst, src, skip)
  {
    r := dst;
    var todo := src.Keys;
    while todo != {}
      invariant todo <= src.Keys
      invariant r.Keys == dst.Keys + ((src.Keys - todo) - skip)
      invariant forall k :: k in src.Keys - todo && k !in skip ==> r[k] == src[k]
      invariant forall k :: k in dst && (k in todo || k !in src || k in skip) ==> r[k] == dst[k]
      decreases todo
    {
      var k :| k in todo;
      if k !in skip {
        r := r[k := src[k]];
      }
      todo := todo - {k};
    }
  }
}
