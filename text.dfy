/**
 * String operations with the semantics the dashboard scripts rely on:
 * JavaScript's indexOf, substring, replace, toUpperCase and Python's
 * `in`, split, join and strip. Strings are sequences of characters;
 * upper-casing covers ASCII letters only.
 */
module Text {

  /** `sub` occurs in `s` starting at index `i`. */
  predicate OccursAt(s: string, sub: string, i: nat) {
    i + |sub| <= |s| && s[i..i + |sub|] == sub
  }

  /** First index at or after `from` where `sub` occurs in `s`, or -1. */
  function IndexFrom(s: string, sub: string, from: nat): (r: int)
    ensures r == -1 || (from <= r && OccursAt(s, sub, r))
    ensures r == -1 ==> forall i :: from <= i ==> !OccursAt(s, sub, i)
    ensures r >= 0 ==> forall i :: from <= i < r ==> !OccursAt(s, sub, i)
    decreases |s| - from
  {
    if from + |sub| > |s| then -1
    else if s[from..from + |sub|] == sub then from
    else IndexFrom(s, sub, from + 1)
  }

  /** JavaScript's `s.indexOf(sub)` and Python's `s.find(sub)`. */
  function IndexOf(s: string, sub: string): (r: int)
    ensures r == -1 || (0 <= r && OccursAt(s, sub, r))
    ensures r == -1 <==> forall i :: 0 <= i ==> !OccursAt(s, sub, i)
    ensures r >= 0 ==> forall i :: 0 <= i < r ==> !OccursAt(s, sub, i)
  {
    IndexFrom(s, sub, 0)
  }

  /** Python's `sub in s`. */
  predicate Contains(s: string, sub: string) {
    IndexOf(s, sub) >= 0
  }

  lemma ContainsAt(s: string, sub: string, i: nat)
    requires OccursAt(s, sub, i)
    ensures Contains(s, sub)
  {
  }

  /** An occurrence inside a slice is an occurrence in the whole string. */
  lemma OccursInSlice(s: string, sub: string, a: nat, b: nat, j: nat)
    requires a <= b <= |s|
    requires OccursAt(s[a..b], sub, j)
    ensures OccursAt(s, sub, a + j)
  {
    assert j + |sub| <= b - a;
    forall k | 0 <= k < |sub|
      ensures s[a + j..a + j + |sub|][k] == sub[k]
    {
      assert s[a..b][j..j + |sub|][k] == sub[k];
    }
  }

  predicate StartsWith(s: string, prefix: string) {
    |prefix| <= |s| && s[..|prefix|] == prefix
  }

  /** Each character of an occurrence is the matching character of `sub`. */
  lemma OccursChar(s: string, sub: string, i: nat, p: nat)
    requires OccursAt(s, sub, i) && i <= p < i + |sub|
    ensures s[p] == sub[p - i]
  {
    assert s[i..i + |sub|][p - i] == s[p];
  }

  /** An occurrence that ends within `x` is an occurrence in `x`. */
  lemma OccursLeft(x: string, y: string, sub: string, i: nat)
    requires OccursAt(x + y, sub, i) && i + |sub| <= |x|
    ensures OccursAt(x, sub, i)
  {
    assert (x + y)[i..i + |sub|] == x[i..i + |sub|];
  }

  /** An occurrence that starts after `x` is an occurrence in `y`. */
  lemma OccursRight(x: string, y: string, sub: string, i: nat)
    requires OccursAt(x + y, sub, i) && |x| <= i
    ensures OccursAt(y, sub, i - |x|)
  {
    assert (x + y)[i..i + |sub|] == y[i - |x|..i - |x| + |sub|];
  }

  /** A string without the first character of `sub` does not contain `sub`. */
  lemma NoFirstChar(s: string, sub: string)
    requires |sub| > 0 && forall k :: 0 <= k < |s| ==> s[k] != sub[0]
    ensures !Contains(s, sub)
  {
    if Contains(s, sub) {
      OccursChar(s, sub, IndexOf(s, sub), IndexOf(s, sub));
    }
  }

  /** An occurrence in the left part is an occurrence in the concatenation. */
  lemma ContainsConcatLeft(x: string, y: string, sub: string)
    requires Contains(x, sub)
    ensures Contains(x + y, sub)
  {
    var i := IndexOf(x, sub);
    assert (x + y)[i..i + |sub|] == x[i..i + |sub|];
    ContainsAt(x + y, sub, i);
  }

  /** An occurrence in the right part is an occurrence in the concatenation. */
  lemma ContainsConcatRight(x: string, y: string, sub: string)
    requires Contains(y, sub)
    ensures Contains(x + y, sub)
  {
    var i := IndexOf(y, sub);
    assert (x + y)[|x| + i..|x| + i + |sub|] == y[i..i + |sub|];
    ContainsAt(x + y, sub, |x| + i);
  }

  /** An occurrence in either part is an occurrence in the concatenation. */
  lemma ContainsConcat(x: string, y: string, sub: string)
    ensures Contains(x, sub) ==> Contains(x + y, sub)
    ensures Contains(y, sub) ==> Contains(x + y, sub)
  {
    if Contains(x, sub) {
      ContainsConcatLeft(x, y, sub);
    }
    if Contains(y, sub) {
      ContainsConcatRight(x, y, sub);
    }
  }

  /**
   * Joining two strings that lack `sub` with a character `sub` lacks
   * cannot create `sub`.
   */
  lemma NotContainsAcross(x: string, c: char, y: string, sub: string)
    requires c !in sub && !Contains(x, sub) && !Contains(y, sub)
    ensures !Contains(x + [c] + y, sub)
  {
    var s := x + [c] + y;
    if Contains(s, sub) {
      var i := IndexOf(s, sub);
      assert s == x + ([c] + y);
      if i + |sub| <= |x| {
        OccursLeft(x, [c] + y, sub, i);
      } else if i <= |x| {
        OccursChar(s, sub, i, |x|);
      } else {
        OccursRight(x + [c], y, sub, i);
      }
    }
  }

  /** An occurrence with no earlier copy of `sub`'s first character is the first one. */
  lemma IndexOfFirstChar(s: string, sub: string, i: nat)
    requires |sub| > 0 && OccursAt(s, sub, i)
    requires forall j :: 0 <= j < i ==> s[j] != sub[0]
    ensures IndexOf(s, sub) == i
  {
    var r := IndexOf(s, sub);
    if r < i {
      OccursChar(s, sub, r, r);
    }
  }

  /** Python's `sep.join(parts)`. */
  function Join(parts: seq<string>, sep: string): string {
    if |parts| == 0 then ""
    else if |parts| == 1 then parts[0]
    else parts[0] + sep + Join(parts[1..], sep)
  }

  /** Python's `s.split(sep)` for a non-empty separator. */
  function Split(s: string, sep: string): (parts: seq<string>)
    requires |sep| > 0
    ensures |parts| >= 1
    ensures Join(parts, sep) == s
    ensures forall k :: 0 <= k < |parts| ==> !Contains(parts[k], sep)
    decreases |s|
  {
    var i := IndexOf(s, sep);
    if i < 0 then [s]
    else
      var head, rest := s[..i], Split(s[i + |sep|..], sep);
      assert !Contains(head, sep) by {
        if Contains(head, sep) {
          OccursInSlice(s, sep, 0, i, IndexOf(head, sep));
        }
      }
      assert s == head + sep + s[i + |sep|..];
      assert ([head] + rest)[1..] == rest;
      [head] + rest
  }

  /** A string that contains the separator splits into at least two parts. */
  lemma SplitContains(s: string, sep: string)
    requires |sep| > 0 && Contains(s, sep)
    ensures |Split(s, sep)| >= 2
  {
  }

  /**
   * Two occurrences of a separator that cannot overlap itself (its first
   * character occurs nowhere else in it) give at least three parts.
   */
  lemma SplitTwoOccurrences(s: string, sep: string, i: nat, j: nat)
    requires |sep| > 0 && forall k :: 0 < k < |sep| ==> sep[k] != sep[0]
    requires i < j && OccursAt(s, sep, i) && OccursAt(s, sep, j)
    ensures |Split(s, sep)| >= 3
  {
    ContainsAt(s, sep, i);
    var first := IndexOf(s, sep);
    assert first <= i;
    assert j >= first + |sep| by {
      if j < first + |sep| {
        OccursChar(s, sep, j, j);
        OccursChar(s, sep, first, j);
      }
    }
    var rest := s[first + |sep|..];
    assert rest[j - first - |sep|..j - first] == s[j..j + |sep|];
    ContainsAt(rest, sep, j - first - |sep|);
    SplitContains(rest, sep);
  }

  /** Splitting at the first separator. */
  lemma SplitFirst(s: string, sep: string, i: nat)
    requires |sep| > 0 && IndexOf(s, sep) == i
    ensures Split(s, sep) == [s[..i]] + Split(s[i + |sep|..], sep)
  {
  }

  /** A one-character separator after a field free of it splits off that field. */
  lemma SplitAfter(a: string, b: string, sep: string)
    requires |sep| == 1 && !Contains(a, sep)
    ensures Split(a + sep + b, sep) == [a] + Split(b, sep)
  {
    var s := a + sep + b;
    assert OccursAt(s, sep, |a|) by { assert s[|a|..|a| + 1] == sep; }
    var r := IndexOf(s, sep);
    if r < |a| {
      assert s[..|a|] == a;
      OccursLeft(a, sep + b, sep, r);
      ContainsAt(a, sep, r);
    }
    assert s[..|a|] == a && s[|a| + 1..] == b;
    SplitFirst(s, sep, |a|);
  }

  /** The first field of a split is the text before the first separator. */
  lemma SplitHead(s: string, sep: string)
    requires |sep| > 0
    ensures var head := Split(s, sep)[0];
      && StartsWith(s, head) && !Contains(head, sep)
      && (|head| < |s| ==> StartsWith(s[|head|..], sep))
  {
    var parts := Split(s, sep);
    if |parts| > 1 {
      assert s == parts[0] + sep + Join(parts[1..], sep);
      assert s[..|parts[0]|] == parts[0];
      assert s[|parts[0]|..][..|sep|] == sep;
    }
  }

  /** A string without the separator splits into itself. */
  lemma SplitNone(s: string, sep: string)
    requires |sep| > 0 && !Contains(s, sep)
    ensures Split(s, sep) == [s]
  {
  }

  /** Joining a non-empty list behind a field puts one separator between them. */
  lemma JoinCons(head: string, rest: seq<string>, sep: string)
    requires rest != []
    ensures Join([head] + rest, sep) == head + sep + Join(rest, sep)
  {
    assert ([head] + rest)[1..] == rest;
  }

  /** Joining two non-empty lists is joining each, with one separator between. */
  lemma {:induction false} JoinConcat(a: seq<string>, b: seq<string>, sep: string)
    requires a != [] && b != []
    ensures Join(a + b, sep) == Join(a, sep) + sep + Join(b, sep)
  {
    if |a| == 1 {
      JoinCons(a[0], b, sep);
      assert a + b == [a[0]] + b;
    } else {
      JoinConcat(a[1..], b, sep);
      assert (a + b)[1..] == a[1..] + b;
    }
  }

  /**
   * Splitting undoes joining: fields free of a one-character separator,
   * joined with it, split back into the same fields.
   */
  lemma {:induction false} SplitJoin(parts: seq<string>, sep: string)
    requires |sep| == 1 && |parts| >= 1
    requires forall k :: 0 <= k < |parts| ==> !Contains(parts[k], sep)
    ensures Split(Join(parts, sep), sep) == parts
  {
    if |parts| == 1 {
      SplitNone(parts[0], sep);
    } else {
      SplitJoin(parts[1..], sep);
      SplitAfter(parts[0], Join(parts[1..], sep), sep);
      assert [parts[0]] + parts[1..] == parts;
    }
  }

  /** `s` without its leading characters that satisfy `drop`. */
  function StripLeft(s: string, drop: char -> bool): (r: string)
    ensures |r| <= |s| && r == s[|s| - |r|..]
    ensures r == [] || !drop(r[0])
    ensures forall k :: 0 <= k < |s| - |r| ==> drop(s[k])
    decreases |s|
  {
    if |s| > 0 && drop(s[0]) then StripLeft(s[1..], drop) else s
  }

  /** `s` without its trailing characters that satisfy `drop`. */
  function StripRight(s: string, drop: char -> bool): (r: string)
    ensures |r| <= |s| && r == s[..|r|]
    ensures r == [] || !drop(r[|r| - 1])
    ensures forall k :: |r| <= k < |s| ==> drop(s[k])
    decreases |s|
  {
    if |s| > 0 && drop(s[|s| - 1]) then StripRight(s[..|s| - 1], drop) else s
  }

  /** StripRight stops at the last character `drop` keeps. */
  lemma {:induction false} StripRightTo(s: string, t: string, drop: char -> bool)
    requires |t| <= |s| && s[..|t|] == t && (t == [] || !drop(t[|t| - 1]))
    requires forall k :: |t| <= k < |s| ==> drop(s[k])
    ensures StripRight(s, drop) == t
    decreases |s|
  {
    if |s| > |t| {
      assert s[..|s| - 1][..|t|] == t;
      StripRightTo(s[..|s| - 1], t, drop);
    } else {
      assert s == t;
    }
  }

  /** StripLeft stops at the first character `drop` keeps. */
  lemma {:induction false} StripLeftTo(s: string, t: string, drop: char -> bool)
    requires |t| <= |s| && s[|s| - |t|..] == t && (t == [] || !drop(t[0]))
    requires forall k :: 0 <= k < |s| - |t| ==> drop(s[k])
    ensures StripLeft(s, drop) == t
    decreases |s|
  {
    if |s| > |t| {
      assert s[1..][|s| - 1 - |t|..] == t;
      StripLeftTo(s[1..], t, drop);
    } else {
      assert s == t;
    }
  }

  /**
   * `r` is `s` with some leading and some trailing characters removed, all
   * of them in `chars`.
   */
  predicate Trimmed(s: string, r: string, chars: set<char>) {
    exists a, b :: (0 <= a <= b <= |s| && r == s[a..b]
      && (forall k :: 0 <= k < a ==> s[k] in chars)
      && (forall k :: b <= k < |s| ==> s[k] in chars))
  }

  /**
   * A prefix `u` of a suffix `t` of `s`, with only characters of `chars`
   * cut off and none at the ends of what is left, is `s` trimmed.
   */
  lemma SliceBetween(s: string, t: string, u: string, chars: set<char>)
    requires |t| <= |s| && t == s[|s| - |t|..] && forall k :: 0 <= k < |s| - |t| ==> s[k] in chars
    requires |u| <= |t| && u == t[..|u|] && forall k :: |u| <= k < |t| ==> t[k] in chars
    requires (t == [] || t[0] !in chars) && (u == [] || u[|u| - 1] !in chars)
    ensures u == [] || (u[0] !in chars && u[|u| - 1] !in chars)
    ensures Trimmed(s, u, chars)
  {
    assert u == [] || u[0] == t[0];
    var a := |s| - |t|;
    var b := a + |u|;
    assert u == s[a..b];
    forall k | b <= k < |s| ensures s[k] in chars {
      assert t[k - a] == s[k];
    }
  }

  /**
   * Python's `s.strip(chars)`: `chars` is a set of characters, not a
   * suffix. The result is `s` trimmed of its leading and trailing
   * characters in `chars`, and neither starts nor ends with one of them.
   */
  function Strip(s: string, chars: set<char>): (r: string)
    ensures r == [] || (r[0] !in chars && r[|r| - 1] !in chars)
    ensures Trimmed(s, r, chars)
  {
    var drop := c => c in chars;
    var t := StripLeft(s, drop);
    var u := StripRight(t, drop);
    SliceBetween(s, t, u, chars);
    u
  }

  /** The number of occurrences of character `c` in `s`. */
  function Count(s: string, c: char): nat {
    if s == [] then 0 else Count(s[..|s| - 1], c) + (if s[|s| - 1] == c then 1 else 0)
  }

  lemma {:induction false} CountConcat(a: string, b: string, c: char)
    ensures Count(a + b, c) == Count(a, c) + Count(b, c)
    decreases |b|
  {
    if b != [] {
      assert (a + b)[..|a + b| - 1] == a + b[..|b| - 1];
      CountConcat(a, b[..|b| - 1], c);
    } else {
      assert a + b == a;
    }
  }

  lemma {:induction false} CountAbsent(s: string, c: char)
    requires c !in s
    ensures Count(s, c) == 0
  {
    if s != [] {
      assert forall k :: 0 <= k < |s| - 1 ==> s[..|s| - 1][k] == s[k];
      CountAbsent(s[..|s| - 1], c);
    }
  }

  function UpperChar(c: char): char {
    if 'a' <= c <= 'z' then (c as int - 32) as char else c
  }

  /** `s.toUpperCase()` (ASCII letters). */
  function Upper(s: string): (r: string)
    ensures |r| == |s|
  {
    seq(|s|, i requires 0 <= i < |s| => UpperChar(s[i]))
  }

  /** `s.charAt(0).toUpperCase() + s.slice(1)`. */
  function Cap(s: string): (r: string)
    ensures |r| == |s|
  {
    if s == [] then [] else [UpperChar(s[0])] + s[1..]
  }

  /** JavaScript's `s.replace(pat, rep)` with a string pattern: only the first occurrence. */
  function ReplaceFirst(s: string, pat: string, rep: string): string {
    var i := IndexOf(s, pat);
    if i < 0 then s else s[..i] + rep + s[i + |pat|..]
  }

  /** `cap` changes at most the first character: a capitalised string is its own capital. */
  lemma CapFixed(s: string)
    ensures Cap(s) == s <==> s == [] || !('a' <= s[0] <= 'z')
    ensures Cap(Cap(s)) == Cap(s)
  {
    if s != [] && 'a' <= s[0] <= 'z' {
      assert Cap(s)[0] != s[0];
    }
  }

  /** Removing the first `x` takes away one `x` when there is one, and no other character. */
  lemma ReplaceFirstCount(s: string, x: char, y: char)
    ensures Count(ReplaceFirst(s, [x], ""), y) == Count(s, y) - (if y == x && Count(s, x) > 0 then 1 else 0)
  {
    var i := IndexOf(s, [x]);
    if i < 0 {
      forall k | 0 <= k < |s| ensures s[k] != x {
        assert !OccursAt(s, [x], k);
        assert s[k..k + 1] == [s[k]];
      }
      CountAbsent(s, x);
    } else {
      assert s[i..i + 1] == [x];
      var a, b := s[..i], s[i + 1..];
      assert s == a + [x] + b;
      assert ReplaceFirst(s, [x], "") == a + b;
      CountRemoveOne(a, x, b, y);
      CountRemoveOne(a, x, b, x);
    }
  }

  /** Taking one `x` out from between `a` and `b` takes one `x` off the count, and nothing else. */
  lemma CountRemoveOne(a: string, x: char, b: string, y: char)
    ensures Count(a + [x] + b, y) == Count(a + b, y) + (if y == x then 1 else 0)
  {
    CountConcat(a + [x], b, y);
    CountConcat(a, [x], y);
    CountConcat(a, b, y);
    assert [x][..0] == [];
    assert Count([x], y) == (if x == y then 1 else 0);
  }

  /** The characters JavaScript's regular-expression class `\s` matches. */
  predicate IsJsSpace(c: char) {
    var n := c as int;
    n == 9 || n == 10 || n == 11 || n == 12 || n == 13 || n == 32 || n == 0xA0 || n == 0x1680
    || (0x2000 <= n <= 0x200A) || n == 0x2028 || n == 0x2029 || n == 0x202F || n == 0x205F
    || n == 0x3000 || n == 0xFEFF
  }

  /** `s.replace(/\s+/g, '')`. */
  function RemoveSpaces(s: string): string {
    if s == [] then []
    else RemoveSpaces(s[..|s| - 1]) + (if IsJsSpace(s[|s| - 1]) then [] else [s[|s| - 1]])
  }

  /** `s.replace(/\s+/g, '')` keeps every other character, as often as it occurs, and no white space. */
  lemma {:induction false} RemoveSpacesCount(s: string, c: char)
    ensures Count(RemoveSpaces(s), c) == if IsJsSpace(c) then 0 else Count(s, c)
  {
    if s != [] {
      var init, last := s[..|s| - 1], s[|s| - 1];
      RemoveSpacesCount(init, c);
      CountConcat(RemoveSpaces(init), if IsJsSpace(last) then [] else [last], c);
      assert [last][..0] == [];
    }
  }

  /** JavaScript's `s.trim()`. */
  function Trim(s: string): string {
    StripRight(StripLeft(s, IsJsSpace), IsJsSpace)
  }

  function Clamp(x: int, n: nat): nat {
    if x < 0 then 0 else if x > n then n else x
  }

  /** JavaScript's `s.substring(start, end)`: both bounds clamped, swapped when reversed. */
  function Substring(s: string, start: int, end: int): string {
    var a, b := Clamp(start, |s|), Clamp(end, |s|);
    if a <= b then s[a..b] else s[b..a]
  }

  /** Comparing the first |p| characters with `p` is testing for the prefix `p`. */
  lemma SubstringStart(s: string, p: string)
    ensures Substring(s, 0, |p|) == p <==> StartsWith(s, p)
  {
    if |p| > |s| {
      assert |Substring(s, 0, |p|)| == |s|;
    }
  }

  function DigitChar(d: nat): char
    requires d < 10
  {
    ('0' as int + d) as char
  }

  /** Decimal rendering of a natural number, as JavaScript's string concatenation does. */
  function NatToString(n: nat): string
    decreases n
  {
    if n < 10 then [DigitChar(n)] else NatToString(n / 10) + [DigitChar(n % 10)]
  }
}
