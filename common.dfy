/** Helpers shared by the whole console model: nullable values, the JavaScript
    string operations the components rely on (truthiness, `trim`, `toLowerCase`,
    `includes`, `replace`, number-to-string), and the list operations a database
    query or a component's `filter`/`reduce` performs (filter, count, sum, update
    of matching rows, ORDER BY, LIMIT). */
module Common {

  /** A nullable column or an optional field. */
  datatype Option<+T> = None | Some(value: T) {
    function GetOr(default: T): T {
      match this
      case Some(v) => v
      case None => default
    }
  }

  // ---------------------------------------------------------------------------
  // JavaScript strings
  // ---------------------------------------------------------------------------

  /** JavaScript truthiness of a nullable string: null, undefined and "" are falsy. */
  predicate Truthy(s: Option<string>) {
    s.Some? && s.value != ""
  }

  /** `a || fallback` on a nullable string. */
  function OrElse(a: Option<string>, fallback: string): string {
    if Truthy(a) then a.value else fallback
  }

  /** The characters `String.prototype.trim` removes: ECMAScript white space and
      line terminators. */
  predicate IsJsWhitespace(c: char) {
    || c == ' ' || c == '\t' || c == '\n' || c == '\r'
    || c == '\U{000B}' || c == '\U{000C}' || c == '\U{00A0}' || c == '\U{1680}'
    || ('\U{2000}' <= c <= '\U{200A}')
    || c == '\U{2028}' || c == '\U{2029}' || c == '\U{202F}' || c == '\U{205F}'
    || c == '\U{3000}' || c == '\U{FEFF}'
  }

  function TrimStart(s: string): (r: string)
    ensures |r| <= |s| && r == s[|s| - |r|..]
    ensures r != [] ==> !IsJsWhitespace(r[0])
    ensures forall i :: 0 <= i < |s| - |r| ==> IsJsWhitespace(s[i])
  {
    if s != [] && IsJsWhitespace(s[0]) then TrimStart(s[1..]) else s
  }

  function TrimEnd(s: string): (r: string)
    ensures |r| <= |s| && r == s[..|r|]
    ensures r != [] ==> !IsJsWhitespace(r[|r| - 1])
    ensures forall i :: |r| <= i < |s| ==> IsJsWhitespace(s[i])
  {
    if s != [] && IsJsWhitespace(s[|s| - 1]) then TrimEnd(s[..|s| - 1]) else s
  }

  /** `s.trim()` */
  function Trim(s: string): string {
    TrimEnd(TrimStart(s))
  }

  /** `!s.trim()`: the text is empty once surrounding white space is removed. */
  predicate IsBlank(s: string) {
    Trim(s) == ""
  }

  /** A string is blank exactly when every character of it is white space. */
  lemma BlankIffAllWhitespace(s: string)
    ensures IsBlank(s) <==> forall i :: 0 <= i < |s| ==> IsJsWhitespace(s[i])
  {
    var t := TrimStart(s);
    if t != [] {
      assert !IsJsWhitespace(s[|s| - |t|]);
    }
  }

  /** `toLowerCase` on one character (ASCII letters only). */
  function LowerChar(c: char): (r: char)
    ensures 'A' <= c <= 'Z' ==> 'a' <= r <= 'z'
    ensures !('A' <= c <= 'Z') ==> r == c
  {
    if 'A' <= c <= 'Z' then (c as int + 32) as char else c
  }

  /** `toUpperCase` on one character (ASCII letters only). */
  function UpperChar(c: char): (r: char)
    ensures 'a' <= c <= 'z' ==> 'A' <= r <= 'Z'
    ensures !('a' <= c <= 'z') ==> r == c
  {
    if 'a' <= c <= 'z' then (c as int - 32) as char else c
  }

  /** `s.toLowerCase()` */
  function ToLower(s: string): (r: string)
    ensures |r| == |s|
    ensures forall i :: 0 <= i < |s| ==> r[i] == LowerChar(s[i])
  {
    if s == [] then [] else [LowerChar(s[0])] + ToLower(s[1..])
  }

  /** `s.startsWith(p)` */
  predicate StartsWith(s: string, p: string) {
    |p| <= |s| && s[..|p|] == p
  }

  /** `s.includes(sub)`: some suffix of `s` starts with `sub`. */
  predicate Contains(s: string, sub: string)
    decreases |s|
  {
    StartsWith(s, sub) || (s != [] && Contains(s[1..], sub))
  }

  /** Every string includes the empty string, and includes itself. */
  lemma ContainsEmptyAndSelf(s: string)
    ensures Contains(s, "") && Contains(s, s)
  {
    assert StartsWith(s, "") && StartsWith(s, s);
  }

  /** `sub` occurs in `s` starting at offset `k`. */
  predicate OccursAt(s: string, sub: string, k: int) {
    0 <= k <= |s| - |sub| && s[k..k + |sub|] == sub
  }

  /** `s.includes(sub)` holds exactly when `sub` occurs at some offset of `s`. */
  lemma {:induction false} ContainsAt(s: string, sub: string)
    ensures Contains(s, sub) <==> exists k :: OccursAt(s, sub, k)
    decreases |s|
  {
    if StartsWith(s, sub) {
      assert OccursAt(s, sub, 0);
    } else if s != [] {
      ContainsAt(s[1..], sub);
      if exists k :: OccursAt(s, sub, k) {
        var k :| OccursAt(s, sub, k);
        assert k != 0;
        assert s[1..][k - 1..k - 1 + |sub|] == s[k..k + |sub|];
        assert OccursAt(s[1..], sub, k - 1);
      }
      if exists k :: OccursAt(s[1..], sub, k) {
        var k :| OccursAt(s[1..], sub, k);
        assert s[k + 1..k + 1 + |sub|] == s[1..][k..k + |sub|];
        assert OccursAt(s, sub, k + 1);
      }
    } else {
      assert forall k :: !OccursAt(s, sub, k);
    }
  }

  /** `haystack.toLowerCase().includes(needle.toLowerCase())` */
  predicate ContainsIgnoreCase(haystack: string, needle: string) {
    Contains(ToLower(haystack), ToLower(needle))
  }

  /** `column ILIKE '%term%'` (ASCII case folding; the term's own `%` and `_`
      are taken literally). */
  predicate ILike(column: Option<string>, term: string) {
    column.Some? && ContainsIgnoreCase(column.value, term)
  }

  /** `s.replace(from, to)` with a one-character string pattern: only the first
      occurrence is replaced. */
  function ReplaceFirst(s: string, from: char, to: char): (r: string)
    ensures |r| == |s|
  {
    if s == [] then []
    else if s[0] == from then [to] + s[1..]
    else [s[0]] + ReplaceFirst(s[1..], from, to)
  }

  /** A character that occurs in a string has a first occurrence. */
  lemma {:induction false} FirstOccurrence(s: string, c: char) returns (k: int)
    requires c in s
    ensures 0 <= k < |s| && s[k] == c && c !in s[..k]
  {
    if s[0] == c {
      k := 0;
    } else {
      assert c in s[1..];
      var j := FirstOccurrence(s[1..], c);
      k := j + 1;
      assert s[..k] == [s[0]] + s[1..][..j];
    }
  }

  /** Without `from` the string is unchanged. */
  lemma {:induction false} ReplaceFirstAbsent(s: string, from: char, to: char)
    requires from !in s
    ensures ReplaceFirst(s, from, to) == s
  {
    if s != [] {
      assert from !in s[1..];
      ReplaceFirstAbsent(s[1..], from, to);
    }
  }

  /** `replace` changes exactly one character, the first occurrence of `from`;
      every later occurrence is kept. */
  lemma ReplaceFirstOnlyFirst(s: string, from: char, to: char)
    ensures from !in s ==> ReplaceFirst(s, from, to) == s
    ensures from in s ==> exists k :: 0 <= k < |s| && s[k] == from && from !in s[..k]
                                  && ReplaceFirst(s, from, to) == s[..k] + [to] + s[k + 1..]
  {
    if from !in s {
      ReplaceFirstAbsent(s, from, to);
    } else {
      var k := FirstOccurrence(s, from);
      assert s == s[..k] + [from] + s[k + 1..];
      ReplaceFirstAt(s[..k], s[k + 1..], from, to);
    }
  }

  /** Replacing in a string whose first `from` follows the prefix `a`. */
  lemma {:induction false} ReplaceFirstAt(a: string, b: string, from: char, to: char)
    requires from !in a
    ensures ReplaceFirst(a + [from] + b, from, to) == a + [to] + b
  {
    if a != [] {
      ReplaceFirstAt(a[1..], b, from, to);
      assert (a + [from] + b)[1..] == a[1..] + [from] + b;
    }
  }

  // ---------------------------------------------------------------------------
  // Numbers as text
  // ---------------------------------------------------------------------------

  predicate IsDigit(c: char) {
    '0' <= c <= '9'
  }

  function DigitChar(d: nat): (c: char)
    requires d < 10
    ensures IsDigit(c) && c as int - '0' as int == d
  {
    (d + '0' as int) as char
  }

  /** Decimal text of a natural number (`n.toString()`). */
  function NatToString(n: nat): (r: string)
    decreases n
  {
    if n < 10 then [DigitChar(n)] else NatToString(n / 10) + [DigitChar(n % 10)]
  }

  /** Decimal text of an integer (`String(n)`), with a leading '-' when negative. */
  function IntToString(n: int): string {
    if n < 0 then "-" + NatToString(-n) else NatToString(n)
  }

  function Pow10(k: nat): (p: nat)
    ensures p >= 1
  {
    if k == 0 then 1 else 10 * Pow10(k - 1)
  }

  /** The decimal text of `n` is made of digits, has no leading zero unless it is
      "0", and has exactly `k` characters when 10^(k-1) <= n < 10^k. */
  lemma {:induction false} NatToStringShape(n: nat, k: nat)
    requires 1 <= k && (k == 1 || Pow10(k - 1) <= n) && n < Pow10(k)
    ensures |NatToString(n)| == k
    ensures forall i :: 0 <= i < |NatToString(n)| ==> IsDigit(NatToString(n)[i])
    ensures n != 0 ==> NatToString(n)[0] != '0'
  {
    if n >= 10 {
      if k == 1 {
        assert false;
      }
      NatToStringShape(n / 10, k - 1);
      assert NatToString(n)[0] == NatToString(n / 10)[0];
    }
  }

  /** The number a string of digits denotes. */
  function DigitsValue(s: string): nat
    requires forall i :: 0 <= i < |s| ==> IsDigit(s[i])
  {
    if s == [] then 0
    else
      assert IsDigit(s[|s| - 1]);
      DigitsValue(s[..|s| - 1]) * 10 + (s[|s| - 1] as int - '0' as int)
  }

  /** Reading back the decimal text of a number gives the number. */
  lemma {:induction false} NatToStringRoundTrip(n: nat)
    ensures forall i :: 0 <= i < |NatToString(n)| ==> IsDigit(NatToString(n)[i])
    ensures DigitsValue(NatToString(n)) == n
  {
    if n >= 10 {
      NatToStringRoundTrip(n / 10);
      var s := NatToString(n);
      assert s[..|s| - 1] == NatToString(n / 10);
    }
  }

  /** `s.padStart(2, '0')` */
  function PadStart2(s: string): (r: string)
    ensures |s| >= 2 ==> r == s
    ensures |s| < 2 ==> |r| == 2
  {
    if |s| == 0 then "00" else if |s| == 1 then "0" + s else s
  }

  // ---------------------------------------------------------------------------
  // Integer arithmetic as JavaScript performs it
  // ---------------------------------------------------------------------------

  /** JavaScript `a % b` for b > 0: the remainder takes the sign of `a`
      (Dafny's `%` is Euclidean and never negative). `Math.floor(a / b)` for b > 0
      is Dafny's `a / b`. */
  function JsRem(a: int, b: int): (r: int)
    requires b > 0
    ensures a >= 0 ==> 0 <= r < b && r == a % b
    ensures a < 0 ==> -b < r <= 0
  {
    if a >= 0 then a % b else -((-a) % b)
  }

  // ---------------------------------------------------------------------------
  // Sequences: filter, count, sum, update, order, limit
  // ---------------------------------------------------------------------------

  /** `sub` can be obtained from `s` by deleting elements (order is kept). */
  predicate IsSubsequence<T(==)>(sub: seq<T>, s: seq<T>)
    decreases |s|
  {
    sub == [] || (s != [] && (if sub[0] == s[0] then IsSubsequence(sub[1..], s[1..])
                              else IsSubsequence(sub, s[1..])))
  }

  /** `s.filter(p)` or a WHERE clause: keeps exactly the elements satisfying `p`,
      in their original order. */
  function Filter<T(==)>(s: seq<T>, p: T -> bool): (r: seq<T>)
    ensures |r| <= |s|
    ensures forall i :: 0 <= i < |r| ==> r[i] in s && p(r[i])
    ensures forall i :: 0 <= i < |s| && p(s[i]) ==> s[i] in r
    ensures IsSubsequence(r, s)
  {
    if s == [] then []
    else if p(s[0]) then [s[0]] + Filter(s[1..], p)
    else Filter(s[1..], p)
  }

  /** `s.filter(p).length` */
  function Count<T(==)>(s: seq<T>, p: T -> bool): (n: nat)
    ensures n <= |s|
  {
    |Filter(s, p)|
  }

  /** Filtering distributes over concatenation. */
  lemma {:induction false} FilterConcat<T>(a: seq<T>, b: seq<T>, p: T -> bool)
    ensures Filter(a + b, p) == Filter(a, p) + Filter(b, p)
  {
    if a == [] {
      assert a + b == b;
    } else {
      var ab := a + b;
      assert ab[1..] == a[1..] + b;
      FilterConcat(a[1..], b, p);
      if p(a[0]) {
        calc {
          Filter(ab, p);
          [a[0]] + Filter(a[1..] + b, p);
          [a[0]] + (Filter(a[1..], p) + Filter(b, p));
          ([a[0]] + Filter(a[1..], p)) + Filter(b, p);
        }
      } else {
        assert Filter(ab, p) == Filter(a[1..] + b, p);
      }
    }
  }

  /** When every element satisfies `p`, filtering keeps them all. */
  lemma {:induction false} FilterAll<T>(s: seq<T>, p: T -> bool)
    requires forall i :: 0 <= i < |s| ==> p(s[i])
    ensures Filter(s, p) == s
  {
    if s != [] {
      FilterAll(s[1..], p);
    }
  }

  /** When no element satisfies `p`, filtering keeps none. */
  lemma {:induction false} FilterNone<T>(s: seq<T>, p: T -> bool)
    requires forall i :: 0 <= i < |s| ==> !p(s[i])
    ensures Filter(s, p) == []
  {
    if s != [] {
      FilterNone(s[1..], p);
    }
  }

  /** Filtering twice is filtering by the conjunction. */
  lemma {:induction false} FilterFilter<T>(s: seq<T>, p: T -> bool, q: T -> bool, pq: T -> bool)
    requires forall x :: pq(x) <==> p(x) && q(x)
    ensures Filter(Filter(s, p), q) == Filter(s, pq)
  {
    if s != [] {
      FilterFilter(s[1..], p, q, pq);
    }
  }

  /** When exactly one element satisfies `p`, filtering keeps exactly it. */
  lemma {:induction false} FilterOnlyOne<T>(s: seq<T>, p: T -> bool, k: int)
    requires 0 <= k < |s| && p(s[k])
    requires forall i :: 0 <= i < |s| && i != k ==> !p(s[i])
    ensures Filter(s, p) == [s[k]]
  {
    if k == 0 {
      assert Filter(s[1..], p) == [];
    } else {
      FilterOnlyOne(s[1..], p, k - 1);
    }
  }

  /** Counts of three pairwise exclusive conditions never add up to more than
      the number of elements. */
  lemma {:induction false} CountThreeExclusive<T>(s: seq<T>, p: T -> bool, q: T -> bool, r: T -> bool)
    requires forall x :: !(p(x) && q(x)) && !(p(x) && r(x)) && !(q(x) && r(x))
    ensures Count(s, p) + Count(s, q) + Count(s, r) <= |s|
  {
    if s != [] {
      CountThreeExclusive(s[1..], p, q, r);
    }
  }

  /** A condition and its negation split the elements: together the two
      filtered lists hold every element as often as the whole does. */
  lemma {:induction false} FilterSplit<T>(s: seq<T>, p: T -> bool, q: T -> bool)
    requires forall x :: q(x) <==> !p(x)
    ensures multiset(Filter(s, p)) + multiset(Filter(s, q)) == multiset(s)
  {
    if s != [] {
      var h, t := s[0], s[1..];
      FilterSplit(t, p, q);
      assert s == [h] + t;
      if p(h) {
        assert Filter(s, p) == [h] + Filter(t, p) && Filter(s, q) == Filter(t, q);
      } else {
        assert Filter(s, q) == [h] + Filter(t, q) && Filter(s, p) == Filter(t, p);
      }
    }
  }

  /** A condition and its negation split the elements exactly. */
  lemma {:induction false} CountComplement<T>(s: seq<T>, p: T -> bool, q: T -> bool)
    requires forall x :: q(x) <==> !p(x)
    ensures Count(s, p) + Count(s, q) == |s|
  {
    if s != [] {
      CountComplement(s[1..], p, q);
    }
  }

  /** `s.reduce((sum, x) => sum + f(x), 0)` */
  function SumOf<T>(s: seq<T>, f: T -> real): real {
    if s == [] then 0.0 else f(s[0]) + SumOf(s[1..], f)
  }

  /** Summation distributes over concatenation. */
  lemma {:induction false} SumOfConcat<T>(a: seq<T>, b: seq<T>, f: T -> real)
    ensures SumOf(a + b, f) == SumOf(a, f) + SumOf(b, f)
  {
    if a != [] {
      SumOfConcat(a[1..], b, f);
      assert (a + b)[0] == a[0] && (a + b)[1..] == a[1..] + b;
    } else {
      assert a + b == b;
    }
  }

  /** Taking one element out of a list leaves the others' total. */
  lemma SumOfRemove<T>(front: seq<T>, x: T, back: seq<T>, f: T -> real)
    ensures SumOf(front + [x] + back, f) == f(x) + SumOf(front + back, f)
  {
    SumOfConcat(front + [x], back, f);
    SumOfConcat(front, [x], f);
    SumOfConcat(front, back, f);
    assert SumOf([x], f) == f(x) + SumOf([x][1..], f);
  }

  /** A sum does not depend on the order of its terms. */
  lemma {:induction false} SumOfPermutation<T>(a: seq<T>, b: seq<T>, f: T -> real)
    requires multiset(a) == multiset(b)
    ensures SumOf(a, f) == SumOf(b, f)
  {
    if a == [] {
      assert |b| == |multiset(b)| == 0;
    } else {
      var x := a[0];
      assert x in multiset(b);
      var k :| 0 <= k < |b| && b[k] == x;
      var rest := b[..k] + b[k + 1..];
      assert b == b[..k] + [x] + b[k + 1..];
      assert a == [x] + a[1..];
      assert multiset(rest) == multiset(b) - multiset{x};
      assert multiset(a[1..]) == multiset(a) - multiset{x};
      SumOfPermutation(a[1..], rest, f);
      SumOfRemove(b[..k], x, b[k + 1..], f);
    }
  }

  /** Taking one element out of a list takes it out of the filtered list too. */
  lemma FilterRemove<T>(front: seq<T>, x: T, back: seq<T>, p: T -> bool)
    ensures multiset(Filter(front + [x] + back, p)) == multiset(Filter([x], p)) + multiset(Filter(front + back, p))
  {
    FilterConcat(front + [x], back, p);
    FilterConcat(front, [x], p);
    FilterConcat(front, back, p);
  }

  /** Filtering two orderings of the same elements keeps the same elements. */
  lemma {:induction false} FilterPermutation<T>(a: seq<T>, b: seq<T>, p: T -> bool)
    requires multiset(a) == multiset(b)
    ensures multiset(Filter(a, p)) == multiset(Filter(b, p))
  {
    if a == [] {
      assert |b| == |multiset(b)| == 0;
    } else {
      var x := a[0];
      assert x in multiset(b);
      var k :| 0 <= k < |b| && b[k] == x;
      var rest := b[..k] + b[k + 1..];
      assert b == b[..k] + [x] + b[k + 1..];
      assert a == [x] + a[1..];
      assert multiset(rest) == multiset(b) - multiset{x};
      assert multiset(a[1..]) == multiset(a) - multiset{x};
      FilterPermutation(a[1..], rest, p);
      FilterRemove(b[..k], x, b[k + 1..], p);
      FilterConcat([x], a[1..], p);
    }
  }

  /** UPDATE ... SET f WHERE p: every matching row is rewritten, the others are kept. */
  function UpdateWhere<T>(s: seq<T>, p: T -> bool, f: T -> T): (r: seq<T>)
    ensures |r| == |s|
    ensures forall i :: 0 <= i < |s| ==> r[i] == if p(s[i]) then f(s[i]) else s[i]
  {
    seq(|s|, i requires 0 <= i < |s| => if p(s[i]) then f(s[i]) else s[i])
  }

  /** LIMIT n */
  function Take<T>(s: seq<T>, n: nat): (r: seq<T>)
    ensures |r| <= n && |r| <= |s|
    ensures r == s[..|r|]
    ensures |s| <= n ==> r == s
  {
    if |s| <= n then s else s[..n]
  }

  // ---------------------------------------------------------------------------
  // ORDER BY on a nullable timestamp
  // ---------------------------------------------------------------------------

  datatype Direction = Asc | Desc

  /** Whether a row with key `a` may come before one with key `b` under
      ORDER BY ... ASC (NULL sorts last) or DESC (NULL sorts first), which is the
      database's default placement of NULL. */
  predicate Precedes(a: Option<int>, b: Option<int>, dir: Direction) {
    match dir
    case Asc => b.None? || (a.Some? && a.value <= b.value)
    case Desc => a.None? || (b.Some? && a.value >= b.value)
  }

  /** Each row may come before the next one. */
  predicate SortedBy<T>(s: seq<T>, key: T -> Option<int>, dir: Direction) {
    forall i :: 0 <= i < |s| - 1 ==> Precedes(key(s[i]), key(s[i + 1]), dir)
  }

  /** Any two keys can be ordered one way or the other. */
  lemma PrecedesTotal(a: Option<int>, b: Option<int>, dir: Direction)
    ensures Precedes(a, b, dir) || Precedes(b, a, dir)
  {
  }

  /** Places `x` into an already ordered sequence. */
  function InsertOrdered<T>(x: T, s: seq<T>, key: T -> Option<int>, dir: Direction): (r: seq<T>)
    requires SortedBy(s, key, dir)
    ensures SortedBy(r, key, dir)
    ensures multiset(r) == multiset(s) + multiset{x}
    ensures |r| == |s| + 1
    ensures r[0] == x || (s != [] && r[0] == s[0])
  {
    if s == [] then [x]
    else if Precedes(key(x), key(s[0]), dir) then [x] + s
    else
      PrecedesTotal(key(x), key(s[0]), dir);
      var rest := InsertOrdered(x, s[1..], key, dir);
      assert s == [s[0]] + s[1..];
      [s[0]] + rest
  }

  /** ORDER BY key ASC|DESC: a permutation of the rows ordered by the key. */
  function OrderBy<T>(s: seq<T>, key: T -> Option<int>, dir: Direction): (r: seq<T>)
    ensures SortedBy(r, key, dir)
    ensures multiset(r) == multiset(s)
    ensures |r| == |s|
  {
    if s == [] then []
    else
      assert s == [s[0]] + s[1..];
      InsertOrdered(s[0], OrderBy(s[1..], key, dir), key, dir)
  }

  /** The ordered rows are exactly the rows given. */
  lemma OrderByMembers<T>(s: seq<T>, key: T -> Option<int>, dir: Direction, x: T)
    ensures x in OrderBy(s, key, dir) <==> x in s
  {
    var r := OrderBy(s, key, dir);
    assert x in r <==> x in multiset(r);
    assert x in s <==> x in multiset(s);
  }

  /** The first `limit` rows of a filtered, ordered query all match and are
      stored; when no more than `limit` rows match, every matching row is
      among them. */
  lemma TopRowsSelection<T>(s: seq<T>, p: T -> bool, key: T -> Option<int>, dir: Direction, limit: nat, x: T)
    ensures x in Take(OrderBy(Filter(s, p), key, dir), limit) ==> x in s && p(x)
    ensures |Filter(s, p)| <= limit ==> (x in Take(OrderBy(Filter(s, p), key, dir), limit) <==> x in s && p(x))
  {
    var f := Filter(s, p);
    var o := OrderBy(f, key, dir);
    var top := Take(o, limit);
    OrderByMembers(f, key, dir, x);
    if x in top {
      var k :| 0 <= k < |top| && top[k] == x;
      assert o[k] == x;
      var j :| 0 <= j < |f| && f[j] == x;
    }
    if |f| <= limit && x in s && p(x) {
      var k :| 0 <= k < |s| && s[k] == x;
      assert s[k] in f;
    }
  }
}
