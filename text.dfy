/**
 * The pieces of Go's `strings` and `strconv` packages the core relies on,
 * over strings as sequences of characters. Lengths count characters, which
 * agrees with Go's byte lengths for ASCII text.
 */
module Text {
  import opened Wrappers

  /** strings.HasPrefix. */
  predicate HasPrefix(s: string, p: string) { p <= s }

  /** strings.HasSuffix. */
  predicate HasSuffix(s: string, p: string) { |p| <= |s| && s[|s| - |p|..] == p }

  /** `sub` occurs in `s` starting at index `i`. */
  predicate OccursAt(s: string, sub: string, i: int) {
    0 <= i <= |s| - |sub| && s[i..i + |sub|] == sub
  }

  /** strings.Contains. */
  predicate Contains(s: string, sub: string) {
    exists i | 0 <= i <= |s| - |sub| :: OccursAt(s, sub, i)
  }

  /** strings.TrimPrefix: drops `p` from the front when it is there. */
  function TrimPrefix(s: string, p: string): (r: string)
    ensures HasPrefix(s, p) ==> p + r == s
    ensures !HasPrefix(s, p) ==> r == s
  {
    if p <= s then s[|p|..] else s
  }

  /** strings.TrimSuffix: drops `p` from the end when it is there. */
  function TrimSuffix(s: string, p: string): (r: string)
    ensures HasSuffix(s, p) ==> r + p == s
    ensures !HasSuffix(s, p) ==> r == s
  {
    if HasSuffix(s, p) then s[..|s| - |p|] else s
  }

  /** strings.Count with a one-character separator. */
  function CountChar(s: string, c: char): (n: nat)
    ensures n <= |s|
    ensures n == 0 <==> c !in s
  {
    if s == [] then 0 else (if s[0] == c then 1 else 0) + CountChar(s[1..], c)
  }

  lemma {:induction false} CountCharAppend(a: string, b: string, c: char)
    ensures CountChar(a + b, c) == CountChar(a, c) + CountChar(b, c)
  {
    if a != [] {
      assert (a + b)[1..] == a[1..] + b;
      CountCharAppend(a[1..], b, c);
    } else {
      assert a + b == b;
    }
  }

  /** strings.ReplaceAll with a one-character old and new string. */
  function ReplaceChar(s: string, from: char, to: char): (r: string)
    ensures |r| == |s|
    ensures forall i :: 0 <= i < |s| ==> r[i] == (if s[i] == from then to else s[i])
  {
    if s == [] then [] else [if s[0] == from then to else s[0]] + ReplaceChar(s[1..], from, to)
  }

  /**
   * strings.ReplaceAll for a non-empty string to replace: a left-to-right scan that
   * replaces non-overlapping occurrences.
   */
  function ReplaceAll(s: string, from: string, to: string): string
    requires |from| > 0
    decreases |s|
  {
    if |s| < |from| then s
    else if from <= s then to + ReplaceAll(s[|from|..], from, to)
    else [s[0]] + ReplaceAll(s[1..], from, to)
  }

  /** Replacing a string that does not occur changes nothing. */
  lemma {:induction false} ReplaceAllAbsent(s: string, from: string, to: string)
    requires |from| > 0
    requires !Contains(s, from)
    ensures ReplaceAll(s, from, to) == s
    decreases |s|
  {
    if |s| >= |from| {
      if from <= s {
        assert OccursAt(s, from, 0);
      }
      if Contains(s[1..], from) {
        var i :| 0 <= i <= |s| - 1 - |from| && OccursAt(s[1..], from, i);
        assert s[1..][i..i + |from|] == s[i + 1..i + 1 + |from|];
        assert OccursAt(s, from, i + 1);
      }
      ReplaceAllAbsent(s[1..], from, to);
    }
  }

  /** strings.Split with a one-character separator. */
  function Split(s: string, sep: char): (parts: seq<string>)
    ensures |parts| >= 1
    ensures |parts| == CountChar(s, sep) + 1
  {
    if s == [] then [""]
    else
      var rest := Split(s[1..], sep);
      if s[0] == sep then [""] + rest
      else [[s[0]] + rest[0]] + rest[1..]
  }

  /** No part of a split holds the separator. */
  lemma {:induction false} SplitAvoids(s: string, sep: char)
    ensures forall i :: 0 <= i < |Split(s, sep)| ==> sep !in Split(s, sep)[i]
  {
    if s != [] {
      SplitAvoids(s[1..], sep);
      var rest := Split(s[1..], sep);
      if s[0] != sep {
        var parts := Split(s, sep);
        assert parts[0] == [s[0]] + rest[0];
        forall i | 1 <= i < |parts| ensures sep !in parts[i] {
          assert parts[i] == rest[i];
        }
      }
    }
  }

  /** strings.Join. */
  function Join(parts: seq<string>, sep: string): string {
    if parts == [] then ""
    else if |parts| == 1 then parts[0]
    else parts[0] + sep + Join(parts[1..], sep)
  }

  /** Joining the pieces of a split with the same separator gives back the input. */
  lemma {:induction false} JoinSplit(s: string, sep: char)
    ensures Join(Split(s, sep), [sep]) == s
  {
    if s != [] {
      var rest := Split(s[1..], sep);
      JoinSplit(s[1..], sep);
      if s[0] == sep {
        assert Split(s, sep)[1..] == rest;
      } else {
        var parts := Split(s, sep);
        if |rest| == 1 {
          assert parts == [[s[0]] + rest[0]];
        } else {
          assert parts[1..] == rest[1..];
          assert Join(rest, [sep]) == rest[0] + [sep] + Join(rest[1..], [sep]);
        }
      }
    }
  }

  /** A separator character that no part contains occurs once between each two parts of the join. */
  lemma {:induction false} CountCharJoin(parts: seq<string>, c: char)
    requires |parts| >= 1 && forall i :: 0 <= i < |parts| ==> c !in parts[i]
    ensures CountChar(Join(parts, [c]), c) == |parts| - 1
  {
    if |parts| == 1 {
      assert CountChar(parts[0], c) == 0;
    } else {
      CountCharJoin(parts[1..], c);
      assert CountChar(parts[0], c) == 0;
      assert CountChar([c], c) == 1;
      CountCharAppend(parts[0], [c], c);
      CountCharAppend(parts[0] + [c], Join(parts[1..], [c]), c);
    }
  }

  /** A character in neither the parts nor the separator is not in their join. */
  lemma {:induction false} JoinAvoids(parts: seq<string>, sep: string, c: char)
    requires c !in sep && forall i :: 0 <= i < |parts| ==> c !in parts[i]
    ensures c !in Join(parts, sep)
  {
    if |parts| > 1 {
      JoinAvoids(parts[1..], sep, c);
    }
  }

  /** The concatenation of a sequence of sequences. */
  lemma Assoc<T>(x: seq<T>, y: seq<T>, z: seq<T>)
    ensures x + y + z == x + (y + z)
  {
  }

  /** `g` applied to every element, in order. */
  function Mapped<A, B>(s: seq<A>, g: A -> B): (r: seq<B>)
    ensures |r| == |s| && forall k :: 0 <= k < |s| ==> r[k] == g(s[k])
  {
    seq(|s|, k requires 0 <= k < |s| => g(s[k]))
  }

  lemma MappedAppend<A, B>(a: seq<A>, b: seq<A>, g: A -> B)
    ensures Mapped(a + b, g) == Mapped(a, g) + Mapped(b, g)
  {
    var l, r := Mapped(a + b, g), Mapped(a, g) + Mapped(b, g);
    forall k | 0 <= k < |a + b| ensures l[k] == r[k] {
      if k < |a| {
        assert (a + b)[k] == a[k];
      } else {
        assert (a + b)[k] == b[k - |a|];
      }
    }
  }

  function Flatten<T>(xss: seq<seq<T>>): seq<T> {
    if xss == [] then [] else xss[0] + Flatten(xss[1..])
  }

  /** strings.Cut with a one-character separator: text before and after the first `sep`. */
  function Cut(s: string, sep: char): (r: (string, string, bool))
    ensures r.2 <==> sep in s
    ensures r.2 ==> s == r.0 + [sep] + r.1 && sep !in r.0
    ensures !r.2 ==> r.0 == s && r.1 == ""
  {
    if s == [] then ("", "", false)
    else if s[0] == sep then ("", s[1..], true)
    else
      var t := Cut(s[1..], sep);
      ([s[0]] + t.0, t.1, t.2)
  }

  predicate IsUpperAscii(c: char) { 'A' <= c <= 'Z' }

  /** strings.ToLower restricted to ASCII letters. */
  function ToLower(s: string): (r: string)
    ensures |r| == |s|
    ensures forall i :: 0 <= i < |s| ==> r[i] == (if IsUpperAscii(s[i]) then (s[i] - 'A' + 'a') as char else s[i])
  {
    if s == [] then [] else
      [if IsUpperAscii(s[0]) then (s[0] - 'A' + 'a') as char else s[0]] + ToLower(s[1..])
  }

  /** unicode.IsSpace for the Latin-1 range. */
  predicate IsSpace(c: char) {
    c == ' ' || c == '\t' || c == '\n' || c == '\r' || c == '\U{000B}' || c == '\U{000C}'
    || c == '\U{0085}' || c == '\U{00A0}'
  }

  /** The first position at or after `i` that is not white space. */
  function SpaceEnd(s: string, i: nat): (k: nat)
    requires i <= |s|
    ensures i <= k <= |s|
    decreases |s| - i
  {
    if i < |s| && IsSpace(s[i]) then SpaceEnd(s, i + 1) else i
  }

  /** The last position, down to `lo`, before which the text is not white space. */
  function SpaceStart(s: string, lo: nat, j: nat): (k: nat)
    requires lo <= j <= |s|
    ensures lo <= k <= j
  {
    if j > lo && IsSpace(s[j - 1]) then SpaceStart(s, lo, j - 1) else j
  }

  /** strings.TrimSpace: the text between the leading and the trailing white space. */
  function TrimSpace(s: string): string {
    var lo := SpaceEnd(s, 0);
    s[lo..SpaceStart(s, lo, |s|)]
  }

  lemma {:induction false} SpaceEndSkips(s: string, i: nat)
    requires i <= |s|
    ensures forall k :: i <= k < SpaceEnd(s, i) ==> IsSpace(s[k])
    ensures SpaceEnd(s, i) < |s| ==> !IsSpace(s[SpaceEnd(s, i)])
    decreases |s| - i
  {
    if i < |s| && IsSpace(s[i]) {
      SpaceEndSkips(s, i + 1);
    }
  }

  lemma {:induction false} SpaceStartSkips(s: string, lo: nat, j: nat)
    requires lo <= j <= |s|
    ensures forall k :: SpaceStart(s, lo, j) <= k < j ==> IsSpace(s[k])
    ensures SpaceStart(s, lo, j) > lo ==> !IsSpace(s[SpaceStart(s, lo, j) - 1])
  {
    if j > lo && IsSpace(s[j - 1]) {
      SpaceStartSkips(s, lo, j - 1);
    }
  }

  /** The trimmed text is a slice of the original with no white space at either end, and only white space is cut off. */
  lemma TrimSpaceTrims(s: string)
    ensures TrimSpace(s) == [] || (!IsSpace(TrimSpace(s)[0]) && !IsSpace(TrimSpace(s)[|TrimSpace(s)| - 1]))
    ensures exists i, j :: (0 <= i <= j <= |s| && TrimSpace(s) == s[i..j] &&
              (forall k :: 0 <= k < i ==> IsSpace(s[k])) && (forall k :: j <= k < |s| ==> IsSpace(s[k])))
  {
    var lo := SpaceEnd(s, 0);
    var hi := SpaceStart(s, lo, |s|);
    SpaceEndSkips(s, 0);
    SpaceStartSkips(s, lo, |s|);
    if hi > lo {
      assert TrimSpace(s)[0] == s[lo];
      assert TrimSpace(s)[|TrimSpace(s)| - 1] == s[hi - 1];
    }
  }

  predicate IsDigit(c: char) { '0' <= c <= '9' }

  function Digit(d: nat): (c: char)
    requires d < 10
    ensures IsDigit(c) && c as int - '0' as int == d
  {
    ('0' as int + d) as char
  }

  /** Decimal rendering of a natural number, as fmt's `%d`. */
  function NatToString(n: nat): (s: string)
    ensures |s| >= 1 && forall i :: 0 <= i < |s| ==> IsDigit(s[i])
    ensures n > 0 ==> s[0] != '0'
    decreases n
  {
    if n < 10 then [Digit(n)] else NatToString(n / 10) + [Digit(n % 10)]
  }

  /** Decimal rendering of an integer, as fmt's `%d` and strconv.Itoa. */
  function IntToString(i: int): string {
    if i < 0 then "-" + NatToString(-i) else NatToString(i)
  }

  /** The value of a run of decimal digits. */
  function DigitsValue(s: string): nat
    requires forall i :: 0 <= i < |s| ==> IsDigit(s[i])
  {
    if s == [] then 0
    else
      var d := s[|s| - 1];
      assert IsDigit(d);
      DigitsValue(s[..|s| - 1]) * 10 + (d as int - '0' as int)
  }

  lemma {:induction false} DigitsValueOfNatToString(n: nat)
    ensures DigitsValue(NatToString(n)) == n
    decreases n
  {
    if n >= 10 {
      var s := NatToString(n);
      assert s[..|s| - 1] == NatToString(n / 10);
      DigitsValueOfNatToString(n / 10);
    }
  }

  const MinInt64: int := -0x8000_0000_0000_0000
  const MaxInt64: int := 0x7FFF_FFFF_FFFF_FFFF

  predicate AllDigits(s: string) { forall i :: 0 <= i < |s| ==> IsDigit(s[i]) }

  /**
   * strconv.ParseInt(s, 10, 64): an optional sign, at least one decimal digit
   * and nothing else, with the value inside the 64-bit range.
   */
  function ParseInt(s: string): (r: Option<int>)
    ensures r.Some? ==> MinInt64 <= r.value <= MaxInt64
    ensures s == [] ==> r.None?
  {
    var neg := s != [] && s[0] == '-';
    var body := if s != [] && (s[0] == '-' || s[0] == '+') then s[1..] else s;
    if body == [] || !AllDigits(body) then None
    else
      var n: int := DigitsValue(body);
      var v := if neg then -n else n;
      if MinInt64 <= v <= MaxInt64 then Some(v) else None
  }

  /** Parsing a rendered 64-bit integer gives the integer back. */
  lemma ParseIntToString(i: int)
    requires MinInt64 <= i <= MaxInt64
    ensures ParseInt(IntToString(i)) == Some(i)
  {
    if i < 0 {
      var body := NatToString(-i);
      var s := "-" + body;
      assert s[0] == '-' && s[1..] == body;
      DigitsValueOfNatToString(-i);
      assert ParseInt(s) == Some(i);
    } else {
      var body := NatToString(i);
      assert IsDigit(body[0]);
      DigitsValueOfNatToString(i);
    }
  }

  /**
   * The value strconv.ParseInt(s, 10, 64) returns when its error is
   * ignored: the parsed number, the nearest 64-bit bound when the digits are
   * well formed but out of range, and 0 for malformed text.
   */
  function ParseIntValue(s: string): (v: int)
    ensures MinInt64 <= v <= MaxInt64
    ensures ParseInt(s).Some? ==> v == ParseInt(s).value
    ensures s == [] ==> v == 0
  {
    match ParseInt(s)
      case Some(n) => n
      case None =>
        var body := if s != [] && (s[0] == '-' || s[0] == '+') then s[1..] else s;
        if body == [] || !AllDigits(body) then 0
        else if s[0] == '-' then MinInt64 else MaxInt64
  }

  /** A 64-bit two's-complement wrap-around of an integer. */
  function Wrap64(x: int): (r: int)
    ensures MinInt64 <= r <= MaxInt64
    ensures MinInt64 <= x <= MaxInt64 ==> r == x
    ensures (r - x) % 0x1_0000_0000_0000_0000 == 0
  {
    (x - MinInt64) % 0x1_0000_0000_0000_0000 + MinInt64
  }

  const MinInt32: int := -0x8000_0000
  const MaxInt32: int := 0x7FFF_FFFF

  /** Go's `int32` values. */
  type Int32 = x: int | MinInt32 <= x <= MaxInt32

  /** A 32-bit two's-complement wrap-around of an integer, as Go's `int32` arithmetic. */
  function Wrap32(x: int): (r: Int32)
    ensures MinInt32 <= x <= MaxInt32 ==> r == x
    ensures (r - x) % 0x1_0000_0000 == 0
  {
    (x - MinInt32) % 0x1_0000_0000 + MinInt32
  }

  /** Go's string order: byte-wise (here character-wise) lexicographic, `a <= b`. */
  predicate LexLe(a: string, b: string)
    decreases |a|
  {
    a == [] || (b != [] && (a[0] < b[0] || (a[0] == b[0] && LexLe(a[1..], b[1..]))))
  }

  lemma {:induction false} LexLeTotal(a: string, b: string)
    ensures LexLe(a, b) || LexLe(b, a)
    decreases |a|
  {
    if a != [] && b != [] && a[0] == b[0] {
      LexLeTotal(a[1..], b[1..]);
    }
  }

  lemma {:induction false} LexLeAntisymmetric(a: string, b: string)
    requires LexLe(a, b) && LexLe(b, a)
    ensures a == b
    decreases |a|
  {
    if a != [] {
      LexLeAntisymmetric(a[1..], b[1..]);
      assert a == [a[0]] + a[1..] && b == [b[0]] + b[1..];
    }
  }

  lemma {:induction false} LexLeTransitive(a: string, b: string, c: string)
    requires LexLe(a, b) && LexLe(b, c)
    ensures LexLe(a, c)
    decreases |a|
  {
    if a != [] && a[0] == b[0] && b[0] == c[0] {
      LexLeTransitive(a[1..], b[1..], c[1..]);
    }
  }

  lemma {:induction false} LexLeReflexive(a: string)
    ensures LexLe(a, a)
    decreases |a|
  {
    if a != [] {
      LexLeReflexive(a[1..]);
    }
  }

  predicate Sorted(xs: seq<string>) {
    forall i, j :: 0 <= i < j < |xs| ==> LexLe(xs[i], xs[j])
  }

  /** Insertion of one string into a sorted list. */
  function Insert(x: string, xs: seq<string>): (r: seq<string>)
    requires Sorted(xs)
    ensures Sorted(r) && multiset(r) == multiset(xs) + multiset{x}
  {
    if xs == [] then [x]
    else if LexLe(x, xs[0]) then
      assert forall j :: 0 < j < |xs| ==> LexLe(x, xs[j]) by {
        forall j | 0 < j < |xs| ensures LexLe(x, xs[j]) { LexLeTransitive(x, xs[0], xs[j]); }
      }
      [x] + xs
    else
      LexLeTotal(x, xs[0]);
      var rest := Insert(x, xs[1..]);
      assert xs == [xs[0]] + xs[1..];
      assert forall j :: 0 <= j < |rest| ==> LexLe(xs[0], rest[j]) by {
        forall j | 0 <= j < |rest| ensures LexLe(xs[0], rest[j]) {
          assert rest[j] in multiset(rest);
          assert rest[j] == x || rest[j] in multiset(xs[1..]);
          if rest[j] != x {
            var k :| 0 <= k < |xs[1..]| && xs[1..][k] == rest[j];
            assert LexLe(xs[0], xs[k + 1]);
          }
        }
      }
      [xs[0]] + rest
  }

  /** sort.Strings: the strings in ascending order. */
  function SortStrings(xs: seq<string>): (r: seq<string>)
    ensures Sorted(r) && multiset(r) == multiset(xs)
  {
    if xs == [] then []
    else
      assert xs == [xs[0]] + xs[1..];
      Insert(xs[0], SortStrings(xs[1..]))
  }

  /** The smallest of the same strings heads both sorted lists. */
  lemma SortedHeads(a: seq<string>, b: seq<string>)
    requires Sorted(a) && Sorted(b) && multiset(a) == multiset(b) && a != []
    ensures b != [] && a[0] == b[0]
  {
    assert a[0] in multiset(b);
    assert b != [] && b[0] in multiset(a);
    var i :| 0 <= i < |b| && b[i] == a[0];
    var j :| 0 <= j < |a| && a[j] == b[0];
    if i > 0 { assert LexLe(b[0], b[i]); } else { LexLeReflexive(a[0]); }
    if j > 0 { assert LexLe(a[0], a[j]); } else { LexLeReflexive(a[0]); }
    LexLeAntisymmetric(a[0], b[0]);
  }

  /** Sorting determines the order: two sorted lists of the same strings are equal. */
  lemma {:induction false} SortedUnique(a: seq<string>, b: seq<string>)
    requires Sorted(a) && Sorted(b) && multiset(a) == multiset(b)
    ensures a == b
    decreases |a|
  {
    if a == [] {
      assert |b| == |multiset(b)| == 0;
    } else {
      SortedHeads(a, b);
      assert a == [a[0]] + a[1..] && b == [b[0]] + b[1..];
      calc {
        multiset(a[1..]);
        multiset(a) - multiset{a[0]};
        multiset(b) - multiset{b[0]};
        multiset(b[1..]);
      }
      SortedUnique(a[1..], b[1..]);
    }
  }
}
