/** Python's string built-ins, as the scripts use them, over `seq<char>`
    (a Dafny `char` is a Unicode scalar value, as a Python code point). */
module Text {

  /** The characters for which Python's `str.isspace()` holds; `str.strip()`
      and the regular-expression class `\s` both use this test. */
  predicate IsSpace(c: char) {
    || c == ' '
    || '\t' <= c <= '\r'
    || '\U{001C}' <= c <= '\U{001F}'
    || c == '\U{0085}' || c == '\U{00A0}' || c == '\U{1680}'
    || '\U{2000}' <= c <= '\U{200A}'
    || c == '\U{2028}' || c == '\U{2029}' || c == '\U{202F}' || c == '\U{205F}'
    || c == '\U{3000}'
  }

  /** Drops the leading characters for which `drop` holds. */
  function TrimLeft(s: string, drop: char -> bool): (r: string)
    ensures |r| <= |s| && r == s[|s| - |r|..]
  {
    if s != [] && drop(s[0]) then TrimLeft(s[1..], drop) else s
  }

  /** Drops the trailing characters for which `drop` holds. */
  function TrimRight(s: string, drop: char -> bool): (r: string)
    ensures |r| <= |s| && r == s[..|r|]
  {
    if s != [] && drop(s[|s| - 1]) then TrimRight(s[..|s| - 1], drop) else s
  }

  /** Everything `TrimLeft` cuts off is droppable, and what it keeps does not
      start with a droppable character. */
  lemma {:induction false} TrimLeftCuts(s: string, drop: char -> bool)
    ensures forall i :: 0 <= i < |s| - |TrimLeft(s, drop)| ==> drop(s[i])
    ensures TrimLeft(s, drop) != [] ==> !drop(TrimLeft(s, drop)[0])
  {
    if s != [] && drop(s[0]) {
      TrimLeftCuts(s[1..], drop);
      forall i | 0 < i < |s| - |TrimLeft(s, drop)| ensures drop(s[i]) {
        assert s[i] == s[1..][i - 1];
      }
    }
  }

  /** Everything `TrimRight` cuts off is droppable, and what it keeps does not
      end with a droppable character. */
  lemma {:induction false} TrimRightCuts(s: string, drop: char -> bool)
    ensures forall i :: |TrimRight(s, drop)| <= i < |s| ==> drop(s[i])
    ensures TrimRight(s, drop) != [] ==> !drop(TrimRight(s, drop)[|TrimRight(s, drop)| - 1])
  {
    if s != [] && drop(s[|s| - 1]) {
      TrimRightCuts(s[..|s| - 1], drop);
    }
  }

  /** `s.strip(chars)`: both ends trimmed of the characters `drop` selects. */
  function StripChars(s: string, drop: char -> bool): string {
    TrimRight(TrimLeft(s, drop), drop)
  }

  /** `s.strip()` with no argument. */
  function Strip(s: string): string {
    StripChars(s, IsSpace)
  }

  /** What `strip` returns is the slice `s[i..j]` of its argument, and
      everything cut off is strippable. */
  lemma StripCharsSlice(s: string, drop: char -> bool) returns (i: nat, j: nat)
    ensures i <= j <= |s| && StripChars(s, drop) == s[i..j]
    ensures forall k :: 0 <= k < i ==> drop(s[k])
    ensures forall k :: j <= k < |s| ==> drop(s[k])
  {
    i := |s| - |TrimLeft(s, drop)|;
    j := i + |StripChars(s, drop)|;
    StripCharsIsSlice(s, drop);
    TrimLeftCuts(s, drop);
    StripCharsCutRight(s, drop);
  }

  lemma StripCharsIsSlice(s: string, drop: char -> bool)
    ensures var i := |s| - |TrimLeft(s, drop)|;
      i + |StripChars(s, drop)| <= |s| && StripChars(s, drop) == s[i..i + |StripChars(s, drop)|]
  {
    var l := TrimLeft(s, drop);
    SliceOfSlice(s, l, TrimRight(l, drop), |s| - |l|);
  }

  lemma StripCharsCutRight(s: string, drop: char -> bool)
    ensures var j := |s| - |TrimLeft(s, drop)| + |StripChars(s, drop)|;
      forall k :: j <= k < |s| ==> drop(s[k])
  {
    var l := TrimLeft(s, drop);
    TrimRightCuts(l, drop);
    DroppedOfSuffix(s, |s| - |l|, |TrimRight(l, drop)|, drop);
  }

  lemma DroppedOfSuffix(s: string, i: nat, n: nat, drop: char -> bool)
    requires i + n <= |s|
    requires forall m :: n <= m < |s| - i ==> drop(s[i..][m])
    ensures forall k :: i + n <= k < |s| ==> drop(s[k])
  {
    forall k | i + n <= k < |s| ensures drop(s[k]) {
      assert s[k] == s[i..][k - i];
    }
  }

  /** A prefix of a suffix is a slice. */
  lemma SliceOfSlice<T>(s: seq<T>, l: seq<T>, r: seq<T>, i: nat)
    requires i <= |s| && l == s[i..] && |r| <= |l| && r == l[..|r|]
    ensures i + |r| <= |s| && r == s[i..i + |r|]
  {
  }

  /** What `strip` returns neither starts nor ends with a stripped
      character. */
  lemma StripCharsEnds(s: string, drop: char -> bool)
    ensures StripChars(s, drop) != [] ==>
      !drop(StripChars(s, drop)[0]) && !drop(StripChars(s, drop)[|StripChars(s, drop)| - 1])
  {
    var l := TrimLeft(s, drop);
    var r := TrimRight(l, drop);
    TrimLeftCuts(s, drop);
    TrimRightCuts(l, drop);
    if r != [] {
      assert r[0] == l[0];
    }
  }

  /** Stripping twice is stripping once. */
  lemma StripCharsIdempotent(s: string, drop: char -> bool)
    ensures StripChars(StripChars(s, drop), drop) == StripChars(s, drop)
  {
    StripCharsEnds(s, drop);
    StripCharsOfClean(StripChars(s, drop), drop);
  }

  /** A string that neither starts nor ends with a stripped character is left
      alone. */
  lemma StripCharsOfClean(x: string, drop: char -> bool)
    requires x != [] ==> !drop(x[0]) && !drop(x[|x| - 1])
    ensures StripChars(x, drop) == x
  {
  }

  lemma {:induction false} TrimLeftPadded(a: string, x: string, drop: char -> bool)
    requires forall k :: 0 <= k < |a| ==> drop(a[k])
    requires x != [] && !drop(x[0])
    ensures TrimLeft(a + x, drop) == x
  {
    if a != [] {
      assert (a + x)[1..] == a[1..] + x;
      TrimLeftPadded(a[1..], x, drop);
    }
  }

  lemma {:induction false} TrimRightPadded(x: string, b: string, drop: char -> bool)
    requires forall k :: 0 <= k < |b| ==> drop(b[k])
    requires x != [] && !drop(x[|x| - 1])
    ensures TrimRight(x + b, drop) == x
  {
    if b != [] {
      assert (x + b)[..|x + b| - 1] == x + b[..|b| - 1];
      TrimRightPadded(x, b[..|b| - 1], drop);
    }
  }

  /** Padding made of stripped characters on both sides is exactly what
      `strip` removes. */
  lemma StripCharsPadded(a: string, x: string, b: string, drop: char -> bool)
    requires forall k :: 0 <= k < |a| ==> drop(a[k])
    requires forall k :: 0 <= k < |b| ==> drop(b[k])
    requires x != [] && !drop(x[0]) && !drop(x[|x| - 1])
    ensures StripChars(a + x + b, drop) == x
  {
    assert a + x + b == a + (x + b);
    TrimLeftPadded(a, x + b, drop);
    TrimRightPadded(x, b, drop);
  }

  predicate StartsWith(s: string, prefix: string) {
    |prefix| <= |s| && s[..|prefix|] == prefix
  }

  predicate EndsWith(s: string, suffix: string) {
    |suffix| <= |s| && s[|s| - |suffix|..] == suffix
  }

  /** `sub` occurs in `s` at index `i`. */
  predicate OccursAt(s: string, sub: string, i: int) {
    0 <= i <= |s| - |sub| && s[i..i + |sub|] == sub
  }

  /** `sub in s` for strings. */
  predicate Contains(s: string, sub: string) {
    exists i | 0 <= i <= |s| - |sub| :: OccursAt(s, sub, i)
  }

  /** `sep.join(parts)`. */
  function Join(parts: seq<string>, sep: string): string {
    if |parts| == 0 then ""
    else if |parts| == 1 then parts[0]
    else parts[0] + sep + Join(parts[1..], sep)
  }

  /** A join starts with its first part and ends with its last one. */
  lemma {:induction false} JoinEnds(parts: seq<string>, sep: string)
    requires |parts| >= 1
    ensures StartsWith(Join(parts, sep), parts[0])
    ensures EndsWith(Join(parts, sep), parts[|parts| - 1])
  {
    if |parts| > 1 {
      var rest := Join(parts[1..], sep);
      JoinEnds(parts[1..], sep);
      var last := parts[|parts| - 1];
      assert parts[1..][|parts[1..]| - 1] == last;
      var whole := parts[0] + sep + rest;
      assert Join(parts, sep) == whole;
      assert EndsWith(rest, last);
      EndsWithAppend(parts[0] + sep, rest, last);
      assert whole[..|parts[0]|] == parts[0];
    }
  }

  /** A suffix of `b` is a suffix of `a + b`. */
  lemma EndsWithAppend(a: string, b: string, suffix: string)
    requires EndsWith(b, suffix)
    ensures EndsWith(a + b, suffix)
  {
    assert (a + b)[|a + b| - |suffix|..] == b[|b| - |suffix|..];
  }

  /** `s.split(sep)` for a one-character separator: the pieces between the
      separators, always at least one. */
  function Split(s: string, sep: char): (r: seq<string>)
    ensures |r| >= 1
    ensures forall k :: 0 <= k < |r| ==> sep !in r[k]
  {
    if s == [] then [""]
    else
      var rest := Split(s[1..], sep);
      if s[0] == sep then [""] + rest
      else [[s[0]] + rest[0]] + rest[1..]
  }

  /** The first piece of a split is the text before the first separator. */
  lemma {:induction false} SplitFirst(s: string, sep: char)
    ensures StartsWith(s, Split(s, sep)[0]) && sep !in Split(s, sep)[0]
    ensures |Split(s, sep)[0]| < |s| ==> s[|Split(s, sep)[0]|] == sep
  {
    if s != [] {
      SplitFirst(s[1..], sep);
    }
  }

  /** Splitting and re-joining with the same separator gives the string back. */
  lemma {:induction false} SplitJoin(s: string, sep: char)
    ensures Join(Split(s, sep), [sep]) == s
  {
    if s != [] {
      var rest := Split(s[1..], sep);
      SplitJoin(s[1..], sep);
      assert s == [s[0]] + s[1..];
      if s[0] != sep && |rest| > 1 {
        assert rest == [rest[0]] + rest[1..];
      }
    }
  }

  /** A text without the separator is a single piece. */
  lemma {:induction false} SplitNone(s: string, sep: char)
    requires sep !in s
    ensures Split(s, sep) == [s]
  {
    if s != [] {
      SplitNone(s[1..], sep);
      assert s == [s[0]] + s[1..];
    }
  }

  /** Joining pieces that hold no separator and splitting again gives the
      pieces back. */
  lemma {:induction false} SplitOfJoin(parts: seq<string>, sep: char)
    requires |parts| >= 1
    requires forall k :: 0 <= k < |parts| ==> sep !in parts[k]
    ensures Split(Join(parts, [sep]), sep) == parts
  {
    if |parts| == 1 {
      SplitNone(parts[0], sep);
    } else {
      SplitOfJoin(parts[1..], sep);
      SplitNone(parts[0], sep);
      SplitAround(parts[0], sep, Join(parts[1..], [sep]));
      assert [parts[0]] + parts[1..] == parts;
    }
  }

  /** Splitting around a separator: the pieces before it, then the pieces
      after it. */
  lemma {:induction false} SplitAround(a: string, sep: char, b: string)
    ensures Split(a + [sep] + b, sep) == Split(a, sep) + Split(b, sep)
  {
    if a != [] {
      var s := a + [sep] + b;
      assert s[0] == a[0] && s[1..] == a[1..] + [sep] + b;
      SplitAround(a[1..], sep, b);
    }
  }

  /** Joining two non-empty lists is joining their joins. */
  lemma {:induction false} JoinAppend(x: seq<string>, y: seq<string>, sep: string)
    requires |x| >= 1 && |y| >= 1
    ensures Join(x + y, sep) == Join(x, sep) + sep + Join(y, sep)
  {
    if |x| == 1 {
      assert (x + y)[0] == x[0] && (x + y)[1..] == y;
    } else {
      assert (x + y)[0] == x[0] && (x + y)[1..] == x[1..] + y;
      JoinAppend(x[1..], y, sep);
    }
  }

  /** Lines joined by line breaks, one of them itself a join of lines:
      splitting gives the single lines before it, its lines, then the split
      of what follows. */
  lemma SplitOfNestedJoin(head: seq<string>, m: seq<string>, tail: seq<string>, sep: char)
    requires |head| >= 1 && |m| >= 1 && |tail| >= 1
    requires forall k :: 0 <= k < |head| ==> sep !in head[k]
    requires forall k :: 0 <= k < |m| ==> sep !in m[k]
    ensures Split(Join(head + [Join(m, [sep])] + tail, [sep]), sep) == head + m + Split(Join(tail, [sep]), sep)
  {
    var jm := Join(m, [sep]);
    assert head + [jm] + tail == head + ([jm] + tail);
    JoinAppend(head, [jm] + tail, [sep]);
    assert ([jm] + tail)[0] == jm && ([jm] + tail)[1..] == tail;
    var jh, jt := Join(head, [sep]), Join(tail, [sep]);
    assert jh + [sep] + (jm + [sep] + jt) == Join(head + [jm] + tail, [sep]);
    SplitAround(jh, sep, jm + [sep] + jt);
    SplitAround(jm, sep, jt);
    SplitOfJoin(head, sep);
    SplitOfJoin(m, sep);
  }

  /** There is one more piece than there are separators. */
  lemma {:induction false} SplitCount(s: string, sep: char)
    ensures |Split(s, sep)| == multiset(s)[sep] + 1
  {
    if s != [] {
      SplitCount(s[1..], sep);
      assert s == [s[0]] + s[1..];
    }
  }

  /** `s.replace(pattern, replacement)`: every occurrence, scanning from the
      left, without overlaps. */
  function ReplaceAll(s: string, pattern: string, replacement: string): string
    requires pattern != []
    decreases |s|
  {
    if |s| < |pattern| then s
    else if s[..|pattern|] == pattern
    then replacement + ReplaceAll(s[|pattern|..], pattern, replacement)
    else [s[0]] + ReplaceAll(s[1..], pattern, replacement)
  }

  /** A string without the pattern is not changed by `replace`. */
  lemma {:induction false} ReplaceAllAbsent(s: string, pattern: string, replacement: string)
    requires pattern != [] && !Contains(s, pattern)
    ensures ReplaceAll(s, pattern, replacement) == s
    decreases |s|
  {
    if |s| >= |pattern| {
      assert !OccursAt(s, pattern, 0);
      if Contains(s[1..], pattern) {
        var i :| 0 <= i <= |s[1..]| - |pattern| && OccursAt(s[1..], pattern, i);
        assert s[1..][i..i + |pattern|] == pattern;
        assert s[i + 1..i + 1 + |pattern|] == s[1..][i..i + |pattern|];
        assert OccursAt(s, pattern, i + 1);
      }
      ReplaceAllAbsent(s[1..], pattern, replacement);
    }
  }

  /** Python's `str.lower()` on the ASCII letters. */
  function LowerChar(c: char): char {
    if 'A' <= c <= 'Z' then (c as int + 32) as char else c
  }

  function Lower(s: string): (r: string)
    ensures |r| == |s| && forall k :: 0 <= k < |s| ==> r[k] == LowerChar(s[k])
  {
    seq(|s|, k requires 0 <= k < |s| => LowerChar(s[k]))
  }

  function Spaces(n: nat): (r: string)
    ensures |r| == n && forall k :: 0 <= k < n ==> r[k] == ' '
  {
    seq(n, k => ' ')
  }

  /** Format specification `<w`: left-justified in a field of width `w`;
      a longer value is not truncated. */
  function LJust(s: string, w: nat): string {
    if |s| >= w then s else s + Spaces(w - |s|)
  }

  lemma LJustShape(s: string, w: nat)
    ensures |LJust(s, w)| == if |s| >= w then |s| else w
    ensures StartsWith(LJust(s, w), s)
    ensures forall k :: |s| <= k < |LJust(s, w)| ==> LJust(s, w)[k] == ' '
  {
  }

  function DigitChar(d: nat): char
    requires d < 10
  {
    "0123456789"[d]
  }

  /** Decimal representation of a natural number, as `str(n)`. */
  function NatToString(n: nat): (r: string)
    ensures |r| >= 1
    ensures forall k :: 0 <= k < |r| ==> '0' <= r[k] <= '9'
    ensures n > 0 ==> r[0] != '0'
  {
    if n < 10 then [DigitChar(n)] else NatToString(n / 10) + [DigitChar(n % 10)]
  }

  /** `str(i)` for any integer. */
  function IntToString(i: int): string {
    if i < 0 then "-" + NatToString(-i) else NatToString(i)
  }

  function DigitValue(c: char): nat
    requires '0' <= c <= '9'
  {
    c as int - '0' as int
  }

  /** Reads a string of decimal digits back as a number. */
  function ParseDigits(s: string): nat
    requires forall k :: 0 <= k < |s| ==> '0' <= s[k] <= '9'
  {
    if s == [] then 0 else ParseDigits(s[..|s| - 1]) * 10 + DigitValue(s[|s| - 1])
  }

  /** The decimal rendering of a number reads back as that number. */
  lemma {:induction false} NatToStringRoundTrip(n: nat)
    ensures ParseDigits(NatToString(n)) == n
  {
    if n >= 10 {
      var s := NatToString(n);
      assert s[..|s| - 1] == NatToString(n / 10);
      NatToStringRoundTrip(n / 10);
    }
  }

  /** Distinct numbers render differently. */
  lemma NatToStringInjective(m: nat, n: nat)
    requires NatToString(m) == NatToString(n)
    ensures m == n
  {
    NatToStringRoundTrip(m);
    NatToStringRoundTrip(n);
  }
}
