/**
 * The JavaScript string operations the client code relies on, written over
 * `seq<char>`: `Number.prototype.toString` for non-negative integers,
 * `length`, `padStart`, `Array.prototype.join`, `String.prototype.split` on one
 * character, `includes`, `slice(-n)` and `charAt(0).toUpperCase()`.
 */
module Text {

  predicate IsDigit(c: char) { '0' <= c <= '9' }

  predicate IsAsciiLetter(c: char) { 'A' <= c <= 'Z' || 'a' <= c <= 'z' }

  predicate AllDigits(s: string) { forall i :: 0 <= i < |s| ==> IsDigit(s[i]) }

  function DigitChar(d: nat): (c: char)
    requires d < 10
    ensures IsDigit(c) && (c as int) - ('0' as int) == d
  {
    (('0' as int) + d) as char
  }

  /**
   * The UTF-16 code units of one character, as JavaScript stores it: one up
   * to U+FFFF, a surrogate pair above.
   */
  function CodeUnits(c: char): nat { if (c as int) < 0x1_0000 then 1 else 2 }

  /** JavaScript's `length` of a string: its UTF-16 code units. */
  function Utf16Length(s: string): (n: nat)
    ensures |s| <= n <= 2 * |s|
    ensures n == 0 <==> s == []
  {
    if s == [] then 0 else Utf16Length(s[..|s| - 1]) + CodeUnits(s[|s| - 1])
  }

  /** Lengths add up over concatenation. */
  lemma {:induction false} Utf16LengthAppend(a: string, b: string)
    ensures Utf16Length(a + b) == Utf16Length(a) + Utf16Length(b)
    decreases |b|
  {
    if b != [] {
      var b' := b[..|b| - 1];
      assert (a + b)[..|a + b| - 1] == a + b';
      assert (a + b)[|a + b| - 1] == b[|b| - 1];
      Utf16LengthAppend(a, b');
    } else {
      assert a + b == a;
    }
  }

  /** Without characters above U+FFFF, `length` counts characters. */
  lemma {:induction false} Utf16LengthOfBmp(s: string)
    requires forall i :: 0 <= i < |s| ==> (s[i] as int) < 0x1_0000
    ensures Utf16Length(s) == |s|
    decreases |s|
  {
    if s != [] {
      Utf16LengthOfBmp(s[..|s| - 1]);
    }
  }

  /** Decimal rendering of a non-negative integer, as `String(n)` does it. */
  function NatToString(n: nat): (s: string)
    ensures |s| >= 1 && AllDigits(s)
    decreases n
  {
    if n < 10 then [DigitChar(n)] else NatToString(n / 10) + [DigitChar(n % 10)]
  }

  /** `String(n)` for any integer: a leading '-' for negatives. */
  function IntToString(n: int): (s: string)
    ensures |s| >= 1
    ensures n >= 0 ==> s == NatToString(n)
    ensures n < 0 ==> s == "-" + NatToString(-n)
  {
    if n >= 0 then NatToString(n) else "-" + NatToString(-n)
  }

  /**
   * The value a string of decimal digits denotes (leading zeros allowed).
   * Total, so that stating a read-back needs no separate proof that the
   * text is all digits; it means something only where `AllDigits` holds.
   */
  function DigitsValue(s: string): int
  {
    if s == [] then 0
    else DigitsValue(s[..|s| - 1]) * 10 + ((s[|s| - 1] as int) - ('0' as int))
  }

  /** Reading the decimal rendering back gives the number. */
  lemma {:induction false} NatToStringRoundTrip(n: nat)
    ensures DigitsValue(NatToString(n)) == n
    decreases n
  {
    if n >= 10 {
      var s := NatToString(n);
      assert s[..|s| - 1] == NatToString(n / 10);
      NatToStringRoundTrip(n / 10);
    }
  }

  /** One character for 0..9, two for 10..99, at least three from 100 on. */
  lemma NatToStringLength(n: nat)
    ensures n < 10 ==> |NatToString(n)| == 1
    ensures 10 <= n < 100 ==> |NatToString(n)| == 2
    ensures 100 <= n ==> |NatToString(n)| >= 3
    decreases n
  {
    if n >= 10 {
      NatToStringLength(n / 10);
    }
  }

  function Pow10(k: nat): (p: nat)
    ensures p >= 1
  {
    if k == 0 then 1 else 10 * Pow10(k - 1)
  }

  /** A number below 10^k renders in at most k characters. */
  lemma {:induction false} NatToStringFits(n: nat, k: nat)
    requires k >= 1 && n < Pow10(k)
    ensures |NatToString(n)| <= k
    decreases n
  {
    if n >= 10 {
      assert k >= 2;
      NatToStringFits(n / 10, k - 1);
    }
  }

  function Repeat(c: char, n: nat): (s: string)
    ensures |s| == n && forall i :: 0 <= i < n ==> s[i] == c
  {
    if n == 0 then "" else [c] + Repeat(c, n - 1)
  }

  /** `s.padStart(width, c)` with a one-character pad. */
  function PadStart(s: string, width: nat, c: char): (r: string)
    ensures |r| == if |s| >= width then |s| else width
    ensures r[|r| - |s|..] == s
    ensures forall i :: 0 <= i < |r| - |s| ==> r[i] == c
  {
    if |s| >= width then s else Repeat(c, width - |s|) + s
  }

  /** Leading zeros do not change the value of a digit string. */
  lemma {:induction false} LeadingZerosValue(z: nat, s: string)
    requires AllDigits(s)
    ensures AllDigits(Repeat('0', z) + s)
    ensures DigitsValue(Repeat('0', z) + s) == DigitsValue(s)
    decreases |s|
  {
    var t := Repeat('0', z) + s;
    if s == [] {
      ZerosValue(z);
      assert t == Repeat('0', z);
    } else {
      assert t[..|t| - 1] == Repeat('0', z) + s[..|s| - 1];
      LeadingZerosValue(z, s[..|s| - 1]);
    }
  }

  lemma {:induction false} ZerosValue(z: nat)
    ensures DigitsValue(Repeat('0', z)) == 0
    decreases z
  {
    if z > 0 {
      var t := Repeat('0', z);
      assert t[..|t| - 1] == Repeat('0', z - 1);
      ZerosValue(z - 1);
    }
  }

  /** Padding a rendered number with zeros keeps its value. */
  lemma PaddedNatValue(n: nat, width: nat)
    ensures AllDigits(PadStart(NatToString(n), width, '0'))
    ensures DigitsValue(PadStart(NatToString(n), width, '0')) == n
  {
    NatToStringRoundTrip(n);
    PaddedDigitsValue(NatToString(n), width);
  }

  /** Padding digits with zeros keeps their value. */
  lemma PaddedDigitsValue(s: string, width: nat)
    requires AllDigits(s)
    ensures AllDigits(PadStart(s, width, '0'))
    ensures DigitsValue(PadStart(s, width, '0')) == DigitsValue(s)
  {
    if |s| < width {
      assert PadStart(s, width, '0') == Repeat('0', width - |s|) + s;
      LeadingZerosValue(width - |s|, s);
    } else {
      assert PadStart(s, width, '0') == s;
    }
  }

  /** `parts.join(sep)` with a one-character separator; `[].join(sep)` is "". */
  function Join(parts: seq<string>, sep: char): string
  {
    if |parts| == 0 then ""
    else if |parts| == 1 then parts[0]
    else parts[0] + [sep] + Join(parts[1..], sep)
  }

  /** The index of the first occurrence of `c` in `s`. */
  function IndexOf(s: string, c: char): (i: nat)
    requires c in s
    ensures i < |s| && s[i] == c && forall j :: 0 <= j < i ==> s[j] != c
  {
    if s[0] == c then 0 else 1 + IndexOf(s[1..], c)
  }

  /** The index of the last occurrence of `c` in `s`. */
  function LastIndexOf(s: string, c: char): (i: nat)
    requires c in s
    ensures i < |s| && s[i] == c && forall j :: i < j < |s| ==> s[j] != c
  {
    if s[|s| - 1] == c then |s| - 1 else LastIndexOf(s[..|s| - 1], c)
  }

  /** `s.split(sep)` with a one-character separator: never empty. */
  function Split(s: string, sep: char): (parts: seq<string>)
    ensures |parts| >= 1
    ensures forall k :: 0 <= k < |parts| ==> sep !in parts[k]
    decreases |s|
  {
    if sep !in s then [s]
    else
      var i := IndexOf(s, sep);
      [s[..i]] + Split(s[i + 1..], sep)
  }

  lemma IndexOfAfterPrefix(a: string, c: char, b: string)
    requires c !in a
    ensures c in a + [c] + b && IndexOf(a + [c] + b, c) == |a|
  {
    var s := a + [c] + b;
    assert s[..|a|] == a;
    IndexOfIs(s, c, |a|);
  }

  lemma JoinCons(x: string, parts: seq<string>, sep: char)
    requires |parts| >= 1
    ensures Join([x] + parts, sep) == x + [sep] + Join(parts, sep)
  {
    assert ([x] + parts)[1..] == parts;
  }

  /** Splitting what was joined gives the parts back, when no part holds the separator. */
  lemma {:induction false} SplitJoin(parts: seq<string>, sep: char)
    requires |parts| >= 1
    requires forall k :: 0 <= k < |parts| ==> sep !in parts[k]
    ensures Split(Join(parts, sep), sep) == parts
    decreases |parts|
  {
    if |parts| > 1 {
      var rest := Join(parts[1..], sep);
      var s := Join(parts, sep);
      assert s == parts[0] + [sep] + rest;
      IndexOfAfterPrefix(parts[0], sep, rest);
      assert s[..|parts[0]|] == parts[0] && s[|parts[0]| + 1..] == rest;
      assert Split(s, sep) == [parts[0]] + Split(rest, sep);
      SplitJoin(parts[1..], sep);
    }
  }

  /** Joining what was split gives the string back. */
  lemma {:induction false} JoinSplit(s: string, sep: char)
    ensures Join(Split(s, sep), sep) == s
    decreases |s|
  {
    if sep in s {
      var i := IndexOf(s, sep);
      var tail := Split(s[i + 1..], sep);
      JoinSplit(s[i + 1..], sep);
      assert Split(s, sep) == [s[..i]] + tail;
      assert ([s[..i]] + tail)[1..] == tail;
      assert s == s[..i] + [sep] + s[i + 1..];
    }
  }

  /** The last piece of `s.split(sep)`, i.e. `s.split(sep).pop()`. */
  function LastSplit(s: string, sep: char): string
    decreases |s|
  {
    if sep !in s then s else LastSplit(s[IndexOf(s, sep) + 1..], sep)
  }

  lemma {:induction false} LastSplitIsLastOfSplit(s: string, sep: char)
    ensures LastSplit(s, sep) == Split(s, sep)[|Split(s, sep)| - 1]
    decreases |s|
  {
    if sep in s {
      var i := IndexOf(s, sep);
      var tail := s[i + 1..];
      var rest := Split(tail, sep);
      var parts := Split(s, sep);
      assert parts == [s[..i]] + rest;
      assert parts[|parts| - 1] == rest[|rest| - 1];
      assert LastSplit(s, sep) == LastSplit(tail, sep);
      LastSplitIsLastOfSplit(tail, sep);
    } else {
      assert Split(s, sep) == [s];
    }
  }

  /**
   * The last piece holds no separator and ends `s`; whatever precedes it is
   * empty or ends with the separator.
   */
  lemma {:induction false} LastSplitShape(s: string, sep: char)
    ensures sep !in LastSplit(s, sep)
    ensures |LastSplit(s, sep)| <= |s| && s[|s| - |LastSplit(s, sep)|..] == LastSplit(s, sep)
    ensures |LastSplit(s, sep)| < |s| ==> s[|s| - |LastSplit(s, sep)| - 1] == sep
    decreases |s|
  {
    if sep in s {
      var i := IndexOf(s, sep);
      LastSplitShape(s[i + 1..], sep);
      LastSplitStep(s, sep);
      SuffixAfter(s, i, LastSplit(s[i + 1..], sep), sep);
    } else {
      LastSplitNoSep(s, sep);
      assert s[0..] == s;
    }
  }

  lemma LastSplitNoSep(s: string, sep: char)
    requires sep !in s
    ensures LastSplit(s, sep) == s
  {
  }

  /** A suffix of `s[i + 1..]` that follows a separator, with `s[i]` one, is one of `s` too. */
  lemma SuffixAfter(s: string, i: nat, r: string, sep: char)
    requires i < |s| && s[i] == sep
    requires |r| <= |s| - i - 1 && s[i + 1..][|s| - i - 1 - |r|..] == r
    requires |r| < |s| - i - 1 ==> s[i + 1..][|s| - i - 1 - |r| - 1] == sep
    ensures |r| <= |s| && s[|s| - |r|..] == r
    ensures |r| < |s| ==> s[|s| - |r| - 1] == sep
  {
    SuffixOfSuffix(s, i + 1, |r|);
  }

  lemma LastSplitStep(s: string, sep: char)
    requires sep in s
    ensures LastSplit(s, sep) == LastSplit(s[IndexOf(s, sep) + 1..], sep)
  {
  }

  lemma SuffixOfSuffix(s: string, k: nat, n: nat)
    requires k <= |s| && n <= |s| - k
    ensures s[k..][|s| - k - n..] == s[|s| - n..]
  {
  }

  /** An occurrence with no later occurrence is the last one. */
  lemma LastIndexOfIs(s: string, c: char, p: nat)
    requires p < |s| && s[p] == c && c !in s[p + 1..]
    ensures LastIndexOf(s, c) == p
  {
    var k := LastIndexOf(s, c);
    forall m | p < m < |s| ensures s[m] != c {
      assert s[p + 1..][m - p - 1] == s[m];
    }
    forall m | k < m < |s| ensures s[m] != c {
      assert s[k + 1..][m - k - 1] == s[m];
    }
  }

  /** An occurrence with no earlier occurrence is the first one. */
  lemma IndexOfIs(s: string, c: char, p: nat)
    requires p < |s| && s[p] == c && c !in s[..p]
    ensures IndexOf(s, c) == p
  {
    var k := IndexOf(s, c);
    forall m | 0 <= m < p ensures s[m] != c {
      assert s[..p][m] == s[m];
    }
    forall m | 0 <= m < k ensures s[m] != c {
      assert s[..k][m] == s[m];
    }
  }

  /** `s.split(sep)[0]`: everything before the first `sep`, or all of `s`. */
  function FirstSplit(s: string, sep: char): (r: string)
    ensures sep !in r
    ensures |r| <= |s| && s[..|r|] == r
    ensures |r| < |s| ==> s[|r|] == sep
  {
    Split(s, sep)[0]
  }

  predicate IsPrefix(p: string, s: string)
  {
    |p| <= |s| && s[..|p|] == p
  }

  /** `sub` occurs in `s` starting at index `i`. */
  predicate OccursAt(s: string, sub: string, i: int)
  {
    0 <= i <= |s| - |sub| && s[i..i + |sub|] == sub
  }

  /** `s.includes(sub)`. */
  function Contains(s: string, sub: string): (b: bool)
    ensures b <==> exists i :: OccursAt(s, sub, i)
    decreases |s|
  {
    if IsPrefix(sub, s) then
      assert OccursAt(s, sub, 0);
      true
    else if |s| == 0 then
      assert forall i :: !OccursAt(s, sub, i);
      false
    else
      var b := Contains(s[1..], sub);
      assert forall i :: OccursAt(s[1..], sub, i) <==> OccursAt(s, sub, i + 1) by {
        forall i ensures OccursAt(s[1..], sub, i) <==> OccursAt(s, sub, i + 1) {
          if 0 <= i <= |s| - 1 - |sub| {
            assert s[1..][i..i + |sub|] == s[i + 1..i + 1 + |sub|];
          }
        }
      }
      assert !OccursAt(s, sub, 0);
      assert b ==> exists i :: OccursAt(s, sub, i) by {
        if b {
          var j :| OccursAt(s[1..], sub, j);
          assert OccursAt(s, sub, j + 1);
        }
      }
      assert (exists i :: OccursAt(s, sub, i)) ==> b by {
        if exists i :: OccursAt(s, sub, i) {
          var j :| OccursAt(s, sub, j);
          assert j >= 1;
          assert OccursAt(s[1..], sub, j - 1);
        }
      }
      b
  }

  /**
   * `s.slice(-n)` for n >= 1: the last `n` elements, or all of `s` when it
   * is shorter.
   */
  function SliceLast<T>(s: seq<T>, n: nat): (r: seq<T>)
    requires n >= 1
    ensures |r| == if |s| < n then |s| else n
    ensures r == s[|s| - |r|..]
  {
    if |s| <= n then s else s[|s| - n..]
  }

  /** `toUpperCase` on one character, ASCII letters only. */
  function UpperChar(c: char): (u: char)
    ensures 'a' <= c <= 'z' ==> u as int == c as int - 32
    ensures !('a' <= c <= 'z') ==> u == c
  {
    if 'a' <= c <= 'z' then (c as int - 32) as char else c
  }

  predicate NoChar(s: string, c: char) { c !in s }

  lemma ConcatAvoids(s: string, t: string, c: char)
    requires NoChar(s, c) && NoChar(t, c)
    ensures NoChar(s + t, c)
  {
  }

  lemma DigitsAvoid(s: string, c: char)
    requires AllDigits(s) && !IsDigit(c)
    ensures NoChar(s, c)
  {
  }

  /** A number written before a space reads back as the text before the first space. */
  lemma LeadingNumber(digits: string, rest: string, n: nat)
    requires AllDigits(digits) && DigitsValue(digits) == n
    requires |rest| > 0 && rest[0] == ' '
    ensures var t := digits + rest;
      ' ' in t && AllDigits(t[..IndexOf(t, ' ')]) && DigitsValue(t[..IndexOf(t, ' ')]) == n
  {
    var t := digits + rest;
    assert t[|digits|] == ' ';
    assert t[..|digits|] == digits;
    DigitsAvoid(digits, ' ');
    IndexOfIs(t, ' ', |digits|);
  }

  /** A join holds a character other than the separator only if one of the parts does. */
  lemma {:induction false} JoinAvoids(parts: seq<string>, sep: char, c: char)
    requires c != sep
    requires forall k :: 0 <= k < |parts| ==> NoChar(parts[k], c)
    ensures NoChar(Join(parts, sep), c)
    decreases |parts|
  {
    if |parts| > 1 {
      JoinAvoids(parts[1..], sep, c);
      assert NoChar(parts[0], c);
    } else if |parts| == 1 {
      assert NoChar(parts[0], c);
    }
  }
}
