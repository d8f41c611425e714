/**
  * Small string helpers shared by the display rules: an optional value,
  * decimal rendering of naturals (JavaScript's `toString` on a non-negative
  * integer), `padStart(2, "0")`, ASCII case mapping, splitting on a separator
  * character, and JavaScript's lexicographic string comparison.
  */
module Text {

  datatype Option<T> = None | Some(value: T)

  predicate IsDigit(c: char) {
    '0' <= c <= '9'
  }

  predicate AllDigits(s: string) {
    forall i :: 0 <= i < |s| ==> IsDigit(s[i])
  }

  function DigitChar(d: nat): (c: char)
    requires d < 10
    ensures IsDigit(c) && c as int - '0' as int == d
  {
    ('0' as int + d) as char
  }

  function DigitValue(c: char): nat
    requires IsDigit(c)
  {
    c as int - '0' as int
  }

  /** Decimal rendering of a natural number, without leading zeros. */
  function NatToString(n: nat): (s: string)
    ensures |s| >= 1 && AllDigits(s)
    ensures (n < 10) == (|s| == 1)
    ensures (10 <= n < 100) == (|s| == 2)
    ensures n > 0 ==> s[0] != '0'
    decreases n
  {
    if n < 10 then [DigitChar(n)] else NatToString(n / 10) + [DigitChar(n % 10)]
  }

  /** The number a string of decimal digits denotes. */
  function DigitsValue(s: string): nat
    requires AllDigits(s)
  {
    if s == [] then 0 else DigitsValue(s[..|s| - 1]) * 10 + DigitValue(s[|s| - 1])
  }

  lemma {:induction false} NatToStringRoundTrip(n: nat)
    ensures DigitsValue(NatToString(n)) == n
    decreases n
  {
    var s := NatToString(n);
    if n >= 10 {
      NatToStringRoundTrip(n / 10);
      assert s[..|s| - 1] == NatToString(n / 10);
    }
  }

  /** JavaScript's `s.padStart(2, "0")`. */
  function PadStart2(s: string): (r: string)
    ensures |s| >= 2 ==> r == s
    ensures |s| < 2 ==> |r| == 2 && r[2 - |s|..] == s
    ensures forall i :: 0 <= i < 2 - |s| ==> r[i] == '0'
    decreases 2 - |s|
  {
    if |s| >= 2 then s else PadStart2(['0'] + s)
  }

  /** `n.toString().padStart(2, "0")`: two digits that denote `n`, for `n < 100`. */
  function TwoDigits(n: nat): (r: string)
    ensures |r| >= 2 && (n < 100 <==> |r| == 2)
  {
    PadStart2(NatToString(n))
  }

  lemma TwoDigitsValue(n: nat)
    requires n < 100
    ensures |TwoDigits(n)| == 2 && AllDigits(TwoDigits(n))
    ensures DigitsValue(TwoDigits(n)) == n
  {
    var s := NatToString(n);
    NatToStringRoundTrip(n);
    if n < 10 {
      var r := TwoDigits(n);
      assert r == ['0'] + s;
      assert r[..1] == "0";
    }
  }

  /** JavaScript's `toUpperCase` restricted to ASCII letters. */
  function UpperChar(c: char): char {
    if 'a' <= c <= 'z' then (c as int - 32) as char else c
  }

  /** JavaScript's `toLowerCase` restricted to ASCII letters. */
  function LowerChar(c: char): char {
    if 'A' <= c <= 'Z' then (c as int + 32) as char else c
  }

  function ToUpper(s: string): (r: string)
    ensures |r| == |s|
    ensures forall i :: 0 <= i < |s| ==> r[i] == UpperChar(s[i])
  {
    if s == [] then [] else [UpperChar(s[0])] + ToUpper(s[1..])
  }

  function ToLower(s: string): (r: string)
    ensures |r| == |s|
    ensures forall i :: 0 <= i < |s| ==> r[i] == LowerChar(s[i])
  {
    if s == [] then [] else [LowerChar(s[0])] + ToLower(s[1..])
  }

  /** Number of occurrences of `c` in `s`. */
  function Count(s: string, c: char): nat {
    if s == [] then 0 else (if s[0] == c then 1 else 0) + Count(s[1..], c)
  }

  /** JavaScript's `s.split(sep)` for a one-character separator. */
  function Split(s: string, sep: char): (parts: seq<string>)
    ensures |parts| == Count(s, sep) + 1
    ensures forall i :: 0 <= i < |parts| ==> sep !in parts[i]
  {
    if s == [] then [""]
    else
      var rest := Split(s[1..], sep);
      if s[0] == sep then [""] + rest
      else [[s[0]] + rest[0]] + rest[1..]
  }

  /** JavaScript's `parts.join(sep)` for a one-character separator. */
  function Join(parts: seq<string>, sep: char): string
    requires |parts| >= 1
  {
    if |parts| == 1 then parts[0] else parts[0] + [sep] + Join(parts[1..], sep)
  }

  lemma {:induction false} SplitJoin(s: string, sep: char)
    ensures Join(Split(s, sep), sep) == s
  {
    if s != [] {
      var rest := Split(s[1..], sep);
      SplitJoin(s[1..], sep);
      if s[0] == sep {
        assert Split(s, sep)[1..] == rest;
      } else {
        var parts := Split(s, sep);
        if |rest| == 1 {
          assert parts == [[s[0]] + rest[0]];
        } else {
          assert parts[1..] == rest[1..];
          assert Join(rest, sep) == rest[0] + [sep] + Join(rest[1..], sep);
        }
      }
    }
  }

  /** Strict lexicographic order on strings: JavaScript's `a < b`. */
  predicate LexLess(a: string, b: string) {
    if a == [] then b != []
    else if b == [] then false
    else if a[0] != b[0] then a[0] < b[0]
    else LexLess(a[1..], b[1..])
  }

  /** JavaScript's `a <= b` on strings. */
  predicate LexLessEq(a: string, b: string) {
    a == b || LexLess(a, b)
  }

  /** String `<` is a strict order: never both ways, and never from a string to itself. */
  lemma {:induction false} LexLessAsymmetric(a: string, b: string)
    ensures !(LexLess(a, b) && LexLess(b, a))
    ensures !LexLess(a, a)
  {
    if a != [] && b != [] {
      LexLessAsymmetric(a[1..], b[1..]);
    }
    if a != [] {
      LexLessAsymmetric(a[1..], a[1..]);
    }
  }

  /** Comparing two strings that start with prefixes of equal length decides on the prefixes first. */
  lemma {:induction false} LexLessAppend(p: string, a: string, q: string, b: string)
    requires |p| == |q|
    ensures LexLess(p + a, q + b) == if p != q then LexLess(p, q) else LexLess(a, b)
  {
    if p != [] {
      assert (p + a)[1..] == p[1..] + a;
      assert (q + b)[1..] == q[1..] + b;
      if p[0] == q[0] {
        LexLessAppend(p[1..], a, q[1..], b);
        assert p != q <==> p[1..] != q[1..] by {
          if p[1..] == q[1..] {
            assert p == [p[0]] + p[1..];
            assert q == [q[0]] + q[1..];
          }
        }
      }
    } else {
      assert p + a == a && q + b == b;
    }
  }

  /** On two-digit strings the lexicographic order is the numeric order. */
  lemma TwoDigitOrder(a: string, b: string)
    requires |a| == 2 && |b| == 2 && AllDigits(a) && AllDigits(b)
    ensures LexLess(a, b) <==> DigitsValue(a) < DigitsValue(b)
    ensures a == b <==> DigitsValue(a) == DigitsValue(b)
  {
    TwoDigitValue(a);
    TwoDigitValue(b);
    assert a[1..][1..] == [] && b[1..][1..] == [];
    if a[0] == b[0] && a[1] == b[1] {
      assert a == b;
    }
    if a[0] == b[0] {
      assert a[1..] == [a[1]] && b[1..] == [b[1]];
      assert LexLess(a, b) == LexLess([a[1]], [b[1]]);
      assert [a[1]][1..] == [] && [b[1]][1..] == [];
      assert LexLess([a[1]], [b[1]]) == (a[1] < b[1]);
    }
  }

  lemma TwoDigitValue(a: string)
    requires |a| == 2 && AllDigits(a)
    ensures DigitsValue(a) == 10 * DigitValue(a[0]) + DigitValue(a[1])
  {
    var head := a[..1];
    assert head == [a[0]] && head[..0] == [];
    assert DigitsValue(head) == DigitValue(a[0]);
  }
}
