/** Decimal numerals as the source prints and parses them (strconv.Itoa, FormatInt,
    Atoi, ParseInt), and the byte order on strings that DynamoDB range keys use. */
module Decimal {
  import opened Basics

  predicate IsDigit(c: char) {
    '0' <= c <= '9'
  }

  predicate AllDigits(s: string) {
    forall i :: 0 <= i < |s| ==> IsDigit(s[i])
  }

  function DigitValue(c: char): (d: nat)
    requires IsDigit(c)
    ensures d < 10
  {
    c as nat - '0' as nat
  }

  function DigitChar(d: nat): (c: char)
    requires d < 10
    ensures IsDigit(c) && DigitValue(c) == d
  {
    '0' + d as char
  }

  function Digits(n: nat): (s: string)
    ensures |s| > 0 && AllDigits(s)
  {
    if n < 10 then [DigitChar(n)] else Digits(n / 10) + [DigitChar(n % 10)]
  }

  /** The number a digit string denotes. */
  function Value(s: string): (n: nat)
    requires AllDigits(s)
  {
    if s == [] then 0 else Value(s[..|s| - 1]) * 10 + DigitValue(s[|s| - 1])
  }

  function Itoa(n: int): string {
    if n < 0 then "-" + Digits(-n) else Digits(n)
  }

  /** An optional sign and at least one digit; anything else is a syntax error. */
  function Atoi(s: string): Option<int> {
    var signed := |s| > 0 && (s[0] == '-' || s[0] == '+');
    var body := if signed then s[1..] else s;
    if body == [] || !AllDigits(body) then None
    else
      var magnitude: int := Value(body);
      Some(if signed && s[0] == '-' then -magnitude else magnitude)
  }

  lemma {:induction false} ValueOfDigits(n: nat)
    ensures Value(Digits(n)) == n
  {
    if n >= 10 {
      ValueOfDigits(n / 10);
      assert Digits(n)[..|Digits(n)| - 1] == Digits(n / 10);
    } else {
      assert Digits(n)[..0] == [];
    }
  }

  /** What the cache writes with Itoa or FormatInt it reads back unchanged. */
  lemma ItoaRoundTrip(n: int)
    ensures Atoi(Itoa(n)) == Some(n)
  {
    if n < 0 {
      ValueOfDigits(-n);
      assert Itoa(n)[1..] == Digits(-n);
    } else {
      ValueOfDigits(n);
      assert IsDigit(Itoa(n)[0]);
    }
  }

  /** A printed number ends in a digit and contains no separator. */
  lemma ItoaShape(n: int)
    ensures |Itoa(n)| > 0 && IsDigit(Itoa(n)[|Itoa(n)| - 1])
    ensures forall i :: 0 <= i < |Itoa(n)| ==> Itoa(n)[i] != '#'
  {
  }

  // ---- byte order on strings ----

  predicate LexLe(a: string, b: string) {
    a == [] || (b != [] && (a[0] < b[0] || (a[0] == b[0] && LexLe(a[1..], b[1..]))))
  }

  lemma {:induction false} LexAntisym(a: string, b: string)
    requires LexLe(a, b) && LexLe(b, a)
    ensures a == b
  {
    if a != [] {
      LexAntisym(a[1..], b[1..]);
      assert a == [a[0]] + a[1..] && b == [b[0]] + b[1..];
    }
  }

  /** Comparing strings also compares their first k characters. */
  lemma {:induction false} LexTake(a: string, b: string, k: nat)
    requires LexLe(a, b)
    ensures LexLe(a[..Min(k, |a|)], b[..Min(k, |b|)])
  {
    if k > 0 && a != [] && b != [] {
      var a', b' := a[..Min(k, |a|)], b[..Min(k, |b|)];
      if a[0] == b[0] {
        LexTake(a[1..], b[1..], k - 1);
        assert a'[1..] == a[1..][..Min(k - 1, |a| - 1)];
        assert b'[1..] == b[1..][..Min(k - 1, |b| - 1)];
      }
    }
  }

  /** A prefix comes first. */
  lemma {:induction false} LexPrefix(a: string, b: string)
    requires a <= b
    ensures LexLe(a, b)
  {
    if a != [] { LexPrefix(a[1..], b[1..]); }
  }

  /** Where equally long strings differ decides, whatever follows them. */
  lemma {:induction false} LexExtend(a: string, b: string, x: string, y: string)
    requires |a| == |b| && a != b
    ensures LexLe(a + x, b + y) == LexLe(a, b)
  {
    assert (a + x)[0] == a[0] && (b + y)[0] == b[0];
    assert (a + x)[1..] == a[1..] + x && (b + y)[1..] == b[1..] + y;
    if a[0] == b[0] {
      assert a == [a[0]] + a[1..] && b == [b[0]] + b[1..];
      LexExtend(a[1..], b[1..], x, y);
    }
  }

  /** A common prefix does not matter. */
  lemma {:induction false} LexSame(a: string, x: string, y: string)
    ensures LexLe(a + x, a + y) == LexLe(x, y)
  {
    if a == [] {
      assert a + x == x && a + y == y;
    } else {
      assert (a + x)[1..] == a[1..] + x && (a + y)[1..] == a[1..] + y;
      LexSame(a[1..], x, y);
    }
  }

  /** On equally long digit strings the byte order is the numeric order. */
  lemma {:induction false} LexIsNumeric(a: string, b: string)
    requires AllDigits(a) && AllDigits(b) && |a| == |b|
    ensures LexLe(a, b) <==> Value(a) <= Value(b)
    ensures Value(a) == Value(b) ==> a == b
  {
    if a != [] {
      var n := |a| - 1;
      var a', b' := a[..n], b[..n];
      LexIsNumeric(a', b');
      assert a == a' + [a[n]] && b == b' + [b[n]];
      if a' == b' {
        LexSame(a', [a[n]], [b[n]]);
      } else {
        LexExtend(a', b', [a[n]], [b[n]]);
      }
    }
  }
}
