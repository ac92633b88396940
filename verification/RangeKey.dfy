/** DynamoDB's range key. A row is filed under "type#mtime", and the updates of type T
    after a token are read as the byte range from "T#(token+1)" to "(T+1)#0". */
module RangeKey {
  import opened Basics
  import opened Decimal

  function DataTypeMtime(dataType: int, mtime: int): string {
    Itoa(dataType) + "#" + Itoa(mtime)
  }

  /** The key condition of the query: BETWEEN, both ends included. */
  predicate InQueryRange(key: string, dataType: int, token: int) {
    && LexLe(DataTypeMtime(dataType, token + 1), key)
    && LexLe(key, Itoa(dataType + 1) + "#0")
  }

  /** The digits of `a` are a proper prefix of the digits of `b`. */
  predicate ProperDigitPrefix(a: nat, b: nat) {
    Digits(a) < Digits(b)
  }

  /** The other types whose keys fall between T and T+1 in byte order: those that extend
      the digits of T, and those that a carry from T to T+1 leaves as a shorter prefix. */
  predicate Straddles(u: nat, t: nat) {
    || ProperDigitPrefix(t, u)
    || (ProperDigitPrefix(u, t + 1) && !ProperDigitPrefix(u, t))
  }

  predicate SameDigitCount(a: nat, b: nat) {
    |Digits(a)| == |Digits(b)|
  }

  /** '#' sorts below every digit, so it acts as an end marker. */
  lemma {:induction false} EndMarker(u: string, t: string, x: string, y: string)
    requires AllDigits(u) && AllDigits(t)
    ensures u != t ==> LexLe(u + "#" + x, t + "#" + y) == LexLe(u, t)
    ensures u == t ==> LexLe(u + "#" + x, t + "#" + y) == LexLe(x, y)
  {
    var a, b := u + "#" + x, t + "#" + y;
    if u == t {
      LexSame(u + "#", x, y);
    } else if u != [] && t != [] {
      assert a[0] == u[0] && b[0] == t[0];
      if u[0] == t[0] {
        assert u == [u[0]] + u[1..] && t == [t[0]] + t[1..];
        assert a[1..] == u[1..] + "#" + x && b[1..] == t[1..] + "#" + y;
        EndMarker(u[1..], t[1..], x, y);
      }
    } else if u == [] {
      assert a[0] == '#' && b[0] == t[0];
    } else {
      assert a[0] == u[0] && b[0] == '#';
    }
  }

  /** Adding one adds zero or one to every leading part of the numeral. */
  lemma {:induction false} PrefixOfSuccessor(t: string, s: string, k: nat)
    requires AllDigits(t) && AllDigits(s) && |t| == |s| && k <= |t|
    requires Value(t) <= Value(s) <= Value(t) + 1
    ensures Value(t[..k]) <= Value(s[..k]) <= Value(t[..k]) + 1
    decreases |t|
  {
    if k < |t| {
      var n := |t| - 1;
      PrefixOfSuccessor(t[..n], s[..n], k);
      assert t[..n][..k] == t[..k] && s[..n][..k] == s[..k];
    } else {
      assert t[..k] == t && s[..k] == s;
    }
  }

  /** Cut to the length of the shorter, a string between two successive numerals of equal
      length agrees with one of them. */
  lemma BetweenAgreesWithOne(t: nat, u: string)
    requires SameDigitCount(t, t + 1) && AllDigits(u)
    requires LexLe(Digits(t), u) && LexLe(u, Digits(t + 1))
    ensures var a, b := Digits(t), Digits(t + 1);
            var k := Min(|a|, |u|);
            u[..k] == a[..k] || u[..k] == b[..k]
  {
    var a, b := Digits(t), Digits(t + 1);
    var k := Min(|a|, |u|);
    ValueOfDigits(t);
    ValueOfDigits(t + 1);
    LexTake(a, u, k);
    LexTake(u, b, k);
    PrefixOfSuccessor(a, b, k);
    LexIsNumeric(a[..k], u[..k]);
    LexIsNumeric(u[..k], b[..k]);
  }

  /** A digit string strictly between two successive numerals of equal length extends the
      smaller one, or is a prefix of the larger one only. */
  lemma BetweenOnlyStraddlers(t: nat, u: string)
    requires SameDigitCount(t, t + 1) && AllDigits(u)
    requires u != Digits(t) && u != Digits(t + 1)
    requires LexLe(Digits(t), u) && LexLe(u, Digits(t + 1))
    ensures Digits(t) < u || (u < Digits(t + 1) && !(u < Digits(t)))
  {
    var a, b := Digits(t), Digits(t + 1);
    BetweenAgreesWithOne(t, u);
    if b <= u { LexPrefix(b, u); LexAntisym(b, u); }
    if u <= a { LexPrefix(u, a); LexAntisym(u, a); }
    if |u| >= |a| {
      assert a[..|a|] == a && b[..|a|] == b;
    } else {
      assert u[..|u|] == u;
    }
  }

  lemma ExtensionIsBetween(t: nat, u: string)
    requires SameDigitCount(t, t + 1) && Digits(t) < u
    ensures LexLe(Digits(t), u) && LexLe(u, Digits(t + 1))
  {
    var a, b, n := Digits(t), Digits(t + 1), |Digits(t)|;
    ValueOfDigits(t);
    ValueOfDigits(t + 1);
    LexPrefix(a, u);
    LexIsNumeric(a, b);
    assert u == a + u[n..] && b == b + "";
    LexExtend(a, b, u[n..], "");
  }

  lemma PrefixOfLargerIsBetween(a: string, b: string, u: string)
    requires |a| == |b| && LexLe(a, b) && u < b && !(u < a)
    ensures LexLe(a, u) && LexLe(u, b)
  {
    var k := |u|;
    LexPrefix(u, b);
    LexTake(a, b, k);
    assert b[..k] == u;
    assert a[..k] != u by { assert a[..k] <= a; }
    assert a == a[..k] + a[k..] && u == u + "";
    LexExtend(a[..k], u, a[k..], "");
  }

  lemma CarryPrefixIsBetween(t: nat, u: string)
    requires SameDigitCount(t, t + 1) && u < Digits(t + 1) && !(u < Digits(t))
    ensures LexLe(Digits(t), u) && LexLe(u, Digits(t + 1))
  {
    assert LexLe(Digits(t), Digits(t + 1)) by {
      ValueOfDigits(t);
      ValueOfDigits(t + 1);
      LexIsNumeric(Digits(t), Digits(t + 1));
    }
    PrefixOfLargerIsBetween(Digits(t), Digits(t + 1), u);
  }

  /** Which digit strings lie strictly between two successive numerals of equal length. */
  lemma BetweenSuccessors(t: nat, u: string)
    requires SameDigitCount(t, t + 1) && AllDigits(u)
    requires u != Digits(t) && u != Digits(t + 1)
    ensures (LexLe(Digits(t), u) && LexLe(u, Digits(t + 1)))
            <==> (Digits(t) < u || (u < Digits(t + 1) && !(u < Digits(t))))
  {
    if LexLe(Digits(t), u) && LexLe(u, Digits(t + 1)) { BetweenOnlyStraddlers(t, u); }
    if Digits(t) < u { ExtensionIsBetween(t, u); }
    if u < Digits(t + 1) && !(u < Digits(t)) { CarryPrefixIsBetween(t, u); }
  }

  lemma DigitsInjective(a: nat, b: nat)
    ensures Digits(a) == Digits(b) <==> a == b
  {
    ValueOfDigits(a);
    ValueOfDigits(b);
  }

  lemma {:induction false} PositiveIsNotZeroString(n: nat)
    requires n >= 1
    ensures Digits(n)[0] > '0' && !LexLe(Digits(n), "0") && LexLe("1", Digits(n))
  {
    if n >= 10 {
      PositiveIsNotZeroString(n / 10);
    }
    assert LexLe("", Digits(n)[1..]);
    assert "1"[1..] == "";
  }

  /** A key of another type is picked up by T's range exactly when that type straddles it. */
  lemma ForeignKeySelected(t: nat, u: nat, mtime: nat, token: int)
    requires SameDigitCount(t, t + 1) && u != t && mtime >= 1
    ensures InQueryRange(DataTypeMtime(u, mtime), t, token) <==> Straddles(u, t)
  {
    DigitsInjective(u, t);
    DigitsInjective(u, t + 1);
    EndMarker(Digits(t), Digits(u), Itoa(token + 1), Itoa(mtime));
    EndMarker(Digits(u), Digits(t + 1), Itoa(mtime), "0");
    assert Itoa(t + 1) + "#0" == Digits(t + 1) + "#" + "0";
    if u == t + 1 {
      PositiveIsNotZeroString(mtime);
      assert !(Digits(u) < Digits(t)) && !(Digits(t) < Digits(u));
    } else {
      BetweenSuccessors(t, Digits(u));
    }
  }

  /** Where the printed forms of the token's successor and of an mtime differ in length, what
      matters is their common front: the shorter one must not be the larger. */
  predicate FrontDecides(a: string, b: string)
    requires AllDigits(a) && AllDigits(b)
  {
    || |a| == |b|
    || (|a| < |b| && Value(a) <= Value(b[..|a|]))
    || (|a| > |b| && Value(b) <= Value(a[..|b|]))
  }

  /** The tokens for which the byte order finds an mtime on its side of the token. */
  predicate TokenSelects(token: int, mtime: nat) {
    token <= 0 || FrontDecides(Digits(token + 1), Digits(mtime))
  }

  /** A string of digits against a longer one: the front of the longer one decides, and if that
      is equal the shorter one comes first. */
  lemma FrontOrder(a: string, b: string)
    requires AllDigits(a) && AllDigits(b) && |a| < |b|
    ensures LexLe(a, b) <==> Value(a) <= Value(b[..|a|])
    ensures LexLe(b, a) <==> Value(b[..|a|]) < Value(a)
  {
    var front, rest := b[..|a|], b[|a|..];
    assert b == front + rest && a == a + "";
    LexIsNumeric(a, front);
    LexIsNumeric(front, a);
    if a == front {
      LexSame(a, "", rest);
      LexSame(a, rest, "");
    } else {
      LexExtend(a, front, "", rest);
      LexExtend(front, a, rest, "");
    }
  }

  lemma {:induction false} MoreDigitsIsLarger(a: nat, b: nat)
    requires |Digits(a)| < |Digits(b)|
    ensures a < b
  {
    if a >= 10 { MoreDigitsIsLarger(a / 10, b / 10); }
  }

  /** The byte order on the printed numbers is the numeric order exactly when the front decides
      it that way. */
  lemma PrintedOrder(a: nat, b: nat)
    ensures (LexLe(Digits(a), Digits(b)) <==> a <= b) <==> FrontDecides(Digits(a), Digits(b))
  {
    if |Digits(a)| < |Digits(b)| {
      FrontOrder(Digits(a), Digits(b));
      MoreDigitsIsLarger(a, b);
    } else if |Digits(a)| > |Digits(b)| {
      FrontOrder(Digits(b), Digits(a));
      MoreDigitsIsLarger(b, a);
    } else {
      ValueOfDigits(a);
      ValueOfDigits(b);
      LexIsNumeric(Digits(a), Digits(b));
    }
  }

  /** A key of the queried type is in the range exactly when its printed mtime does not sort
      before the printed successor of the token. */
  lemma OwnKeyOrder(t: nat, mtime: nat, token: int)
    requires SameDigitCount(t, t + 1)
    ensures InQueryRange(DataTypeMtime(t, mtime), t, token) <==> LexLe(Itoa(token + 1), Itoa(mtime))
  {
    assert LexLe(Digits(t), Digits(t + 1)) && Digits(t) != Digits(t + 1) by {
      ValueOfDigits(t);
      ValueOfDigits(t + 1);
      LexIsNumeric(Digits(t), Digits(t + 1));
    }
    EndMarker(Digits(t), Digits(t), Itoa(token + 1), Itoa(mtime));
    EndMarker(Digits(t), Digits(t + 1), Itoa(mtime), "0");
    assert Itoa(t + 1) + "#0" == Digits(t + 1) + "#" + "0";
  }

  lemma SmallTokensSelect(mtime: nat, token: int)
    requires token <= 0
    ensures LexLe(Itoa(token + 1), Itoa(mtime)) <==> mtime > token
  {
    if token + 1 < 0 {
      assert Itoa(token + 1)[0] == '-';
    } else if token == -1 {
      assert Itoa(0) == "0" && "0"[1..] == "";
      assert IsDigit(Digits(mtime)[0]);
    } else {
      assert Itoa(1) == "1";
      if mtime >= 1 { PositiveIsNotZeroString(mtime); } else { assert Itoa(mtime) == "0"; }
    }
  }

  /** A key of the queried type is selected rightly, that is, exactly when it is newer than the
      token, if and only if the token selects its mtime. */
  lemma OwnKeySelected(t: nat, mtime: nat, token: int)
    requires SameDigitCount(t, t + 1)
    ensures (InQueryRange(DataTypeMtime(t, mtime), t, token) <==> mtime > token) <==> TokenSelects(token, mtime)
  {
    OwnKeyOrder(t, mtime, token);
    if token <= 0 { SmallTokensSelect(mtime, token); } else { PrintedOrder(token + 1, mtime); }
  }

  lemma LexTransFirst(a: string, b: string, c: string)
    requires LexLe(a, b) && LexLe(b, c) && a != []
    ensures c != [] && a[0] <= c[0]
  {
  }

  lemma {:induction false} AllNines(t: nat)
    ensures |Digits(t)| <= |Digits(t + 1)| <= |Digits(t)| + 1
    ensures !SameDigitCount(t, t + 1) ==> Digits(t)[0] == '9' && Digits(t + 1)[0] == '1'
  {
    if t >= 10 {
      if t % 10 == 9 {
        AllNines(t / 10);
        assert (t + 1) / 10 == t / 10 + 1;
      } else {
        assert (t + 1) / 10 == t / 10;
      }
    } else if t == 9 {
      assert Digits(10) == Digits(1) + Digits(0);
    }
  }

  /** When T+1 needs one more digit the upper bound drops below the lower one, and the
      query returns nothing at all, of any type. */
  lemma CarryEmptiesRange(t: nat, token: int, key: string)
    requires !SameDigitCount(t, t + 1)
    ensures !InQueryRange(key, t, token)
  {
    var lo, hi := DataTypeMtime(t, token + 1), Itoa(t + 1) + "#0";
    AllNines(t);
    if InQueryRange(key, t, token) {
      LexTransFirst(lo, key, hi);
    }
  }

  /** The string range stands in for the numeric filter `type == T && mtime > token` on a stored
      key, for a key of type T if and only if the token selects its mtime, and for a key of
      another type if and only if that type does not straddle T; where T+1 has more digits, only
      for keys the filter would leave out. */
  lemma RangeIsNumericFilter(t: nat, u: nat, mtime: nat, token: int)
    requires mtime >= 1
    ensures (InQueryRange(DataTypeMtime(u, mtime), t, token) <==> (u == t && mtime > token))
            <==> (if !SameDigitCount(t, t + 1) then u != t || mtime <= token
                  else if u == t then TokenSelects(token, mtime)
                  else !Straddles(u, t))
  {
    if !SameDigitCount(t, t + 1) {
      CarryEmptiesRange(t, token, DataTypeMtime(u, mtime));
    } else if u == t {
      OwnKeySelected(t, mtime, token);
    } else {
      ForeignKeySelected(t, u, mtime, token);
    }
  }

  /** Both kinds of straddling type exist: type 12 also reads type 120, ... */
  lemma LongerTypeIsRead(mtime: nat)
    requires mtime >= 1
    ensures InQueryRange(DataTypeMtime(120, mtime), 12, mtime)
  {
    assert Digits(120) == Digits(12) + "0";
    ForeignKeySelected(12, 120, mtime, mtime);
  }

  /** ... and type 19 also reads type 2. */
  lemma ShorterTypeIsRead(mtime: nat)
    requires mtime >= 1
    ensures InQueryRange(DataTypeMtime(2, mtime), 19, mtime)
  {
    assert Digits(20) == Digits(2) + "0" && Digits(19) == Digits(1) + "9";
    ForeignKeySelected(19, 2, mtime, mtime);
  }

  /** A token whose successor has one digit, 9, loses every row of any type that the server has
      stamped or will stamp before the year 2255. */
  lemma ShortTokenLosesRows(t: nat, mtime: nat)
    requires |Digits(mtime)| == 13 && Digits(mtime)[0] < '9'
    ensures mtime > 8 && !InQueryRange(DataTypeMtime(t, mtime), t, 8)
  {
    MoreDigitsIsLarger(8, mtime);
    if SameDigitCount(t, t + 1) {
      OwnKeyOrder(t, mtime, 8);
      assert Itoa(9) == "9";
    } else {
      CarryEmptiesRange(t, 8, DataTypeMtime(t, mtime));
    }
  }
}
