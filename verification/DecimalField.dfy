/** Numerals in fields: how wide they are, and whether they can be read back. */
module DecimalField {
  import opened Decimal

  predicate FillOk(f: Format) {
    f.fill == BLANK || f.fill == ZERO
  }

  function Max(a: int, b: int): int {
    if a < b then b else a
  }

  lemma {:induction false} Repeated(c: int, n: int)
    ensures |Repeat(c, n)| == Max(0, n)
    ensures forall k :: 0 <= k < |Repeat(c, n)| ==> Repeat(c, n)[k] == c
    decreases n
  {
    if n > 0 {
      Repeated(c, n - 1);
    }
  }

  /** A field is as wide as what is in it, and at least as wide as was asked for. */
  lemma FieldWidth(str: Text, neg: bool, f: Format)
    requires FillOk(f)
    ensures |Field(str, neg, f)| == Max(Cut(|str|, f) + (if neg then 1 else 0), Limited(f.fmin))
  {
    Repeated(f.fill, Leading(|str|, neg, f));
  }

  /** How many characters of a text are printed, and how wide the field is. */
  function Printed(size: nat, fmax: int): nat {
    if 0 < fmax <= 80 && size > fmax then fmax else size
  }

  function Width(body: nat, fmin: int): nat {
    if body < fmin <= 80 then fmin else body
  }

  /** What a field looks like. A precision from 1 to 80 cuts the text; a width up to 80 is filled up, behind
      the text or in front of it; in front, blanks stand before the sign and zeros behind it. */
  lemma FieldIs(str: Text, neg: bool, f: Format)
    requires FillOk(f)
    ensures var m, sign := Printed(|str|, f.fmax), if neg then [45] else [];
            var w, t := Width(|sign| + m, f.fmin), Field(str, neg, f);
            && |t| == w
            && (f.leftjust ==>
                  && t[..|sign| + m] == sign + str[..m]
                  && forall k :: |sign| + m <= k < w ==> t[k] == f.fill)
            && (!f.leftjust && f.fill == 32 ==>
                  && t[w - m - |sign|..] == sign + str[..m]
                  && forall k :: 0 <= k < w - m - |sign| ==> t[k] == 32)
            && (!f.leftjust && f.fill == 48 ==>
                  && t[..|sign|] == sign && t[w - m..] == str[..m]
                  && forall k :: |sign| <= k < w - m ==> t[k] == 48)
  {
    hide Field, Repeat;
    var m := Printed(|str|, f.fmax);
    var sign := if neg then [45] else [];
    var fill := Repeat(f.fill, Leading(|str|, neg, f));
    FieldLaid(str, neg, f, m, sign, fill);
    Repeated(f.fill, Leading(|str|, neg, f));
    var t, x := Field(str, neg, f), sign + str[..m];
    if f.leftjust {
      Halves(t, x, fill);
    } else if f.fill == 32 {
      Halves(t, fill, x);
    } else {
      Halves(t, sign, fill + str[..m]);
      Halves(t, sign + fill, str[..m]);
    }
  }

  lemma FieldLaid(str: Text, neg: bool, f: Format, m: nat, sign: Text, fill: Text)
    requires FillOk(f) && m == Printed(|str|, f.fmax) && sign == if neg then [45] else []
    requires fill == Repeat(f.fill, Leading(|str|, neg, f))
    ensures f.leftjust ==> Field(str, neg, f) == sign + str[..m] + fill
    ensures !f.leftjust && f.fill == 32 ==> Field(str, neg, f) == fill + (sign + str[..m])
    ensures !f.leftjust && f.fill == 48 ==>
              Field(str, neg, f) == sign + (fill + str[..m]) && Field(str, neg, f) == sign + fill + str[..m]
    ensures m <= |str| && Max(0, Leading(|str|, neg, f)) == Width(|sign| + m, f.fmin) - |sign| - m
  {
    hide Repeat;
  }

  lemma Halves(t: Text, a: Text, b: Text)
    requires t == a + b
    ensures t[..|a|] == a && t[|a|..] == b && |t| == |a| + |b|
    ensures forall k :: 0 <= k < |a| ==> t[k] == a[k]
    ensures forall k :: |a| <= k < |t| ==> t[k] == b[k - |a|]
  {
  }

  // ---- zeros ----

  lemma {:induction false} ZerosInFront(n: int, t: Text)
    ensures Val(Repeat(ZERO, n) + t) == Val(t)
    decreases |t|, n
  {
    var z := Repeat(ZERO, n);
    if |t| > 0 {
      var m := |t| - 1;
      assert (z + t)[..|z + t| - 1] == z + t[..m];
      ZerosInFront(n, t[..m]);
    } else {
      assert z + t == z;
      Zeros(n);
    }
  }

  lemma {:induction false} Zeros(n: int)
    ensures Val(Repeat(ZERO, n)) == 0
    decreases n
  {
    if n > 0 {
      Zeros(n - 1);
      Repeated(ZERO, n);
      Repeated(ZERO, n - 1);
      assert Repeat(ZERO, n)[..|Repeat(ZERO, n)| - 1] == Repeat(ZERO, n - 1);
    }
  }

  lemma {:induction false} ZerosBehind(t: Text, n: nat)
    ensures Val(t + Repeat(ZERO, n)) == Val(t) * Pow10(n)
  {
    if n == 0 {
      assert t + Repeat(ZERO, n) == t;
    } else {
      ZerosBehind(t, n - 1);
      Repeated(ZERO, n);
      Repeated(ZERO, n - 1);
      var a := t + Repeat(ZERO, n);
      assert a[..|a| - 1] == t + Repeat(ZERO, n - 1);
      Tenfold(Val(t), n);
    }
  }

  lemma Tenfold(x: int, n: nat)
    requires n > 0
    ensures x * Pow10(n) == 10 * (x * Pow10(n - 1))
  {
    assert x * (10 * Pow10(n - 1)) == 10 * (x * Pow10(n - 1));
  }

  // ---- multiples of 2^32 ----

  function Pow2(k: nat): (r: nat)
    ensures r > 0
  {
    if k == 0 then 1 else 2 * Pow2(k - 1)
  }

  /** An odd factor does not matter. */
  lemma {:induction false} OddFactor(x: int, m: int, k: nat, q: int) returns (r: int)
    requires m % 2 == 1 && x * m == q * Pow2(k)
    ensures x == r * Pow2(k)
    decreases k
  {
    if k == 0 {
      r := x;
    } else {
      var y := q * Pow2(k - 1) - x * (m / 2);
      assert q * Pow2(k) == 2 * (q * Pow2(k - 1));
      assert x * m == 2 * (x * (m / 2)) + x;
      assert x == 2 * y;
      assert 2 * (y * m) == x * m;
      r := OddFactor(y, m, k - 1, q);
      assert r * Pow2(k) == 2 * (r * Pow2(k - 1));
    }
  }

  lemma ThirtyTwo()
    ensures Pow2(32) == TWO32
  {
    assert Pow2(8) == 256;
    assert Pow2(16) == 65536;
    assert Pow2(24) == 16777216;
  }

  lemma OddNines(k: nat)
    ensures k > 0 ==> (Pow10(k) - 1) % 2 == 1
  {
    if k > 0 {
      var h := 5 * Pow10(k - 1) - 1;
      assert Pow10(k) - 1 == 2 * h + 1;
      Odd(h);
    }
  }

  lemma Odd(h: int)
    ensures (2 * h + 1) % 2 == 1
  {
  }

  /** Zeros behind a number make it another, also in 32 bits. */
  lemma OtherNumber(n: nat, k: nat)
    requires n <= -INT_MIN && (Wrap(n * Pow10(k)) == Wrap(n))
    ensures n == 0 || k == 0
  {
    if k > 0 {
      var x := n * Pow10(k);
      SameClass(x, n);
      var q := (x - n) / TWO32;
      ThirtyTwo();
      assert x - n == n * (Pow10(k) - 1);
      OddNines(k);
      var r := OddFactor(n, Pow10(k) - 1, 32, q);
      Small(n, r);
    }
  }

  lemma SameClass(x: int, y: int)
    requires Wrap(x) == Wrap(y)
    ensures x - y == (x - y) / TWO32 * TWO32
  {
  }

  lemma Small(n: nat, r: int)
    requires n == r * TWO32 && n < TWO32
    ensures n == 0
  {
  }

  // ---- reading it back ----

  /** What is read of digits behind blanks and a sign. */
  function Value(n: int, neg: bool): int {
    if neg then Wrap(-Wrap(n)) else Wrap(n)
  }

  lemma ValueExactly(n: nat, m: nat, neg: bool)
    requires n <= (if neg then -INT_MIN else INT_MAX)
    ensures Value(n, neg) == if neg then 0 - n else n
    ensures Value(m, neg) == Value(n, neg) <==> Wrap(m) == Wrap(n)
  {
  }

  /** The parts of a field: blanks, a sign, digits and what is behind. */
  lemma FieldParts(n: nat, neg: bool, f: Format, rest: Text)
    requires FillOk(f) && Limited(f.fmax) == 0
    ensures var t, z := Numeral(n), Repeat(f.fill, Leading(|Numeral(n)|, neg, f));
            var sign := if neg then [MINUS] else [];
            Field(t, neg, f) + rest ==
            if f.fill == BLANK then (if f.leftjust then [] + sign + t + (z + rest) else z + sign + t + rest)
            else (if f.leftjust then [] + sign + (t + z) + rest else [] + sign + (z + t) + rest)
  {
    hide Numeral, Repeat, Leading;
    var t, z, sign := Numeral(n), Repeat(f.fill, Leading(|Numeral(n)|, neg, f)), if neg then [MINUS] else [];
    assert t[..Cut(|t|, f)] == t;
    if f.leftjust {
      assert Field(t, neg, f) == sign + t + z;
      assert sign + t + z + rest == [] + sign + t + (z + rest);
      assert sign + t + z + rest == [] + sign + (t + z) + rest;
    } else if f.fill == BLANK {
      assert Field(t, neg, f) == z + sign + t;
    } else {
      assert Field(t, neg, f) == sign + z + t;
      assert sign + z + t + rest == [] + sign + (z + t) + rest;
    }
  }

  /** atoi gives back what %d printed in a field without a precision if and only if it was not filled
      with zeros on the right, or is 0. */
  lemma FieldReads(v: int, f: Format, rest: Text)
    requires INT_MIN <= v <= INT_MAX && FillOk(f) && Limited(f.fmax) == 0 && (|rest| > 0 ==> !IsDigit(rest[0]))
    ensures var n := if v < 0 then -v else v;
            Read(Field(Numeral(n), v < 0, f) + rest) == v <==>
            !(f.leftjust && f.fill == ZERO && Limited(f.fmin) > |Signed(v)|) || v == 0
  {
    hide Read, Val, Wrap, Value, Field, Numeral, Repeat;
    var n, neg := if v < 0 then -v else v, v < 0;
    var t, sign := Numeral(n), if neg then [MINUS] else [];
    var k := Leading(|t|, neg, f);
    var z := Repeat(f.fill, k);
    NumeralMeans(n);
    Repeated(f.fill, k);
    FieldParts(n, neg, f, rest);
    ValueExactly(n, n, neg);
    if f.fill == BLANK {
      if f.leftjust {
        ReadValue([], sign, t, z + rest);
      } else {
        ReadValue(z, sign, t, rest);
      }
    } else if f.leftjust {
      ReadValue([], sign, t + z, rest);
      var j := if k < 0 then 0 else k;
      SameRepeat(ZERO, k, j);
      ZerosBehind(t, j);
      ValueExactly(n, n * Pow10(j), neg);
      if j > 0 && n > 0 && Wrap(n * Pow10(j)) == Wrap(n) {
        OtherNumber(n, j);
      }
      Trivial(n, j);
    } else {
      ReadValue([], sign, z + t, rest);
      ZerosInFront(k, t);
    }
  }

  lemma Trivial(n: nat, j: nat)
    ensures j == 0 ==> n * Pow10(j) == n
    ensures n == 0 ==> n * Pow10(j) == n
  {
  }

  lemma SameRepeat(c: int, k: int, j: nat)
    requires j == if k < 0 then 0 else k
    ensures Repeat(c, k) == Repeat(c, j)
  {
  }

  lemma ReadValue(blanks: Text, sign: Text, t: Text, rest: Text)
    requires (forall k :: 0 <= k < |blanks| ==> IsBlank(blanks[k])) && (sign == [] || sign == [MINUS])
    requires |t| > 0 && (forall k :: 0 <= k < |t| ==> IsDigit(t[k])) && (|rest| > 0 ==> !IsDigit(rest[0]))
    ensures Read(blanks + sign + t + rest) == Value(Val(t), sign != [])
  {
    hide Read, Val, Wrap;
    ReadParts(blanks, sign, t, rest);
  }

  // ---- precision ----

  /** The first digits of a numeral are a smaller number. */
  lemma {:induction false} Shorter(n: nat, m: nat)
    requires 0 < m < |Numeral(n)|
    ensures 0 <= Val(Numeral(n)[..m]) < n
    ensures forall k :: 0 <= k < m ==> IsDigit(Numeral(n)[..m][k])
  {
    var t := Numeral(n);
    NumeralMeans(n / 10);
    if m < |t| - 1 {
      Shorter(n / 10, m);
      assert t[..m] == Numeral(n / 10)[..m];
    } else {
      assert t[..m] == Numeral(n / 10);
      Positive(n);
    }
  }

  lemma Positive(n: nat)
    requires |Numeral(n)| > 1
    ensures n / 10 < n
  {
  }

  /** A precision cuts the digits: what is printed is read back if and only if there are not more of
      them. */
  lemma PrecisionReads(v: int, fmax: int, rest: Text)
    requires INT_MIN <= v <= INT_MAX && Limited(fmax) != 0 && (|rest| > 0 ==> !IsDigit(rest[0]))
    ensures var n := if v < 0 then -v else v;
            Read(Field(Numeral(n), v < 0, PLAIN.(fmax := fmax)) + rest) == v <==> |Numeral(n)| <= Limited(fmax)
  {
    hide Read, Val, Wrap, Value, Numeral;
    var n, neg := if v < 0 then -v else v, v < 0;
    var t, sign := Numeral(n), if neg then [MINUS] else [];
    var m := if |t| > Limited(fmax) then Limited(fmax) else |t|;
    assert Field(t, neg, PLAIN.(fmax := fmax)) == sign + t[..m];
    assert Field(t, neg, PLAIN.(fmax := fmax)) + rest == [] + sign + t[..m] + rest;
    NumeralMeans(n);
    ReadValue([], sign, t[..m], rest);
    ValueExactly(n, n, neg);
    if m < |t| {
      Shorter(n, m);
      ValueExactly(n, Val(t[..m]), neg);
      ValueExactly(Val(t[..m]), n, neg);
    } else {
      assert t[..m] == t;
    }
  }
}
