/** Decimal numerals: %d and %u of the two printing functions, and atoi. Characters are their
    codes, and C integers are wrapped to 32 bits where they can overflow. */
module Decimal {

  const INT_MIN := -0x8000_0000
  const INT_MAX := 0x7FFF_FFFF
  const TWO32 := 0x1_0000_0000

  const BLANK := 32
  const TAB := 9
  const PLUS := 43
  const MINUS := 45
  const ZERO := 48

  type Text = seq<int>

  /** A signed 32-bit integer. */
  function Wrap(x: int): (r: int)
    ensures INT_MIN <= r <= INT_MAX && (r - x) % TWO32 == 0
    ensures INT_MIN <= x <= INT_MAX ==> r == x
  {
    (x - INT_MIN) % TWO32 + INT_MIN
  }

  /** Division and remainder in C. */
  function Quot(a: int, b: int): int
    requires b != 0
  {
    if a >= 0 then a / b else -((-a) / b)
  }

  function Rem(a: int, b: int): int
    requires b != 0
  {
    a - b * Quot(a, b)
  }

  // ---- what a numeral is ----

  /** The decimal numeral of n. */
  function Numeral(n: nat): (r: Text)
    ensures |r| > 0
  {
    if n < 10 then [ZERO + n] else Numeral(n / 10) + [ZERO + n % 10]
  }

  /** With a sign. */
  function Signed(n: int): Text {
    if n < 0 then [MINUS] + Numeral(-n) else Numeral(n)
  }

  function Pow10(k: nat): (r: nat)
    ensures r > 0
  {
    if k == 0 then 1 else 10 * Pow10(k - 1)
  }

  predicate IsDigit(c: int) {
    ZERO <= c <= ZERO + 9
  }

  function Val(t: Text): int {
    if |t| == 0 then 0 else 10 * Val(t[..|t| - 1]) + t[|t| - 1] - ZERO
  }

  /** A numeral consists of digits, has the value n, and no zero in front. */
  lemma {:induction false} NumeralMeans(n: nat)
    ensures forall j :: 0 <= j < |Numeral(n)| ==> IsDigit(Numeral(n)[j])
    ensures Val(Numeral(n)) == n
    ensures n > 0 ==> Numeral(n)[0] != ZERO
  {
    var t := Numeral(n);
    if n < 10 {
      assert t[..0] == [];
    } else {
      NumeralMeans(n / 10);
      assert t[..|t| - 1] == Numeral(n / 10);
    }
  }

  // ---- digits, last one first ----

  function Rev(s: Text): (r: Text)
    ensures |r| == |s|
  {
    if |s| == 0 then [] else Rev(s[1..]) + [s[0]]
  }

  /** The character for digit d, added to '0' or, if neg, taken from it. */
  function Char(d: nat, neg: bool): int {
    if neg then ZERO - d else ZERO + d
  }

  /** The last k digits of n, last one first, as they are printed. */
  function Low(n: nat, k: nat, neg: bool): (r: Text)
    ensures |r| == k
  {
    if k == 0 then [] else [Char(n % 10, neg)] + Low(n / 10, k - 1, neg)
  }

  lemma LowOne(n: nat, k: nat, neg: bool)
    requires k > 0
    ensures Low(n, k, neg) == [Char(n % 10, neg)] + Low(n / 10, k - 1, neg)
  {
  }

  lemma NoneLow(n: nat)
    ensures forall neg {:trigger Low(n, 0, neg)} :: Low(n, 0, neg) == []
  {
  }

  lemma FirstChar(n: nat)
    ensures Char(n % 10, true) == ZERO - n % 10 && Char(n % 10, false) == ZERO + n % 10
  {
  }

  /** The digits known, and one more. */
  lemma OneMore(s: Text, i: nat, m: nat, neg: bool, all: Text)
    requires 1 <= i <= 10 && |s| == 11 && s[1..i] + Low(m, 11 - i, neg) == all
    ensures s[i := Char(m % 10, neg)][1..i + 1] + Low(m / 10, 10 - i, neg) == all
  {
    hide Low, Char;
    LowOne(m, 11 - i, neg);
    var c := Char(m % 10, neg);
    assert s[i := c][1..i + 1] == s[1..i] + [c];
  }

  /** As many digits as n has. */
  function Size(n: nat): (r: nat)
    ensures r > 0
  {
    if n < 10 then 1 else 1 + Size(n / 10)
  }

  /** What comes out when digits are turned over by a negative sign. */
  function Shown(n: nat, neg: bool): Text {
    Rev(Low(n, Size(n), neg))
  }

  lemma {:induction false} SizeFits(n: nat, k: nat)
    requires n < Pow10(k) && k > 0
    ensures Size(n) <= k
  {
    if n >= 10 {
      SizeFits(n / 10, k - 1);
    }
  }

  lemma {:induction false} ShownNumeral(n: nat)
    ensures Shown(n, false) == Numeral(n)
  {
    var l := Low(n, Size(n), false);
    if n < 10 {
      assert l == [ZERO + n] && Rev(l[1..]) == [];
    } else {
      ShownNumeral(n / 10);
      assert l[1..] == Low(n / 10, Size(n / 10), false);
    }
  }

  /** The highest digit that is not zero. */
  lemma {:induction false} TopDigit(n: nat, k: nat, neg: bool)
    requires Size(n) <= k
    ensures Low(n, k, neg)[..Size(n)] == Low(n, Size(n), neg)
    ensures n > 0 ==> Low(n, k, neg)[Size(n) - 1] != ZERO
    ensures forall j :: Size(n) <= j < k ==> Low(n, k, neg)[j] == ZERO
    ensures n == 0 ==> Size(n) == 1 && forall j :: 0 <= j < k ==> Low(n, k, neg)[j] == ZERO
  {
    var l := Low(n, k, neg);
    var rest := Low(n / 10, k - 1, neg);
    assert l == [Char(n % 10, neg)] + rest;
    if n < 10 {
      AllZero(k - 1, neg);
      assert Low(n, 1, neg) == [Char(n, neg)];
    } else {
      TopDigit(n / 10, k - 1, neg);
    }
  }

  lemma {:induction false} AllZero(k: nat, neg: bool)
    ensures forall j :: 0 <= j < k ==> Low(0, k, neg)[j] == ZERO
  {
    if k > 0 {
      AllZero(k - 1, neg);
    }
  }

  lemma RevFirst(x: int, s: Text)
    ensures Rev([x] + s) == Rev(s) + [x]
  {
    assert ([x] + s)[1..] == s;
  }

  // ---- printing ----

  /** The end of _prtl10: zeros in front are skipped, and the rest, with the NUL behind it, is
      turned round. */
  method Emit(temp: array<int>, ghost n: nat, ghost neg: bool) returns (str: Text)
    requires temp.Length == 11 && temp[0] == 0 && temp[1..] == Low(n, 10, neg) && n < Pow10(10)
    ensures str == Shown(n, neg) + [0]
  {
    hide Low, Char, Rev, Pow10, Size;
    SizeFits(n, 10);
    TopDigit(n, 10, neg);
    ghost var s, l := temp[..], Low(n, 10, neg);
    assert s[1..] == l;
    assert forall j :: 1 <= j < 11 ==> s[j] == l[j - 1];
    var i := 10;
    while temp[i] == ZERO
      invariant 0 <= i <= 10
      invariant forall j :: i < j <= 10 ==> s[j] == ZERO
      decreases i
    {
      i := i - 1;
    }
    if i == 0 {
      i := 1;
    }
    ghost var top := Size(n);
    assert i == top;
    str := [];
    while i >= 0
      invariant -1 <= i <= top
      invariant str == Rev(s[i + 1..top + 1])
    {
      assert s[i..top + 1] == [s[i]] + s[i + 1..top + 1];
      RevFirst(s[i], s[i + 1..top + 1]);
      str := str + [temp[i]];
      i := i - 1;
    }
    assert s[0..top + 1] == [0] + l[..top];
    RevFirst(0, l[..top]);
  }

  lemma Divided(m: nat, neg: bool)
    ensures var rest := if neg then 0 - m else m;
            && Rem(rest, 10) + ZERO == Char(m % 10, neg)
            && Quot(rest, 10) == if neg then -(m / 10) else m / 10
  {
  }

  /** _prtl10 of fdoprnt.c. The remainder of a negative number is negative. */
  method Prtl10(num: int) returns (str: Text)
    requires num < Pow10(10) && -num < Pow10(10)
    ensures str == Shown(if num < 0 then -num else num, num < 0) + [0]
  {
    hide Low, Rem, Quot, Char, Shown, Pow10;
    var temp := new int[11];
    temp[0] := 0;
    ghost var n, neg := if num < 0 then -num else num, num < 0;
    var i, rest := 1, num;
    ghost var m: nat := n;
    while i <= 10
      invariant 1 <= i <= 11 && rest == (if neg then 0 - m else m) && temp[0] == 0
      invariant temp[..][1..i] + Low(m, 11 - i, neg) == Low(n, 10, neg)
    {
      Divided(m, neg);
      OneMore(temp[..], i, m, neg, Low(n, 10, neg));
      ghost var s := temp[..];
      temp[i] := Rem(rest, 10) + ZERO;
      assert temp[..] == s[i := Char(m % 10, neg)];
      rest := Quot(rest, 10);
      m := m / 10;
      i := i + 1;
    }
    NoneLow(m);
    assert temp[1..] == temp[..][1..11];
    str := Emit(temp, n, neg);
  }

  /** _prtl10 of doprnt.c takes care of a negative number by itself. */
  method Prtl10Abs(num: int) returns (str: Text)
    requires INT_MIN <= num <= INT_MAX
    ensures str == Numeral(if num < 0 then -num else num) + [0]
  {
    hide Low, Rem, Quot, Char, Shown, Pow10;
    var temp := new int[11];
    temp[0] := 0;
    ghost var n := if num < 0 then 0 - num else num;
    Divided(n, num < 0);
    FirstChar(n);
    temp[1] := (if num < 0 then -Rem(num, 10) else Rem(num, 10)) + ZERO;
    var i, rest := 2, if num < 0 then -Quot(num, 10) else Quot(num, 10);
    LowOne(n, 10, false);
    assert temp[..][1..2] == [Char(n % 10, false)];
    while i <= 10
      invariant 2 <= i <= 11 && rest >= 0 && temp[0] == 0
      invariant temp[..][1..i] + Low(rest, 11 - i, false) == Low(n, 10, false)
    {
      Divided(rest, false);
      OneMore(temp[..], i, rest, false, Low(n, 10, false));
      ghost var s := temp[..];
      temp[i] := Rem(rest, 10) + ZERO;
      assert temp[..] == s[i := Char(rest % 10, false)];
      rest := Quot(rest, 10);
      i := i + 1;
    }
    NoneLow(rest);
    assert temp[1..] == temp[..][1..11];
    TenDigits();
    str := Emit(temp, n, false);
    ShownNumeral(n);
  }

  lemma TenDigits()
    ensures Pow10(9) == 1_000_000_000 && Pow10(10) == 10_000_000_000
  {
    assert Pow10(2) == 100;
    assert Pow10(4) == 10_000;
    assert Pow10(6) == 1_000_000;
    assert Pow10(8) == 100_000_000;
  }

  /** What stands between '%' and the letter: the least width, the precision, the character to fill
      with, and whether to fill on the right. 0 is no width, and no precision. */
  datatype Format = Format(fmin: int, fmax: int, fill: int, leftjust: bool)

  const PLAIN := Format(0, 0, BLANK, false)
  const MAXSTR := 80

  function Limited(n: int): int {
    if n > MAXSTR || n < 0 then 0 else n
  }

  function Repeat(c: int, n: int): Text {
    if n <= 0 then [] else [c] + Repeat(c, n - 1)
  }

  /** How much is printed of so many characters. */
  function Cut(size: nat, f: Format): (r: nat)
    ensures r <= size
  {
    if Limited(f.fmax) != 0 && size > Limited(f.fmax) then Limited(f.fmax) else size
  }

  /** How often the fill character is printed. */
  function Leading(size: nat, neg: bool, f: Format): int {
    if Limited(f.fmin) == 0 then 0 else Limited(f.fmin) - Cut(size, f) - if neg then 1 else 0
  }

  /** A sign stands before zeros and behind blanks. */
  function Field(str: Text, neg: bool, f: Format): Text {
    var fill := Repeat(f.fill, Leading(|str|, neg, f));
    (if neg && f.fill == ZERO then [MINUS] else []) + (if f.leftjust then [] else fill)
    + (if neg && f.fill == BLANK then [MINUS] else []) + str[..Cut(|str|, f)] + (if f.leftjust then fill else [])
  }

  /** The end of both printing functions. */
  method PutField(str: Text, neg: bool, f: Format) returns (out: Text)
    ensures out == Field(str, neg, f)
  {
    hide Repeat, Cut, Leading;
    var length, leading := Measure(|str|, neg, f);
    NoneBelow(f.fill, leading, Leading(|str|, neg, f));
    out := if neg && f.fill == ZERO then [MINUS] else [];
    if !f.leftjust {
      out := PutFill(out, f.fill, leading);
    }
    if neg && f.fill == BLANK {
      out := out + [MINUS];
    }
    out := out + str[..length];
    if f.leftjust {
      out := PutFill(out, f.fill, leading);
    }
  }

  /** How much is printed, and how often the fill character. */
  method Measure(size: nat, neg: bool, f: Format) returns (length: nat, leading: int)
    ensures length == Cut(size, f)
    ensures leading == Leading(size, neg, f) || (leading <= 0 && Leading(size, neg, f) <= 0)
  {
    var fmin, fmax := f.fmin, f.fmax;
    if fmin > MAXSTR || fmin < 0 {
      fmin := 0;
    }
    if fmax > MAXSTR || fmax < 0 {
      fmax := 0;
    }
    length, leading := size, 0;
    if fmax != 0 || fmin != 0 {
      if fmax != 0 && length > fmax {
        length := fmax;
      }
      if fmin != 0 {
        leading := fmin - length;
      }
      if neg {
        leading := leading - 1;
      }
    }
  }

  lemma NoneBelow(c: int, m: int, n: int)
    requires m == n || (m <= 0 && n <= 0)
    ensures Repeat(c, m) == Repeat(c, n)
  {
  }

  method PutFill(before: Text, c: int, n: int) returns (out: Text)
    ensures out == before + Repeat(c, n)
  {
    out := before;
    var i := 0;
    while i < n
      invariant 0 <= i && (n > 0 ==> i <= n)
      invariant out + Repeat(c, n - i) == before + Repeat(c, n)
    {
      out := out + [c];
      i := i + 1;
    }
    assert Repeat(c, n - i) == [];
  }

  lemma FieldPlain(str: Text, neg: bool)
    ensures Field(str, neg, PLAIN) == (if neg then [MINUS] else []) + str
  {
  }

  /** _doprnt, %d. */
  method DoprntD(v: int, f: Format) returns (out: Text)
    requires INT_MIN <= v <= INT_MAX
    ensures out == Field(Numeral(if v < 0 then -v else v), v < 0, f)
    ensures f == PLAIN ==> out == Signed(v)
  {
    hide Field;
    var str := Prtl10Abs(v);
    FieldPlain(str[..|str| - 1], v < 0);
    out := PutField(str[..|str| - 1], v < 0, f);
  }

  /** _fdoprnt, %d: what is printed of the smallest integer is its digits, each taken from '0'
      instead of added to it. */
  method FdoprntD(v: int, f: Format) returns (out: Text)
    requires INT_MIN <= v <= INT_MAX
    ensures v == INT_MIN ==> out == Field(Shown(-v, true), true, f)
    ensures v != INT_MIN ==> out == Field(Numeral(if v < 0 then -v else v), v < 0, f)
    ensures f == PLAIN ==> out == if v == INT_MIN then [MINUS] + Shown(-v, true) else Signed(v)
  {
    hide Field;
    TenDigits();
    var larg := if v < 0 then Wrap(-v) else v;
    assert v == INT_MIN ==> larg == INT_MIN;
    var str := Prtl10(larg);
    if v != INT_MIN {
      ShownNumeral(larg);
    }
    FieldPlain(str[..|str| - 1], v < 0);
    out := PutField(str[..|str| - 1], v < 0, f);
  }

  /** That is a numeral of v if and only if v is not the smallest integer. */
  lemma FdoprntExactly(v: int)
    requires INT_MIN <= v <= INT_MAX
    ensures (if v == INT_MIN then [MINUS] + Shown(-v, true) else Signed(v)) == Signed(v) <==> v != INT_MIN
  {
    if v == INT_MIN {
      Mirrored(-v);
      assert ([MINUS] + Shown(-v, true))[1..] == Shown(-v, true) && ([MINUS] + Numeral(-v))[1..] == Numeral(-v);
    }
  }

  lemma Mirrored(n: nat)
    requires n % 10 != 0
    ensures Shown(n, true) != Numeral(n)
  {
    var a, b, l := Shown(n, true), Numeral(n), Low(n, Size(n), true);
    assert a == Rev(l[1..]) + [ZERO - n % 10];
    assert a[|a| - 1] == ZERO - n % 10 && b[|b| - 1] == ZERO + n % 10;
  }

  /** Adding to the first digit adds to the number. */
  lemma {:induction false} FirstDigit(m: nat, k: nat, e: nat)
    requires Pow10(e) <= m && m + k * Pow10(e) < Pow10(e + 1)
    ensures Numeral(m + k * Pow10(e)) == Numeral(m)[0 := Numeral(m)[0] + k]
  {
    if e > 0 {
      assert k * Pow10(e) == 10 * (k * Pow10(e - 1));
      assert (m + k * Pow10(e)) / 10 == m / 10 + k * Pow10(e - 1);
      assert (m + k * Pow10(e)) % 10 == m % 10;
      FirstDigit(m / 10, k, e - 1);
    }
  }

  /** A billion less, round the end of the integers. */
  lemma Billion(v: nat, larg: int, k: int)
    requires v < TWO32 && 0 <= k && INT_MIN <= larg < 0 && larg == v - TWO32 - k * 1_000_000_000
    ensures var next := Wrap(larg - 1_000_000_000);
            && (next < 0 ==> next == v - TWO32 - (k + 1) * 1_000_000_000 && next < larg)
            && (next >= 0 ==> next == v - (k + 1) * 1_000_000_000 && next >= 1_000_000_000)
  {
  }

  /** %u: the argument is taken for signed; a billion at a time is taken off, round the end of
      the integers, until it is positive, and added to the first digit printed. */
  method PrintU(v: nat, f: Format) returns (out: Text)
    requires v < TWO32
    ensures out == Field(Numeral(v), false, f.(fmax := 0))
    ensures f == PLAIN ==> out == Numeral(v)
  {
    hide Numeral, Shown, Pow10, Wrap, Field;
    TenDigits();
    var larg, digit1 := Wrap(v), 0;
    while larg < 0
      invariant digit1 >= 0 && INT_MIN <= larg <= INT_MAX
      invariant larg < 0 ==> larg == v - TWO32 - digit1 * 1_000_000_000
      invariant larg >= 0 ==> larg == v - digit1 * 1_000_000_000 && (digit1 > 0 ==> larg >= 1_000_000_000)
      decreases if larg < 0 then larg - INT_MIN + 1 else 0
    {
      Billion(v, larg, digit1);
      larg := Wrap(larg - 1_000_000_000);
      digit1 := digit1 + 1;
    }
    var str := Prtl10(larg);
    ShownNumeral(larg);
    if digit1 > 0 {
      FirstDigit(larg, digit1, 9);
    }
    str := str[0 := str[0] + digit1];
    assert str[..|str| - 1] == Numeral(v);
    FieldPlain(str[..|str| - 1], false);
    out := PutField(str[..|str| - 1], false, f.(fmax := 0));
  }

  // ---- reading ----

  predicate IsBlank(c: int) {
    c == BLANK || c == TAB
  }

  /** Digits from i on, behind those that gave n. */
  function Digits(s: Text, i: nat, n: int): int
    requires i <= |s|
    decreases |s| - i
  {
    if i < |s| && IsDigit(s[i]) then Digits(s, i + 1, Wrap(n * 10 + s[i] - ZERO)) else n
  }

  function SkipBlanks(s: Text, i: nat): (j: nat)
    requires i <= |s|
    ensures i <= j <= |s|
    decreases |s| - i
  {
    if i < |s| && IsBlank(s[i]) then SkipBlanks(s, i + 1) else i
  }

  /** What atoi makes of a string, of which NUL is the last character. */
  function Read(s: Text): int {
    var i := SkipBlanks(s, 0);
    var signed := i < |s| && (s[i] == MINUS || s[i] == PLUS);
    var n := Digits(s, if signed then i + 1 else i, 0);
    if signed && s[i] == MINUS then Wrap(-n) else n
  }

  method Atoi(s: Text) returns (r: int)
    requires |s| > 0 && s[|s| - 1] == 0
    ensures r == Read(s)
  {
    var n, f, p := 0, 0, 0;
    while IsBlank(s[p])
      invariant 0 <= p < |s| && SkipBlanks(s, p) == SkipBlanks(s, 0)
      decreases |s| - p
    {
      p := p + 1;
    }
    ghost var start := p;
    if s[p] == MINUS {
      f := f + 1;
      p := p + 1;
    } else if s[p] == PLUS {
      p := p + 1;
    }
    ghost var first := p;
    while ZERO <= s[p] <= ZERO + 9
      invariant 0 <= p < |s| && Digits(s, p, n) == Digits(s, first, 0)
      decreases |s| - p
    {
      n := Wrap(n * 10 + s[p] - ZERO);
      p := p + 1;
    }
    r := if f > 0 then Wrap(-n) else n;
  }

  lemma WrapStep(x: int, d: int)
    ensures Wrap(Wrap(x) * 10 + d) == Wrap(x * 10 + d)
  {
    var y := Wrap(x);
    assert (y - x) % TWO32 == 0;
    var q := (y - x) / TWO32;
    assert y * 10 + d == x * 10 + d + 10 * q * TWO32;
    SameWrap(x * 10 + d, 10 * q);
  }

  lemma SameWrap(x: int, q: int)
    ensures Wrap(x + q * TWO32) == Wrap(x)
  {
    var a, b := x - INT_MIN, x - INT_MIN + q * TWO32;
    assert a == a / TWO32 * TWO32 + a % TWO32;
    assert b == (a / TWO32 + q) * TWO32 + a % TWO32;
  }

  lemma {:induction false} DigitsVal(s: Text, i: nat, j: nat)
    requires i <= j <= |s| && (forall k :: i <= k < j ==> IsDigit(s[k])) && (j < |s| ==> !IsDigit(s[j]))
    ensures Digits(s, i, 0) == Wrap(Val(s[i..j]))
  {
    DigitsFrom(s, i, i, j);
  }

  /** In the middle of it. */
  lemma {:induction false} DigitsFrom(s: Text, i: nat, p: nat, j: nat)
    requires i <= p <= j <= |s| && (forall k :: i <= k < j ==> IsDigit(s[k])) && (j < |s| ==> !IsDigit(s[j]))
    ensures Digits(s, p, Wrap(Val(s[i..p]))) == Wrap(Val(s[i..j]))
    decreases j - p
  {
    if p < j {
      assert s[i..p + 1][..p - i] == s[i..p];
      WrapStep(Val(s[i..p]), s[p] - ZERO);
      DigitsFrom(s, i, p + 1, j);
    }
  }

  lemma {:induction false} Skipped(s: Text, i: nat, j: nat)
    requires i <= j <= |s| && (forall k :: i <= k < j ==> IsBlank(s[k])) && (j < |s| ==> !IsBlank(s[j]))
    ensures SkipBlanks(s, i) == j
    decreases j - i
  {
    if i < j {
      Skipped(s, i + 1, j);
    }
  }

  /** atoi undoes %d: of every integer, with blanks in front and anything but digits behind. */
  lemma AtoiUndoes(v: int, blanks: Text, rest: Text)
    requires INT_MIN <= v <= INT_MAX
    requires (forall k :: 0 <= k < |blanks| ==> IsBlank(blanks[k])) && (|rest| > 0 ==> !IsDigit(rest[0]))
    ensures Read(blanks + Signed(v) + rest) == v
  {
    hide Wrap, Digits, SkipBlanks, Numeral, Val, Read, IsDigit, IsBlank;
    var n := if v < 0 then -v else v;
    NumeralMeans(n);
    Negated(n);
    if v < 0 {
      assert blanks + Signed(v) + rest == blanks + [MINUS] + Numeral(n) + rest;
      ReadParts(blanks, [MINUS], Numeral(n), rest);
    } else {
      assert blanks + Signed(v) + rest == blanks + [] + Numeral(n) + rest;
      ReadParts(blanks, [], Numeral(n), rest);
    }
  }

  lemma ReadParts(blanks: Text, sign: Text, t: Text, rest: Text)
    requires (forall k :: 0 <= k < |blanks| ==> IsBlank(blanks[k])) && (sign == [] || sign == [MINUS])
    requires |t| > 0 && (forall k :: 0 <= k < |t| ==> IsDigit(t[k])) && (|rest| > 0 ==> !IsDigit(rest[0]))
    ensures Read(blanks + sign + t + rest) == if sign == [] then Wrap(Val(t)) else Wrap(-Wrap(Val(t)))
  {
    hide Wrap, Val, Read, IsDigit, IsBlank;
    Placed(blanks, sign, t, rest);
    var s, b, i := blanks + sign + t + rest, |blanks|, |blanks| + |sign|;
    forall k | i <= k < i + |t|
      ensures IsDigit(s[k])
    {
      assert IsDigit(t[k - i]);
    }
    ReadSigned(s, b, i, i + |t|);
  }

  lemma ReadSigned(s: Text, b: nat, i: nat, j: nat)
    requires b <= i < j <= |s| && (if i == b then IsDigit(s[b]) else i == b + 1 && s[b] == MINUS)
    requires (forall k :: 0 <= k < b ==> IsBlank(s[k])) && (forall k :: i <= k < j ==> IsDigit(s[k]))
    requires j < |s| ==> !IsDigit(s[j])
    ensures Read(s) == if i == b then Wrap(Val(s[i..j])) else Wrap(-Wrap(Val(s[i..j])))
  {
    hide Wrap, Digits, SkipBlanks, Val;
    Skipped(s, 0, b);
    DigitsVal(s, i, j);
  }

  /** Where things are in a string of four parts. */
  lemma Placed(blanks: Text, sign: Text, t: Text, rest: Text)
    requires |t| > 0 && |sign| <= 1
    ensures var s, b, i := blanks + sign + t + rest, |blanks|, |blanks| + |sign|;
            && s[i..i + |t|] == t && (|rest| > 0 ==> s[i + |t|] == rest[0]) && (|rest| == 0 ==> |s| == i + |t|)
            && s[b] == (if |sign| > 0 then sign[0] else t[0])
            && (forall k :: 0 <= k < b ==> s[k] == blanks[k])
            && (forall k :: i <= k < i + |t| ==> s[k] == t[k - i])
  {
  }

  lemma Negated(n: nat)
    requires n <= -INT_MIN
    ensures Wrap(-Wrap(n)) == 0 - n
  {
  }

  /** atoi undoes %u likewise, in 32 bits. */
  lemma AtoiUnsigned(v: nat, rest: Text)
    requires v < TWO32 && (|rest| > 0 ==> !IsDigit(rest[0]))
    ensures Read(Numeral(v) + rest) == Wrap(v)
  {
    var s, t := Numeral(v) + rest, Numeral(v);
    NumeralMeans(v);
    assert s[0] == t[0];
    Skipped(s, 0, 0);
    assert s[0..|t|] == t;
    DigitsVal(s, 0, |t|);
  }

  /** What atoi makes of any string: behind blanks and tabs, and one sign at most, the digits up to the
      first other character, in 32 bits; 0 if there are none. */
  lemma ReadIs(s: Text, b: nat, i: nat, j: nat)
    requires b <= i <= j <= |s| && (forall k :: 0 <= k < b ==> s[k] == 32 || s[k] == 9)
    requires b < |s| ==> s[b] != 32 && s[b] != 9
    requires i == if b < |s| && (s[b] == 43 || s[b] == 45) then b + 1 else b
    requires (forall k :: i <= k < j ==> 48 <= s[k] <= 57) && (j < |s| ==> !(48 <= s[j] <= 57))
    ensures var r := Read(s);
            -0x8000_0000 <= r <= 0x7FFF_FFFF
            && (r - if b < |s| && s[b] == 45 then -Val(s[i..j]) else Val(s[i..j])) % 0x1_0000_0000 == 0
  {
    hide Digits, SkipBlanks, Val;
    Skipped(s, 0, b);
    DigitsVal(s, i, j);
    NegatedWrap(Val(s[i..j]));
  }

  lemma NegatedWrap(x: int)
    ensures (Wrap(-Wrap(x)) + x) % TWO32 == 0
  {
    var a, b := Wrap(x), Wrap(-Wrap(x));
    assert (a - x) % TWO32 == 0 && (b + a) % TWO32 == 0;
    var p, q := (a - x) / TWO32, (b + a) / TWO32;
    assert b + x == TWO32 * (q - p);
  }

  /** The digits of a number, and the value of digits, are decimal. */
  lemma Decimally()
    ensures Numeral(1024) == [49, 48, 50, 52] && Val([49, 48, 50, 52]) == 1024
  {
    NumeralMeans(1024);
    assert Numeral(102) == [49, 48, 50];
  }
}
