/** The oracle of `tools/bigint-tester.py`: BigInt literals, and the results expected of the
    operators. The division operator of the script is meant as integer division. */
module BigIntOracle {
  import opened Cells
  import Smi

  const CHARS := "0123456789abcdef"
  const BASE: nat := 16
  const LINE_LENGTH: nat := 70

  function Abs(x: int): nat {
    if x < 0 then -x else x
  }

  function Power(n: nat): (r: nat)
    ensures r > 0
  {
    if n == 0 then 1 else BASE * Power(n - 1)
  }

  // ------------------------------------------------- literals

  function DigitValue(c: char): Option<nat> {
    if '0' <= c <= '9' then Some((c - '0') as nat)
    else if 'a' <= c <= 'f' then Some((c - 'a') as nat + 10)
    else if 'A' <= c <= 'F' then Some((c - 'A') as nat + 10)
    else None
  }

  /** The value of a string of hexadecimal digits, of which there must be one. */
  function Magnitude(s: string): Option<nat> {
    if s == [] then None
    else
      var last := DigitValue(s[|s| - 1]);
      if |s| == 1 || last.None? then last
      else
        var high := Magnitude(s[..|s| - 1]);
        if high.None? then None else Some(BASE * high.value + last.value)
  }

  /** `int(s, 16)`: a sign and a prefix are optional. */
  function ParseInteger(s: string): Option<int> {
    if s == [] then None
    else
      var signed := s[0] == '-' || s[0] == '+';
      var body := if signed then s[1..] else s;
      var digits := if |body| >= 2 && body[0] == '0' && (body[1] == 'x' || body[1] == 'X') then body[2..] else body;
      var m := Magnitude(digits);
      if m.None? then None else Some(if s[0] == '-' then 0 - m.value else m.value)
  }

  /** `Parse`; nothing where the script stops with an error. */
  function Parse(s: string): Option<int> {
    if s == [] || s[|s| - 1] != 'n' then None else ParseInteger(s[..|s| - 1])
  }

  function Digits(x: nat): string {
    if x == 0 then "" else Digits(x / BASE) + [CHARS[x % BASE]]
  }

  function Formatted(x: int): string {
    if x == 0 then "0n"
    else (if x < 0 then "-" else "") + "0x" + Digits(Abs(x)) + "n"
  }

  lemma DigitInFront(x: nat, s: string)
    requires x > 0
    ensures Digits(x / BASE) + ([CHARS[x % BASE]] + s) == Digits(x) + s
  {
    assert Digits(x / BASE) + ([CHARS[x % BASE]] + s) == (Digits(x / BASE) + [CHARS[x % BASE]]) + s;
  }

  lemma NoDigits()
    ensures Digits(0) == "" && Formatted(0) == "0n"
  {
  }

  lemma WithSign(x: int, digits: string)
    requires x != 0 && digits == Digits(Abs(x))
    ensures Formatted(x) == if x < 0 then "-" + ("0x" + digits + "n") else "0x" + digits + "n"
  {
    hide Digits;
    assert "-" + ("0x" + digits + "n") == "-" + "0x" + digits + "n";
    assert "" + "0x" + digits + "n" == "0x" + digits + "n";
  }

  /** `Format`. */
  method Format(x: int) returns (s: string)
    ensures s == Formatted(x)
  {
    hide Digits, Formatted;
    NoDigits();
    if x == 0 {
      return "0n";
    }
    var negative, rest := false, x;
    if x < 0 {
      negative, rest := true, -x;
    }
    s := "";
    while rest > 0
      invariant rest >= 0 && Digits(rest) + s == Digits(Abs(x))
    {
      DigitInFront(rest, s);
      s := [CHARS[rest % BASE]] + s;
      rest := rest / BASE;
    }
    WithSign(x, s);
    s := "0x" + s + "n";
    if negative {
      s := "-" + s;
    }
  }

  /** Lower-case digits without a leading zero. */
  predicate Canonical(d: string) {
    d != "" && d[0] != '0' && forall c :: c in d ==> c in CHARS
  }

  lemma CharValue(i: nat)
    requires i < BASE
    ensures DigitValue(CHARS[i]) == Some(i) && (CHARS[i] == '0' <==> i == 0)
  {
  }

  lemma ValueChar(c: char) returns (i: nat)
    requires c in CHARS
    ensures i < BASE && c == CHARS[i] && DigitValue(c) == Some(i)
  {
    i :| 0 <= i < |CHARS| && CHARS[i] == c;
    CharValue(i);
  }

  /** Printing a positive number gives canonical digits that read as that number. */
  lemma {:induction false} DigitsRead(x: nat)
    requires x > 0
    ensures Canonical(Digits(x)) && Magnitude(Digits(x)) == Some(x)
  {
    var last := CHARS[x % BASE];
    CharValue(x % BASE);
    if x < BASE {
      assert Digits(x) == [last];
    } else {
      DigitsRead(x / BASE);
      assert Digits(x)[..|Digits(x)| - 1] == Digits(x / BASE);
    }
  }

  lemma OneDigit(i: nat)
    requires 0 < i < BASE
    ensures Digits(i) == [CHARS[i]]
  {
    assert Digits(i / BASE) == "";
  }

  lemma DigitsStep(h: nat, i: nat)
    requires h > 0 && i < BASE
    ensures Digits(BASE * h + i) == Digits(h) + [CHARS[i]]
  {
    assert (BASE * h + i) / BASE == h && (BASE * h + i) % BASE == i;
  }

  lemma {:induction false} DigitsBounds(d: string)
    requires Canonical(d)
    ensures Magnitude(d).Some? && Power(|d| - 1) <= Magnitude(d).value < Power(|d|)
  {
    hide DigitValue;
    var i := ValueChar(d[|d| - 1]);
    if |d| == 1 {
      CharValue(i);
    } else {
      DigitsBounds(d[..|d| - 1]);
    }
  }

  /** Canonical digits of length `n` are the numbers from `16^(n-1)` to `16^n - 1`, and are what
      those numbers print as. */
  lemma {:induction false} DigitsPrint(d: string)
    requires Canonical(d)
    ensures Magnitude(d).Some? && Power(|d| - 1) <= Magnitude(d).value < Power(|d|)
    ensures Digits(Magnitude(d).value) == d
  {
    hide DigitValue, Digits, Power;
    var last := d[|d| - 1];
    var i := ValueChar(last);
    DigitsBounds(d);
    if |d| == 1 {
      CharValue(i);
      OneDigit(i);
    } else {
      var high := d[..|d| - 1];
      DigitsPrint(high);
      DigitsStep(Magnitude(high).value, i);
      assert d == high + [last];
    }
  }

  /** A literal with the given sign and digits. */
  function Literal(negative: bool, d: string): string {
    (if negative then "-" else "") + "0x" + d + "n"
  }

  lemma ParseLiteral(negative: bool, d: string)
    requires Magnitude(d).Some?
    ensures Parse(Literal(negative, d)) == Some(if negative then 0 - Magnitude(d).value else Magnitude(d).value)
  {
    hide Magnitude, ParseInteger;
    var s, body := Literal(negative, d), Signed(negative, d);
    assert s == body + "n";
    assert s[..|s| - 1] == body;
    ParseSigned(negative, d);
  }

  function Signed(negative: bool, d: string): string {
    (if negative then "-" else "") + "0x" + d
  }

  lemma ParseSigned(negative: bool, d: string)
    requires Magnitude(d).Some?
    ensures ParseInteger(Signed(negative, d)) == Some(if negative then 0 - Magnitude(d).value else Magnitude(d).value)
  {
    hide Magnitude;
    var s, body := Signed(negative, d), "0x" + d;
    assert body[2..] == d;
    if negative {
      assert s[0] == '-' && s[1..] == body;
    } else {
      assert s == body;
    }
  }

  /** Every integer survives printing and parsing. */
  lemma ParseFormat(x: int)
    ensures Parse(Formatted(x)) == Some(x)
  {
    hide Parse, Magnitude, Digits;
    if x == 0 {
      ParseZero();
    } else {
      DigitsRead(Abs(x));
      ParseLiteral(x < 0, Digits(Abs(x)));
    }
  }

  lemma ParseZero()
    ensures Parse("0n") == Some(0)
  {
    assert "0n"[..1] == "0";
    CharValue(0);
  }

  /** Letters count alike in both cases. */
  ghost predicate SameButCase(s: string, t: string) {
    |s| == |t| && forall i :: 0 <= i < |s| ==>
      s[i] == t[i] || ('a' <= s[i] <= 'f' && t[i] as int - 'A' as int == s[i] as int - 'a' as int)
  }

  lemma {:induction false} CaseIrrelevant(s: string, t: string)
    requires SameButCase(s, t)
    ensures Magnitude(s) == Magnitude(t)
  {
    if s != "" {
      SameDigit(s, t, |s| - 1);
      if |s| > 1 {
        CaseIrrelevant(s[..|s| - 1], t[..|t| - 1]);
      }
    }
  }

  lemma SameDigit(s: string, t: string, i: nat)
    requires SameButCase(s, t) && i < |s|
    ensures DigitValue(s[i]) == DigitValue(t[i])
  {
  }

  lemma WithPrefix(d: string)
    ensures ParseInteger("0x" + d) == ParseInteger("0X" + d) == ParsedDigits(d, false)
    ensures Magnitude(d).Some? ==> ParseInteger(d) == ParsedDigits(d, false)
  {
    hide Magnitude;
    StartsWithDigits(d);
    assert ("0x" + d)[2..] == d && ("0X" + d)[2..] == d;
  }

  ghost function ParsedDigits(d: string, negative: bool): Option<int> {
    var m := Magnitude(d);
    if m.None? then None else Some(if negative then 0 - m.value else m.value)
  }

  lemma WithMinus(b: string)
    requires b != "" && b[0] != '-' && b[0] != '+'
    ensures ParseInteger("+" + b) == ParseInteger(b)
    ensures ParseInteger(b).Some? ==> ParseInteger("-" + b) == Some(0 - ParseInteger(b).value)
    ensures ParseInteger(b).None? ==> ParseInteger("-" + b) == None
  {
    hide Magnitude;
    assert ("+" + b)[1..] == b && ("-" + b)[1..] == b;
  }

  /** A sign and a prefix are optional and mean what they say; anything else must be digits. */
  lemma ParseForms(d: string)
    ensures Magnitude(d).Some? ==>
              && ParseInteger(d) == ParseInteger("+" + d) == ParsedDigits(d, false)
              && ParseInteger("-" + d) == ParsedDigits(d, true)
    ensures ParseInteger("0x" + d) == ParseInteger("0X" + d) == ParseInteger("+" + ("0x" + d)) == ParsedDigits(d, false)
    ensures ParseInteger("-" + ("0x" + d)) == ParsedDigits(d, true)
  {
    hide Magnitude, ParseInteger;
    WithPrefix(d);
    WithMinus("0x" + d);
    if Magnitude(d).Some? {
      StartsWithDigits(d);
      WithMinus(d);
    }
  }

  lemma {:induction false} StartsWithDigits(d: string)
    ensures Magnitude(d).Some? ==> d != "" && forall i :: 0 <= i < |d| ==> DigitValue(d[i]).Some?
  {
    hide DigitValue;
    if |d| > 1 {
      StartsWithDigits(d[..|d| - 1]);
    }
  }

  /** A printed number is zero without a sign, or a sign for negative numbers only followed by
      digits that do not start with zero. */
  lemma FormatCanonical(x: int)
    ensures x == 0 ==> Formatted(x) == "0n"
    ensures x != 0 ==> Canonical(Digits(Abs(x))) && Formatted(x) == Literal(x < 0, Digits(Abs(x)))
  {
    if x != 0 {
      DigitsRead(Abs(x));
    }
  }

  // ------------------------------------------------- generated inputs

  datatype Sign = No | Yes | Random

  /** The strings that `GenRandom(length, negative)` can return. */
  ghost predicate Generated(s: string, length: nat, sign: Sign) {
    if length == 0 then s == "0n"
    else exists negative: bool, d: string ::
        && s == Literal(negative, d) && |d| == length && Canonical(d)
        && (sign == Yes ==> negative) && (sign == No ==> !negative)
  }

  /** What the random generator may return to `GenRandom`: a coin, and digits of which the first
      is not zero. */
  ghost predicate Choices(length: nat, digits: seq<nat>) {
    && |digits| == length && (length > 0 ==> digits[0] >= 1)
    && forall i :: 0 <= i < length ==> digits[i] < BASE
  }

  function DigitChars(digits: seq<nat>): string
    requires forall i :: 0 <= i < |digits| ==> digits[i] < BASE
  {
    seq(|digits|, i requires 0 <= i < |digits| => CHARS[digits[i]])
  }

  /** The string that these choices lead to. */
  ghost function Drawn(length: nat, sign: Sign, coin: bool, digits: seq<nat>): string
    requires Choices(length, digits)
  {
    if length == 0 then "0n" else Literal(sign == Yes || (sign == Random && coin), DigitChars(digits))
  }

  /** `GenRandom`, with the outcomes of its calls of the random generator. */
  method GenRandom(length: nat, sign: Sign, coin: bool, digits: seq<nat>) returns (s: string)
    requires Choices(length, digits)
    ensures s == Drawn(length, sign, coin, digits) && Generated(s, length, sign)
  {
    if length == 0 {
      return "0n";
    }
    var negative := sign == Yes || (sign == Random && coin);
    var d := [CHARS[digits[0]]];
    for i := 1 to length
      invariant |d| == i && Canonical(d) && d == DigitChars(digits[..i])
    {
      d := d + [CHARS[digits[i]]];
    }
    assert digits[..length] == digits;
    s := (if negative then "-" else "") + "0x" + d + "n";
    assert s == Literal(negative, d);
  }

  /** Each generated string is drawn by some choices. */
  lemma GeneratedIsDrawn(s: string, length: nat, sign: Sign) returns (coin: bool, digits: seq<nat>)
    requires Generated(s, length, sign)
    ensures Choices(length, digits) && Drawn(length, sign, coin, digits) == s
  {
    coin, digits := false, [];
    if length > 0 {
      var negative: bool, d: string :|
        && s == Literal(negative, d) && |d| == length && Canonical(d)
        && (sign == Yes ==> negative) && (sign == No ==> !negative);
      coin := negative;
      digits := DigitsOf(d);
      assert DigitChars(digits) == d;
    }
  }

  lemma {:induction false} DigitsOf(d: string) returns (digits: seq<nat>)
    requires forall c :: c in d ==> c in CHARS
    ensures |digits| == |d| && forall i :: 0 <= i < |d| ==> digits[i] < BASE && CHARS[digits[i]] == d[i]
    ensures d != "" && d[0] != '0' ==> digits[0] >= 1
  {
    digits := [];
    if d != "" {
      var first := ValueChar(d[0]);
      CharValue(first);
      var rest := DigitsOf(d[1..]);
      digits := [first] + rest;
    }
  }

  /** Every generated string parses, to a number of the magnitude its length promises, and is
      reproduced by printing that number. */
  lemma GeneratedRoundTrip(s: string, length: nat, sign: Sign)
    requires Generated(s, length, sign)
    ensures Parse(s).Some? && Formatted(Parse(s).value) == s
    ensures length >= 1 ==> Power(length - 1) <= Abs(Parse(s).value) <= Power(length) - 1
    ensures length == 0 <==> Parse(s) == Some(0)
  {
    hide Parse, Magnitude, Digits;
    if length == 0 {
      ParseFormat(0);
    } else {
      var negative: bool, d: string :| s == Literal(negative, d) && |d| == length && Canonical(d);
      DigitsPrint(d);
      ParseLiteral(negative, d);
    }
  }

  /** Conversely some random choices generate the printed form of any given number. */
  lemma EveryNumberGenerated(x: int) returns (coin: bool, digits: seq<nat>)
    ensures Choices(|digits|, digits) && Drawn(|digits|, Random, coin, digits) == Formatted(x)
  {
    hide Drawn, DigitChars;
    var length := |Digits(Abs(x))|;
    if x != 0 {
      FormatCanonical(x);
    }
    assert Generated(Formatted(x), length, Random);
    coin, digits := GeneratedIsDrawn(Formatted(x), length, Random);
  }

  /** The length ranges that `Div` and `Mod` draw from. */
  predicate DivisionLengths(left: nat, right: nat) {
    LINE_LENGTH * 6 / 10 <= left <= LINE_LENGTH && 1 <= right <= LINE_LENGTH * 7 / 10
  }

  lemma DivisorNeverZero(s: string, left: nat, right: nat, sign: Sign)
    requires DivisionLengths(left, right) && Generated(s, right, sign)
    ensures Parse(s).Some? && Parse(s) != Some(0)
  {
    GeneratedRoundTrip(s, right, sign);
  }

  // ------------------------------------------------- division

  /** The remainder operator of Python, which has the sign of the divisor. */
  function PythonMod(a: int, b: int): int
    requires b != 0
  {
    if b > 0 then a % b else -((-a) % (-b))
  }

  function Div(a: int, b: int): int
    requires b != 0
  {
    var result := Abs(a) / Abs(b);
    if (a < 0) != (b < 0) then -result else result
  }

  /** The result of `Mod`. */
  method Mod(a: int, b: int) returns (result: int)
    requires b != 0
    ensures result == Remainder(a, b)
  {
    hide Div, Remainder, PythonMod, IsTruncated;
    ghost var q := FloorPair(a, b);
    result := PythonMod(a, b);
    q := Adjusted(a, b, q, result);
    if a < 0 && result > 0 {
      result := result - Abs(b);
    }
    if a > 0 && result < 0 {
      result := result + Abs(b);
    }
    TruncatedDivision(a, b);
    TruncatedUnique(a, b, q, result, Div(a, b), Remainder(a, b));
  }

  lemma Adjusted(a: int, b: int, q: int, r: int) returns (q': int)
    requires b != 0 && a == q * b + r && Abs(r) < Abs(b) && (r == 0 || (r < 0 <==> b < 0))
    ensures IsTruncated(a, b, q', if a < 0 && r > 0 then r - Abs(b) else if a > 0 && r < 0 then r + Abs(b) else r)
  {
    q' := if a < 0 && r > 0 then q + 1 else if a > 0 && r < 0 then q + 1 else q;
    NextMultiple(q, b);
    if a == 0 {
      SmallMultiple(q, b);
    }
  }

  lemma NextMultiple(q: int, b: int)
    ensures (q + 1) * b == q * b + b
  {
  }

  /** What section 6.1.6.2.6 of ECMA-262 asks for: the dividend minus the truncated quotient
      times the divisor. */
  function Remainder(a: int, b: int): int
    requires b != 0
  {
    a - Div(a, b) * b
  }

  predicate IsTruncated(a: int, b: int, q: int, r: int) {
    && a == q * b + r && Abs(r) < Abs(b)
    && (r == 0 || (r < 0 <==> a < 0))
  }

  lemma EuclidAbs(a: nat, b: nat)
    requires b > 0
    ensures a == (a / b) * b + a % b && 0 <= a % b < b
  {
  }

  /** `Div` and the remainder are the truncating pair. */
  lemma TruncatedDivision(a: int, b: int)
    requires b != 0
    ensures IsTruncated(a, b, Div(a, b), Remainder(a, b))
  {
    EuclidAbs(Abs(a), Abs(b));
    Signs(Abs(a) / Abs(b), b);
  }

  lemma Signs(q: int, b: int)
    ensures q * b == if b < 0 then -(q * Abs(b)) else q * Abs(b)
    ensures (-q) * b == if b < 0 then q * Abs(b) else -(q * Abs(b))
  {
  }

  /** There is only one truncating pair. */
  lemma TruncatedUnique(a: int, b: int, q: int, r: int, q': int, r': int)
    requires b != 0 && IsTruncated(a, b, q, r) && IsTruncated(a, b, q', r')
    ensures q == q' && r == r'
  {
    Difference(q, q', b);
    assert Abs(r' - r) < Abs(b);
    SmallMultiple(q - q', b);
  }

  lemma Difference(q: int, q': int, b: int)
    ensures (q - q') * b == q * b - q' * b
  {
  }

  lemma SmallMultiple(d: int, b: int)
    requires Abs(d * b) < Abs(b)
    ensures d == 0
  {
    assert d >= 1 ==> Abs(d * b) >= Abs(b);
    assert d <= -1 ==> Abs(d * b) >= Abs(b);
  }

  /** The remainder that Python computes, adjusted by multiples of the divisor. */
  lemma FloorPair(a: int, b: int) returns (q: int)
    requires b != 0
    ensures a == q * b + PythonMod(a, b) && Abs(PythonMod(a, b)) < Abs(b)
    ensures PythonMod(a, b) == 0 || (PythonMod(a, b) < 0 <==> b < 0)
  {
    q := if b > 0 then a / b else (-a) / (-b);
  }

  // ------------------------------------------------- shifts

  function Power2(n: nat): (r: nat)
    ensures r > 0
  {
    if n == 0 then 1 else 2 * Power2(n - 1)
  }

  /** `Shl`; the right shift of Python rounds towards negative infinity. */
  function Shl(a: int, b: int): int {
    if b < 0 then a / Power2(-b) else a * Power2(b)
  }

  function Sar(a: int, b: int): int {
    if b < 0 then a * Power2(-b) else a / Power2(b)
  }

  lemma {:induction false} Power2Sum(m: nat, n: nat)
    ensures Power2(m + n) == Power2(m) * Power2(n)
  {
    if m > 0 {
      Power2Sum(m - 1, n);
      Doubled(Power2(m - 1), Power2(n));
    }
  }

  lemma Doubled(x: int, y: int)
    ensures (2 * x) * y == 2 * (x * y)
  {
  }

  lemma Regroup(q: int, x: nat, r: int, y: nat)
    ensures (q * x + r) * y == q * (x * y) + r * y
  {
  }

  lemma CancelRight(a: int, x: nat, y: nat)
    requires x > 0 && y > 0
    ensures (a * y) / (x * y) == a / x
  {
    var q, r := a / x, a % x;
    Regroup(q, x, r, y);
    assert 0 <= r * y < x * y by { assert (x - r) * y > 0; }
    Smi.ModOf(a * y, q, r * y, x * y);
  }

  lemma BelowProduct(t: nat, y: nat, x: nat, r: nat)
    requires t < y && r < x
    ensures 0 <= t * x + r < y * x
  {
    assert t * x + x == (t + 1) * x <= y * x;
  }

  lemma Remainders(p: int, y: nat, t: nat, x: nat, r: nat)
    requires t < y && r < x
    ensures ((p * y + t) * x + r) / (y * x) == p
  {
    Regroup(p, y, t, x);
    BelowProduct(t, y, x, r);
    Smi.ModOf((p * y + t) * x + r, p, t * x + r, y * x);
  }

  lemma DivideTwice(a: int, x: nat, y: nat)
    requires x > 0 && y > 0
    ensures a / x / y == a / (y * x)
  {
    var q := a / x;
    var p, t, r := q / y, q % y, a % x;
    assert q == p * y + t && a == q * x + r;
    Remainders(p, y, t, x, r);
  }

  /** Shifts in one direction add up, a shift by nothing changes nothing and a left shift by one
      doubles: this is all there is to know about left shifts. */
  lemma ShiftsAdd(a: int, m: nat, n: nat)
    ensures Shl(Shl(a, m), n) == Shl(a, m + n)
    ensures Sar(Sar(a, m), n) == Sar(a, m + n)
    ensures Shl(a, 0) == a == Sar(a, 0) && Shl(a, 1) == a + a
  {
    hide Power2;
    PowersOfTwo();
    Power2Sum(n, m);
    var x, y := Power2(m), Power2(n);
    Regroup(a, x, 0, y);
    DivideTwice(a, x, y);
  }

  lemma PowersOfTwo()
    ensures Power2(0) == 1 && Power2(1) == 2
  {
  }

  /** Negative counts shift the other way. */
  lemma OppositeShifts(a: int, b: int)
    ensures Sar(a, b) == Shl(a, -b) && Shl(a, b) == Sar(a, -b)
  {
    hide Power2;
    PowersOfTwo();
  }

  /** A right shift by one more halves the result, rounding down. */
  lemma SarHalves(a: int, n: nat)
    ensures Sar(a, 0) == a && 2 * Sar(a, n + 1) <= Sar(a, n) <= 2 * Sar(a, n + 1) + 1
  {
    hide Power2;
    PowersOfTwo();
    ShiftsAdd(a, n, 1);
  }

  /** A right shift undoes a left shift as far as it goes. */
  lemma SarUndoesShl(a: int, m: nat, n: nat)
    ensures Sar(Shl(a, m), n) == Shl(a, m - n)
  {
    hide Power2;
    if m >= n {
      Power2Sum(m - n, n);
      Regroup(a, Power2(m - n), 0, Power2(n));
      Smi.ModOf(a * Power2(m), a * Power2(m - n), 0, Power2(n));
    } else {
      Power2Sum(n - m, m);
      CancelRight(a, Power2(n - m), Power2(m));
    }
  }

  /** A right shift gives the greatest number whose left shift is not above `a`. */
  lemma SarRoundsDown(a: int, n: nat)
    ensures Shl(Sar(a, n), n) <= a < Shl(Sar(a, n) + 1, n)
  {
    hide Power2;
    var x := Power2(n);
    assert a == (a / x) * x + a % x;
    assert (a / x + 1) * x == (a / x) * x + x;
  }
}
