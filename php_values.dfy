/** PHP values as they are stored in a RadicalMart price array, and the PHP
    language operations the plugin applies to them: `empty`, subtraction, the
    `(int)` cast, string conversion, `strcasecmp` equality and the loose `==`
    that `in_array` uses. */
module PhpValues {

  /** One PHP value. `Num` is a PHP float, `List` a PHP array read as a list. */
  datatype Value =
    | Null
    | Bool(b: bool)
    | Int(i: int)
    | Num(r: real)
    | Str(s: string)
    | List(items: seq<Value>)

  /** `empty($s)` for a string: only "" and "0" are empty. */
  predicate EmptyString(s: string)
  {
    s == "" || s == "0"
  }

  /** `empty($v)`: the falsy values. */
  predicate Empty(v: Value)
  {
    match v
    case Null => true
    case Bool(b) => !b
    case Int(i) => i == 0
    case Num(r) => r == 0.0
    case Str(s) => EmptyString(s)
    case List(xs) => xs == []
  }

  /** The number PHP arithmetic reads from an integer or a float; the plugin
      only subtracts values that `PriceHelper::clean` returned, which are floats. */
  function NumericValue(v: Value): real
  {
    match v
    case Int(i) => i as real
    case Num(r) => r
    case _ => 0.0
  }

  /** `$a - $b` on two numbers, as a float. */
  function Minus(a: Value, b: Value): Value
  {
    Num(NumericValue(a) - NumericValue(b))
  }

  // ---------------------------------------------------------------------
  // Decimal digits

  predicate IsDigit(c: char)
  {
    '0' <= c <= '9'
  }

  predicate AllDigits(s: string)
  {
    forall i :: 0 <= i < |s| ==> IsDigit(s[i])
  }

  function DigitChar(d: nat): char
    requires d < 10
  {
    ('0' as int + d) as char
  }

  function DigitValue(c: char): nat
    requires IsDigit(c)
  {
    c as int - '0' as int
  }

  /** The decimal rendering PHP gives a non-negative integer. */
  function NatToDecimal(n: nat): (s: string)
    ensures |s| > 0 && AllDigits(s)
    ensures s[0] == '0' ==> n == 0
    decreases n
  {
    if n < 10 then [DigitChar(n)] else NatToDecimal(n / 10) + [DigitChar(n % 10)]
  }

  /** The number a string of decimal digits denotes. */
  function DecimalValue(s: string): nat
    requires AllDigits(s)
    decreases |s|
  {
    if s == [] then 0 else 10 * DecimalValue(s[..|s| - 1]) + DigitValue(s[|s| - 1])
  }

  /** Reading back the decimal rendering of `n` gives `n`. */
  lemma {:induction false} DecimalRoundTrip(n: nat)
    ensures DecimalValue(NatToDecimal(n)) == n
  {
    if n >= 10 {
      var s := NatToDecimal(n / 10);
      DecimalRoundTrip(n / 10);
      var t := s + [DigitChar(n % 10)];
      assert NatToDecimal(n) == t;
      assert t[..|t| - 1] == s;
    }
  }

  /** The decimal rendering PHP gives an integer. */
  function IntToDecimal(i: int): string
  {
    if i < 0 then "-" + NatToDecimal(-i) else NatToDecimal(i)
  }

  /** A numeric string in integer form: an optional sign followed by digits.
      (PHP also accepts surrounding whitespace, a fraction and an exponent.) */
  predicate IsIntegerString(s: string)
  {
    |s| > 0 &&
    if s[0] == '-' || s[0] == '+' then |s| > 1 && AllDigits(s[1..]) else AllDigits(s)
  }

  function IntegerValue(s: string): int
    requires IsIntegerString(s)
  {
    if s[0] == '-' then -(DecimalValue(s[1..]) as int)
    else if s[0] == '+' then DecimalValue(s[1..])
    else DecimalValue(s)
  }

  /** The decimal rendering of every integer is an integer string that reads back as it. */
  lemma IntegerRoundTrip(i: int)
    ensures IsIntegerString(IntToDecimal(i))
    ensures IntegerValue(IntToDecimal(i)) == i
  {
    if i < 0 {
      var d := NatToDecimal(-i);
      assert IntToDecimal(i)[1..] == d;
      DecimalRoundTrip(-i);
    } else {
      DecimalRoundTrip(i);
    }
  }

  // ---------------------------------------------------------------------
  // The (int) cast

  predicate IsSpace(c: char)
  {
    c == ' ' || c == '\t' || c == '\n' || c == '\r' || c as int == 11 || c as int == 12
  }

  function SkipSpace(s: string): string
    decreases |s|
  {
    if |s| > 0 && IsSpace(s[0]) then SkipSpace(s[1..]) else s
  }

  /** The longest prefix of `s` made of digits. */
  function DigitPrefix(s: string): (p: string)
    ensures AllDigits(p) && p <= s
    ensures |p| < |s| ==> !IsDigit(s[|p|])
    decreases |s|
  {
    if |s| > 0 && IsDigit(s[0]) then [s[0]] + DigitPrefix(s[1..]) else []
  }

  /** `(int) $s`: leading whitespace, an optional sign, then the longest run of digits. */
  function LeadingInteger(s: string): int
  {
    var t := SkipSpace(s);
    if |t| > 0 && t[0] == '-' then -(DecimalValue(DigitPrefix(t[1..])) as int)
    else if |t| > 0 && t[0] == '+' then DecimalValue(DigitPrefix(t[1..]))
    else DecimalValue(DigitPrefix(t))
  }

  /** `(int) $v`. Floats truncate toward zero. */
  function IntCast(v: Value): int
  {
    match v
    case Null => 0
    case Bool(b) => if b then 1 else 0
    case Int(i) => i
    case Num(r) => if r >= 0.0 then r.Floor else -((-r).Floor)
    case Str(s) => LeadingInteger(s)
    case List(xs) => if xs == [] then 0 else 1
  }

  lemma {:induction false} DigitPrefixOfDigits(s: string)
    requires AllDigits(s)
    ensures DigitPrefix(s) == s
    decreases |s|
  {
    if |s| > 0 {
      DigitPrefixOfDigits(s[1..]);
      assert [s[0]] + s[1..] == s;
    }
  }

  /** Casting the decimal rendering of an integer back with `(int)` gives that integer. */
  lemma IntCastOfDecimal(i: int)
    ensures IntCast(Str(IntToDecimal(i))) == i
  {
    var s := IntToDecimal(i);
    assert SkipSpace(s) == s;
    if i < 0 {
      var d := NatToDecimal(-i);
      assert s[1..] == d;
      DigitPrefixOfDigits(d);
      DecimalRoundTrip(-i);
    } else {
      DigitPrefixOfDigits(s);
      DecimalRoundTrip(i);
    }
  }

  // ---------------------------------------------------------------------
  // String conversion and comparisons

  /** The string PHP passes to a string parameter for `v`. A float is rendered by
      its floor, which is exact for the integral values group ids take. */
  function ToPhpString(v: Value): string
  {
    match v
    case Null => ""
    case Bool(b) => if b then "1" else ""
    case Int(i) => IntToDecimal(i)
    case Num(r) => IntToDecimal(r.Floor)
    case Str(s) => s
    case List(_) => "Array"
  }

  /** ASCII lower-casing, as `strcasecmp` applies it. */
  function LowerAscii(c: char): char
  {
    if 'A' <= c <= 'Z' then (c as int + 32) as char else c
  }

  /** `strcasecmp($a, $b) == 0`. */
  predicate EqualsIgnoringCase(a: string, b: string)
  {
    |a| == |b| && forall i :: 0 <= i < |a| ==> LowerAscii(a[i]) == LowerAscii(b[i])
  }

  /** `s` with every ASCII capital lower-cased. */
  function LowerString(s: string): (t: string)
    ensures |t| == |s| && forall i :: 0 <= i < |s| ==> t[i] == LowerAscii(s[i])
    decreases |s|
  {
    if s == [] then [] else [LowerAscii(s[0])] + LowerString(s[1..])
  }

  /** `strcasecmp` finds two strings equal exactly when their lower-cased
      forms are the same string, so it is an equivalence. */
  lemma CaseFoldEquality(a: string, b: string)
    ensures EqualsIgnoringCase(a, b) <==> LowerString(a) == LowerString(b)
  {
  }

  /** `strcasecmp(a, b) == 0` is reflexive, symmetric and transitive. */
  lemma CaseFoldEquivalence(a: string, b: string, c: string)
    ensures EqualsIgnoringCase(a, a)
    ensures EqualsIgnoringCase(a, b) ==> EqualsIgnoringCase(b, a)
    ensures EqualsIgnoringCase(a, b) && EqualsIgnoringCase(b, c) ==> EqualsIgnoringCase(a, c)
  {
  }

  /** PHP 8's loose `$a == $v` for a string `$a`. Two numeric strings, or a numeric
      string and a number, compare as numbers; otherwise the comparison is on strings
      (null as "", a boolean against the string's truthiness; an array equals no string). */
  predicate LooseEquals(a: string, v: Value)
  {
    match v
    case Null => a == ""
    case Bool(b) => b == !EmptyString(a)
    case Int(i) => if IsIntegerString(a) then IntegerValue(a) == i else a == IntToDecimal(i)
    case Num(r) => if IsIntegerString(a) then IntegerValue(a) as real == r else a == ToPhpString(v)
    case Str(s) => if IsIntegerString(a) && IsIntegerString(s) then IntegerValue(a) == IntegerValue(s) else a == s
    case List(_) => false
  }

  /** The two comparisons the plugin uses disagree in both directions: `strcasecmp`
      ignores letter case but not leading zeros, loose `==` the other way round. */
  lemma ComparisonsDisagree()
    ensures EqualsIgnoringCase("a", "A") && !LooseEquals("a", Str("A"))
    ensures LooseEquals("02", Str("2")) && !EqualsIgnoringCase("02", "2")
  {
    assert "a"[0] == 'a' && "A"[0] == 'A';
    assert DecimalValue("02") == 2 by {
      assert "02"[..1] == "0";
    }
  }

  /** Loose `==` between an integer group id and its decimal string always holds. */
  lemma LooseEqualsDecimal(i: int)
    ensures LooseEquals(IntToDecimal(i), Int(i))
    ensures LooseEquals(IntToDecimal(i), Str(IntToDecimal(i)))
  {
    IntegerRoundTrip(i);
  }
}
