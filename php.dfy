/** The few PHP language rules the expense tracker relies on: truthiness of strings,
    `$argv[i] ?? null`, the `(int)` cast of a string, loose `==` between an int and a
    numeric string, and the decimal spelling of an int. */
module Php {
  import opened Wrappers

  /** `!$s` is false: a PHP string is falsy exactly when it is "" or "0". */
  predicate Truthy(s: string) {
    s != "" && s != "0"
  }

  /** Truthiness of a value that is a string or `null`. */
  predicate TruthyOrNull(v: Option<string>) {
    v.Some? && Truthy(v.value)
  }

  /** `$argv[i] ?? null` */
  function Arg(argv: seq<string>, i: nat): Option<string> {
    if i < |argv| then Some(argv[i]) else None
  }

  predicate IsDigit(c: char) {
    '0' <= c <= '9'
  }

  predicate AllDigits(s: string) {
    forall i :: 0 <= i < |s| ==> IsDigit(s[i])
  }

  /** The whitespace PHP skips before the digits of a numeric string. */
  predicate IsSpace(c: char) {
    c == ' ' || c == '\t' || c == '\n' || c == '\r' || c as int == 11 || c as int == 12
  }

  function DigitValue(c: char): nat
    requires IsDigit(c)
  {
    c as int - '0' as int
  }

  function DigitChar(d: nat): (c: char)
    requires d < 10
    ensures IsDigit(c) && DigitValue(c) == d
  {
    ('0' as int + d) as char
  }

  /** The value of a string of decimal digits, most significant first. */
  function DigitsValue(ds: string): nat
    requires AllDigits(ds)
  {
    if ds == [] then 0 else DigitsValue(ds[..|ds| - 1]) * 10 + DigitValue(ds[|ds| - 1])
  }

  /** The decimal digits of `n`; reading them back gives `n`. */
  function NatDigits(n: nat): (ds: string)
    ensures ds != [] && AllDigits(ds)
    ensures DigitsValue(ds) == n
    decreases n
  {
    if n < 10 then
      [DigitChar(n)]
    else
      var prefix := NatDigits(n / 10);
      var ds := prefix + [DigitChar(n % 10)];
      assert ds[..|ds| - 1] == prefix;
      ds
  }

  /** How PHP writes an int as a string (`"$n"`, `echo $n`). */
  function IntToString(n: int): string {
    if n < 0 then "-" + NatDigits(-n) else NatDigits(n)
  }

  /** The longest prefix of `s` made of digits. */
  function LeadingDigits(s: string): (r: string)
    ensures r <= s && AllDigits(r)
    ensures |r| < |s| ==> !IsDigit(s[|r|])
  {
    if s != [] && IsDigit(s[0]) then [s[0]] + LeadingDigits(s[1..]) else []
  }

  /** `s` with its leading whitespace removed. */
  function SkipSpace(s: string): (r: string)
    ensures |r| <= |s| && r == s[|s| - |r|..]
    ensures forall i :: 0 <= i < |s| - |r| ==> IsSpace(s[i])
    ensures r != [] ==> !IsSpace(r[0])
  {
    if s != [] && IsSpace(s[0]) then SkipSpace(s[1..]) else s
  }

  /** PHP's `(int)` cast of a string: leading whitespace, an optional sign, then the
      longest run of digits; a string with no digits there is 0. A fraction is cut
      off, which truncates toward zero. */
  function IntCast(s: string): int {
    var t := SkipSpace(s);
    if t != [] && t[0] == '-' then -(DigitsValue(LeadingDigits(t[1..])) as int)
    else if t != [] && t[0] == '+' then DigitsValue(LeadingDigits(t[1..]))
    else DigitsValue(LeadingDigits(t))
  }

  /** The integer a string denotes when the whole string is an optional sign followed
      by decimal digits; `None` for any other string. */
  function ParseInt(s: string): Option<int> {
    if s != [] && (s[0] == '-' || s[0] == '+') then
      var digits := s[1..];
      if digits != [] && AllDigits(digits) then
        Some(if s[0] == '-' then -(DigitsValue(digits) as int) else DigitsValue(digits) as int)
      else
        None
    else if s != [] && AllDigits(s) then
      Some(DigitsValue(s))
    else
      None
  }

  /** `$n == $s` for an int `$n` and a string `$s`: the string must spell the same integer. */
  predicate LooselyEquals(n: int, s: string) {
    ParseInt(s) == Some(n)
  }

  /** An id or month printed by the program, given back on the command line, compares
      equal to exactly the integer it was printed from. */
  lemma ParseIntRoundTrip(n: int)
    ensures ParseInt(IntToString(n)) == Some(n)
    ensures forall m :: LooselyEquals(m, IntToString(n)) <==> m == n
  {
    var s := IntToString(n);
    if n < 0 {
      assert s[0] == '-' && s[1..] == NatDigits(-n);
    } else {
      assert s == NatDigits(n) && IsDigit(s[0]);
    }
  }

  /** Where a string is an integer literal, the `(int)` cast reads the same integer. */
  lemma CastAgreesWithParse(s: string)
    requires ParseInt(s).Some?
    ensures IntCast(s) == ParseInt(s).value
  {
    assert !IsSpace(s[0]);
    assert SkipSpace(s) == s;
    if s[0] == '-' || s[0] == '+' {
      assert LeadingDigits(s[1..]) == s[1..];
    } else {
      assert LeadingDigits(s) == s;
    }
  }

  /** An amount written as a decimal integer is summed at its face value. */
  lemma IntCastRoundTrip(n: int)
    ensures IntCast(IntToString(n)) == n
  {
    ParseIntRoundTrip(n);
    CastAgreesWithParse(IntToString(n));
  }
}
