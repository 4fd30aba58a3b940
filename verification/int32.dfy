/**
  Decimal parsing of a 32-bit signed integer the way Rust's `str::parse::<i32>`
  does it, and the decimal rendering it inverts.
 */
module Int32 {
  import opened Errors

  const MinI32: int := -0x8000_0000
  const MaxI32: int := 0x7fff_ffff

  predicate InRange(n: int)
  {
    MinI32 <= n <= MaxI32
  }

  predicate IsDigit(c: char)
  {
    '0' <= c <= '9'
  }

  predicate IsSign(c: char)
  {
    c == '+' || c == '-'
  }

  predicate AllDigits(s: string)
  {
    forall i :: 0 <= i < |s| ==> IsDigit(s[i])
  }

  /** The value of a run of decimal digits, most significant first. */
  function DigitsValue(s: string): nat
    requires AllDigits(s)
  {
    if s == [] then 0
    else DigitsValue(s[..|s| - 1]) * 10 + (s[|s| - 1] as int - '0' as int)
  }

  /** The text after an optional leading sign. */
  function Magnitude(s: string): string
  {
    if s != [] && IsSign(s[0]) then s[1..] else s
  }

  /** The grammar the parser accepts: an optional `+` or `-` followed by at
      least one ASCII digit and nothing else. */
  predicate WellFormed(s: string)
  {
    Magnitude(s) != [] && AllDigits(Magnitude(s))
  }

  /** The integer a well-formed text denotes, before any range check. */
  function Denotation(s: string): int
    requires WellFormed(s)
  {
    if s[0] == '-' then -(DigitsValue(Magnitude(s)) as int) else DigitsValue(Magnitude(s))
  }

  /** `s.parse::<i32>()`: fails on the empty text, on a lone sign, on any
      character that is not a digit after the sign, and on a value outside
      the 32-bit range; leading zeros are allowed. */
  function Parse(s: string): (r: Option<int>)
    ensures r.Some? <==> WellFormed(s) && InRange(Denotation(s))
    ensures r.Some? ==> r.value == Denotation(s) && InRange(r.value)
  {
    if |s| == 0 then None
    else if IsSign(s[0]) && |s| == 1 then None
    else
      var negative := s[0] == '-';
      var digits := if IsSign(s[0]) then s[1..] else s;
      if !AllDigits(digits) then None
      else
        var v: int := if negative then -(DigitsValue(digits) as int) else DigitsValue(digits);
        if MinI32 <= v <= MaxI32 then Some(v) else None
  }

  /** The decimal digits of a natural number, without leading zeros. */
  function NatDigits(n: nat): (r: string)
    ensures r != [] && AllDigits(r)
    ensures r[0] != '+' && r[0] != '-'
    decreases n
  {
    if n < 10 then ['0' + n as char]
    else NatDigits(n / 10) + ['0' + (n % 10) as char]
  }

  /** Decimal rendering of an integer (`i32::to_string`). */
  function Show(n: int): string
  {
    if n < 0 then "-" + NatDigits(-n) else NatDigits(n)
  }

  lemma {:induction false} NatDigitsValue(n: nat)
    ensures DigitsValue(NatDigits(n)) == n
    decreases n
  {
    var d := NatDigits(n);
    if n >= 10 {
      NatDigitsValue(n / 10);
      assert d[..|d| - 1] == NatDigits(n / 10);
    }
  }

  /** Parsing undoes rendering for every value in the 32-bit range. */
  lemma ParseShow(n: int)
    requires InRange(n)
    ensures Parse(Show(n)) == Some(n)
  {
    if n < 0 {
      NatDigitsValue(-n);
      assert Magnitude(Show(n)) == NatDigits(-n);
    } else {
      NatDigitsValue(n);
    }
  }

  /** Concrete parses: leading sign and zeros are accepted; the empty text, a
      lone sign, a stray letter and a value just past the range are not. */
  lemma ParseExamples()
    ensures Parse("100") == Some(100)
    ensures Parse("0") == Some(0)
    ensures Parse("-5") == Some(-5)
    ensures Parse("+007") == Some(7)
    ensures Parse("") == None
    ensures Parse("-") == None
    ensures Parse("12a") == None
  {
    assert DigitsValue("10") == 10 by { assert "10"[..1] == "1"; }
    assert DigitsValue("100") == 100 by { assert "100"[..2] == "10"; }
    assert DigitsValue("00") == 0 by { assert "00"[..1] == "0"; }
    assert DigitsValue("007") == 7 by { assert "007"[..2] == "00"; }
    assert "-5"[1..] == "5";
    assert "+007"[1..] == "007";
    assert !IsDigit("12a"[2]);
  }

  /** The 32-bit boundaries: the smallest value parses, one past the largest
      does not. */
  lemma ParseBoundaryExamples()
    ensures Parse("2147483648") == None
    ensures Parse("-2147483648") == Some(MinI32)
  {
    var s := "2147483648";
    assert DigitsValue(s[..1]) == 2;
    assert DigitsValue(s[..2]) == 21 by { assert s[..2][..1] == s[..1]; }
    assert DigitsValue(s[..3]) == 214 by { assert s[..3][..2] == s[..2]; }
    assert DigitsValue(s[..4]) == 2147 by { assert s[..4][..3] == s[..3]; }
    assert DigitsValue(s[..5]) == 21474 by { assert s[..5][..4] == s[..4]; }
    assert DigitsValue(s[..6]) == 214748 by { assert s[..6][..5] == s[..5]; }
    assert DigitsValue(s[..7]) == 2147483 by { assert s[..7][..6] == s[..6]; }
    assert DigitsValue(s[..8]) == 21474836 by { assert s[..8][..7] == s[..7]; }
    assert DigitsValue(s[..9]) == 214748364 by { assert s[..9][..8] == s[..8]; }
    assert DigitsValue(s) == 2147483648 by { assert s[..9] == s[..|s| - 1]; }
    assert "-2147483648"[1..] == s;
  }
}
