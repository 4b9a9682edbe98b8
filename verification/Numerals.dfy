/** Decimal numerals as the Go standard library prints and reads them. */
module Numerals {
  import opened Common

  predicate IsDigit(c: char) {
    '0' <= c <= '9'
  }

  predicate AllDigits(s: string) {
    forall c <- s :: IsDigit(c)
  }

  function Digit(d: nat): (c: char)
    requires d < 10
    ensures IsDigit(c) && c as int - '0' as int == d
  {
    (48 + d) as char
  }

  function Value(s: string): nat
    requires AllDigits(s)
  {
    if s == "" then 0
    else
      assert IsDigit(s[|s| - 1]);
      Value(s[..|s| - 1]) * 10 + (s[|s| - 1] as int - '0' as int)
  }

  function Itoa(n: nat): (s: string)
    ensures s != "" && AllDigits(s) && Value(s) == n
  {
    if n < 10 then
      assert [Digit(n)][..0] == [];
      [Digit(n)]
    else
      var s := Itoa(n / 10);
      assert (s + [Digit(n % 10)])[..|s|] == s;
      s + [Digit(n % 10)]
  }

  const MAX_INT: int := 0x7FFF_FFFF_FFFF_FFFF

  /** An optional sign and digits, within the range of a 64-bit integer. */
  function Atoi(s: string): Option<int> {
    if s == "" then None
    else
      var body := if s[0] == '-' || s[0] == '+' then s[1..] else s;
      if body == "" || !AllDigits(body) then None
      else
        var v := if s[0] == '-' then 0 - Value(body) as int else Value(body) as int;
        if -MAX_INT - 1 <= v <= MAX_INT then Some(v) else None
  }

  /** What is printed reads back. */
  lemma AtoiItoa(n: nat)
    requires n <= MAX_INT
    ensures Atoi(Itoa(n)) == Some(n)
  {
    assert IsDigit(Itoa(n)[0]);
  }

  // ---- padding -----------------------------------------------------------------------

  function PadTo3(s: string): string
    decreases 3 - |s|
  {
    if |s| < 3 then PadTo3("0" + s) else s
  }

  lemma {:induction false} LeadingZero(s: string)
    requires AllDigits(s)
    ensures AllDigits("0" + s) && Value("0" + s) == Value(s)
    decreases |s|
  {
    var t := "0" + s;
    if s == "" {
      assert t[..0] == "";
    } else {
      LeadingZero(s[..|s| - 1]);
      assert t[..|t| - 1] == "0" + s[..|s| - 1];
    }
  }

  lemma {:induction false} PaddingKeepsValue(s: string)
    requires AllDigits(s)
    ensures AllDigits(PadTo3(s)) && Value(PadTo3(s)) == Value(s) && |PadTo3(s)| >= 3
    decreases 3 - |s|
  {
    if |s| < 3 {
      LeadingZero(s);
      PaddingKeepsValue("0" + s);
    }
  }

  /** At least three digits that stand for the number. */
  method Pad3(n: nat) returns (s: string)
    ensures s == PadTo3(Itoa(n))
    ensures |s| >= 3 && AllDigits(s) && Value(s) == n
  {
    s := Itoa(n);
    PaddingKeepsValue(s);
    while |s| < 3
      invariant PadTo3(s) == PadTo3(Itoa(n))
      decreases 3 - |s|
    {
      s := "0" + s;
    }
  }

  lemma PaddedIsInjective(m: nat, n: nat)
    requires PadTo3(Itoa(m)) == PadTo3(Itoa(n))
    ensures m == n
  {
    PaddingKeepsValue(Itoa(m));
    PaddingKeepsValue(Itoa(n));
  }

  /** A sign is read, and numbers out of range are not. */
  lemma AtoiSigned(n: nat)
    ensures Atoi("-" + Itoa(n)) == if n <= MAX_INT + 1 then Some(0 - n) else None
    ensures Atoi("+" + Itoa(n)) == if n <= MAX_INT then Some(n as int) else None
  {
    var s := Itoa(n);
    assert ("-" + s)[1..] == s && ("+" + s)[1..] == s;
  }
}
