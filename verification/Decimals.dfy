/** Decimal text of the token's two integer fields, printed by `format!` and read
back by `str::parse`, which also takes a leading `+` and leading zeros. */
module Decimals {
  import opened Records

  const I64_MAX := 0x7FFF_FFFF_FFFF_FFFF
  const U64_MAX := 0xFFFF_FFFF_FFFF_FFFF

  predicate IsNumeral(c: char) { '0' <= c <= '9' }

  function Numeral(n: int): (c: char)
    requires 0 <= n < 10
    ensures IsNumeral(c) && c as int - '0' as int == n
  {
    ('0' as int + n) as char
  }

  predicate Numeric(s: string) { forall i | 0 <= i < |s| :: IsNumeral(s[i]) }

  function Show(n: nat): (s: string)
    ensures |s| > 0 && Numeric(s)
  {
    if n < 10 then [Numeral(n)] else Show(n / 10) + [Numeral(n % 10)]
  }

  function ShowInt(i: int): string {
    if i < 0 then "-" + Show(-i) else Show(i)
  }

  /** The value of a non-empty run of numerals. */
  function Read(s: string): Option<nat> {
    if s == [] || !IsNumeral(s[|s| - 1]) then None
    else
      var last := s[|s| - 1] as int - '0' as int;
      if |s| == 1 then Some(last)
      else
        var front := Read(s[..|s| - 1]);
        if front.None? then None else Some(front.value * 10 + last)
  }

  /** `str::parse` of an unsigned integer type whose largest value is `max`. */
  function ParseUnsigned(s: string, max: nat): Option<nat> {
    var v := Read(if s != [] && s[0] == '+' then s[1..] else s);
    if v.Some? && v.value <= max then v else None
  }

  function ParseU64(s: string): Option<nat> { ParseUnsigned(s, U64_MAX) }

  function ParseI64(s: string): Option<int> {
    if s != [] && s[0] == '-' then
      var v: Option<int> := Read(s[1..]);
      if v.Some? && v.value <= I64_MAX + 1 then Some(-v.value) else None
    else
      var v: Option<int> := Read(if s != [] && s[0] == '+' then s[1..] else s);
      if v.Some? && v.value <= I64_MAX then Some(v.value) else None
  }

  lemma {:induction false} ReadShow(n: nat)
    ensures Read(Show(n)) == Some(n)
  {
    if n >= 10 {
      ReadShow(n / 10);
      assert Show(n)[..|Show(n)| - 1] == Show(n / 10);
    }
  }

  // ----- exactly the texts that parse

  function Zeros(n: nat): string { if n == 0 then "" else "0" + Zeros(n - 1) }

  lemma {:induction false} ZerosLength(n: nat)
    ensures |Zeros(n)| == n && Numeric(Zeros(n))
  {
    if n > 0 { ZerosLength(n - 1); }
  }

  lemma {:induction false} ReadZeros(n: nat, s: string)
    requires s != [] && Read(s).Some?
    ensures Read(Zeros(n) + s) == Read(s)
    decreases n, |s|
  {
    if n == 0 {
      assert Zeros(0) + s == s;
    } else {
      ReadZeros(n - 1, s);
      assert Zeros(n) + s == "0" + (Zeros(n - 1) + s);
      ReadZero(Zeros(n - 1) + s);
    }
  }

  lemma {:induction false} ReadZero(s: string)
    requires Read(s).Some?
    ensures Read("0" + s) == Read(s)
    decreases |s|
  {
    var z := "0" + s;
    assert z[..|z| - 1] == "0" + s[..|s| - 1];
    if |s| > 1 {
      ReadZero(s[..|s| - 1]);
    } else {
      assert z[..1] == "0" && Read("0") == Some(0);
    }
  }

  /** The decimal text of `n`, perhaps after zeros. */
  ghost predicate Spells(s: string, n: nat) { exists z: nat :: s == Zeros(z) + Show(n) }

  lemma ShowMore(front: nat, last: nat)
    requires front > 0 && last < 10
    ensures Show(front * 10 + last) == Show(front) + [Numeral(last)]
  {}

  lemma {:induction false} ZerosMore(z: nat)
    ensures Zeros(z) + "0" == Zeros(z + 1)
  {
    if z > 0 {
      ZerosMore(z - 1);
      assert Zeros(z) + "0" == "0" + (Zeros(z - 1) + "0");
    }
  }

  /** What reads as `n` spells `n`. */
  lemma {:induction false} ReadSpells(s: string)
    requires Read(s).Some?
    ensures Spells(s, Read(s).value)
    decreases |s|
  {
    var n := Read(s).value;
    if |s| == 1 {
      assert s == Zeros(0) + Show(n);
    } else {
      var front := Read(s[..|s| - 1]).value;
      ReadSpells(s[..|s| - 1]);
      var z: nat :| s[..|s| - 1] == Zeros(z) + Show(front);
      assert s == s[..|s| - 1] + [Numeral(n % 10)];
      if front == 0 {
        ZerosMore(z);
        assert s == Zeros(z + 1) + Show(n);
      } else {
        ShowMore(front, n % 10);
        assert s == Zeros(z) + Show(n);
      }
    }
  }

  lemma ReadIff(s: string, n: nat)
    ensures Read(s) == Some(n) <==> Spells(s, n)
  {
    if Read(s).Some? { ReadSpells(s); }
    if z: nat :| s == Zeros(z) + Show(n) {
      ReadShow(n);
      ReadZeros(z, Show(n));
    }
  }

  lemma SpellsNumeric(s: string, n: nat)
    requires Spells(s, n)
    ensures s != [] && IsNumeral(s[0])
  {
    var z: nat :| s == Zeros(z) + Show(n);
    ZerosLength(z);
  }

  /** The same with a sign: `+` or none for an integer from zero up, `-` for one from zero down. */
  ghost predicate SpellsInt(s: string, i: int) {
    if s != [] && s[0] == '-' then i <= 0 && Spells(s[1..], -i)
    else i >= 0 && Spells(if s != [] && s[0] == '+' then s[1..] else s, i)
  }

  /** An unsigned integer parses from what spells it, with one `+` allowed in front, and from nothing
  else, and only within its type. */
  lemma ParseUnsignedIff(s: string, max: nat, n: nat)
    ensures ParseUnsigned(s, max) == Some(n) <==>
              n <= max && (Spells(s, n) || (s != [] && s[0] == '+' && Spells(s[1..], n)))
  {
    ReadIff(s, n);
    if s != [] { ReadIff(s[1..], n); }
    if Spells(s, n) { SpellsNumeric(s, n); }
  }

  /** A signed 64-bit integer likewise, with either sign. */
  lemma ParseI64Iff(s: string, i: int)
    ensures ParseI64(s) == Some(i) <==> -0x8000_0000_0000_0000 <= i <= 0x7FFF_FFFF_FFFF_FFFF && SpellsInt(s, i)
  {
    if i >= 0 { ReadIff(s, i); }
    if s != [] { ReadIff(s[1..], if i < 0 then -i else i); }
    if s != [] && s[0] == '-' && ParseI64(s) == Some(i) { ReadIff(s[1..], -i); }
  }

  /** Every unsigned 64-bit value survives being printed and parsed. */
  lemma U64RoundTrip(n: nat)
    requires n <= U64_MAX
    ensures ParseU64(Show(n)) == Some(n)
  {
    ReadShow(n);
    assert IsNumeral(Show(n)[0]);
  }

  /** So does every signed one, the most negative included. */
  lemma I64RoundTrip(i: int)
    requires -I64_MAX - 1 <= i <= I64_MAX
    ensures ParseI64(ShowInt(i)) == Some(i)
  {
    ReadShow(if i < 0 then -i else i);
    if i < 0 {
      assert ("-" + Show(-i))[1..] == Show(-i);
    } else {
      assert IsNumeral(Show(i)[0]);
    }
  }
}
