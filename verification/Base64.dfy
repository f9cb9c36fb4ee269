/** base64url without padding (section 5 of RFC 4648), as the token codec uses it:
a strict decoder that refuses padding, foreign characters and stray trailing bits. */
module Base64 {
  import opened Records
  import opened Quotients

  type Bytes = s: string | forall i | 0 <= i < |s| :: s[i] as int < 256

  type Octet = n: int | 0 <= n < 256

  type Sextet = n: int | 0 <= n < 64

  // ----- the alphabet

  function Digit(n: Sextet): char {
    if n < 26 then ('A' as int + n) as char
    else if n < 52 then ('a' as int + n - 26) as char
    else if n < 62 then ('0' as int + n - 52) as char
    else if n == 62 then '-' else '_'
  }

  predicate IsDigit(c: char) {
    'A' <= c <= 'Z' || 'a' <= c <= 'z' || '0' <= c <= '9' || c == '-' || c == '_'
  }

  function Value(c: char): (n: Sextet)
    requires IsDigit(c)
    ensures Digit(n) == c
  {
    if 'A' <= c <= 'Z' then c as int - 'A' as int
    else if 'a' <= c <= 'z' then c as int - 'a' as int + 26
    else if '0' <= c <= '9' then c as int - '0' as int + 52
    else if c == '-' then 62 else 63
  }

  predicate Alphabetic(s: string) { forall i | 0 <= i < |s| :: IsDigit(s[i]) }

  function Spell(n: seq<Sextet>): string { seq(|n|, i requires 0 <= i < |n| => Digit(n[i])) }

  function Values(s: string): seq<Sextet>
    requires Alphabetic(s)
  {
    seq(|s|, i requires 0 <= i < |s| => Value(s[i]))
  }

  function Octets(b: Bytes): seq<Octet> { seq(|b|, i requires 0 <= i < |b| => b[i] as int) }

  function Chars(n: seq<Octet>): Bytes { seq(|n|, i requires 0 <= i < |n| => n[i] as char) }

  // ----- regrouping eight bits into six and back

  function Split(b: seq<Octet>): seq<Sextet> {
    if |b| == 0 then []
    else if |b| == 1 then [b[0] / 4, b[0] % 4 * 16]
    else if |b| == 2 then [b[0] / 4, b[0] % 4 * 16 + b[1] / 16, b[1] % 16 * 4]
    else [b[0] / 4, b[0] % 4 * 16 + b[1] / 16, b[1] % 16 * 4 + b[2] / 64, b[2] % 64] + Split(b[3..])
  }

  function First(a: int, b: int): int { a * 4 + b / 16 }

  function Second(b: int, c: int): int { b % 16 * 16 + c / 4 }

  function Third(c: int, d: int): int { c % 4 * 64 + d }

  /** Unused bits of a final partial group have to be zero. */
  function Join(n: seq<Sextet>): Option<seq<Octet>> {
    if |n| == 0 then Some([])
    else if |n| == 1 then None
    else if |n| == 2 then
      if n[1] % 16 != 0 then None else Some([First(n[0], n[1])])
    else if |n| == 3 then
      if n[2] % 4 != 0 then None else Some([First(n[0], n[1]), Second(n[1], n[2])])
    else
      var rest := Join(n[4..]);
      if rest.None? then None
      else Some([First(n[0], n[1]), Second(n[1], n[2]), Third(n[2], n[3])] + rest.value)
  }

  function Encode(b: Bytes): string { Spell(Split(Octets(b))) }

  function Decode(s: string): Option<Bytes> {
    if !Alphabetic(s) then None
    else
      var b := Join(Values(s));
      if b.None? then None else Some(Chars(b.value))
  }

  // ----- inverses

  lemma SpellValues(s: string)
    requires Alphabetic(s)
    ensures Spell(Values(s)) == s
  {}

  lemma ValuesSpell(n: seq<Sextet>)
    ensures Alphabetic(Spell(n)) && Values(Spell(n)) == n
  {
    forall i | 0 <= i < |n|
      ensures IsDigit(Spell(n)[i]) && Value(Spell(n)[i]) == n[i]
    {
    }
  }

  lemma CharsOctets(b: Bytes)
    ensures Chars(Octets(b)) == b
  {}

  lemma OctetsChars(n: seq<Octet>)
    ensures Octets(Chars(n)) == n
  {}

  lemma {:induction false} JoinSplit(b: seq<Octet>)
    ensures Join(Split(b)) == Some(b)
  {
    var n := Split(b);
    if |b| == 1 {
      assert First(n[0], n[1]) == b[0] && n[1] % 16 == 0;
      assert b == [b[0]];
    } else if |b| == 2 {
      assert First(n[0], n[1]) == b[0] && Second(n[1], n[2]) == b[1] && n[2] % 4 == 0;
      assert b == [b[0], b[1]];
    } else if |b| >= 3 {
      JoinSplit(b[3..]);
      assert n[4..] == Split(b[3..]);
      assert First(n[0], n[1]) == b[0] && Second(n[1], n[2]) == b[1] && Third(n[2], n[3]) == b[2];
      assert b == [b[0], b[1], b[2]] + b[3..];
    }
  }

  lemma Regroup(a: Sextet, b: Sextet, c: Sextet, d: Sextet)
    ensures First(a, b) / 4 == a
    ensures First(a, b) % 4 * 16 + Second(b, c) / 16 == b
    ensures Second(b, c) % 16 * 4 + Third(c, d) / 64 == c
    ensures Third(c, d) % 64 == d
  {}

  lemma SplitJoinShort(n: seq<Sextet>)
    requires |n| < 4 && Join(n).Some?
    ensures Split(Join(n).value) == n
  {
    if |n| == 2 {
      Regroup(n[0], n[1], 0, 0);
    } else if |n| == 3 {
      Regroup(n[0], n[1], n[2], 0);
    }
  }

  lemma {:induction false} SplitJoin(n: seq<Sextet>)
    requires Join(n).Some?
    ensures Split(Join(n).value) == n
  {
    if |n| < 4 {
      SplitJoinShort(n);
    } else {
      SplitJoin(n[4..]);
      Regroup(n[0], n[1], n[2], n[3]);
      var b := Join(n).value;
      assert b[3..] == Join(n[4..]).value;
      assert n == [n[0], n[1], n[2], n[3]] + n[4..];
    }
  }

  lemma EncodeAlphabetic(b: Bytes)
    ensures Alphabetic(Encode(b))
  {
    ValuesSpell(Split(Octets(b)));
  }

  /** Decoding undoes encoding, for every byte string. */
  lemma DecodeEncode(b: Bytes)
    ensures Decode(Encode(b)) == Some(b)
  {
    ValuesSpell(Split(Octets(b)));
    JoinSplit(Octets(b));
    CharsOctets(b);
  }

  /** Only the canonical spelling is accepted: encoding undoes decoding. */
  lemma EncodeDecode(s: string)
    requires Decode(s).Some?
    ensures Encode(Decode(s).value) == s
  {
    SplitJoin(Values(s));
    OctetsChars(Join(Values(s)).value);
    SpellValues(s);
  }

  // ----- the standard's own account

  const CAPITALS := "ABCDEFGHIJKLMNOPQRSTUVWXYZ"
  const SMALL := "abcdefghijklmnopqrstuvwxyz"
  const NUMERALS := "0123456789"
  const ALPHABET := CAPITALS + SMALL + NUMERALS + "-_"

  lemma CapitalOf(n: nat)
    requires n < 26
    ensures CAPITALS[n] as int == 'A' as int + n
  {}

  lemma SmallOf(n: nat)
    requires n < 26
    ensures SMALL[n] as int == 'a' as int + n
  {}

  lemma NumeralOf(n: nat)
    requires n < 10
    ensures NUMERALS[n] as int == '0' as int + n
  {}

  lemma DigitOf(n: Sextet)
    ensures Digit(n) == ALPHABET[n]
  {
    if n < 26 {
      CapitalOf(n);
    } else if n < 52 {
      SmallOf(n - 26);
    } else if n < 62 {
      NumeralOf(n - 52);
    }
  }

  lemma SpellOf(n: seq<Sextet>)
    ensures |Spell(n)| == |n| && forall i | 0 <= i < |n| :: Spell(n)[i] == ALPHABET[n[i]]
  {
    forall i | 0 <= i < |n|
      ensures Spell(n)[i] == ALPHABET[n[i]]
    {
      DigitOf(n[i]);
    }
  }

  lemma GroupDigits(a: int, b: int, c: int)
    requires 0 <= a < 256 && 0 <= b < 256 && 0 <= c < 256
    ensures var n := a * 65536 + b * 256 + c;
            && n / 262144 == a / 4 && n / 4096 % 64 == a % 4 * 16 + b / 16
            && n / 64 % 64 == b % 16 * 4 + c / 64 && n % 64 == c % 64
  {
    var n := a * 65536 + b * 256 + c;
    DivideUnique(n, 262144, a / 4);
    DivideUnique(n, 4096, 16 * a + b / 16);
    DivideUnique(16 * a + b / 16, 64, a / 4);
    DivideUnique(n, 64, a * 1024 + b * 4 + c / 64);
    DivideUnique(a * 1024 + b * 4 + c / 64, 64, a * 16 + b / 16);
  }

  /** Every three bytes are a number of 24 bits, spelled by its four digits of six; two bytes at the end
  are spelled by three digits and one by two, zero bits filling up the last (section 4 of RFC 4648). */
  lemma EncodeGroups(a: char, b: char, c: char, rest: Bytes)
    requires a as int < 256 && b as int < 256 && c as int < 256
    ensures Encode([]) == []
    ensures var n := a as int * 16; Encode([a]) == [ALPHABET[n / 64], ALPHABET[n % 64]]
    ensures var n := (a as int * 256 + b as int) * 4;
            Encode([a, b]) == [ALPHABET[n / 4096], ALPHABET[n / 64 % 64], ALPHABET[n % 64]]
    ensures var n := a as int * 65536 + b as int * 256 + c as int;
            Encode([a, b, c] + rest) ==
              [ALPHABET[n / 262144], ALPHABET[n / 4096 % 64], ALPHABET[n / 64 % 64], ALPHABET[n % 64]] + Encode(rest)
  {
    EncodeOne(a);
    EncodeTwo(a, b);
    EncodeThree(a, b, c, rest);
  }

  lemma EncodeOne(a: char)
    requires a as int < 256
    ensures var n := a as int * 16; Encode([a]) == [ALPHABET[n / 64], ALPHABET[n % 64]]
  {
    var o := Octets([a]);
    SpellOf(Split(o));
    DivideUnique(a as int * 16, 64, a as int / 4);
  }

  lemma TwoDigits(x: int, y: int)
    requires 0 <= x < 256 && 0 <= y < 256
    ensures var n := (x * 256 + y) * 4;
            n / 4096 == x / 4 && n / 64 % 64 == x % 4 * 16 + y / 16 && n % 64 == y % 16 * 4
  {
    DivideUnique((x * 256 + y) * 4, 4096, x / 4);
    DivideUnique((x * 256 + y) * 4, 64, x * 16 + y / 16);
    DivideUnique(x * 16 + y / 16, 64, x / 4);
  }

  lemma SplitTwo(a: Octet, b: Octet)
    ensures Split([a, b]) == [a / 4, a % 4 * 16 + b / 16, b % 16 * 4]
  {}

  lemma ThreeOf(p: Sextet, q: Sextet, r: Sextet)
    ensures Spell([p, q, r]) == [ALPHABET[p], ALPHABET[q], ALPHABET[r]]
  {
    SpellOf([p, q, r]);
  }

  lemma EncodePair(a: char, b: char)
    requires a as int < 256 && b as int < 256
    ensures var x, y := a as int, b as int; Encode([a, b]) == Spell([x / 4, x % 4 * 16 + y / 16, y % 16 * 4])
  {
    SplitTwo(a as int, b as int);
    assert Octets([a, b]) == [a as int, b as int];
  }

  lemma EncodeTwo(a: char, b: char)
    requires a as int < 256 && b as int < 256
    ensures var n := (a as int * 256 + b as int) * 4;
            Encode([a, b]) == [ALPHABET[n / 4096], ALPHABET[n / 64 % 64], ALPHABET[n % 64]]
  {
    TwoDigits(a as int, b as int);
    EncodePair(a, b);
    ThreeOf(a as int / 4, a as int % 4 * 16 + b as int / 16, b as int % 16 * 4);
  }

  lemma SplitThree(a: Octet, b: Octet, c: Octet, rest: seq<Octet>)
    ensures Split([a, b, c] + rest)
         == [a / 4, a % 4 * 16 + b / 16, b % 16 * 4 + c / 64, c % 64] + Split(rest)
  {
    assert ([a, b, c] + rest)[3..] == rest;
  }

  lemma SpellJoin(m: seq<Sextet>, n: seq<Sextet>)
    ensures Spell(m + n) == Spell(m) + Spell(n)
  {}

  lemma FourOf(p: Sextet, q: Sextet, r: Sextet, t: Sextet)
    ensures Spell([p, q, r, t]) == [ALPHABET[p], ALPHABET[q], ALPHABET[r], ALPHABET[t]]
  {
    SpellOf([p, q, r, t]);
  }

  lemma EncodeSplit(a: char, b: char, c: char, rest: Bytes)
    requires a as int < 256 && b as int < 256 && c as int < 256
    ensures var x, y, z := a as int, b as int, c as int;
            Encode([a, b, c] + rest)
            == Spell([x / 4, x % 4 * 16 + y / 16, y % 16 * 4 + z / 64, z % 64]) + Encode(rest)
  {
    var x, y, z := a as int, b as int, c as int;
    assert Octets([a, b, c] + rest) == [x, y, z] + Octets(rest);
    SplitThree(x, y, z, Octets(rest));
    SpellJoin([x / 4, x % 4 * 16 + y / 16, y % 16 * 4 + z / 64, z % 64], Split(Octets(rest)));
  }

  lemma EncodeThree(a: char, b: char, c: char, rest: Bytes)
    requires a as int < 256 && b as int < 256 && c as int < 256
    ensures var n := a as int * 65536 + b as int * 256 + c as int;
            Encode([a, b, c] + rest) ==
              [ALPHABET[n / 262144], ALPHABET[n / 4096 % 64], ALPHABET[n / 64 % 64], ALPHABET[n % 64]] + Encode(rest)
  {
    GroupDigits(a as int, b as int, c as int);
    EncodeSplit(a, b, c, rest);
    FourOf(a as int / 4, a as int % 4 * 16 + b as int / 16, b as int % 16 * 4 + c as int / 64, c as int % 64);
  }
}
