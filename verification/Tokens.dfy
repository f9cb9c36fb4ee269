/** The signed token: `base64url(payload).base64url(mac)`, the payload being
`kind|base64url(email)|expiry|generation`. The MAC is a parameter, an arbitrary
function of key and message. */
module Tokens {
  import opened Records
  import opened Base64
  import opened Decimals

  type Mac = (Bytes, Bytes) -> Bytes

  // ----- text

  /** The part before the first `c` and the part after it. */
  function SplitOnce(s: string, c: char): Option<(string, string)> {
    if s == [] then None
    else if s[0] == c then Some(("", s[1..]))
    else
      var rest := SplitOnce(s[1..], c);
      if rest.None? then None else Some(([s[0]] + rest.value.0, rest.value.1))
  }

  predicate Free(s: string, c: char) { forall i | 0 <= i < |s| :: s[i] != c }

  lemma {:induction false} SplitAt(a: string, c: char, b: string)
    requires Free(a, c)
    ensures SplitOnce(a + [c] + b, c) == Some((a, b))
  {
    var s := a + [c] + b;
    if a == [] {
      assert s[1..] == b;
    } else {
      SplitAt(a[1..], c, b);
      assert s[1..] == a[1..] + [c] + b;
      assert [a[0]] + a[1..] == a;
    }
  }

  lemma {:induction false} SplitJoins(s: string, c: char)
    requires SplitOnce(s, c).Some?
    ensures var p := SplitOnce(s, c).value; s == p.0 + [c] + p.1 && Free(p.0, c)
  {
    if s[0] != c { SplitJoins(s[1..], c); }
  }

  /** Well-formed UTF-8 (section 4 of RFC 3629). */
  predicate Utf8(s: Bytes) {
    if s == [] then true
    else
      var a := s[0] as int;
      if a < 0x80 then Utf8(s[1..])
      else if |s| < 2 then false
      else
        var b := s[1] as int;
        if 0xC2 <= a <= 0xDF then 0x80 <= b <= 0xBF && Utf8(s[2..])
        else if |s| < 3 then false
        else
          var c := s[2] as int;
          if 0xE0 <= a <= 0xEF then
            && (if a == 0xE0 then 0xA0 else 0x80) <= b <= (if a == 0xED then 0x9F else 0xBF)
            && 0x80 <= c <= 0xBF && Utf8(s[3..])
          else if |s| < 4 then false
          else
            && 0xF0 <= a <= 0xF4
            && (if a == 0xF0 then 0x90 else 0x80) <= b <= (if a == 0xF4 then 0x8F else 0xBF)
            && 0x80 <= c <= 0xBF && 0x80 <= s[3] as int <= 0xBF && Utf8(s[4..])
  }

  predicate Ascii(s: string) { forall i | 0 <= i < |s| :: s[i] as int < 0x80 }

  lemma {:induction false} AsciiIsUtf8(s: Bytes)
    requires Ascii(s)
    ensures Utf8(s)
  {
    if s != [] { AsciiIsUtf8(s[1..]); }
  }

  // ----- the payload

  function KindText(k: TokenKind): string { if k.Confirm? then "c" else "u" }

  function ParseKind(s: string): Option<TokenKind> {
    if s == "c" then Some(Confirm) else if s == "u" then Some(Unsubscribe) else None
  }

  /** What the Rust types guarantee of a `Token`. */
  predicate WellTyped(t: Token) {
    && (forall i | 0 <= i < |t.email| :: t.email[i] as int < 256)
    && Utf8(t.email)
    && -I64_MAX - 1 <= t.expUnix <= I64_MAX
    && t.generation <= U64_MAX
  }

  function Payload(t: Token): string
    requires WellTyped(t)
  {
    KindText(t.kind) + "|" + (Encode(t.email) + "|" + (ShowInt(t.expUnix) + "|" + Show(t.generation)))
  }

  function ParseFields(kind: string, email64: string, exp: string, generation: string): Option<Token> {
    var k, e, x, g := ParseKind(kind), Decode(email64), ParseI64(exp), ParseU64(generation);
    if k.Some? && e.Some? && Utf8(e.value) && x.Some? && g.Some?
    then Some(Token(k.value, e.value, x.value, g.value)) else None
  }

  /** `splitn(4, '|')` and the four field parsers. */
  function ParsePayload(s: string): Option<Token> {
    var a := SplitOnce(s, '|');
    if a.None? then None
    else
      var b := SplitOnce(a.value.1, '|');
      if b.None? then None
      else
        var c := SplitOnce(b.value.1, '|');
        if c.None? then None else ParseFields(a.value.0, b.value.0, c.value.0, c.value.1)
  }

  function Bars(s: string): nat {
    if s == [] then 0 else Bars(s[1..]) + if s[0] == '|' then 1 else 0
  }

  lemma {:induction false} BarsJoin(a: string, b: string)
    ensures Bars(a + b) == Bars(a) + Bars(b)
  {
    if a == [] {
      assert a + b == b;
    } else {
      BarsJoin(a[1..], b);
      assert (a + b)[1..] == a[1..] + b;
    }
  }

  // ----- sign and verify

  function Sign(mac: Mac, t: Token, secret: Bytes): Result<string>
    requires WellTyped(t)
  {
    if secret == [] then Err(Error.Config)
    else
      PayloadAscii(t);
      Ok(Encode(Payload(t)) + "." + Encode(mac(secret, Payload(t))))
  }

  function Verify(mac: Mac, raw: string, secret: Bytes, now: int): Result<Token> {
    var p := SplitOnce(raw, '.');
    if p.None? then Err(InvalidToken)
    else
      var payload, sig := Decode(p.value.0), Decode(p.value.1);
      if payload.None? || sig.None? then Err(InvalidToken)
      else if sig.value != mac(secret, payload.value) || !Utf8(payload.value) then Err(InvalidToken)
      else
        var t := ParsePayload(payload.value);
        if t.None? || t.value.expUnix < now then Err(InvalidToken) else Ok(t.value)
  }

  // ----- the payload, printed and parsed

  lemma AlphabetAscii(s: string)
    requires Alphabetic(s)
    ensures Ascii(s) && Free(s, '|') && Free(s, '.')
  {}

  lemma NumericAscii(s: string)
    requires Numeric(s)
    ensures Ascii(s) && Free(s, '|')
  {}

  lemma FieldsAscii(t: Token)
    requires WellTyped(t)
    ensures Ascii(KindText(t.kind)) && Free(KindText(t.kind), '|')
    ensures Ascii(Encode(t.email)) && Free(Encode(t.email), '|')
    ensures Ascii(ShowInt(t.expUnix)) && Free(ShowInt(t.expUnix), '|')
    ensures Ascii(Show(t.generation))
  {
    EncodeAlphabetic(t.email);
    AlphabetAscii(Encode(t.email));
    NumericAscii(Show(if t.expUnix < 0 then -t.expUnix else t.expUnix));
    NumericAscii(Show(t.generation));
  }

  lemma PayloadAscii(t: Token)
    requires WellTyped(t)
    ensures Ascii(Payload(t)) && forall i | 0 <= i < |Payload(t)| :: Payload(t)[i] as int < 256
  {
    FieldsAscii(t);
  }

  /** Parsing undoes printing: no field can be mistaken for a delimiter. */
  lemma ParsePrint(t: Token)
    requires WellTyped(t)
    ensures ParsePayload(Payload(t)) == Some(t)
  {
    FieldsAscii(t);
    var exp, gen := ShowInt(t.expUnix), Show(t.generation);
    SplitAt(KindText(t.kind), '|', Encode(t.email) + "|" + (exp + "|" + gen));
    SplitAt(Encode(t.email), '|', exp + "|" + gen);
    SplitAt(exp, '|', gen);
    DecodeEncode(t.email);
    I64RoundTrip(t.expUnix);
    U64RoundTrip(t.generation);
  }

  // ----- main results

  /** What was signed verifies to exactly itself until it expires, and to nothing after. */
  lemma VerifySign(mac: Mac, t: Token, secret: Bytes, now: int)
    requires WellTyped(t) && secret != []
    ensures Sign(mac, t, secret).Ok?
    ensures Verify(mac, Sign(mac, t, secret).value, secret, now) ==
              if now <= t.expUnix then Ok(t) else Err(InvalidToken)
  {
    PayloadAscii(t);
    var payload: Bytes := Payload(t);
    var sig := mac(secret, payload);
    EncodeAlphabetic(payload);
    AlphabetAscii(Encode(payload));
    SplitAt(Encode(payload), '.', Encode(sig));
    DecodeEncode(payload);
    DecodeEncode(sig);
    AsciiIsUtf8(payload);
    ParsePrint(t);
  }

  /** Two tokens with one payload are one token, so a signature speaks for one token only. */
  lemma PayloadInjective(t: Token, u: Token)
    requires WellTyped(t) && WellTyped(u) && Payload(t) == Payload(u)
    ensures t == u
  {
    ParsePrint(t);
    ParsePrint(u);
  }

  /** The four fields of a payload: the kind's letter, the canonical base64url of the email, and decimal
  text, not necessarily the shortest, of expiry and generation. */
  ghost predicate Spelled(payload: string, t: Token, exp: string, generation: string)
    requires WellTyped(t)
  {
    && payload == (if t.kind.Confirm? then "c" else "u") + "|" + (Encode(t.email) + "|" + (exp + "|" + generation))
    && SpellsInt(exp, t.expUnix)
    && (Spells(generation, t.generation)
        || (generation != [] && generation[0] == '+' && Spells(generation[1..], t.generation)))
  }

  lemma SpellsAscii(s: string, i: int)
    requires SpellsInt(s, i) || (i >= 0 && Spells(s, i))
    ensures Ascii(s) && Free(s, '|')
  {
    if i >= 0 && Spells(s, i) { SpellsNumeric(s, i); }
    var digits := if s != [] && (s[0] == '-' || s[0] == '+') then s[1..] else s;
    var n := if i < 0 then -i else i;
    assert Spells(digits, n);
    var z: nat :| digits == Zeros(z) + Show(n);
    ZerosLength(z);
    NumericAscii(digits);
  }

  lemma ParsedSpelled(payload: string, t: Token) returns (exp: string, generation: string)
    requires ParsePayload(payload) == Some(t)
    ensures WellTyped(t) && Spelled(payload, t, exp, generation)
  {
    var a := SplitOnce(payload, '|').value;
    var b := SplitOnce(a.1, '|').value;
    var c := SplitOnce(b.1, '|').value;
    SplitJoins(payload, '|');
    SplitJoins(a.1, '|');
    SplitJoins(b.1, '|');
    EncodeDecode(b.0);
    ParseI64Iff(c.0, t.expUnix);
    ParseUnsignedIff(c.1, U64_MAX, t.generation);
    exp, generation := c.0, c.1;
    assert [a.0[0]] == a.0;
  }

  lemma SpelledParses(payload: string, t: Token, exp: string, generation: string)
    requires WellTyped(t) && Spelled(payload, t, exp, generation)
    ensures ParsePayload(payload) == Some(t)
  {
    var email := Encode(t.email);
    SpellsAscii(exp, t.expUnix);
    FieldsAscii(t);
    SplitAt(KindText(t.kind), '|', email + "|" + (exp + "|" + generation));
    SplitAt(email, '|', exp + "|" + generation);
    SplitAt(exp, '|', generation);
    assert ParsePayload(payload) == ParseFields(KindText(t.kind), email, exp, generation);
    FieldsParse(t, exp, generation);
  }

  lemma FieldsParse(t: Token, exp: string, generation: string)
    requires WellTyped(t) && SpellsInt(exp, t.expUnix)
    requires Spells(generation, t.generation)
             || (generation != [] && generation[0] == '+' && Spells(generation[1..], t.generation))
    ensures ParseFields(KindText(t.kind), Encode(t.email), exp, generation) == Some(t)
  {
    DecodeEncode(t.email);
    ParseI64Iff(exp, t.expUnix);
    ParseUnsignedIff(generation, U64_MAX, t.generation);
  }

  /** A payload parses to a token exactly if its fields spell one that the field types can hold. */
  lemma ParsesIff(payload: string, t: Token)
    ensures ParsePayload(payload) == Some(t) <==>
              WellTyped(t) && exists exp, generation :: Spelled(payload, t, exp, generation)
  {
    if ParsePayload(payload) == Some(t) {
      var exp, generation := ParsedSpelled(payload, t);
    }
    if WellTyped(t) {
      if exp, generation :| Spelled(payload, t, exp, generation) { SpelledParses(payload, t, exp, generation); }
    }
  }

  /** Exactly what verifies: the canonical spelling of a payload together with the canonical spelling of
  the MAC of that very payload, the payload having the token's four fields, and time left on it. */
  lemma VerifiesIff(mac: Mac, raw: string, secret: Bytes, now: int, t: Token)
    ensures Verify(mac, raw, secret, now) == Ok(t) <==>
              exists payload: Bytes, exp, generation ::
                && raw == Encode(payload) + "." + Encode(mac(secret, payload))
                && WellTyped(t) && Spelled(payload, t, exp, generation) && now <= t.expUnix
  {
    if Verify(mac, raw, secret, now) == Ok(t) {
      SplitJoins(raw, '.');
      var p := SplitOnce(raw, '.').value;
      EncodeDecode(p.0);
      EncodeDecode(p.1);
      var payload := Decode(p.0).value;
      var exp, generation := ParsedSpelled(payload, t);
      assert raw == Encode(payload) + "." + Encode(mac(secret, payload));
    }
    if payload: Bytes, exp, generation :| raw == Encode(payload) + "." + Encode(mac(secret, payload))
                                          && WellTyped(t) && Spelled(payload, t, exp, generation) && now <= t.expUnix {
      EncodeAlphabetic(payload);
      AlphabetAscii(Encode(payload));
      SplitAt(Encode(payload), '.', Encode(mac(secret, payload)));
      DecodeEncode(payload);
      DecodeEncode(mac(secret, payload));
      SpelledParses(payload, t, exp, generation);
      SpelledAscii(payload, t, exp, generation);
      AsciiIsUtf8(payload);
    }
  }

  lemma SpelledAscii(payload: string, t: Token, exp: string, generation: string)
    requires WellTyped(t) && Spelled(payload, t, exp, generation)
    ensures Ascii(payload)
  {
    FieldsAscii(t);
    SpellsAscii(exp, t.expUnix);
    SpellsAscii(generation, t.generation);
  }

  /** A payload with fewer than four fields is never accepted, however it is signed. */
  lemma FewFieldsRejected(mac: Mac, payload: Bytes, sig: Bytes, secret: Bytes, now: int)
    requires Bars(payload) < 3
    ensures Verify(mac, Encode(payload) + "." + Encode(sig), secret, now) == Err(InvalidToken)
  {
    EncodeAlphabetic(payload);
    AlphabetAscii(Encode(payload));
    SplitAt(Encode(payload), '.', Encode(sig));
    DecodeEncode(payload);
    if ParsePayload(payload).Some? {
      var a := SplitOnce(payload, '|');
      var b := SplitOnce(a.value.1, '|');
      SplitBars(payload);
      SplitBars(a.value.1);
      SplitBars(b.value.1);
    }
  }

  lemma SplitBars(s: string)
    requires SplitOnce(s, '|').Some?
    ensures Bars(s) >= 1 + Bars(SplitOnce(s, '|').value.1)
  {
    var p := SplitOnce(s, '|').value;
    SplitJoins(s, '|');
    BarsJoin(p.0 + "|", p.1);
    BarsJoin(p.0, "|");
  }
}
