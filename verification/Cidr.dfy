/** Trusted-proxy ranges and the rate-limit key taken from a request. */
module Cidr {
  import opened Records
  import opened Decimals
  import opened Quotients

  function Power2(n: nat): (p: nat)
    ensures p >= 1
  {
    if n == 0 then 1 else 2 * Power2(n - 1)
  }

  /** An address by its value: 32 bits or 128. */
  datatype Ip = V4(bits: nat) | V6(bits: nat) {
    ghost predicate Valid() { bits < Power2(Width()) }

    function Width(): nat { if V4? then 32 else 128 }
  }

  // ----- machine words

  /** Bitwise and. */
  function And(a: nat, b: nat): nat {
    if a == 0 || b == 0 then 0 else 2 * And(a / 2, b / 2) + (a % 2) * (b % 2)
  }

  /** The `width`-bit word of ones shifted left by `width - prefix`, no shift at all for prefix zero. */
  function Mask(width: nat, prefix: nat): nat
    requires prefix <= width
  {
    if prefix == 0 then 0 else (Power2(width) - 1) * Power2(width - prefix) % Power2(width)
  }

  // ----- ranges

  datatype Range = Range(network: Ip, prefix: nat) {
    ghost predicate Valid() { network.Valid() && Canonical(network) == network && prefix <= network.Width() }
  }

  /** `to_canonical`: an IPv4-mapped IPv6 address (section 2.5.5.2 of RFC 4291) becomes its IPv4 form. */
  function Canonical(ip: Ip): Ip {
    if ip.V6? && ip.bits / 0x1_0000_0000 == 0xFFFF then V4(ip.bits % 0x1_0000_0000) else ip
  }

  predicate Contains(r: Range, peer: Ip)
    requires r.prefix <= r.network.Width()
  {
    var p := Canonical(peer);
    && p.V4? == r.network.V4?
    && And(r.network.bits, Mask(p.Width(), r.prefix)) == And(p.bits, Mask(p.Width(), r.prefix))
  }

  /** A bare address is a host-length range. */
  function Host(ip: Ip): Range { Range(Canonical(ip), Canonical(ip).Width()) }

  function ParseU8(s: string): Option<nat> { ParseUnsigned(s, 255) }

  /** `from_str`, given what the address part parses to and the text after the slash, if there is one. */
  function ParseRange(address: Option<Ip>, length: Option<string>): Option<Range> {
    if address.None? then None
    else
      var network := Canonical(address.value);
      var prefix := if length.None? then Some(network.Width()) else ParseU8(length.value);
      if prefix.None? || prefix.value > network.Width() then None else Some(Range(network, prefix.value))
  }

  // ----- the rate-limit key

  predicate IsTrusted(trusted: seq<Range>, peer: Ip)
    requires forall r | r in trusted :: r.prefix <= r.network.Width()
  {
    exists r | r in trusted :: Contains(r, peer)
  }

  /** The text after the last comma. */
  function LastPart(s: string): string {
    if s == [] then []
    else if s[|s| - 1] == ',' then []
    else LastPart(s[..|s| - 1]) + [s[|s| - 1]]
  }

  /** `extract`: the client address a request is charged to. `parse` trims and reads one address. */
  function Extract(trusted: seq<Range>, peer: Option<Ip>, forwardedFor: Option<string>,
                   parse: string -> Option<Ip>): Option<Ip>
    requires forall r | r in trusted :: r.prefix <= r.network.Width()
  {
    if peer.None? then None
    else
      var p := Canonical(peer.value);
      if !IsTrusted(trusted, p) || forwardedFor.None? then Some(p)
      else
        var ip := parse(LastPart(forwardedFor.value));
        if ip.Some? then ip else Some(p)
  }

  // ----- masks

  lemma {:induction false} PowerSum(a: nat, b: nat)
    ensures Power2(a + b) == Power2(a) * Power2(b)
    decreases a
  {
    if a > 0 {
      PowerSum(a - 1, b);
      assert Power2(a) * Power2(b) == 2 * (Power2(a - 1) * Power2(b));
    }
  }

  lemma ShiftedOnes(w: nat, s: nat)
    requires 1 <= s < w
    ensures (w - 1) * s % w == w - s
  {
    assert (w - 1) * s == w * (s - 1) + (w - s);
    DivideUnique((w - 1) * s, w, s - 1);
  }

  /** The shifted word is `prefix` ones followed by zeros. */
  lemma MaskValue(width: nat, prefix: nat)
    requires prefix <= width
    ensures Mask(width, prefix) == Power2(width) - Power2(width - prefix)
  {
    if prefix > 0 {
      var s := Power2(width - prefix);
      PowerSum(prefix, width - prefix);
      Grows(s, 2, Power2(prefix));
      ShiftedOnes(Power2(width), s);
    }
  }

  lemma {:induction false} AndAllOnes(x: nat, n: nat)
    requires x < Power2(n)
    ensures And(x, Power2(n) - 1) == x
    decreases n
  {
    if x > 0 {
      assert (Power2(n) - 1) / 2 == Power2(n - 1) - 1 && (Power2(n) - 1) % 2 == 1;
      AndAllOnes(x / 2, n - 1);
    }
  }

  lemma HalfThenDivide(x: nat, d: nat)
    requires d > 0
    ensures x / 2 / d == x / (2 * d)
  {
    DivideTwice(x, 2, d);
  }

  lemma Quotient(x: nat, d: nat)
    requires d > 0
    ensures d * (x / d) <= x < d * (x / d) + d
  {}

  lemma Distribute(c: int, a: int, b: int)
    ensures c * (a + b) == c * a + c * b
  {}

  lemma Associate(c: int, d: int, q: int)
    ensures c * (d * q) == c * d * q
  {}

  lemma DivideTwice(x: nat, c: nat, d: nat)
    requires c > 0 && d > 0
    ensures c * d > 0 && x / c / d == x / (c * d)
  {
    var y := x / c;
    var q := y / d;
    Quotient(x, c);
    Quotient(y, d);
    Grows(c, d * q, y);
    Grows(c, y + 1, d * q + d);
    Distribute(c, y, 1);
    Distribute(c, d * q, d);
    Associate(c, d, q);
    Grows(c, 1, d);
    DivideUnique(x, c * d, q);
  }

  lemma HalfMask(x: nat, m: nat, h: nat)
    requires h > 0 && And(x / 2, m) == x / 2 / h * h
    ensures And(x, 2 * m) == x / (2 * h) * (2 * h)
  {
    EvenMask(x, m);
    HalfThenDivide(x, h);
    Double(x / (2 * h), h);
  }

  lemma Double(q: nat, h: nat)
    ensures q * (2 * h) == 2 * (q * h)
  {}

  /** Masking keeps the bits above the host part. */
  lemma {:induction false} AndMask(x: nat, width: nat, host: nat, mask: nat)
    requires host <= width && x < Power2(width) && mask == Power2(width) - Power2(host)
    ensures And(x, mask) == x / Power2(host) * Power2(host)
    decreases host
  {
    if host == 0 {
      AndAllOnes(x, width);
      assert x / 1 * 1 == x;
    } else {
      PowerGrows(host - 1, width - 1);
      var m := Power2(width - 1) - Power2(host - 1);
      AndMask(x / 2, width - 1, host - 1, m);
      HalfMask(x, m, Power2(host - 1));
    }
  }

  lemma PowerGrows(a: nat, b: nat)
    requires a <= b
    ensures Power2(a) <= Power2(b)
  {
    PowerSum(b - a, a);
    Grows(Power2(a), 1, Power2(b - a));
  }

  lemma EvenMask(x: nat, m: nat)
    ensures And(x, 2 * m) == 2 * And(x / 2, m)
  {
    if x > 0 && m > 0 { assert 2 * m / 2 == m && 2 * m % 2 == 0; }
  }

  lemma MaskedEqual(x: nat, y: nat, width: nat, prefix: nat)
    requires prefix <= width && x < Power2(width) && y < Power2(width)
    ensures And(x, Mask(width, prefix)) == And(y, Mask(width, prefix)) <==>
              x / Power2(width - prefix) == y / Power2(width - prefix)
  {
    var d := Power2(width - prefix);
    MaskValue(width, prefix);
    AndMask(x, width, width - prefix, Mask(width, prefix));
    AndMask(y, width, width - prefix, Mask(width, prefix));
    Cancel(x / d, y / d, d);
  }

  lemma Cancel(a: nat, b: nat, d: nat)
    requires d > 0
    ensures a * d == b * d <==> a == b
  {
    DivideUnique(a * d, d, a);
    DivideUnique(b * d, d, b);
  }

  // ----- main results

  /** The host bits of a range: what its prefix leaves over. */
  function HostBits(r: Range): nat
    requires r.prefix <= r.network.Width()
  {
    r.network.Width() - r.prefix
  }

  lemma CanonicalValid(ip: Ip)
    requires ip.Valid()
    ensures Canonical(ip).Valid() && Canonical(Canonical(ip)) == Canonical(ip)
  {
    Word32();
  }

  lemma Word32()
    ensures Power2(32) == 0x1_0000_0000
  {
    PowerSum(16, 16);
    PowerSum(8, 8);
    PowerSum(4, 4);
    PowerSum(2, 2);
    assert Power2(2) == 4 by { assert Power2(1) == 2 * Power2(0); }
  }

  /** For every prefix of either family, zero and the full width included, a peer is in the
  range exactly when it is of the range's family and both agree once their host bits are
  divided away (section 3.1 of RFC 4632). */
  lemma ContainsIff(r: Range, peer: Ip)
    requires r.Valid() && peer.Valid()
    ensures Contains(r, peer) <==>
              && Canonical(peer).V4? == r.network.V4?
              && Canonical(peer).bits / Power2(HostBits(r)) == r.network.bits / Power2(HostBits(r))
  {
    CanonicalValid(peer);
    if Canonical(peer).V4? == r.network.V4? {
      MaskedEqual(r.network.bits, Canonical(peer).bits, r.network.Width(), r.prefix);
    }
  }

  lemma CoarserAgrees(x: nat, y: nat, a: nat, b: nat)
    requires a <= b && x / Power2(a) == y / Power2(a)
    ensures x / Power2(b) == y / Power2(b)
  {
    PowerSum(a, b - a);
    DivideTwice(x, Power2(a), Power2(b - a));
    DivideTwice(y, Power2(a), Power2(b - a));
  }

  /** Ranges nest or miss each other: once two of them share an address, every address of the
  one with the longer prefix is in the other. In particular a longer prefix of one network
  is a narrower range. */
  lemma NestedOrApart(narrow: Range, wide: Range, shared: Ip, peer: Ip)
    requires narrow.Valid() && wide.Valid() && shared.Valid() && peer.Valid()
    requires Contains(narrow, shared) && Contains(wide, shared) && wide.prefix <= narrow.prefix
    requires Contains(narrow, peer)
    ensures Contains(wide, peer)
  {
    ContainsIff(narrow, shared);
    ContainsIff(wide, shared);
    ContainsIff(narrow, peer);
    ContainsIff(wide, peer);
    CoarserAgrees(Canonical(peer).bits, narrow.network.bits, HostBits(narrow), HostBits(wide));
    CoarserAgrees(Canonical(shared).bits, narrow.network.bits, HostBits(narrow), HostBits(wide));
  }

  /** A peer reported in IPv4-mapped form, `::ffff:a.b.c.d`, is in the same ranges as in its IPv4 form. */
  lemma MappedPeer(r: Range, bits: nat)
    requires r.Valid() && bits < 0x1_0000_0000
    ensures Contains(r, V6(0xFFFF_0000_0000 + bits)) == Contains(r, V4(bits))
  {
    MappedCanonical(bits);
  }

  lemma MappedCanonical(bits: nat)
    requires bits < 0x1_0000_0000
    ensures Canonical(V6(0xFFFF_0000_0000 + bits)) == V4(bits)
  {
    DivideUnique(0xFFFF_0000_0000 + bits, 0x1_0000_0000, 0xFFFF);
  }

  /** No other IPv6 peer is in any range of the other family. */
  lemma UnmappedPeer(r: Range, bits: nat)
    requires r.prefix <= r.network.Width() && !(0xFFFF_0000_0000 <= bits < 0x1_0000_0000_0000)
    ensures r.network.V4? ==> !Contains(r, V6(bits))
  {
    Quotient(bits, 0x1_0000_0000);
  }

  /** A host range holds one address. */
  lemma HostHoldsOne(ip: Ip, peer: Ip)
    requires ip.Valid() && peer.Valid()
    ensures Host(ip).Valid() && (Contains(Host(ip), peer) <==> Canonical(peer) == Canonical(ip))
  {
    CanonicalValid(ip);
    ContainsIff(Host(ip), peer);
    assert HostBits(Host(ip)) == 0 && Power2(0) == 1;
  }

  lemma NoneAbove(x: nat, n: nat)
    requires x < Power2(n)
    ensures x / Power2(n) == 0
  {
    DivideUnique(x, Power2(n), 0);
  }

  /** A zero prefix holds its whole family, and nothing of the other. */
  lemma ZeroPrefixHoldsFamily(r: Range, peer: Ip)
    requires r.Valid() && r.prefix == 0 && peer.Valid()
    ensures Contains(r, peer) <==> Canonical(peer).V4? == r.network.V4?
  {
    CanonicalValid(peer);
    ContainsIff(r, peer);
    NoneAbove(r.network.bits, HostBits(r));
    if Canonical(peer).V4? == r.network.V4? { NoneAbove(Canonical(peer).bits, HostBits(r)); }
  }

  /** An address without a length parses to the range of that one address; with a decimal length it
  parses to that many bits of the canonical network, exactly if this has so many. */
  lemma ParseRangeIs(address: Ip, n: nat)
    requires address.Valid()
    ensures ParseRange(Some(address), None) == Some(Host(address))
    ensures ParseRange(Some(address), Some(Show(n))) ==
              if n <= (if Canonical(address).V4? then 32 else 128) then Some(Range(Canonical(address), n)) else None
    ensures ParseRange(None, None) == ParseRange(None, Some(Show(n))) == None
  {
    ReadShow(n);
    assert IsNumeral(Show(n)[0]);
  }

  /** For every text after the slash: it parses to a range exactly if it is a decimal that spells the
  range's prefix, one `+` and zeros allowed, and the canonical network has so many bits. */
  lemma ParseRangeIff(address: Ip, text: string, r: Range)
    ensures ParseRange(Some(address), Some(text)) == Some(r) <==>
              && r.network == Canonical(address)
              && r.prefix <= (if r.network.V4? then 32 else 128)
              && (Spells(text, r.prefix) || (text != [] && text[0] == '+' && Spells(text[1..], r.prefix)))
  {
    ParseUnsignedIff(text, 255, r.prefix);
  }

  /** An IPv4-mapped network parses like its IPv4 form, with a length of at most 32 therefore. */
  lemma MappedNetwork(bits: nat, length: Option<string>)
    requires bits < 0x1_0000_0000
    ensures ParseRange(Some(V6(0xFFFF_0000_0000 + bits)), length) == ParseRange(Some(V4(bits)), length)
  {
    MappedCanonical(bits);
  }

  /** What `address/n` then holds: the peers of its family that agree with it once the other bits are
  divided away. */
  lemma ParsedHolds(address: Ip, n: nat, peer: Ip)
    requires address.Valid() && peer.Valid()
    requires n <= (if Canonical(address).V4? then 32 else 128)
    ensures var r, a, p := ParseRange(Some(address), Some(Show(n))), Canonical(address), Canonical(peer);
            && r.Some? && r.value.Valid()
            && (Contains(r.value, peer) <==>
                  && p.V4? == a.V4?
                  && var host := Power2((if a.V4? then 32 else 128) - n); p.bits / host == a.bits / host)
  {
    ParseRangeIs(address, n);
    CanonicalValid(address);
    ContainsIff(Range(Canonical(address), n), peer);
  }

  /** What a request from an untrusted peer says about itself is ignored. */
  lemma UntrustedIgnoresHeader(trusted: seq<Range>, peer: Ip, one: Option<string>, other: Option<string>,
                               parse: string -> Option<Ip>)
    requires forall r | r in trusted :: r.prefix <= r.network.Width()
    requires peer.Valid() && !exists r | r in trusted :: Contains(r, peer)
    ensures Extract(trusted, Some(peer), one, parse) == Extract(trusted, Some(peer), other, parse) ==
              Some(Canonical(peer))
  {
    CanonicalValid(peer);
    assert forall r | r in trusted :: Contains(r, Canonical(peer)) == Contains(r, peer);
  }

  lemma {:induction false} LastPartOf(front: string, last: string)
    requires forall i | 0 <= i < |last| :: last[i] != ','
    ensures LastPart(front + "," + last) == last && LastPart(last) == last
    decreases |last|
  {
    if last == [] {
      assert front + "," + last == front + ",";
    } else {
      var s := front + "," + last;
      assert s[..|s| - 1] == front + "," + last[..|last| - 1];
      LastPartOf(front, last[..|last| - 1]);
    }
  }

  /** A peer is trusted exactly if some configured range holds it; the key of a request from a trusted
  peer is the entry that peer appended itself, whatever the client wrote before it, and the peer
  without a header or a readable entry. */
  lemma TrustedReadsLastEntry(trusted: seq<Range>, peer: Ip, front: string, last: string, parse: string -> Option<Ip>)
    requires forall r | r in trusted :: r.prefix <= r.network.Width()
    requires peer.Valid() && exists r | r in trusted :: Contains(r, peer)
    requires forall i | 0 <= i < |last| :: last[i] != ','
    ensures var fallback := Canonical(peer);
            && Extract(trusted, Some(peer), None, parse) == Some(fallback)
            && Extract(trusted, Some(peer), Some(last), parse)
               == Extract(trusted, Some(peer), Some(front + "," + last), parse)
               == Some(if parse(last).Some? then parse(last).value else fallback)
  {
    CanonicalValid(peer);
    var r :| r in trusted && Contains(r, peer);
    assert Contains(r, Canonical(peer));
    LastPartOf(front, last);
  }
}
