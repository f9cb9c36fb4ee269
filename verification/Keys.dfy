/** The text of row keys: rate-limit windows, send ids, ledger rows. */
module Keys {
  import opened Records
  import opened Decimals
  import opened Orders
  import opened Stores

  // ----- zero-padded numbers

  /** `{:0w}` of a natural number: at least `w` characters. */
  function Pad(n: nat, w: nat): string {
    var s := Show(n);
    if |s| < w then Zeros(w - |s|) + s else s
  }

  lemma ReadPad(n: nat, w: nat)
    ensures Read(Pad(n, w)) == Some(n) && Numeric(Pad(n, w))
  {
    ReadShow(n);
    if |Show(n)| < w {
      ReadZeros(w - |Show(n)|, Show(n));
      ZerosLength(w - |Show(n)|);
      assert Pad(n, w) == Zeros(w - |Show(n)|) + Show(n);
    } else {
      assert Pad(n, w) == Show(n);
    }
  }

  function Power10(w: nat): (p: nat)
    ensures p >= 1
  {
    if w == 0 then 1 else 10 * Power10(w - 1)
  }

  lemma {:induction false} ShowFits(n: nat, w: nat)
    requires w >= 1
    ensures |Show(n)| <= w <==> n < Power10(w)
    decreases w
  {
    if n >= 10 {
      if w == 1 {
        assert Power10(1) == 10 * Power10(0) == 10;
      } else {
        ShowFits(n / 10, w - 1);
      }
    } else {
      assert Power10(w) == 10 * Power10(w - 1);
    }
  }

  lemma PadLength(n: nat, w: nat)
    requires w >= 1
    ensures n < Power10(w) ==> |Pad(n, w)| == w
    ensures n >= Power10(w) ==> |Pad(n, w)| > w
  {
    ShowFits(n, w);
    if |Show(n)| < w { ZerosLength(w - |Show(n)|); }
  }

  lemma Powers()
    ensures Power10(2) == 100 && Power10(3) == 1000 && Power10(4) == 10000
  {
    assert Power10(1) == 10 * Power10(0);
    assert Power10(2) == 10 * Power10(1);
    assert Power10(3) == 10 * Power10(2);
  }

  // ----- rate-limit windows

  /** A date the clock can show. */
  predicate OnCalendar(d: Day) { -9999 <= d.year <= 9999 && 1 <= d.month <= 12 && 1 <= d.day <= 31 }

  /** `{:04}` of a year: the sign counts towards the width. */
  function YearText(y: int): string { if y < 0 then "-" + Pad(-y, 3) else Pad(y, 4) }

  function DayText(d: Day): string { YearText(d.year) + Pad(d.month, 2) + Pad(d.day, 2) }

  function HourText(h: Hour): string { DayText(h.day) + Pad(h.hour, 2) }

  function BucketText(b: Bucket): string {
    match b
    case HourBucket(h) => HourText(h)
    case DayBucket(d) => DayText(d)
  }

  function DayOf(b: Bucket): Day { if b.HourBucket? then b.hour.day else b.day }

  lemma YearLength(y: int)
    requires -9999 <= y <= 9999
    ensures |YearText(y)| == if y <= -1000 then 5 else 4
  {
    Powers();
    if y < 0 {
      PadLength(-y, 3);
      if y <= -1000 {
        PadLength(-y, 4);
        ShowFits(-y, 3);
        ShowFits(-y, 4);
      }
    } else {
      PadLength(y, 4);
    }
  }

  lemma DayLength(d: Day)
    requires OnCalendar(d)
    ensures |DayText(d)| == |YearText(d.year)| + 4
  {
    Powers();
    PadLength(d.month, 2);
    PadLength(d.day, 2);
  }

  lemma HourLength(h: Hour)
    requires OnCalendar(h.day)
    ensures |HourText(h)| == |YearText(h.day.year)| + 6
  {
    DayLength(h.day);
    Powers();
    PadLength(h.hour, 2);
  }

  lemma YearInjective(x: int, y: int)
    requires YearText(x) == YearText(y)
    ensures x == y
  {
    ReadPad(if x < 0 then -x else x, if x < 0 then 3 else 4);
    ReadPad(if y < 0 then -y else y, if y < 0 then 3 else 4);
    assert x < 0 <==> YearText(x)[0] == '-';
    assert y < 0 <==> YearText(y)[0] == '-';
    if x < 0 { assert YearText(x)[1..] == Pad(-x, 3) && YearText(y)[1..] == Pad(-y, 3); }
  }

  lemma DayInjective(a: Day, b: Day)
    requires OnCalendar(a) && OnCalendar(b) && DayText(a) == DayText(b)
    ensures a == b
  {
    DayLength(a);
    DayLength(b);
    var n := |YearText(a.year)|;
    assert DayText(a)[..n] == YearText(a.year) && DayText(b)[..n] == YearText(b.year);
    YearInjective(a.year, b.year);
    Powers();
    PadLength(a.month, 2);
    PadLength(b.month, 2);
    assert DayText(a)[n..n + 2] == Pad(a.month, 2) && DayText(b)[n..n + 2] == Pad(b.month, 2);
    assert DayText(a)[n + 2..] == Pad(a.day, 2) && DayText(b)[n + 2..] == Pad(b.day, 2);
    ReadPad(a.month, 2);
    ReadPad(b.month, 2);
    ReadPad(a.day, 2);
    ReadPad(b.day, 2);
  }

  lemma HourInjective(a: Hour, b: Hour)
    requires OnCalendar(a.day) && OnCalendar(b.day) && HourText(a) == HourText(b)
    ensures a == b
  {
    Powers();
    PadLength(a.hour, 2);
    PadLength(b.hour, 2);
    var n := |HourText(a)| - 2;
    assert HourText(a)[..n] == DayText(a.day) && HourText(b)[..n] == DayText(b.day);
    assert HourText(a)[n..] == Pad(a.hour, 2) && HourText(b)[n..] == Pad(b.hour, 2);
    DayInjective(a.day, b.day);
    ReadPad(a.hour, 2);
    ReadPad(b.hour, 2);
  }

  /** Over every date the clock can show, in the keyspace hours and days share, two windows
  have one key exactly when they are one window; so an hour is never mistaken for a day. */
  lemma BucketTextInjective(a: Bucket, b: Bucket)
    requires OnCalendar(DayOf(a)) && OnCalendar(DayOf(b))
    ensures BucketText(a) == BucketText(b) <==> a == b
  {
    if BucketText(a) == BucketText(b) {
      YearLength(DayOf(a).year);
      YearLength(DayOf(b).year);
      DayLength(DayOf(a));
      DayLength(DayOf(b));
      if a.HourBucket? { HourLength(a.hour); }
      if b.HourBucket? { HourLength(b.hour); }
      if a.HourBucket? && b.HourBucket? {
        HourInjective(a.hour, b.hour);
      } else if a.DayBucket? && b.DayBucket? {
        DayInjective(a.day, b.day);
      }
    }
  }

  /** An hour's key extends the key of its day, and of no other day. */
  lemma HourExtendsDay(h: Hour, d: Day)
    requires OnCalendar(h.day) && OnCalendar(d)
    ensures DayText(d) <= HourText(h) && |HourText(h)| == |DayText(d)| + 2 <==> d == h.day
  {
    DayLength(d);
    HourLength(h);
    DayLength(h.day);
    if DayText(d) <= HourText(h) && |HourText(h)| == |DayText(d)| + 2 {
      assert HourText(h)[..|DayText(d)|] == DayText(h.day);
      DayInjective(d, h.day);
    }
  }

  lemma ReadOneMore(s: string, c: char)
    requires Read(s).Some? && IsNumeral(c)
    ensures Read(s + [c]) == Some(Read(s).value * 10 + (c as int - '0' as int))
  {
    assert (s + [c])[..|s|] == s;
  }

  /** Two numerals more are two decimal places more. */
  lemma ReadTwoMore(s: string, n: nat)
    requires Read(s).Some? && n < 100
    ensures |Pad(n, 2)| == 2 && Read(s + Pad(n, 2)) == Some(Read(s).value * 100 + n)
  {
    Powers();
    PadLength(n, 2);
    ReadPad(n, 2);
    var p := Pad(n, 2);
    ReadOneMore(s, p[0]);
    ReadOneMore(s + [p[0]], p[1]);
    assert s + [p[0]] + [p[1]] == s + p;
    assert p[..1] == [p[0]] && Read(p[..1]).Some?;
  }

  /** For the years of four digits a window's key is ten or eight numerals that read, in this order, year,
  month, day and hour. */
  lemma BucketTextReads(h: Hour)
    requires OnCalendar(h.day) && h.day.year >= 0
    ensures var day, hour := BucketText(DayBucket(h.day)), BucketText(HourBucket(h));
            && |day| == 8 && Numeric(day) && Read(day) == Some((h.day.year * 100 + h.day.month) * 100 + h.day.day)
            && |hour| == 10 && Numeric(hour)
            && Read(hour) == Some(((h.day.year * 100 + h.day.month) * 100 + h.day.day) * 100 + h.hour)
  {
    YearLength(h.day.year);
    ReadPad(h.day.year, 4);
    ReadPad(h.day.month, 2);
    ReadPad(h.day.day, 2);
    ReadPad(h.hour, 2);
    ReadTwoMore(YearText(h.day.year), h.day.month);
    ReadTwoMore(YearText(h.day.year) + Pad(h.day.month, 2), h.day.day);
    ReadTwoMore(DayText(h.day), h.hour);
  }

  // ----- send ids

  const ID_LENGTH := 26

  const ALPHABET := "0123456789ABCDEFGHJKMNPQRSTVWXYZ"

  lemma AlphabetAscends(i: nat, j: nat)
    requires i < 32 && j < 32
    ensures ALPHABET[i] < ALPHABET[j] <==> i < j
    ensures ALPHABET[i] != '/'
  {
    assert forall k | 0 <= k < 31 :: ALPHABET[k] < ALPHABET[k + 1];
    if i <= j { AscendsFrom(i, j); } else { AscendsFrom(j, i); }
  }

  lemma {:induction false} AscendsFrom(i: nat, j: nat)
    requires i < 32 && j < 32 && i <= j && forall k | 0 <= k < 31 :: ALPHABET[k] < ALPHABET[k + 1]
    ensures i < j ==> ALPHABET[i] < ALPHABET[j]
    decreases j
  {
    if i < j { AscendsFrom(i, j - 1); }
  }

  /** Crockford base32 in a fixed number of digits, most significant first. */
  function Base32(n: nat, width: nat): (s: string)
    ensures |s| == width
  {
    if width == 0 then "" else Base32(n / 32, width - 1) + [ALPHABET[n % 32]]
  }

  function IdText(id: SendId): string { Base32(id, ID_LENGTH) }

  function Power32(w: nat): (p: nat)
    ensures p >= 1
  {
    if w == 0 then 1 else 32 * Power32(w - 1)
  }

  lemma {:induction false} LessLast(x: string, y: string, c: char, d: char)
    requires |x| == |y|
    ensures Less(x + [c], y + [d]) <==> Less(x, y) || (x == y && c < d)
    decreases |x|
  {
    if x == [] {
      assert x + [c] == [c] && y + [d] == [d];
      assert [c][1..] == [] && [d][1..] == [];
    } else {
      assert (x + [c])[1..] == x[1..] + [c] && (y + [d])[1..] == y[1..] + [d];
      LessLast(x[1..], y[1..], c, d);
      assert x == [x[0]] + x[1..] && y == [y[0]] + y[1..];
    }
  }

  /** At one width, text order is numeric order and equal texts are equal numbers. */
  lemma {:induction false} Base32Order(m: nat, n: nat, width: nat)
    requires m < Power32(width) && n < Power32(width)
    ensures Less(Base32(m, width), Base32(n, width)) <==> m < n
    ensures Base32(m, width) == Base32(n, width) <==> m == n
    decreases width
  {
    if width > 0 {
      Base32Order(m / 32, n / 32, width - 1);
      var x, y := Base32(m / 32, width - 1), Base32(n / 32, width - 1);
      LessLast(x, y, ALPHABET[m % 32], ALPHABET[n % 32]);
      AlphabetAscends(m % 32, n % 32);
      AlphabetAscends(n % 32, m % 32);
      var s, t := Base32(m, width), Base32(n, width);
      assert s[..width - 1] == x && t[..width - 1] == y;
      assert s[width - 1] == ALPHABET[m % 32] && t[width - 1] == ALPHABET[n % 32];
    }
  }

  /** A 128-bit id. */
  predicate IsId(id: SendId) { id < 0x1_0000_0000_0000_0000_0000_0000_0000_0000 }

  lemma {:induction false} PowerSum(a: nat, b: nat)
    ensures Power32(a + b) == Power32(a) * Power32(b)
    decreases a
  {
    if a > 0 {
      PowerSum(a - 1, b);
      Reassociate(32, Power32(a - 1), Power32(b));
    }
  }

  lemma Reassociate(x: int, y: int, z: int)
    ensures x * (y * z) == (x * y) * z
  {}

  lemma IdsFit()
    ensures Power32(ID_LENGTH) >= 0x1_0000_0000_0000_0000_0000_0000_0000_0000
  {
    PowerSum(1, 1);
    PowerSum(2, 2);
    PowerSum(4, 4);
    PowerSum(8, 8);
    PowerSum(16, 8);
    PowerSum(24, 2);
    assert Power32(1) == 32 * Power32(0) == 32;
  }

  /** Ids sort by their text as they sort by their value, so a scan of `sends` in key order is a scan in id order. */
  lemma IdTextOrder(a: SendId, b: SendId)
    requires IsId(a) && IsId(b)
    ensures Less(IdText(a), IdText(b)) <==> a < b
    ensures IdText(a) == IdText(b) <==> a == b
  {
    IdsFit();
    Base32Order(a, b, ID_LENGTH);
  }

  /** The newest sends stand in strictly descending key order. */
  lemma NewestDescends(out: seq<Send>, sends: map<SendId, Send>, limit: nat, i: nat, j: nat)
    requires Newest(out, sends, limit) && i < j < |out| && forall id | id in sends :: IsId(id)
    ensures Less(IdText(out[j].id), IdText(out[i].id))
  {
    IdTextOrder(out[j].id, out[i].id);
  }

  // ----- ledger rows

  /** `<send id>/<lower-cased email>`. */
  function RowText(id: SendId, email: string): string { IdText(id) + "/" + Lower(email) }

  /** One row, one key. */
  lemma RowTextInjective(a: SendId, e: string, b: SendId, f: string)
    requires IsId(a) && IsId(b)
    ensures RowText(a, e) == RowText(b, f) <==> DeliveryKey(a, e) == DeliveryKey(b, f)
  {
    if RowText(a, e) == RowText(b, f) {
      assert RowText(a, e)[..26] == IdText(a) && RowText(b, f)[..26] == IdText(b);
      assert RowText(a, e)[27..] == Lower(e) && RowText(b, f)[27..] == Lower(f);
      IdTextOrder(a, b);
    }
  }

  /** A scan of the prefix `<send id>/` selects the rows of that send and no others. */
  lemma PrefixSelects(id: SendId, b: SendId, f: string)
    requires IsId(id) && IsId(b)
    ensures IdText(id) + "/" <= RowText(b, f) <==> b == id
  {
    IdTextOrder(id, b);
    assert RowText(b, f)[..26] == IdText(b) && (IdText(id) + "/")[..26] == IdText(id);
    if b == id {
      assert RowText(b, f)[..27] == IdText(b) + "/";
    }
  }

  lemma {:induction false} LessExtends(x: string, y: string, u: string, v: string)
    requires |x| == |y| && Less(x, y)
    ensures Less(x + u, y + v)
    decreases |x|
  {
    assert (x + u)[1..] == x[1..] + u && (y + v)[1..] == y[1..] + v;
    if x[0] == y[0] { LessExtends(x[1..], y[1..], u, v); }
  }

  /** The rows of one send are adjacent in key order: nothing of another send sorts between two of them. */
  lemma RowsAdjacent(a: SendId, e: string, b: SendId, f: string, g: string)
    requires IsId(a) && IsId(b)
    requires Less(RowText(a, e), RowText(b, f)) && Less(RowText(b, f), RowText(a, g))
    ensures a == b
  {
    IdTextOrder(a, b);
    IdTextOrder(b, a);
    if a < b {
      LessExtends(IdText(a), IdText(b), "/" + Lower(g), "/" + Lower(f));
      NotBoth(RowText(a, g), RowText(b, f), IdText(a), IdText(b), Lower(g), Lower(f));
    } else if b < a {
      LessExtends(IdText(b), IdText(a), "/" + Lower(f), "/" + Lower(e));
      NotBoth(RowText(b, f), RowText(a, e), IdText(b), IdText(a), Lower(f), Lower(e));
    }
  }

  lemma NotBoth(k: string, l: string, x: string, y: string, u: string, v: string)
    requires k == x + "/" + u && l == y + "/" + v && Less(x + ("/" + u), y + ("/" + v))
    ensures !Less(l, k)
  {
    assert k == x + ("/" + u) && l == y + ("/" + v);
    if Less(l, k) {
      LessTransitive(k, l, k);
      LessIrreflexive(k);
    }
  }
}
