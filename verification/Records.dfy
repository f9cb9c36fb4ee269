/** The rows the store keeps and the plain data the handlers pass around.

Text is the sequence of its UTF-8 bytes, one `char` a byte, so that key order
is byte order and ASCII lower-casing is exactly what the store's keys undergo. */
module Records {

  datatype Option<+T> = None | Some(value: T)

  datatype Error = Store | BadRequest | NotFound | InvalidToken | Config | Smtp | TimedOut

  datatype Result<+T> = Ok(value: T) | Err(error: Error)

  // ----- keys

  function LowerChar(c: char): char {
    if 'A' <= c <= 'Z' then (c as int + 32) as char else c
  }

  /** ASCII lower-casing, the normal form of every email key. */
  function Lower(s: string): (r: string)
    ensures |r| == |s|
  {
    seq(|s|, i requires 0 <= i < |s| => LowerChar(s[i]))
  }

  lemma LowerTwice(s: string)
    ensures Lower(Lower(s)) == Lower(s)
  {}

  /** One letter, or the two cases of one ASCII letter. */
  predicate SameLetter(c: char, d: char) {
    || c == d
    || ('A' <= c <= 'Z' && d as int - c as int == 'a' as int - 'A' as int)
    || ('A' <= d <= 'Z' && c as int - d as int == 'a' as int - 'A' as int)
  }

  /** Two texts have one normal form exactly if they agree letter by letter up to ASCII case, and no
  normal form has an upper-case letter in it. */
  lemma LowerFolds(a: string, b: string)
    ensures Lower(a) == Lower(b) <==> |a| == |b| && forall i | 0 <= i < |a| :: SameLetter(a[i], b[i])
    ensures forall c | c in Lower(a) :: !('A' <= c <= 'Z')
  {
    if Lower(a) == Lower(b) {
      forall i | 0 <= i < |a|
        ensures SameLetter(a[i], b[i])
      {
        assert Lower(a)[i] == LowerChar(a[i]) && Lower(b)[i] == LowerChar(b[i]);
      }
    }
  }

  /** Byte-lexicographic order, the order a keyspace is scanned in. */
  predicate Less(a: string, b: string) {
    b != [] && (a == [] || a[0] < b[0] || (a[0] == b[0] && Less(a[1..], b[1..])))
  }

  // ----- time

  datatype Day = Day(year: int, month: nat, day: nat)

  type HourOfDay = h: int | 0 <= h < 24

  datatype Hour = Hour(day: Day, hour: HourOfDay)

  /** One reading of the clock: Unix seconds and the UTC hour they fall in. */
  datatype Moment = Moment(unix: int, hour: Hour)

  /** One `rate_limits` row: an hour window or a day window. */
  datatype Bucket = HourBucket(hour: Hour) | DayBucket(day: Day)

  // ----- rows

  type SendId = nat

  datatype SubscriberState = Pending | Active | Unsubscribed

  datatype Subscriber = Subscriber(
    email: string,
    state: SubscriberState,
    createdAt: int,
    confirmedAt: Option<int>,
    unsubscribedAt: Option<int>,
    generation: nat)

  datatype Send = Send(id: SendId, subject: string, bodyHtml: string, sentAt: int)

  datatype DeliveryStatus = Queued | Sent | Failed | Bounced | Complained

  datatype Delivery = Delivery(sendId: SendId, email: string, status: DeliveryStatus, at: int)

  function Key(row: Subscriber): string { Lower(row.email) }

  function DeliveryKey(id: SendId, email: string): (SendId, string) { (id, Lower(email)) }

  // ----- tokens

  datatype TokenKind = Confirm | Unsubscribe

  datatype Token = Token(kind: TokenKind, email: string, expUnix: int, generation: nat)

  const CONFIRM_TTL_SECS := 24 * 3600
  const UNSUBSCRIBE_TTL_SECS := 3650 * 24 * 3600
}
