/** There is always an address, a window and a call number nobody has used yet. */
module Unused {
  import opened Records
  import opened Journals
  import opened Protocol
  import opened Sets

  lemma LowerCase(k: string)
    requires forall i | 0 <= i < |k| :: k[i] == 'a'
    ensures Lower(k) == k
  {}

  /** An address without a row, and without a ledger row of `id`. */
  lemma NewAddress(t: Tables, id: SendId) returns (k: string)
    ensures Lower(k) == k && k !in t.subscribers && (id, k) !in t.deliveries
  {
    var m := Bound(t.subscribers.Keys, (s: string) => |s|);
    var n := Bound(t.deliveries.Keys, (d: (SendId, string)) => |d.1|);
    k := seq(m + n, _ => 'a');
    LowerCase(k);
    assert |k| == m + n;
    assert forall d | d in t.deliveries :: |d.1| < n;
  }

  /** An id without a record and without a ledger row. */
  lemma NewId(t: Tables) returns (id: SendId)
    ensures id !in t.sends && forall d | d in t.deliveries :: d.0 != id
  {
    var m := Bound(t.sends.Keys, (i: SendId) => i);
    var n := Bound(t.deliveries.Keys, (d: (SendId, string)) => d.0);
    id := m + n;
    assert forall d | d in t.deliveries :: d.0 < n;
  }

  function YearOf(b: Bucket): int {
    match b
    case HourBucket(hour) => hour.day.year
    case DayBucket(day) => day.year
  }

  /** A moment whose hour and day nothing has been counted in. */
  lemma NewMoment(t: Tables) returns (now: Moment)
    ensures Rate(t, HourBucket(now.hour)) == 0 && Rate(t, DayBucket(now.hour.day)) == 0
  {
    var n := Bound(t.rates.Keys, YearOf);
    now := Moment(0, Hour(Day(n, 1, 1), 0));
    assert YearOf(HourBucket(now.hour)) == n && YearOf(DayBucket(now.hour.day)) == n;
  }

  lemma NewCall(calls: map<nat, Call>) returns (c: nat)
    ensures c !in calls
  {
    c := Bound(calls.Keys, (n: nat) => n);
  }
}
