/** The persistence handle: four keyspaces updated in place over one journal.

Every operation takes, as extra arguments, what the storage engine does to it:
whether a read works, and how each insert and each sync ends. */
module Stores {
  import opened Records
  import opened Journals
  import opened Protocol
  import opened Orders
  import opened Sets
  import Paths

  /** How the four accesses of one slot reservation end. */
  datatype SlotIo = SlotIo(readHour: bool, readDay: bool, writeHour: WriteIo, writeDay: WriteIo)

  /** How a purge ends: the reads of its scan, each removal, its final sync. */
  datatype PurgeIo = PurgeIo(readable: string -> bool, removals: nat -> WriteIo, sync: bool)

  /** How opening ends: the database, then each of its four keyspaces. */
  datatype OpenIo = OpenIo(database: bool, subscribers: bool, sends: bool, deliveries: bool, rateLimits: bool)

  // ----- what the larger operations come to

  /** The row under `k` has been Pending for a day, 86400 seconds, or longer. */
  predicate Overdue(rows: map<string, Subscriber>, k: string, unix: int) {
    k in rows && rows[k].state.Pending? && rows[k].createdAt + 86400 <= unix
  }

  function Expiry(t: Tables, unix: int): set<string> {
    set k | k in t.subscribers && Overdue(t.subscribers, k, unix)
  }

  /** Nothing fails in a purge that has `n` of `rows` to remove. */
  ghost predicate PurgeSucceeds(rows: map<string, Subscriber>, n: nat, io: PurgeIo) {
    && (forall k | k in rows :: io.readable(k))
    && (forall i | 0 <= i < n :: io.removals(i).Written?)
    && (n > 0 ==> io.sync)
  }

  /** `t` without its expired Pending rows. */
  function Purged(t: Tables, unix: int): Tables { t.(subscribers := t.subscribers - Expiry(t, unix)) }

  function Counted(t: Tables, b: Bucket): Tables { Apply(t, PutRate(b, Rate(t, b) + 1)) }

  function Removals(keys: seq<string>): seq<Record> {
    seq(|keys|, i requires 0 <= i < |keys| => RemoveSubscriber(keys[i]))
  }

  /** The `limit` newest records, newest first: largest ids, strictly descending. */
  ghost predicate Newest(out: seq<Send>, sends: map<SendId, Send>, limit: nat) {
    && |out| == (if |sends| < limit then |sends| else limit)
    && (forall i | 0 <= i < |out| :: out[i].id in sends && sends[out[i].id] == out[i])
    && (forall i, j | 0 <= i < j < |out| :: out[j].id < out[i].id)
    && (forall id, i | id in sends && 0 <= i < |out| && out[i].id < id :: sends[id] in out)
  }

  /** The ids greater than `id`. */
  function Newer(sends: map<SendId, Send>, id: SendId): set<SendId> { set j | j in sends && id < j }

  class Store {
    var subscribers: map<string, Subscriber>
    var sends: map<SendId, Send>
    var deliveries: map<(SendId, string), Delivery>
    var rateLimits: map<Bucket, nat>
    var journal: Journal

    function Contents(): Tables
      reads this
    {
      Tables(subscribers, sends, deliveries, rateLimits)
    }

    /** The keyspaces show exactly what the journal replays to. */
    ghost predicate Valid()
      reads this
    {
      journal.Valid() && Contents() == journal.Now()
    }

    /** The handle over what a recovery left, everything of it durable. */
    constructor (recovered: Tables)
      ensures Valid() && journal == Journal(recovered, [], 0) && Contents() == recovered
    {
      subscribers, sends := recovered.subscribers, recovered.sends;
      deliveries, rateLimits := recovered.deliveries, recovered.rates;
      journal := Journal(recovered, [], 0);
    }

    /** Open the store at `path`: nothing is opened inside another store's keyspaces. */
    static method Open(fs: Paths.Fs, cwd: Paths.Place, absolute: bool, path: Paths.Place, recovered: Tables, io: OpenIo)
      returns (r: Result<Store>)
      ensures r.Ok? <==>
                && Paths.Admissible(fs, if absolute then path else cwd + path)
                && io.database && io.subscribers && io.sends && io.deliveries && io.rateLimits
      ensures r.Err? ==> r.error == Error.Store
      ensures r.Ok? ==> fresh(r.value) && r.value.Valid()
      ensures r.Ok? ==> r.value.journal == Journal(recovered, [], 0) && r.value.Contents() == recovered
    {
      var guarded := Paths.GuardAgainstNestedKeyspace(fs, cwd, absolute, path);
      if guarded.Err? { return Err(guarded.error); }
      if !io.database { return Err(Error.Store); }
      if !io.subscribers { return Err(Error.Store); }
      if !io.sends { return Err(Error.Store); }
      if !io.deliveries { return Err(Error.Store); }
      if !io.rateLimits { return Err(Error.Store); }
      var store := new Store(recovered);
      return Ok(store);
    }

    method PersistAcknowledged(ok: bool) returns (r: Result<()>)
      requires Valid()
      modifies this`journal
      ensures Valid() && Contents() == old(Contents())
      ensures r == if ok then Ok(()) else Err(Error.Store)
      ensures journal == if ok then old(journal).Sync() else old(journal)
    {
      if !ok { return Err(Error.Store); }
      journal := journal.Sync();
      return Ok(());
    }

    /** A power loss that kept the first `keep` records, and the recovery after it. */
    method Reopen(keep: nat)
      requires Valid() && journal.synced <= keep <= |journal.log|
      modifies this
      ensures Valid() && journal == old(journal).Recover(keep)
    {
      journal := journal.Recover(keep);
      var t := journal.Now();
      subscribers, sends, deliveries, rateLimits := t.subscribers, t.sends, t.deliveries, t.rates;
    }

    // ----- subscribers

    method SubscriberGet(email: string, ok: bool) returns (r: Result<Option<Subscriber>>)
      requires Valid()
      ensures var rows, key := journal.Now().subscribers, Lower(email);
              r == if !ok then Err(Error.Store) else Ok(if key in rows then Some(rows[key]) else None)
    {
      if !ok { return Err(Error.Store); }
      var key := Lower(email);
      if key in subscribers { return Ok(Some(subscribers[key])); }
      return Ok(None);
    }

    method SubscriberPut(row: Subscriber, io: PutIo) returns (r: Result<()>)
      requires Valid()
      modifies this`subscribers, this`journal
      ensures Valid() && journal == old(journal).Put(PutSubscriber(row), io)
      ensures r == if io.Synced? then Ok(()) else Err(Error.Store)
    {
      AppendViews(journal, PutSubscriber(row));
      if Landed(io) {
        subscribers := subscribers[Key(row) := row];
        journal := journal.Append(PutSubscriber(row));
      }
      if io.InsertFailed? { return Err(Error.Store); }
      r := PersistAcknowledged(io.Synced?);
    }

    // ----- scans

    /** The next key of a scan. */
    static method LeastKey(keys: set<string>) returns (k: string)
      requires keys != {}
      ensures k in keys && forall j | j in keys && j != k :: Less(k, j)
    {
      k :| k in keys;
      var seen := {k};
      while seen != keys
        invariant k in seen && seen <= keys
        invariant forall j | j in seen && j != k :: Less(k, j)
        decreases keys - seen
      {
        SomeLeft(seen, keys);
        var j :| j in keys && j !in seen;
        LessTotal(j, k);
        if Less(j, k) {
          forall i | i in seen && i != k
            ensures Less(j, i)
          {
            LessTransitive(j, k, i);
          }
          k := j;
        }
        seen := seen + {j};
      }
    }

    /** The fan-out's targets: a scan in key order that keeps the Active rows. */
    method ActiveSubscribers(ok: bool) returns (r: Result<seq<Subscriber>>)
      requires Valid() && UnderOwnKeys(subscribers)
      ensures if ok then r.Ok? && IsSnapshot(r.value, journal.Now().subscribers) else r == Err(Error.Store)
    {
      if !ok { return Err(Error.Store); }
      var out: seq<Subscriber>, left := [], subscribers.Keys;
      while left != {}
        invariant left <= subscribers.Keys
        invariant forall i, j | 0 <= i < j < |out| :: Less(Key(out[i]), Key(out[j]))
        invariant forall i | 0 <= i < |out| :: InScan(out[i], subscribers)
        invariant forall i, k | 0 <= i < |out| && k in left :: Less(Key(out[i]), k)
        invariant forall k | k in subscribers && k !in left && subscribers[k].state.Active? :: subscribers[k] in out
        decreases left
      {
        var k := LeastKey(left);
        if subscribers[k].state.Active? { out := out + [subscribers[k]]; }
        left := left - {k};
      }
      return Ok(out);
    }

    /** The first half of a purge: a scan in key order that keeps the expired keys. One row that
    cannot be read, expired or not, ends it. */
    method ExpiredKeys(unix: int, readable: string -> bool) returns (r: Result<seq<string>>)
      requires Valid()
      ensures r.Err? <==> exists k :: k in journal.Now().subscribers && !readable(k)
      ensures r.Err? ==> r.error == Error.Store
      ensures r.Ok? ==> Ascending(r.value) && forall k :: k in r.value <==> Overdue(journal.Now().subscribers, k, unix)
    {
      var expired: seq<string>, left := [], subscribers.Keys;
      while left != {}
        invariant left <= subscribers.Keys
        invariant Ascending(expired)
        invariant forall i, k | 0 <= i < |expired| && k in left :: Less(expired[i], k)
        invariant forall k | k in expired :: Overdue(subscribers, k, unix)
        invariant forall k | Overdue(subscribers, k, unix) && k !in left :: k in expired
        invariant forall k | k in subscribers && k !in left :: readable(k)
        decreases left
      {
        var k := LeastKey(left);
        if !readable(k) { return Err(Error.Store); }
        if Expired(subscribers[k], unix) { expired := expired + [k]; }
        left := left - {k};
      }
      return Ok(expired);
    }

    /** Remove every expired Pending row, then sync if anything was removed. Cut short,
    it has removed some of them, in key order, and nothing else. It is cut short exactly by a row
    that cannot be read, a removal that fails or a sync that fails. */
    method PurgeExpiredPending(unix: int, io: PurgeIo) returns (r: Result<nat>, ghost removed: seq<string>)
      requires Valid()
      modifies this`subscribers, this`journal
      ensures Valid()
      ensures Ascending(removed) && forall k | k in removed :: Overdue(old(subscribers), k, unix)
      ensures journal.base == old(journal).base && journal.log == old(journal).log + Removals(removed)
      ensures journal.synced == if r.Ok? && removed != [] then |journal.log| else old(journal).synced
      ensures r.Ok? ==> r.value == |removed| && forall k | Overdue(old(subscribers), k, unix) :: k in removed
      ensures (exists k :: k in old(subscribers) && !io.readable(k)) ==> r.Err? && removed == []
      ensures r.Ok? <==> PurgeSucceeds(old(subscribers), |Expiry(old(Contents()), unix)|, io)
      ensures r.Err? ==> r.error == Error.Store
    {
      removed := [];
      assert journal.log == journal.log + Removals(removed);
      var scanned := ExpiredKeys(unix, io.readable);
      if scanned.Err? { return Err(Error.Store), removed; }
      AscendingSize(scanned.value, Expiry(Contents(), unix));
      var done;
      done, removed := RemoveAll(scanned.value, io.removals);
      if done.Err? { return Err(Error.Store), removed; }
      if |scanned.value| > 0 {
        var synced := PersistAcknowledged(io.sync);
        if synced.Err? { return Err(Error.Store), removed; }
      }
      return Ok(|scanned.value|), removed;
    }

    /** The removals of a purge, in order, up to the first that fails. */
    method RemoveAll(keys: seq<string>, io: nat -> WriteIo) returns (r: Result<()>, ghost removed: seq<string>)
      requires Valid()
      modifies this`subscribers, this`journal
      ensures Valid() && removed <= keys
      ensures journal == Journal(old(journal).base, old(journal).log + Removals(removed), old(journal).synced)
      ensures r == if forall i | 0 <= i < |keys| :: io(i).Written? then Ok(()) else Err(Error.Store)
      ensures r.Ok? ==> removed == keys
    {
      removed := [];
      assert journal.log == journal.log + Removals(removed);
      var i := 0;
      while i < |keys|
        invariant i <= |keys| && Valid() && removed == keys[..i]
        invariant forall j | 0 <= j < i :: io(j).Written?
        invariant journal == Journal(old(journal).base, old(journal).log + Removals(removed), old(journal).synced)
      {
        MoreRemovals(old(journal).log, keys, i);
        var done := Remove(keys[i], io(i));
        if Reached(io(i)) { removed := keys[..i + 1]; }
        if done.Err? { return Err(Error.Store), removed; }
        i := i + 1;
      }
      assert removed == keys;
      return Ok(()), removed;
    }

    method Remove(key: string, io: WriteIo) returns (r: Result<()>)
      requires Valid()
      modifies this`subscribers, this`journal
      ensures Valid() && journal == old(journal).Write(RemoveSubscriber(key), io)
      ensures r == if io.Written? then Ok(()) else Err(Error.Store)
    {
      AppendViews(journal, RemoveSubscriber(key));
      if Reached(io) {
        subscribers := subscribers - {key};
        journal := journal.Append(RemoveSubscriber(key));
      }
      return if io.Written? then Ok(()) else Err(Error.Store);
    }

    // ----- sends and deliveries

    method SendGet(id: SendId, ok: bool) returns (r: Result<Option<Send>>)
      requires Valid()
      ensures r == if !ok then Err(Error.Store)
                   else Ok(if id in journal.Now().sends then Some(journal.Now().sends[id]) else None)
    {
      if !ok { return Err(Error.Store); }
      if id in sends { return Ok(Some(sends[id])); }
      return Ok(None);
    }

    method SendPut(send: Send, io: PutIo) returns (r: Result<()>)
      requires Valid()
      modifies this`sends, this`journal
      ensures Valid() && journal == old(journal).Put(PutSend(send), io)
      ensures r == if io.Synced? then Ok(()) else Err(Error.Store)
    {
      AppendViews(journal, PutSend(send));
      if Landed(io) {
        sends := sends[send.id := send];
        journal := journal.Append(PutSend(send));
      }
      if io.InsertFailed? { return Err(Error.Store); }
      r := PersistAcknowledged(io.Synced?);
    }

    method DeliveryGet(id: SendId, email: string, ok: bool) returns (r: Result<Option<Delivery>>)
      requires Valid()
      ensures r == if !ok then Err(Error.Store)
                   else Ok(if DeliveryKey(id, email) in journal.Now().deliveries
                           then Some(journal.Now().deliveries[DeliveryKey(id, email)]) else None)
    {
      if !ok { return Err(Error.Store); }
      var key := DeliveryKey(id, email);
      if key in deliveries { return Ok(Some(deliveries[key])); }
      return Ok(None);
    }

    method DeliveryPut(row: Delivery, io: PutIo) returns (r: Result<()>)
      requires Valid()
      modifies this`deliveries, this`journal
      ensures Valid() && journal == old(journal).Put(PutDelivery(row), io)
      ensures r == if io.Synced? then Ok(()) else Err(Error.Store)
    {
      AppendViews(journal, PutDelivery(row));
      if Landed(io) {
        deliveries := deliveries[DeliveryKey(row.sendId, row.email) := row];
        journal := journal.Append(PutDelivery(row));
      }
      if io.InsertFailed? { return Err(Error.Store); }
      r := PersistAcknowledged(io.Synced?);
    }

    /** The newest records first, at most `limit` of them. It reads no further, so it fails exactly
    if a record among these cannot be read. */
    method RecentSends(limit: nat, readable: SendId -> bool) returns (r: Result<seq<Send>>)
      requires Valid() && forall id | id in sends :: sends[id].id == id
      ensures r.Err? <==>
                exists id :: id in journal.Now().sends && !readable(id) && |Newer(journal.Now().sends, id)| < limit
      ensures r.Err? ==> r.error == Error.Store
      ensures r.Ok? ==> Newest(r.value, journal.Now().sends, limit)
    {
      var out: seq<Send>, left := [], sends.Keys;
      while |out| < limit && left != {}
        invariant Gathered(out, sends, left) && |out| <= limit
        invariant forall id | id in sends && id !in left :: readable(id)
        decreases left
      {
        var id := GreatestId(left);
        NewerRead(out, sends, left, id);
        if !readable(id) { return Err(Error.Store); }
        GatherOne(out, sends, left, id);
        out, left := out + [sends[id]], left - {id};
      }
      AllReadable(out, sends, left, limit, readable);
      GatheredNewest(out, sends, left, limit);
      return Ok(out);
    }

    static method GreatestId(ids: set<SendId>) returns (m: SendId)
      requires ids != {}
      ensures m in ids && forall i | i in ids :: i <= m
    {
      m :| m in ids;
      var seen := {m};
      while seen != ids
        invariant m in seen && seen <= ids
        invariant forall i | i in seen :: i <= m
        decreases ids - seen
      {
        SomeLeft(seen, ids);
        var i :| i in ids && i !in seen;
        if m < i { m := i; }
        seen := seen + {i};
      }
    }

    // ----- rate limits

    method RateGet(bucket: Bucket, ok: bool) returns (r: Result<nat>)
      requires Valid()
      ensures var rates := journal.Now().rates;
              r == if !ok then Err(Error.Store) else Ok(if bucket in rates then rates[bucket] else 0)
    {
      if !ok { return Err(Error.Store); }
      if bucket in rateLimits { return Ok(rateLimits[bucket]); }
      return Ok(0);
    }

    method RateInsert(bucket: Bucket, count: nat, io: WriteIo) returns (r: Result<()>)
      requires Valid()
      modifies this`rateLimits, this`journal
      ensures Valid() && journal == old(journal).Write(PutRate(bucket, count), io)
      ensures r == if io.Written? then Ok(()) else Err(Error.Store)
    {
      AppendViews(journal, PutRate(bucket, count));
      if Reached(io) {
        rateLimits := rateLimits[bucket := count];
        journal := journal.Append(PutRate(bucket, count));
      }
      return if io.Written? then Ok(()) else Err(Error.Store);
    }

    /** Reserve one send slot against both windows, the lock being held throughout.
    It is refused exactly when a window is full. */
    method TryReserveSendSlot(hour: Bucket, day: Bucket, hourlyCap: nat, dailyCap: nat, io: SlotIo)
      returns (r: Result<bool>)
      requires Valid()
      modifies this`rateLimits, this`journal
      ensures Valid() && journal == SlotJournal(old(journal), hour, day, hourlyCap, dailyCap, io)
      ensures r == SlotAnswer(old(journal).Now(), hour, day, hourlyCap, dailyCap, io)
      ensures r == Ok(false) <==>
                && io.readHour && io.readDay
                && (Rate(old(journal).Now(), hour) >= hourlyCap || Rate(old(journal).Now(), day) >= dailyCap)
      ensures r == Ok(true) <==>
                && io.readHour && io.readDay && io.writeHour.Written? && io.writeDay.Written?
                && Rate(old(journal).Now(), hour) < hourlyCap && Rate(old(journal).Now(), day) < dailyCap
    {
      ghost var t := journal.Now();
      var hourCount := RateGet(hour, io.readHour);
      if hourCount.Err? { return Err(Error.Store); }
      var dayCount := RateGet(day, io.readDay);
      if dayCount.Err? { return Err(Error.Store); }
      if hourCount.value >= hourlyCap || dayCount.value >= dailyCap { return Ok(false); }
      var taken := TakeSlot(hour, hourCount.value, day, dayCount.value, io);
      if taken.Err? { return Err(Error.Store); }
      return Ok(true);
    }

    /** The two inserts of a granted slot. */
    method TakeSlot(hour: Bucket, hourCount: nat, day: Bucket, dayCount: nat, io: SlotIo) returns (r: Result<()>)
      requires Valid()
      modifies this`rateLimits, this`journal
      ensures Valid() && journal == TakenJournal(old(journal), hour, hourCount, day, dayCount, io)
      ensures r == if io.writeHour.Written? && io.writeDay.Written? then Ok(()) else Err(Error.Store)
    {
      var first := RateInsert(hour, hourCount + 1, io.writeHour);
      if first.Err? { return Err(Error.Store); }
      r := RateInsert(day, dayCount + 1, io.writeDay);
    }
  }

  predicate SlotFree(t: Tables, hour: Bucket, day: Bucket, hourlyCap: nat, dailyCap: nat) {
    Rate(t, hour) < hourlyCap && Rate(t, day) < dailyCap
  }

  function SlotAnswer(t: Tables, hour: Bucket, day: Bucket, hourlyCap: nat, dailyCap: nat, io: SlotIo): Result<bool> {
    if !io.readHour || !io.readDay then Err(Error.Store)
    else if !SlotFree(t, hour, day, hourlyCap, dailyCap) then Ok(false)
    else if io.writeHour.Written? && io.writeDay.Written? then Ok(true)
    else Err(Error.Store)
  }

  /** The hour's record, then, if that insert worked, the day's. */
  function TakenJournal(j: Journal, hour: Bucket, hourCount: nat, day: Bucket, dayCount: nat, io: SlotIo): Journal {
    var j' := j.Write(PutRate(hour, hourCount + 1), io.writeHour);
    if io.writeHour.Written? then j'.Write(PutRate(day, dayCount + 1), io.writeDay) else j'
  }

  /** The journal a reservation leaves. */
  function SlotJournal(j: Journal, hour: Bucket, day: Bucket, hourlyCap: nat, dailyCap: nat, io: SlotIo): Journal {
    var t := j.Now();
    if !io.readHour || !io.readDay || !SlotFree(t, hour, day, hourlyCap, dailyCap) then j
    else TakenJournal(j, hour, Rate(t, hour), day, Rate(t, day), io)
  }

  /** One more in a window: that window's count rises by one and nothing else moves. */
  lemma CountedEffect(t: Tables, b: Bucket)
    ensures var t' := Counted(t, b);
            && Rate(t', b) == Rate(t, b) + 1 && t'.(rates := t.rates) == t
            && forall c | c != b :: Rate(t', c) == Rate(t, c)
  {}

  /** A slot granted is one more in each window, both still within their caps. */
  lemma SlotGranted(j: Journal, hour: Bucket, day: Bucket, hourlyCap: nat, dailyCap: nat, io: SlotIo)
    requires hour != day && SlotAnswer(j.Now(), hour, day, hourlyCap, dailyCap, io) == Ok(true)
    ensures var j' := SlotJournal(j, hour, day, hourlyCap, dailyCap, io);
            && j'.Now() == Counted(Counted(j.Now(), hour), day) && j'.synced == j.synced
            && Rate(j'.Now(), hour) == Rate(j.Now(), hour) + 1 <= hourlyCap
            && Rate(j'.Now(), day) == Rate(j.Now(), day) + 1 <= dailyCap
  {
    var t := j.Now();
    AppendViews(j, PutRate(hour, Rate(t, hour) + 1));
    AppendViews(j.Append(PutRate(hour, Rate(t, hour) + 1)), PutRate(day, Rate(t, day) + 1));
    CountedEffect(t, hour);
    CountedEffect(Counted(t, hour), day);
  }

  /** A slot not granted was refused for a full window, which changes nothing, or failed,
  which leaves at most a count in the hour and only then one in the day. */
  lemma SlotWithheld(j: Journal, hour: Bucket, day: Bucket, hourlyCap: nat, dailyCap: nat, io: SlotIo)
    requires hour != day && SlotAnswer(j.Now(), hour, day, hourlyCap, dailyCap, io) != Ok(true)
    ensures var t, j' := j.Now(), SlotJournal(j, hour, day, hourlyCap, dailyCap, io);
            && j'.synced == j.synced
            && (j'.Now() == t || j'.Now() == Counted(t, hour) || j'.Now() == Counted(Counted(t, hour), day))
            && (j'.Now() != t ==> SlotAnswer(t, hour, day, hourlyCap, dailyCap, io).Err?)
            && (j'.Now() != t ==> SlotFree(t, hour, day, hourlyCap, dailyCap))
  {
    if io.readHour && io.readDay && SlotFree(j.Now(), hour, day, hourlyCap, dailyCap) { TakenTables(j, hour, day, io); }
  }

  lemma TakenTables(j: Journal, hour: Bucket, day: Bucket, io: SlotIo)
    requires hour != day
    ensures var t, j' := j.Now(), TakenJournal(j, hour, Rate(j.Now(), hour), day, Rate(j.Now(), day), io);
            && j'.synced == j.synced
            && (j'.Now() == t || j'.Now() == Counted(t, hour) || j'.Now() == Counted(Counted(t, hour), day))
  {
    var t := j.Now();
    AppendViews(j, PutRate(hour, Rate(t, hour) + 1));
    AppendViews(j.Append(PutRate(hour, Rate(t, hour) + 1)), PutRate(day, Rate(t, day) + 1));
    CountedEffect(t, hour);
  }

  // ----- scans

  /** A scan from the greatest id down has put the rows not in `left` into `out`. */
  ghost predicate Gathered(out: seq<Send>, sends: map<SendId, Send>, left: set<SendId>) {
    && left <= sends.Keys && |out| + |left| == |sends|
    && (forall i, j | i in left && j in sends && j !in left :: i < j)
    && (forall i | 0 <= i < |out| :: out[i].id in sends && out[i].id !in left && sends[out[i].id] == out[i])
    && (forall i, j | 0 <= i < j < |out| :: out[j].id < out[i].id)
    && (forall id | id in sends && id !in left :: sends[id] in out)
  }

  lemma GatherOne(out: seq<Send>, sends: map<SendId, Send>, left: set<SendId>, id: SendId)
    requires Gathered(out, sends, left) && id in left && (forall i | i in left :: i <= id) && sends[id].id == id
    ensures Gathered(out + [sends[id]], sends, left - {id})
  {}

  lemma GatheredNewest(out: seq<Send>, sends: map<SendId, Send>, left: set<SendId>, limit: nat)
    requires Gathered(out, sends, left) && |out| <= limit && (|out| == limit || left == {})
    ensures Newest(out, sends, limit)
  {}

  /** At its next id the scan has visited exactly the newer ones. */
  lemma NewerRead(out: seq<Send>, sends: map<SendId, Send>, left: set<SendId>, id: SendId)
    requires Gathered(out, sends, left) && id in left && forall i | i in left :: i <= id
    ensures |Newer(sends, id)| == |out|
  {
    assert Newer(sends, id) == sends.Keys - left;
  }

  lemma AllReadable(out: seq<Send>, sends: map<SendId, Send>, left: set<SendId>, limit: nat, readable: SendId -> bool)
    requires Gathered(out, sends, left) && (forall id | id in sends && id !in left :: readable(id))
    requires |out| >= limit || left == {}
    ensures forall id | id in sends && !readable(id) :: |Newer(sends, id)| >= limit
  {
    forall id | id in sends && !readable(id)
      ensures |Newer(sends, id)| >= limit
    {
      assert id in left;
      SizeWithin(sends.Keys - left, Newer(sends, id));
    }
  }

  predicate InScan(row: Subscriber, subscribers: map<string, Subscriber>) {
    row.state.Active? && Key(row) in subscribers && subscribers[Key(row)] == row
  }

  lemma MoreRemovals(log: seq<Record>, keys: seq<string>, i: nat)
    requires i < |keys|
    ensures log + Removals(keys[..i + 1]) == log + Removals(keys[..i]) + [RemoveSubscriber(keys[i])]
  {
    assert Removals(keys[..i + 1]) == Removals(keys[..i]) + [RemoveSubscriber(keys[i])];
  }

  // ----- an interrupted purge

  lemma {:induction false} RemovalsReplay(base: Tables, log: seq<Record>, keys: seq<string>)
    ensures Replay(base, log + Removals(keys)) ==
              var t := Replay(base, log); t.(subscribers := t.subscribers - (set k | k in keys))
    decreases |keys|
  {
    if keys == [] {
      assert log + Removals(keys) == log;
    } else {
      var n := |keys| - 1;
      RemovalsReplay(base, log, keys[..n]);
      MoreRemovals(log, keys, n);
      assert keys[..n + 1] == keys;
      assert forall k :: k in keys <==> k in keys[..n] || k == keys[n];
    }
  }

  /** A purge cut short anywhere, even by a power loss that takes back part of what it
  removed, and run again later ends where one uninterrupted later run ends. */
  lemma PurgeResumes(j: Journal, removed: seq<string>, unix: int, keep: nat, later: int)
    requires unix <= later && forall k | k in removed :: k in Expiry(j.Now(), unix)
    requires |j.log| <= keep <= |j.log| + |removed|
    ensures var cut := Journal(j.base, j.log + Removals(removed), j.synced);
            Purged(cut.Recover(keep).Now(), later) == Purged(j.Now(), later)
  {
    var log, kept := j.log + Removals(removed), removed[..keep - |j.log|];
    assert log[..keep] == j.log + Removals(kept);
    RemovalsReplay(j.base, j.log, kept);
    var t, u := j.Now(), Replay(j.base, log[..keep]);
    forall k | k in kept
      ensures k in removed && k in Expiry(t, later)
    {
    }
    assert forall k | k in u.subscribers :: k in Expiry(u, later) <==> k in Expiry(t, later);
    assert u.subscribers - Expiry(u, later) == t.subscribers - Expiry(t, later);
  }

  /** One that is not cut short removes exactly the expired rows. */
  lemma PurgeCompletes(j: Journal, removed: seq<string>, unix: int)
    requires forall k :: k in removed <==> k in Expiry(j.Now(), unix)
    ensures Replay(j.base, j.log + Removals(removed)) == Purged(j.Now(), unix)
  {
    RemovalsReplay(j.base, j.log, removed);
    assert (set k | k in removed) == Expiry(j.Now(), unix);
  }
}
