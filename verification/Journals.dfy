/** The durability contract of the store: one journal shared by all four
keyspaces, buffered writes, a synced mark that `persist` moves to the end, and
a power loss that keeps some prefix at or beyond that mark. */
module Journals {
  import opened Records

  datatype Tables = Tables(
    subscribers: map<string, Subscriber>,
    sends: map<SendId, Send>,
    deliveries: map<(SendId, string), Delivery>,
    rates: map<Bucket, nat>)

  datatype Record =
    | PutSubscriber(row: Subscriber)
    | RemoveSubscriber(key: string)
    | PutSend(send: Send)
    | PutDelivery(delivery: Delivery)
    | PutRate(bucket: Bucket, count: nat)

  function Apply(t: Tables, r: Record): Tables {
    match r
    case PutSubscriber(row) => t.(subscribers := t.subscribers[Key(row) := row])
    case RemoveSubscriber(key) => t.(subscribers := t.subscribers - {key})
    case PutSend(send) => t.(sends := t.sends[send.id := send])
    case PutDelivery(d) => t.(deliveries := t.deliveries[DeliveryKey(d.sendId, d.email) := d])
    case PutRate(bucket, count) => t.(rates := t.rates[bucket := count])
  }

  function Replay(base: Tables, log: seq<Record>): Tables {
    if log == [] then base else Apply(Replay(base, log[..|log| - 1]), log[|log| - 1])
  }

  /** What one buffered insert or remove does: it works, or it reports an error
  with or without having reached the journal. */
  datatype WriteIo = Written | Refused(landed: bool)

  /** What an acknowledged put does: its insert, then its sync. */
  datatype PutIo = Synced | InsertFailed(landed: bool) | SyncFailed

  datatype Journal = Journal(base: Tables, log: seq<Record>, synced: nat) {
    ghost predicate Valid() { synced <= |log| }

    /** The tables after the first `p` records. */
    function View(p: nat): Tables
      requires p <= |log|
    {
      Replay(base, log[..p])
    }

    /** What every read sees, synced or not. */
    function Now(): Tables { Replay(base, log) }

    function Append(r: Record): Journal { this.(log := log + [r]) }

    function Sync(): Journal { this.(synced := |log|) }

    function Write(r: Record, io: WriteIo): Journal {
      if io.Written? || io.landed then Append(r) else this
    }

    function Put(r: Record, io: PutIo): Journal {
      match io
      case Synced => Append(r).Sync()
      case InsertFailed(landed) => if landed then Append(r) else this
      case SyncFailed => Append(r)
    }

    /** Recovery after a power loss that kept the first `keep` records. */
    function Recover(keep: nat): Journal
      requires keep <= |log|
    {
      Journal(base, log[..keep], keep)
    }
  }

  /** The tables at the synced mark: the least a power loss leaves. */
  function Mark(j: Journal): Tables
    requires j.synced <= |j.log|
  {
    j.View(j.synced)
  }

  predicate Landed(io: PutIo) { !(io.InsertFailed? && !io.landed) }

  predicate Reached(io: WriteIo) { io.Written? || io.landed }

  /** Appending a record leaves every earlier view alone. */
  lemma AppendViews(j: Journal, r: Record)
    ensures j.Append(r).Now() == Apply(j.Now(), r)
    ensures forall p: nat | p <= |j.log| :: j.Append(r).View(p) == j.View(p)
    ensures j.Append(r).View(|j.log| + 1) == j.Append(r).Now()
  {
    var k := j.Append(r);
    assert k.log[..|j.log|] == j.log;
    assert k.log[..|k.log|] == k.log;
    forall p: nat | p <= |j.log|
      ensures k.View(p) == j.View(p)
    {
      assert k.log[..p] == j.log[..p];
    }
  }

  lemma FullView(j: Journal)
    ensures j.View(|j.log|) == j.Now()
  {
    assert j.log[..|j.log|] == j.log;
  }

  /** A recovered journal shows the views it kept, all of them durable. */
  lemma RecoverViews(j: Journal, keep: nat)
    requires keep <= |j.log|
    ensures j.Recover(keep).Now() == j.View(keep)
    ensures forall p: nat | p <= keep :: j.Recover(keep).View(p) == j.View(p)
  {
    forall p: nat | p <= keep
      ensures j.Recover(keep).View(p) == j.View(p)
    {
      assert j.log[..keep][..p] == j.log[..p];
    }
  }
}
