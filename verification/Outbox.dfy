/** The durable outbox: a queue of envelopes and the delivery evidence beside it, kept
    in one store. Every operation loads the queue, changes it and saves it; writes that
    belong together run under a savepoint, so they happen together or not at all. */
module Outbox {
  import opened Envelopes
  import opened Delivery

  const MAX_ITEMS := 128
  const MAX_BYTES := 16 * 1024 * 1024

  datatype Error = DuplicateRef | QueueFull | StorageFailed
  datatype Outcome = Done | Failed(error: Error)

  datatype Disk = Disk(queue: seq<Envelope>, evidence: Evidence)

  // ----- What the operations compute -----

  /** Envelopes that carry a message a person wrote are the ones evidence is kept for. */
  predicate Reports(e: Envelope) {
    e.kind == Message && e.logicalId.Some?
  }

  function KeyOf(e: Envelope): Bytes
    requires e.logicalId.Some?
  {
    Key(e.conversation, e.logicalId.value)
  }

  ghost predicate Fresh(q: seq<Envelope>, batch: seq<Envelope>) {
    UniqueRefs(batch) && Refs(q) !! Refs(batch)
  }

  predicate Fits(q: seq<Envelope>, batch: seq<Envelope>) {
    |q| + |batch| <= MAX_ITEMS && TotalSize(q) + TotalSize(batch) <= MAX_BYTES
  }

  function TrackBatch(ev: Evidence, batch: seq<Envelope>, now: int): Evidence {
    if batch == [] then ev
    else
      var before, e := TrackBatch(ev, batch[..|batch| - 1], now), batch[|batch| - 1];
      if Reports(e) then Track(before, KeyOf(e), e.device, e.expiresAt, now) else before
  }

  function AcceptBatch(ev: Evidence, batch: seq<Envelope>, at: int): Evidence {
    if batch == [] then ev
    else
      var before, e := AcceptBatch(ev, batch[..|batch| - 1], at), batch[|batch| - 1];
      if Reports(e) then Accept(before, KeyOf(e), e.device, at) else before
  }

  function Enqueued(d: Disk, batch: seq<Envelope>, now: int): Disk {
    Disk(d.queue + batch, TrackBatch(d.evidence, batch, now))
  }

  function HasRef(ref: Ref): Envelope -> bool { (e: Envelope) => e.clientRef == ref }
  function LacksRef(ref: Ref): Envelope -> bool { (e: Envelope) => e.clientRef != ref }

  function Acked(d: Disk, ref: Ref, at: int): Disk {
    Disk(Retain(d.queue, LacksRef(ref)), AcceptBatch(d.evidence, Retain(d.queue, HasRef(ref)), at))
  }

  function HexDigit(n: nat): Byte
    requires n < 16
  {
    if n < 10 then 48 + n else 87 + n
  }

  function Hex(b: Bytes): Bytes {
    if b == [] then [] else [HexDigit(b[0] / 16), HexDigit(b[0] % 16)] + Hex(b[1..])
  }

  predicate Names(e: Envelope, conversation: Bytes, id: Bytes) {
    e.conversation == conversation && (e.logicalId == Some(id) || Hex(e.clientRef) == id)
  }

  function NotMessage(conversation: Bytes, id: Bytes): Envelope -> bool { (e: Envelope) => !Names(e, conversation, id) }
  function NotInThread(conversation: Bytes): Envelope -> bool { (e: Envelope) => e.conversation != conversation }
  function EssentialOrElsewhere(conversation: Bytes): Envelope -> bool {
    (e: Envelope) => e.conversation != conversation || e.kind == Essential
  }
  function NotEphemeral(): Envelope -> bool { (e: Envelope) => e.kind != Ephemeral }
  function Alive(now: int): Envelope -> bool { (e: Envelope) => e.expiresAt == None || e.expiresAt.value > now }

  predicate Unbounded(q: seq<Envelope>) {
    exists i :: 0 <= i < |q| && q[i].expiresAt == None
  }

  function BoundedItem(e: Envelope, deadline: int): Envelope {
    if e.expiresAt == None then e.(expiresAt := Some(deadline)) else e
  }

  function BoundedQueue(q: seq<Envelope>, deadline: int): seq<Envelope> {
    seq(|q|, i requires 0 <= i < |q| => BoundedItem(q[i], deadline))
  }

  function Bounded(d: Disk, now: int, ttl: int): Disk {
    if Unbounded(d.queue)
    then Disk(BoundedQueue(d.queue, now + ttl), TrackBatch(d.evidence, BoundedQueue(d.queue, now + ttl), now))
    else d
  }

  // ----- The store -----

  class Store {
    var queue: seq<Envelope>
    var evidence: Evidence

    constructor ()
      ensures Contents() == Disk([], map[])
    {
      queue, evidence := [], map[];
    }

    ghost function Contents(): Disk
      reads this
    {
      Disk(queue, evidence)
    }

    /** A single write; the storage may refuse it, and then nothing has changed. */
    method SaveQueue(q: seq<Envelope>) returns (ok: bool)
      modifies this`queue
      ensures queue == if ok then q else old(queue)
    {
      ok := *;
      if ok { queue := q; }
    }

    method SaveRecord(key: Bytes, r: Record) returns (ok: bool)
      modifies this`evidence
      ensures evidence == if ok then old(evidence)[key := r] else old(evidence)
    {
      ok := *;
      if ok { evidence := evidence[key := r]; }
    }

    // ----- Delivery evidence -----

    method TrackDelivery(key: Bytes, device: Device, expiresAt: Option<int>, now: int) returns (ok: bool)
      modifies this`evidence
      ensures ok ==> evidence == Track(old(evidence), key, device, expiresAt, now)
      ensures !ok ==> evidence == old(evidence)
    {
      var r := Load(evidence, key);
      if r.queuedAt == None { r := r.(queuedAt := Some(now)); }
      if r.expiresAt == None { r := r.(expiresAt := expiresAt); }
      if device !in r.devices { r := r.(devices := r.devices[device := Queued]); }
      ok := SaveRecord(key, r);
    }

    method AcceptDelivery(key: Bytes, device: Device, at: int) returns (ok: bool)
      modifies this`evidence
      ensures ok ==> evidence == Accept(old(evidence), key, device, at)
      ensures !ok ==> evidence == old(evidence)
    {
      ok := true;
      var r := Load(evidence, key);
      if device in r.devices {
        r := r.(devices := r.devices[device := Max(r.devices[device], Accepted)]);
        if device !in r.acceptedAt {
          r := r.(acceptedAt := r.acceptedAt[device := at]);
        }
        ok := SaveRecord(key, r);
      }
    }

    method ConfirmDelivery(key: Bytes, device: Device) returns (ok: bool)
      modifies this`evidence
      ensures ok ==> evidence == Deliver(old(evidence), key, device)
      ensures !ok ==> evidence == old(evidence)
    {
      ok := true;
      var r := Load(evidence, key);
      if device in r.devices {
        ok := SaveRecord(key, r.(devices := r.devices[device := Max(r.devices[device], Delivered)]));
      }
    }

    // ----- The queue -----

    /** Whether no reference of the batch is queued or repeated. */
    method IsFresh(batch: seq<Envelope>) returns (ok: bool)
      ensures ok <==> Fresh(queue, batch)
    {
      var ids := Refs(queue);
      for i := 0 to |batch|
        invariant ids == Refs(queue) + Refs(batch[..i])
        invariant Fresh(queue, batch[..i])
      {
        assert Refs(batch[..i + 1]) == Refs(batch[..i]) + {batch[i].clientRef} by { RefsOfPrefix(batch, i); }
        if batch[i].clientRef in ids {
          assert !Fresh(queue, batch) by { RepeatedRef(queue, batch, i); }
          return false;
        }
        ids := ids + {batch[i].clientRef};
      }
      assert batch[..|batch|] == batch;
      ok := true;
    }

    /** The envelopes of one fan-out, with their evidence. */
    method EnqueueBatch(batch: seq<Envelope>, now: int) returns (r: Outcome)
      modifies this
      ensures r == Failed(DuplicateRef) <==> !Fresh(old(queue), batch)
      ensures r == Failed(QueueFull) <==> Fresh(old(queue), batch) && !Fits(old(queue), batch)
      ensures Contents() == if r == Done then Enqueued(old(Contents()), batch, now) else old(Contents())
    {
      var fresh' := IsFresh(batch);
      if !fresh' { return Failed(DuplicateRef); }
      if |queue| + |batch| > MAX_ITEMS || TotalSize(queue) + TotalSize(batch) > MAX_BYTES {
        return Failed(QueueFull);
      }
      var savepoint := evidence;
      for i := 0 to |batch|
        invariant queue == old(queue) && savepoint == old(evidence)
        invariant evidence == TrackBatch(savepoint, batch[..i], now)
      {
        assert batch[..i + 1][..i] == batch[..i];
        if batch[i].kind == Message && batch[i].logicalId.Some? {
          var ok := TrackDelivery(KeyOf(batch[i]), batch[i].device, batch[i].expiresAt, now);
          if !ok {
            evidence := savepoint;
            return Failed(StorageFailed);
          }
        }
      }
      assert batch[..|batch|] == batch;
      var ok := SaveQueue(queue + batch);
      if !ok {
        evidence := savepoint;
        return Failed(StorageFailed);
      }
      r := Done;
    }

    /** The evidence of what is acknowledged and its removal are one change. */
    method Acknowledge(ref: Ref, at: int) returns (ok: bool)
      modifies this
      ensures Contents() == if ok then Acked(old(Contents()), ref, at) else old(Contents())
    {
      var savepoint := evidence;
      var matching := Retain(queue, HasRef(ref));
      for i := 0 to |matching|
        invariant queue == old(queue) && savepoint == old(evidence)
        invariant evidence == AcceptBatch(savepoint, matching[..i], at)
      {
        assert matching[..i + 1][..i] == matching[..i];
        if matching[i].kind == Message && matching[i].logicalId.Some? {
          ok := AcceptDelivery(KeyOf(matching[i]), matching[i].device, at);
          if !ok {
            evidence := savepoint;
            return;
          }
        }
      }
      assert matching[..|matching|] == matching;
      ok := SaveQueue(Retain(queue, LacksRef(ref)));
      if !ok {
        evidence := savepoint;
      }
    }

    method ContainsMessage(conversation: Bytes, id: Bytes) returns (found: bool)
      ensures found <==> exists e :: e in queue && Names(e, conversation, id)
    {
      for i := 0 to |queue|
        invariant forall j :: 0 <= j < i ==> !Names(queue[j], conversation, id)
      {
        if Names(queue[i], conversation, id) {
          return true;
        }
      }
      found := false;
    }

    method CancelMessage(conversation: Bytes, id: Bytes) returns (ok: bool)
      modifies this`queue
      ensures queue == if ok then Retain(old(queue), NotMessage(conversation, id)) else old(queue)
    {
      ok := SaveQueue(Retain(queue, NotMessage(conversation, id)));
    }

    /** A person clears a conversation: its messages and signals leave the queue, and what
        the group needs to go on stays. */
    method CancelThread(conversation: Bytes) returns (ok: bool)
      modifies this`queue
      ensures queue == if ok then Retain(old(queue), EssentialOrElsewhere(conversation)) else old(queue)
      ensures forall e :: e in old(queue) && e.kind == Essential ==> e in queue
    {
      RetainKeeps(queue, EssentialOrElsewhere(conversation));
      ok := SaveQueue(Retain(queue, EssentialOrElsewhere(conversation)));
    }

    method ForgetThread(conversation: Bytes) returns (ok: bool)
      modifies this`queue
      ensures queue == if ok then Retain(old(queue), NotInThread(conversation)) else old(queue)
    {
      ok := SaveQueue(Retain(queue, NotInThread(conversation)));
    }

    method DropEphemeral() returns (ok: bool)
      modifies this`queue
      ensures queue == if ok then Retain(old(queue), NotEphemeral()) else old(queue)
    {
      ok := SaveQueue(Retain(queue, NotEphemeral()));
    }

    /** Saves only when something has expired, and returns what is left. */
    method PruneExpired(now: int) returns (ok: bool, left: seq<Envelope>)
      modifies this`queue
      ensures left == Retain(old(queue), Alive(now))
      ensures queue == if ok then left else old(queue)
      ensures forall e :: e in left <==> e in old(queue) && (e.expiresAt == None || e.expiresAt.value > now)
    {
      left := Retain(queue, Alive(now));
      RetainKeeps(queue, Alive(now));
      ok := true;
      if |left| != |queue| {
        ok := SaveQueue(left);
      } else {
        RetainAll(queue, Alive(now));
      }
    }

    /** Envelopes from before lifetimes existed get one, once. */
    method BoundLegacyLifetimes(now: int, ttl: int) returns (ok: bool)
      modifies this
      ensures Contents() == if ok then Bounded(old(Contents()), now, ttl) else old(Contents())
    {
      if !Unbounded(queue) {
        return true;
      }
      var savepoint := evidence;
      var q := queue;
      ghost var bounded := BoundedQueue(queue, now + ttl);
      for i := 0 to |q|
        invariant queue == old(queue) && savepoint == old(evidence) && |q| == |queue|
        invariant forall j :: 0 <= j < |q| ==> q[j] == if j < i then bounded[j] else queue[j]
        invariant evidence == TrackBatch(savepoint, bounded[..i], now)
      {
        var item := q[i];
        if item.expiresAt == None { item := item.(expiresAt := Some(now + ttl)); }
        q := q[i := item];
        assert item == bounded[i];
        assert bounded[..i + 1][..i] == bounded[..i] && bounded[..i + 1][i] == item;
        if item.kind == Message && item.logicalId.Some? {
          ok := TrackDelivery(KeyOf(item), item.device, item.expiresAt, now);
          if !ok {
            evidence := savepoint;
            return;
          }
        }
      }
      assert bounded[..|q|] == bounded && q == bounded;
      ok := SaveQueue(q);
      if !ok {
        evidence := savepoint;
      }
    }
  }

  // ----- Facts about queues -----

  lemma RefsOfPrefix(q: seq<Envelope>, i: nat)
    requires i < |q|
    ensures Refs(q[..i + 1]) == Refs(q[..i]) + {q[i].clientRef}
  {
    assert q[..i + 1] == q[..i] + [q[i]];
    assert q[..i + 1][i] == q[i];
    forall r | r in Refs(q[..i]) ensures r in Refs(q[..i + 1]) {
      var k :| 0 <= k < i && q[..i][k].clientRef == r;
      assert q[..i + 1][k].clientRef == r;
    }
  }

  lemma RepeatedRef(q: seq<Envelope>, batch: seq<Envelope>, i: nat)
    requires i < |batch| && batch[i].clientRef in Refs(q) + Refs(batch[..i])
    ensures !Fresh(q, batch)
  {
    if batch[i].clientRef in Refs(batch[..i]) {
      var k :| 0 <= k < i && batch[..i][k].clientRef == batch[i].clientRef;
      assert batch[k].clientRef == batch[i].clientRef;
    }
  }

  lemma {:induction false} RetainKeeps(q: seq<Envelope>, keep: Envelope -> bool)
    ensures forall e :: e in Retain(q, keep) <==> e in q && keep(e)
    ensures |Retain(q, keep)| <= |q| && TotalSize(Retain(q, keep)) <= TotalSize(q)
  {
    if q != [] {
      RetainKeeps(q[..|q| - 1], keep);
      assert q == q[..|q| - 1] + [q[|q| - 1]];
      var rest := Retain(q[..|q| - 1], keep);
      assert (rest + [q[|q| - 1]])[..|rest|] == rest;
    }
  }

  lemma {:induction false} RetainAll(q: seq<Envelope>, keep: Envelope -> bool)
    requires |Retain(q, keep)| == |q|
    ensures Retain(q, keep) == q
  {
    if q != [] {
      RetainKeeps(q[..|q| - 1], keep);
      RetainAll(q[..|q| - 1], keep);
    }
  }
}
