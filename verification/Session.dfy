/** The part of the client that drives the outbox: what is in flight, and the loops that
    put envelopes on the two paths. Each method moves the state as the protocol says. */
module Session {
  import opened Envelopes
  import opened Scheduler
  import opened Delivery
  import opened Outbox
  import opened Sending

  datatype Flushed = Complete | WireBroke | StorageRefused

  class Client {
    const store: Store
    var direct: map<Ref, int>
    var anon: set<Ref>
    var retries: map<Ref, Retry>
    var tickets: nat
    var prepared: seq<bool>
    ghost var history: History

    constructor ()
      ensures fresh(store) && State() == START
    {
      store := new Store();
      direct, anon, retries, tickets, prepared := map[], {}, map[], 0, [];
      history := START.history;
    }

    ghost function State(): Net
      reads this, store
    {
      Net(store.Contents(), Live(direct, anon, retries, tickets, prepared), history)
    }

    method EnqueueBatch(batch: seq<Envelope>, now: int) returns (r: Outcome)
      modifies this`history, store
      ensures r == Done ==> State() == Next(old(State()), Enqueuing(batch, now))
      ensures r != Done ==> State() == old(State())
      ensures r == Failed(DuplicateRef) <==> !Fresh(old(store.queue), batch)
      ensures r == Failed(QueueFull) <==> Fresh(old(store.queue), batch) && !Fits(old(store.queue), batch)
    {
      r := store.EnqueueBatch(batch, now);
      if r == Done {
        history := Logging(history, batch);
      }
    }

    /** Frees the slot, and if the acknowledgement can be stored, the envelope too. */
    method OnSendOk(ref: Ref, receipt: Option<(Bytes, Device)>, at: int) returns (stored: bool)
      modifies this`direct, this`history, store
      ensures stored ==> State() == Next(old(State()), SendOk(ref, receipt, true, at))
      ensures !stored ==> State() == old(State()) || State() == Next(old(State()), SendOk(ref, receipt, false, at))
    {
      stored := true;
      if receipt.Some? {
        stored := store.AcceptDelivery(receipt.value.0, receipt.value.1, at);
        if !stored { return; }
      }
      if ref in direct {
        direct := direct - {ref};
        ghost var queued := Refs(store.queue);
        stored := store.Acknowledge(ref, at);
        if stored {
          history := history.(acked := history.acked + (queued * {ref}));
        }
      }
    }

    method OnAnonymousOk(ref: Ref, at: int) returns (stored: bool)
      modifies this`anon, this`retries, this`history, store
      ensures State() == Next(old(State()), AnonymousOk(ref, stored, at))
    {
      anon := anon - {ref};
      retries := retries - {ref};
      ghost var queued := Refs(store.queue);
      stored := store.Acknowledge(ref, at);
      if stored {
        history := history.(acked := history.acked + (queued * {ref}));
      }
    }

    method OnAnonymousFailed(ref: Ref, instant: int)
      modifies this`anon, this`retries
      ensures State() == Next(old(State()), AnonymousFailed(ref, instant))
    {
      anon := anon - {ref};
      var attempts := 1;
      if ref in retries {
        attempts := if retries[ref].attempts < MAX_U32 then retries[ref].attempts + 1 else MAX_U32;
      }
      retries := retries[ref := Retry(instant + Delay(attempts), attempts)];
    }

    /** What was in flight is forgotten; what is queued is not touched. */
    method InvalidateNetwork()
      modifies this`direct, this`anon, this`retries, this`prepared
      ensures State() == Next(old(State()), NetworkLost)
    {
      prepared := [];
      direct := map[];
      anon := {};
      retries := map[];
    }

    method CancelRemovedAnonymous()
      modifies this`direct, this`anon
      ensures State() == Next(old(State()), CancellingRemoved)
    {
      if anon == {} && direct == map[] {
        Unrestricted(direct, Refs(store.queue));
        assert anon * Refs(store.queue) == anon;
        return;
      }
      var queued := Refs(store.queue);
      direct := map r | r in direct && r in queued :: direct[r];
      anon := anon * queued;
    }

    /** The removals that a person or the end of a session causes. */
    method DeleteMessage(conversation: Bytes, id: Bytes) returns (ok: bool)
      modifies this`history, store
      ensures State() == if ok then Next(old(State()), DeletingMessage(conversation, id)) else old(State())
    {
      ghost var before := Refs(store.queue);
      ok := store.CancelMessage(conversation, id);
      if ok { RecordDrops(before); }
    }

    method ClearThread(conversation: Bytes) returns (ok: bool)
      modifies this`history, store
      ensures State() == if ok then Next(old(State()), ClearingThread(conversation)) else old(State())
    {
      ghost var before := Refs(store.queue);
      ok := store.CancelThread(conversation);
      if ok { RecordDrops(before); }
    }

    method ForgetThread(conversation: Bytes) returns (ok: bool)
      modifies this`history, store
      ensures State() == if ok then Next(old(State()), ForgettingThread(conversation)) else old(State())
    {
      ghost var before := Refs(store.queue);
      ok := store.ForgetThread(conversation);
      if ok { RecordDrops(before); }
    }

    method DropEphemeral() returns (ok: bool)
      modifies this`history, store
      ensures State() == if ok then Next(old(State()), DroppingEphemeral) else old(State())
    {
      ghost var before := Refs(store.queue);
      ok := store.DropEphemeral();
      if ok { RecordDrops(before); }
    }

    ghost method RecordDrops(before: set<Ref>)
      modifies this`history
      ensures history == old(history).(dropped := old(history).dropped + (before - Refs(store.queue)))
    {
      history := history.(dropped := history.dropped + (before - Refs(store.queue)));
    }

    /** A peer's device reports that it has a message. */
    method OnReceipt(key: Bytes, device: Device) returns (ok: bool)
      modifies store
      ensures State() == if ok then Next(old(State()), Receipt(key, device)) else old(State())
    {
      ok := store.ConfirmDelivery(key, device);
    }

    /** Bounds lifetimes, drops what expired, and forgets retries of what is gone. */
    method TrimQueue(now: int) returns (ok: bool)
      modifies this`retries, this`history, store
      ensures ok ==> State() == Trim(old(State()), now)
      ensures !ok ==> State() == old(State()) || State() == Next(old(State()), Bounding(now))
    {
      ok := store.BoundLegacyLifetimes(now, DEFAULT_TTL);
      if !ok { return; }
      ghost var before := Refs(store.queue);
      var left;
      ok, left := store.PruneExpired(now);
      if !ok { return; }
      history := history.(dropped := history.dropped + (before - Refs(left)));
      var queued := Refs(left);
      retries := map r | r in retries && r in queued :: retries[r];
    }

    /** The anonymity setting and the pinned keys may turn out to be unreadable. */
    method ReadSettings() returns (ok: bool)
    {
      ok := *;
    }

    /** When the storage refuses, the flush has done nothing, has bounded lifetimes, or has
        trimmed the queue and sent nothing. */
    method FlushAnonymous(air: Air) returns (r: Flushed)
      modifies this, store
      ensures r != StorageRefused ==> State() == Next(old(State()), Flushing(air))
      ensures r == WireBroke ==> DirectAllowed(air)
      ensures r == StorageRefused ==>
        State() in {old(State()), Next(old(State()), Bounding(air.now)), Next(old(State()), Flushing(Unsent(air)))}
    {
      var trimmed := TrimQueue(air.now);
      if !trimmed { return StorageRefused; }
      if store.queue == [] { return Complete; }
      var readable := ReadSettings();
      if !readable { return StorageRefused; }
      var written := SendDirect(air);
      if !written { return WireBroke; }
      SendAnonymous(air);
      r := Complete;
    }

    method SendDirect(air: Air) returns (written: bool)
      modifies this`direct, this`history
      ensures (State(), written) == DirectPass(old(State()), air)
    {
      written := true;
      if !DirectAllowed(air) { return; }
      var active := direct.Keys + anon + BarredRefs(store.queue, air);
      var ready := ReadyEnvelopes(store.queue, active, air.now, Free(|direct| + |anon|));
      written := WriteBatch(ready, air);
    }

    method WriteBatch(batch: seq<Envelope>, air: Air) returns (written: bool)
      modifies this`direct, this`history
      ensures (State(), written) == DirectLoop(old(State()), batch, air, air.wire)
    {
      var left := air.wire;
      var k := 0;
      assert batch[0..] == batch;
      while k < |batch|
        invariant k <= |batch|
        invariant DirectLoop(old(State()), batch, air, air.wire) == DirectLoop(State(), batch[k..], air, left)
      {
        DirectStep(State(), batch, k, air, left);
        var envelope := batch[k];
        k := k + 1;
        if !envelope.authenticated || envelope.device in air.blocked { continue; }
        if left == 0 {
          RecordFrame(envelope, Auth);
          return false;
        }
        WriteFrame(envelope, air.instant);
        left := left - 1;
      }
      written := true;
    }

    /** The history of what was given to the network. */
    ghost method RecordFrame(envelope: Envelope, path: Path)
      modifies this`history
      ensures State() == Attempt(old(State()), envelope, path)
    {
      var gone := history.acked + history.dropped;
      history := history.(sent := history.sent + [Sent(envelope.clientRef, envelope.device, envelope.ciphertext, path, gone)]);
    }

    method WriteFrame(envelope: Envelope, instant: int)
      modifies this`direct, this`history
      ensures State() == Transmit(old(State()), envelope, Auth, instant)
    {
      RecordFrame(envelope, Auth);
      direct := direct[envelope.clientRef := instant + ACK_TIMEOUT];
    }

    method SpawnAnonymous(envelope: Envelope, instant: int)
      modifies this`anon, this`history
      ensures State() == Transmit(old(State()), envelope, Anonymous, instant)
    {
      RecordFrame(envelope, Anonymous);
      anon := anon + {envelope.clientRef};
    }

    method SendAnonymous(air: Air)
      modifies this`anon, this`tickets, this`prepared, this`history
      ensures State() == AnonymousPass(old(State()), air)
    {
      if !air.available || !AnonymousQueued(store.queue, air) { return; }
      var inflight := direct.Keys + anon + BarredRefs(store.queue, air) + Cooling(Live(direct, anon, retries, tickets, prepared), air.instant);
      var ready := ReadyEnvelopes(store.queue, inflight, air.now, Free(|anon|));
      SpawnBatch(Retain(ready, MayGoAnonymous(air)), air);
    }

    method SpawnBatch(batch: seq<Envelope>, air: Air)
      modifies this`anon, this`tickets, this`prepared, this`history
      ensures State() == AnonymousLoop(old(State()), batch, air)
    {
      var k := 0;
      assert batch[0..] == batch;
      while k < |batch|
        invariant k <= |batch|
        invariant AnonymousLoop(old(State()), batch, air) == AnonymousLoop(State(), batch[k..], air)
      {
        AnonymousStep(State(), batch, k, air);
        if tickets == 0 { return; }
        var paid, routed := PayTicket(air);
        if !paid || !routed { return; }
        SpawnAnonymous(batch[k], air.instant);
        k := k + 1;
      }
    }

    /** A prepared socket or a ticket's route; a ticket is gone once it is paid for either. */
    method PayTicket(air: Air) returns (paid: bool, routed: bool)
      requires tickets > 0
      modifies this`tickets, this`prepared
      ensures var taken := TakePrepared(old(prepared));
              && prepared == taken.1 && paid == (taken.0 || !air.requireAnonymous) && routed == (taken.0 || air.route)
      ensures tickets == if paid then old(tickets) - 1 else old(tickets)
    {
      var found := PopPrepared();
      paid, routed := found || !air.requireAnonymous, found || air.route;
      if paid { tickets := tickets - 1; }
    }

    /** Takes prepared sockets from the front until one is alive. */
    method PopPrepared() returns (found: bool)
      modifies this`prepared
      ensures (found, prepared) == TakePrepared(old(prepared))
    {
      found := false;
      while prepared != []
        invariant TakePrepared(old(prepared)) == TakePrepared(prepared)
        decreases |prepared|
      {
        var alive := prepared[0];
        prepared := prepared[1..];
        if alive { return true; }
      }
    }
  }

  /** The same flush when no path is open. */
  function Unsent(air: Air): Air {
    air.(explicitRelay := false, available := false)
  }

  lemma Unrestricted(m: map<Ref, int>, s: set<Ref>)
    requires m.Keys <= s
    ensures (map r | r in m && r in s :: m[r]) == m
  {
  }

  lemma DirectStep(s: Net, batch: seq<Envelope>, k: nat, air: Air, wire: nat)
    requires k < |batch|
    ensures DirectLoop(s, batch[k..], air, wire) ==
      if !MayGoDirect(air)(batch[k]) then DirectLoop(s, batch[k + 1..], air, wire)
      else if wire == 0 then (Attempt(s, batch[k], Auth), false)
      else DirectLoop(Transmit(s, batch[k], Auth, air.instant), batch[k + 1..], air, wire - 1)
  {
    assert batch[k..][0] == batch[k] && batch[k..][1..] == batch[k + 1..];
  }

  /** After looking for a prepared socket and taking a ticket. */
  ghost function Paid(s: Net): Net
    requires s.live.tickets > 0
  {
    s.(live := s.live.(prepared := TakePrepared(s.live.prepared).1, tickets := s.live.tickets - 1))
  }

  lemma AnonymousStep(s: Net, batch: seq<Envelope>, k: nat, air: Air)
    requires k < |batch|
    ensures AnonymousLoop(s, batch[k..], air) ==
      if s.live.tickets == 0 then s
      else if air.requireAnonymous && !TakePrepared(s.live.prepared).0
           then s.(live := s.live.(prepared := TakePrepared(s.live.prepared).1))
      else if TakePrepared(s.live.prepared).0 || air.route
           then AnonymousLoop(Transmit(Paid(s), batch[k], Anonymous, air.instant), batch[k + 1..], air)
      else Paid(s)
  {
    assert batch[k..][0] == batch[k] && batch[k..][1..] == batch[k + 1..];
  }
}
