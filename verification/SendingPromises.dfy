/** The promises of the outbox, for every state that any run can reach. */
module SendingPromises {
  import opened Envelopes
  import opened Scheduler
  import opened Delivery
  import opened Outbox
  import opened Sending
  import opened SendingSafety
  import opened SendingRuns

  /** Barrier safety: when a frame was transmitted, on either path, every earlier
      envelope of its device that is an Essential had left the queue, and if the frame
      is itself an Essential every earlier envelope of its device had; and none of
      them has come back. */
  lemma BarrierSafety(s: Net, k: nat, n: nat)
    requires Reachable(s)
    requires var h := s.history;
             && k < |h.sent| && n < |h.log| && h.sent[k].ref in h.born && n < h.born[h.sent[k].ref] < |h.log|
             && h.log[n].device == h.log[h.born[h.sent[k].ref]].device
             && (h.log[n].kind == Essential || h.log[h.born[h.sent[k].ref]].kind == Essential)
    ensures s.history.log[n].clientRef in s.history.sent[k].gone
    ensures s.history.log[n].clientRef !in Refs(s.disk.queue)
  {
    ReachableInv(s);
    var h := s.history;
    assert Rightful(h, h.sent[k]);
    assert Depends(h.log[n], Origin(h, h.sent[k].ref));
  }

  /** Of the queued envelopes of one device, at most one that is not ephemeral is in
      flight, and an Essential in flight is alone there and first in the queue. */
  lemma OneInFlightPerDevice(s: Net, i: nat, j: nat)
    requires Reachable(s)
    requires var q := s.disk.queue;
             && i < |q| && j < |q| && i != j && q[i].device == q[j].device && q[i].clientRef in Inflight(s.live)
    ensures var q := s.disk.queue;
            && (q[j].clientRef in Inflight(s.live) ==> q[i].kind == Ephemeral || q[j].kind == Ephemeral)
            && (q[i].kind == Essential ==> i < j && q[j].clientRef !in Inflight(s.live))
            && (q[j].kind == Essential ==> i < j && q[j].clientRef !in Inflight(s.live))
  {
    ReachableInv(s);
    var q := s.disk.queue;
    assert q[i] in q && q[j] in q;
    assert i < j ==> s.history.born[q[i].clientRef] < s.history.born[q[j].clientRef];
    assert j < i ==> s.history.born[q[j].clientRef] < s.history.born[q[i].clientRef];
    assert Unhindered(s, q[i]);
  }

  /** The bounds that always hold. */
  lemma BoundsHold(s: Net)
    requires Reachable(s)
    ensures |s.disk.queue| <= MAX_ITEMS && TotalSize(s.disk.queue) <= MAX_BYTES && UniqueRefs(s.disk.queue)
    ensures |s.live.direct| <= 4 && |s.live.anon| <= 4 && s.live.direct.Keys !! s.live.anon
  {
    ReachableInv(s);
    forall i, j | 0 <= i < j < |s.disk.queue| ensures s.disk.queue[i].clientRef != s.disk.queue[j].clientRef {
      assert s.history.born[s.disk.queue[i].clientRef] < s.history.born[s.disk.queue[j].clientRef];
    }
  }

  /** Conservation: an enqueued envelope is queued, acknowledged or dropped, and exactly
      one of them; while queued it is, but for its lifetime, what was enqueued. */
  lemma Conservation(s: Net, n: nat)
    requires Reachable(s) && n < |s.history.log|
    ensures var e := s.history.log[n];
            && (e.clientRef in Refs(s.disk.queue) || e.clientRef in s.history.acked || e.clientRef in s.history.dropped)
            && !(e.clientRef in Refs(s.disk.queue) && e.clientRef in s.history.acked)
            && !(e.clientRef in Refs(s.disk.queue) && e.clientRef in s.history.dropped)
            && !(e.clientRef in s.history.acked && e.clientRef in s.history.dropped)
            && (e.clientRef in Refs(s.disk.queue) ==> exists f :: f in s.disk.queue && Undated(f) == Undated(e))
            && (e.clientRef in s.history.acked ==> exists k :: 0 <= k < |s.history.sent| && s.history.sent[k].ref == e.clientRef)
  {
    ReachableInv(s);
    var e := s.history.log[n];
    if e.clientRef in Refs(s.disk.queue) {
      var i :| 0 <= i < |s.disk.queue| && s.disk.queue[i].clientRef == e.clientRef;
      assert s.disk.queue[i] in s.disk.queue && Undated(s.disk.queue[i]) == Undated(Origin(s.history, e.clientRef));
    }
    if e.clientRef in s.history.acked {
      assert e.clientRef in Inflight(s.live) + s.history.acked;
      assert WasSent(s.history, e.clientRef);
    }
  }

  /** Exact retry: every transmission under one reference is the same bytes to the same
      device, namely those enqueued, and an envelope that was not created for the
      authenticated socket never goes out on it. */
  lemma ExactRetry(s: Net, j: nat, k: nat)
    requires Reachable(s)
    requires j < |s.history.sent| && k < |s.history.sent| && s.history.sent[j].ref == s.history.sent[k].ref
    ensures var h := s.history;
            && h.sent[j].device == h.sent[k].device && h.sent[j].ciphertext == h.sent[k].ciphertext
            && (exists n :: 0 <= n < |h.log| && h.log[n].clientRef == h.sent[j].ref
                            && h.log[n].device == h.sent[j].device && h.log[n].ciphertext == h.sent[j].ciphertext
                            && (h.sent[j].path == Auth ==> h.log[n].authenticated))
  {
    ReachableInv(s);
    var h := s.history;
    assert Rightful(h, h.sent[j]) && Rightful(h, h.sent[k]);
    assert h.log[h.born[h.sent[j].ref]].clientRef == h.sent[j].ref;
  }

  /** Outbox and evidence agree: a queued message has its entry, an acknowledged one is
      at least accepted, and an entry still at Queued belongs to messages none of which
      was acknowledged: each is queued or was dropped. */
  lemma EvidenceAgrees(s: Net, n: nat)
    requires Reachable(s) && n < |s.history.log| && Reports(s.history.log[n])
    ensures var e := s.history.log[n];
            && (e.clientRef in Refs(s.disk.queue) ==> Known(s.disk.evidence, KeyOf(e), e.device))
            && (e.clientRef in s.history.acked ==>
                  Known(s.disk.evidence, KeyOf(e), e.device)
                  && s.disk.evidence[KeyOf(e)].devices[e.device] != Queued)
            && (Known(s.disk.evidence, KeyOf(e), e.device) && s.disk.evidence[KeyOf(e)].devices[e.device] == Queued ==>
                  e.clientRef in Refs(s.disk.queue) || e.clientRef in s.history.dropped)
  {
    ReachableInv(s);
    Conservation(s, n);
    var e := s.history.log[n];
    if e.clientRef in Refs(s.disk.queue) {
      var f :| f in s.disk.queue && Undated(f) == Undated(e);
      SameReport(e, f);
    }
    assert e == Origin(s.history, e.clientRef);
  }

  /** Evidence is never manufactured: an entry stems from an enqueued message. */
  lemma EvidenceIsFounded(s: Net, key: Bytes, device: Device)
    requires Reachable(s) && Known(s.disk.evidence, key, device)
    ensures exists e :: e in s.history.log && Reports(e) && KeyOf(e) == key && e.device == device
  {
    ReachableInv(s);
    assert Announced(s.history.log, key, device);
  }

  // ----- What removes an envelope -----

  /** The only ways out of the queue: a matching acknowledgement that was stored, or a
      removal that names the envelope, or expiry. */
  ghost predicate Removes(s: Net, e: Event, item: Envelope) {
    match e
    case SendOk(ref, _, stored, _) => stored && ref == item.clientRef && ref in s.live.direct
    case AnonymousOk(ref, stored, _) => stored && ref == item.clientRef
    case DeletingMessage(conversation, id) => Names(item, conversation, id)
    case ClearingThread(conversation) => item.conversation == conversation && item.kind != Essential
    case ForgettingThread(conversation) => item.conversation == conversation
    case DroppingEphemeral => item.kind == Ephemeral
    case Flushing(air) => item.expiresAt.Some? && item.expiresAt.value <= air.now
    case _ => false
  }

  ghost predicate Gone(s: Net, e: Event, item: Envelope) {
    item.clientRef !in Refs(Next(s, e).disk.queue)
  }

  lemma RemovalRemoves(s: Net, t: Net, keep: Envelope -> bool, item: Envelope)
    requires Inv(s) && item in s.disk.queue && t == Drop(s, keep)
    ensures item.clientRef !in Refs(t.disk.queue) <==> !keep(item)
  {
    RetainedRefs(s.history.born, s.disk.queue, keep);
  }

  lemma SendOkQueue(s: Net, ref: Ref, receipt: Option<(Bytes, Device)>, stored: bool, at: int)
    ensures Next(s, SendOk(ref, receipt, stored, at)).disk.queue
            == if stored && ref in s.live.direct then Retain(s.disk.queue, LacksRef(ref)) else s.disk.queue
  {
  }

  lemma SendOkRemoves(s: Net, ref: Ref, receipt: Option<(Bytes, Device)>, stored: bool, at: int, item: Envelope)
    requires Inv(s) && item in s.disk.queue
    ensures Gone(s, SendOk(ref, receipt, stored, at), item) <==> stored && ref == item.clientRef && ref in s.live.direct
  {
    SendOkQueue(s, ref, receipt, stored, at);
    WithoutRef(s, ref, item);
  }

  lemma AnonymousOkQueue(s: Net, ref: Ref, stored: bool, at: int)
    ensures Next(s, AnonymousOk(ref, stored, at)).disk.queue
            == if stored then Retain(s.disk.queue, LacksRef(ref)) else s.disk.queue
  {
  }

  lemma AnonymousOkRemoves(s: Net, ref: Ref, stored: bool, at: int, item: Envelope)
    requires Inv(s) && item in s.disk.queue
    ensures Gone(s, AnonymousOk(ref, stored, at), item) <==> stored && ref == item.clientRef
  {
    AnonymousOkQueue(s, ref, stored, at);
    WithoutRef(s, ref, item);
  }

  lemma FlushingRemoves(s: Net, air: Air, item: Envelope)
    requires Inv(s) && item in s.disk.queue
    ensures Gone(s, Flushing(air), item) <==> item.expiresAt.Some? && item.expiresAt.value <= air.now
  {
    FlushKeepsInv(s, air);
    FlushRemoves(s, air.now, item);
  }

  lemma EnqueuingRemoves(s: Net, batch: seq<Envelope>, now: int, item: Envelope)
    requires item in s.disk.queue
    ensures !Gone(s, Enqueuing(batch, now), item)
  {
    var i :| 0 <= i < |s.disk.queue| && s.disk.queue[i] == item;
    RefsOfSum(s.disk.queue, batch);
  }

  /** An event takes an envelope out of the queue exactly when it is such a cause; no
      failure, timeout, change of network or restart ever does. */
  lemma RemovedExactlyBy(s: Net, e: Event, item: Envelope)
    requires Inv(s) && Allowed(s, e) && item in s.disk.queue
    ensures item.clientRef !in Refs(Next(s, e).disk.queue) <==> Removes(s, e, item)
  {
    if Removal(e) {
      var keep := RemovalIsDrop(s, e);
      RemovalRemoves(s, Next(s, e), keep, item);
      return;
    }
    match e
    case Enqueuing(batch, now) => EnqueuingRemoves(s, batch, now, item);
    case Flushing(air) => FlushingRemoves(s, air, item);
    case Bounding(now) => BoundingRemoves(s, now);
    case SendOk(ref, receipt, stored, at) => SendOkRemoves(s, ref, receipt, stored, at, item);
    case AnonymousOk(ref, stored, at) => AnonymousOkRemoves(s, ref, stored, at, item);
    case _ =>
  }

  lemma WithoutRef(s: Net, ref: Ref, item: Envelope)
    requires Inv(s) && item in s.disk.queue
    ensures item.clientRef !in Refs(Retain(s.disk.queue, LacksRef(ref))) <==> item.clientRef == ref
    ensures item.clientRef in Refs(s.disk.queue)
  {
    RefsWithout(s.history.born, s.disk.queue, ref);
  }

  lemma BoundedIs(d: Disk, now: int, ttl: int)
    ensures Bounded(d, now, ttl).queue == BoundedQueue(d.queue, now + ttl)
  {
    if !Unbounded(d.queue) {
      assert BoundedQueue(d.queue, now + ttl) == d.queue;
    }
  }

  lemma BoundingRemoves(s: Net, now: int)
    ensures Refs(Next(s, Bounding(now)).disk.queue) == Refs(s.disk.queue)
  {
    var q, q' := s.disk.queue, BoundedQueue(s.disk.queue, now + DEFAULT_TTL);
    BoundedIs(s.disk, now, DEFAULT_TTL);
    SameRefs(q, q');
    SameRefs(q', q);
  }

  lemma FlushRemoves(s: Net, now: int, item: Envelope)
    requires Inv(s) && item in s.disk.queue
    ensures item.clientRef !in Refs(Trim(s, now).disk.queue) <==> item.expiresAt.Some? && item.expiresAt.value <= now
  {
    var q' := BoundedQueue(s.disk.queue, now + DEFAULT_TTL);
    BoundedIs(s.disk, now, DEFAULT_TTL);
    assert Sorted(s.history.born, q') by { BoundKeepsInv(s, now); }
    ExpiryRemoves(s.history.born, s.disk.queue, now, item);
  }

  lemma ExpiryRemoves(born: map<Ref, nat>, q: seq<Envelope>, now: int, item: Envelope)
    requires item in q && Sorted(born, BoundedQueue(q, now + DEFAULT_TTL))
    ensures item.clientRef !in Refs(Retain(BoundedQueue(q, now + DEFAULT_TTL), Alive(now)))
      <==> item.expiresAt.Some? && item.expiresAt.value <= now
  {
    var q' := BoundedQueue(q, now + DEFAULT_TTL);
    var i :| 0 <= i < |q| && q[i] == item;
    assert q'[i] in q';
    RetainedRefs(born, q', Alive(now));
  }

  // ----- The outbox can always be drained -----

  /** A working onion network: it serves every device and a route can be found. */
  function Clear(now: int): Air {
    Air(now, now, false, false, {}, {}, 0, true, true)
  }

  lemma TrimKeepsAlive(s: Net, now: int)
    requires forall e :: e in s.disk.queue ==> Alive(now)(e)
    ensures var t := Trim(s, now);
            && Refs(t.disk.queue) == Refs(s.disk.queue) && |t.disk.queue| == |s.disk.queue|
            && t.history == s.history
            && forall e :: e in t.disk.queue ==> Alive(now)(e)
  {
    var q, q' := s.disk.queue, BoundedQueue(s.disk.queue, now + DEFAULT_TTL);
    BoundedIs(s.disk, now, DEFAULT_TTL);
    forall e | e in q' ensures Alive(now)(e) {
      var i :| 0 <= i < |q'| && q'[i] == e;
      assert q[i] in q;
    }
    EveryoneStays(q', Alive(now));
    SameRefs(q, q');
    SameRefs(q', q);
    assert Trim(s, now).history.dropped == s.history.dropped;
  }

  lemma {:induction false} EveryoneStays(q: seq<Envelope>, keep: Envelope -> bool)
    requires forall e :: e in q ==> keep(e)
    ensures Retain(q, keep) == q
  {
    if q != [] {
      EveryoneStays(q[..|q| - 1], keep);
    }
  }

  /** With one ticket and a slot free, a flush over a clear network puts one envelope on
      the wire if any is eligible. */
  lemma ClearFlushSends(s: Net, now: int) returns (i: nat)
    requires exists k: nat :: k < |s.disk.queue| && Eligible(s.disk.queue, Inflight(s.live), k)
    requires |s.live.anon| < SLOTS && s.live.retries == map[] && s.live.tickets == 1 && s.live.prepared == []
    ensures i < |s.disk.queue| && Eligible(s.disk.queue, Inflight(s.live), i)
    ensures Serve(s, Clear(now)) == Transmit(s.(live := s.live.(tickets := 0)), s.disk.queue[i], Anonymous, now)
  {
    var air, q := Clear(now), s.disk.queue;
    assert Inflight(s.live) + BarredRefs(q, air) + Cooling(s.live, now) == Inflight(s.live);
    var ready := Scheduler.Ready(q, Inflight(s.live), now, Free(|s.live.anon|));
    i := FirstReady(q, Inflight(s.live), air, Free(|s.live.anon|));
    assert AnonymousQueued(q, air) by { assert !DirectAllowed(air) && 0 <= i < |q|; }
    assert Serve(s, air) == AnonymousLoop(s, ready, air);
    OneTicket(s, ready, air);
  }

  lemma FirstIsEligible(q: seq<Envelope>)
    requires q != []
    ensures Eligible(q, {}, 0)
  {
  }

  lemma FirstReady(q: seq<Envelope>, inflight: set<Ref>, air: Air, limit: nat) returns (i: nat)
    requires limit > 0 && air == Clear(air.now) && exists k: nat :: k < |q| && Eligible(q, inflight, k)
    ensures i < |q| && Eligible(q, inflight, i)
    ensures var ready := Scheduler.Ready(q, inflight, air.now, limit);
            ready != [] && ready[0] == q[i] && Retain(ready, MayGoAnonymous(air)) == ready
  {
    var ready := Scheduler.Ready(q, inflight, air.now, limit);
    var k: nat :| k < |q| && Eligible(q, inflight, k);
    ReadyServesEveryDevice(q, inflight, air.now, limit);
    assert q[k].device in Schedulable(q, inflight);
    ReadyItems(q, inflight, air.now, limit);
    EveryoneStays(ready, MayGoAnonymous(air));
    i :| i < |q| && q[i] == ready[0] && Wins(q, inflight, air.now, i);
  }

  lemma OneTicket(s: Net, batch: seq<Envelope>, air: Air)
    requires batch != [] && s.live.tickets == 1 && s.live.prepared == [] && air.route && !air.requireAnonymous
    ensures AnonymousLoop(s, batch, air) == Transmit(s.(live := s.live.(tickets := 0)), batch[0], Anonymous, air.instant)
  {
    var paid := s.(live := s.live.(prepared := [], tickets := 0));
    assert paid == s.(live := s.live.(tickets := 0));
    assert AnonymousLoop(s, batch, air) == AnonymousLoop(Transmit(paid, batch[0], Anonymous, air.instant), batch[1..], air);
  }

  /** No reachable state is stuck: while nothing expires there is a continuation that
      delivers everything queued and drops nothing. */
  lemma CanAlwaysDrain(s: Net, now: int) returns (events: seq<Event>)
    requires Inv(s) && forall e :: e in s.disk.queue ==> Alive(now)(e)
    ensures AllowedRun(s, events)
    ensures Run(s, events).disk.queue == []
    ensures Run(s, events).history.acked == s.history.acked + Refs(s.disk.queue)
    ensures Run(s, events).history.dropped == s.history.dropped
  {
    events := DrainOn(s, [], s, now);
  }

  /** Goes on from where some events have led. */
  lemma {:induction false} DrainOn(o: Net, before: seq<Event>, s: Net, now: int) returns (events: seq<Event>)
    requires AllowedRun(o, before) && s == Run(o, before)
    requires Inv(s) && forall e :: e in s.disk.queue ==> Alive(now)(e)
    ensures AllowedRun(o, events)
    ensures Run(o, events).disk.queue == []
    ensures Run(o, events).history.acked == s.history.acked + Refs(s.disk.queue)
    ensures Run(o, events).history.dropped == s.history.dropped
    decreases |s.disk.queue|
  {
    if s.disk.queue == [] {
      events := before;
      assert Refs(s.disk.queue) == {};
    } else {
      var b := Reset(s);
      ReleaseKeepsInv(s, b.live);
      var e, t := DrainOne(b, now);
      var more := DrainEvents(o, before, s, b, t, e, now);
      events := DrainOn(o, more, t, now);
    }
  }

  /** A reconnection with one ticket. */
  lemma Reset(s: Net) returns (b: Net)
    ensures b == s.(live := Live(map[], {}, map[], 1, [])) && b == Next(Next(s, NetworkLost), Refill(1, []))
  {
    b := Next(Next(s, NetworkLost), Refill(1, []));
  }

  /** One flush and its acknowledgement take one envelope out. */
  lemma DrainOne(b: Net, now: int) returns (e: Envelope, t: Net)
    requires Inv(b) && b.disk.queue != [] && forall e :: e in b.disk.queue ==> Alive(now)(e)
    requires b.live == Live(map[], {}, map[], 1, [])
    ensures var c := Next(b, Flushing(Clear(now)));
            t == Next(c, AnonymousOk(e.clientRef, true, now)) && Allowed(c, AnonymousOk(e.clientRef, true, now))
    ensures Inv(t) && |t.disk.queue| < |b.disk.queue| && forall e :: e in t.disk.queue ==> Alive(now)(e)
    ensures t.history.acked + Refs(t.disk.queue) == b.history.acked + Refs(b.disk.queue)
    ensures t.history.dropped == b.history.dropped
  {
    e := ClearFlush(b, now);
    var c := Next(b, Flushing(Clear(now)));
    NextKeepsInv(b, Flushing(Clear(now)));
    t := Next(c, AnonymousOk(e.clientRef, true, now));
    NextKeepsInv(c, AnonymousOk(e.clientRef, true, now));
    AckShrinks(c, t, e, now);
  }

  /** The four events of one round, after others. */
  lemma DrainEvents(o: Net, before: seq<Event>, s: Net, b: Net, t: Net, e: Envelope, now: int) returns (events: seq<Event>)
    requires AllowedRun(o, before) && s == Run(o, before) && b == Next(Next(s, NetworkLost), Refill(1, []))
    requires var c := Next(b, Flushing(Clear(now)));
             t == Next(c, AnonymousOk(e.clientRef, true, now)) && Allowed(c, AnonymousOk(e.clientRef, true, now))
    ensures AllowedRun(o, events) && t == Run(o, events)
  {
    var one := Then(o, s, Next(s, NetworkLost), before, NetworkLost);
    var two := Then(o, Next(s, NetworkLost), b, one, Refill(1, []));
    var three := Then(o, b, Next(b, Flushing(Clear(now))), two, Flushing(Clear(now)));
    events := Then(o, Next(b, Flushing(Clear(now))), t, three, AnonymousOk(e.clientRef, true, now));
  }

  lemma ClearFlush(b: Net, now: int) returns (e: Envelope)
    requires Inv(b) && b.disk.queue != [] && forall e :: e in b.disk.queue ==> Alive(now)(e)
    requires b.live == Live(map[], {}, map[], 1, [])
    ensures var c := Next(b, Flushing(Clear(now)));
            && e in c.disk.queue && WasSent(c.history, e.clientRef)
            && |c.disk.queue| == |b.disk.queue| && Refs(c.disk.queue) == Refs(b.disk.queue)
            && c.history.acked == b.history.acked && c.history.dropped == b.history.dropped
            && forall f :: f in c.disk.queue ==> Alive(now)(f)
  {
    TrimKeepsAlive(b, now);
    e := ClearServe(Trim(b, now), now);
  }

  lemma ClearServe(t: Net, now: int) returns (e: Envelope)
    requires |t.disk.queue| > 0 && t.live == Live(map[], {}, map[], 1, [])
    ensures var c := Serve(t, Clear(now));
            && e in c.disk.queue && WasSent(c.history, e.clientRef) && c.disk == t.disk
            && c.history.acked == t.history.acked && c.history.dropped == t.history.dropped
  {
    FirstIsEligible(t.disk.queue);
    assert Inflight(t.live) == {};
    var i := ClearFlushSends(t, now);
    e := t.disk.queue[i];
    SentLast(t.(live := t.live.(tickets := 0)), e, now);
  }

  lemma SentLast(s: Net, e: Envelope, now: int)
    ensures var c := Transmit(s, e, Anonymous, now);
            && WasSent(c.history, e.clientRef) && c.disk == s.disk
            && c.history.acked == s.history.acked && c.history.dropped == s.history.dropped
  {
    var c := Transmit(s, e, Anonymous, now);
    assert c.history.sent[|s.history.sent|].ref == e.clientRef;
  }

  lemma AckShrinks(d: Net, t: Net, e: Envelope, now: int)
    requires Inv(d) && e in d.disk.queue && t == Next(d, AnonymousOk(e.clientRef, true, now))
    ensures |t.disk.queue| < |d.disk.queue|
    ensures forall f :: f in t.disk.queue ==> f in d.disk.queue
    ensures t.history.acked + Refs(t.disk.queue) == d.history.acked + Refs(d.disk.queue)
    ensures t.history.dropped == d.history.dropped
  {
    AnonymousOkAcks(d, e.clientRef, now);
    ShrinksWithout(d.history.born, d.disk.queue, e);
  }

  lemma AnonymousOkAcks(d: Net, ref: Ref, now: int)
    ensures var t := Next(d, AnonymousOk(ref, true, now));
            && t.disk.queue == Retain(d.disk.queue, LacksRef(ref))
            && t.history == d.history.(acked := d.history.acked + (Refs(d.disk.queue) * {ref}))
  {
  }

  lemma ShrinksWithout(born: map<Ref, nat>, q: seq<Envelope>, e: Envelope)
    requires Sorted(born, q) && e in q
    ensures var left := Retain(q, LacksRef(e.clientRef));
            && |left| < |q| && (forall f :: f in left ==> f in q)
            && e.clientRef in Refs(q) && Refs(left) == Refs(q) - {e.clientRef}
  {
    RetainKeeps(q, LacksRef(e.clientRef));
    RefsWithout(born, q, e.clientRef);
    if |Retain(q, LacksRef(e.clientRef))| == |q| {
      RetainAll(q, LacksRef(e.clientRef));
    }
  }

  /** One more event at the end of a run. */
  lemma Then(o: Net, s: Net, t: Net, events: seq<Event>, e: Event) returns (more: seq<Event>)
    requires AllowedRun(o, events) && s == Run(o, events) && Allowed(s, e) && t == Next(s, e)
    ensures AllowedRun(o, more) && Run(o, more) == t
  {
    more := events + [e];
    assert more[..|more| - 1] == events;
  }

  // ----- What can be in flight together -----

  ghost predicate InFlightPair(s: Net, i: nat, j: nat, a: Kind, b: Kind) {
    var q := s.disk.queue;
    && i < |q| && j < |q| && i != j && q[i].device == q[j].device
    && q[i].kind == a && q[j].kind == b
    && q[i].clientRef in Inflight(s.live) && q[j].clientRef in Inflight(s.live)
  }

  /** Some allowed run leads to envelopes of these kinds, queued for one device, in flight
      at the same time. */
  ghost predicate Together(a: Kind, b: Kind) {
    exists s: Net, i: nat, j: nat :: Reachable(s) && InFlightPair(s, i, j, a, b)
  }

  /** Two kinds can be in flight together for one device exactly when neither is Essential
      and at least one is Ephemeral. */
  lemma TogetherExactly(a: Kind, b: Kind)
    ensures Together(a, b) <==> a != Essential && b != Essential && (a == Ephemeral || b == Ephemeral)
  {
    if Together(a, b) {
      var s: Net, i: nat, j: nat :| Reachable(s) && InFlightPair(s, i, j, a, b);
      OneInFlightPerDevice(s, i, j);
    }
    if a == Ephemeral && b != Essential {
      var s := BesideASignal(b);
      assert InFlightPair(s, 0, 1, a, b);
    } else if b == Ephemeral && a == Message {
      var s := BesideASignal(a);
      assert InFlightPair(s, 1, 0, a, b);
    }
  }

  function Item(ref: Byte, kind: Kind): Envelope {
    Envelope(false, 1, 1, [ref], [7], [8], None, Application([9], ref, [], 1), kind, Some(100))
  }

  lemma ReachNext(s: Net, e: Event)
    requires Reachable(s) && Allowed(s, e)
    ensures Reachable(Next(s, e))
  {
    var events :| AllowedRun(START, events) && Run(START, events) == s;
    var more := Then(START, s, Next(s, e), events, e);
  }

  /** What the runs below start from and come back to: everything queued is for one device,
      with a lifetime, and only the onion path is used. */
  ghost predicate Plain(s: Net, q: seq<Envelope>, anon: set<Ref>) {
    && s.disk.queue == q && s.history.born.Keys == Refs(q)
    && s.live.direct == map[] && s.live.anon == anon && s.live.retries == map[]
  }

  predicate Items(q: seq<Envelope>) {
    forall e :: e in q ==> e.expiresAt == Some(100) && e.ciphertext.size == 1
  }

  lemma OneMoreRef(q: seq<Envelope>, e: Envelope)
    ensures Refs(q + [e]) == Refs(q) + {e.clientRef}
  {
    RefsOfSum(q, [e]);
    assert [e][0].clientRef in Refs([e]);
  }

  lemma OneFits(q: seq<Envelope>, e: Envelope)
    requires |q| <= 1 && Items(q + [e]) && e.clientRef !in Refs(q)
    ensures Fresh(q, [e]) && Fits(q, [e])
  {
    assert (q + [e])[|q|] == e && TotalSize([e][..0]) == 0;
    if |q| == 1 {
      assert (q + [e])[0] == q[0] && q[..0] == [] && TotalSize(q[..0]) == 0;
    }
    assert Refs([e]) == {e.clientRef} by { OneMoreRef([], e); assert [] + [e] == [e]; }
  }

  lemma EnqueuedPlain(s: Net, q: seq<Envelope>, anon: set<Ref>, e: Envelope)
    requires Plain(s, q, anon) && Fresh(q, [e]) && Fits(q, [e])
    ensures Plain(Enqueue(s, [e], 1), q + [e], anon)
  {
    OneMoreRef(q, e);
    assert Birth(s.history.born, |s.history.log|, [e]) == s.history.born[e.clientRef := |s.history.log|] by {
      assert [e][..0] == [];
    }
  }

  lemma EnqueuesOne(s: Net, q: seq<Envelope>, anon: set<Ref>, e: Envelope) returns (t: Net)
    requires Reachable(s) && Plain(s, q, anon) && |q| <= 1 && Items(q + [e]) && e.clientRef !in Refs(q)
    ensures Reachable(t) && Plain(t, q + [e], anon)
  {
    OneFits(q, e);
    EnqueuedPlain(s, q, anon, e);
    assert Refs([e]) == {e.clientRef} by { OneMoreRef([], e); assert [] + [e] == [e]; }
    t := Next(s, Enqueuing([e], 1));
    ReachNext(s, Enqueuing([e], 1));
  }

  lemma ServedPlain(s: Net, q: seq<Envelope>, anon: set<Ref>, e: Envelope)
    requires Plain(s, q, anon) && s.live.tickets == 1 && s.live.prepared == [] && |anon| < SLOTS
    requires e in q && forall i: nat :: i < |q| ==> (Eligible(q, anon, i) <==> q[i] == e)
    ensures Plain(Serve(s, Clear(1)), q, anon + {e.clientRef})
  {
    assert Inflight(s.live) == anon;
    var k :| 0 <= k < |q| && q[k] == e;
    var i := ClearFlushSends(s, 1);
    TransmittedPlain(s.(live := s.live.(tickets := 0)), q, anon, q[i], 1);
  }

  lemma FlushedPlain(s: Net, q: seq<Envelope>, anon: set<Ref>, e: Envelope)
    requires Plain(s, q, anon) && s.live.tickets == 1 && s.live.prepared == [] && |anon| < SLOTS && Items(q)
    requires e in q && forall i: nat :: i < |q| ==> (Eligible(q, anon, i) <==> q[i] == e)
    ensures Plain(Flush(s, Clear(1)), q, anon + {e.clientRef})
  {
    TrimIdles(s, 1);
    ServedPlain(s, q, anon, e);
  }

  lemma TransmittedPlain(s: Net, q: seq<Envelope>, anon: set<Ref>, e: Envelope, instant: int)
    requires Plain(s, q, anon)
    ensures Plain(Transmit(s, e, Anonymous, instant), q, anon + {e.clientRef})
  {
  }

  lemma FlushesOne(s: Net, q: seq<Envelope>, anon: set<Ref>, e: Envelope) returns (t: Net)
    requires Reachable(s) && Plain(s, q, anon) && |anon| < SLOTS && Items(q)
    requires e in q && forall i: nat :: i < |q| ==> (Eligible(q, anon, i) <==> q[i] == e)
    ensures Reachable(t) && Plain(t, q, anon + {e.clientRef})
  {
    var a := s.(live := s.live.(tickets := 1, prepared := []));
    ReachNext(s, Refill(1, []));
    FlushedPlain(a, q, anon, e);
    t := Next(a, Flushing(Clear(1)));
    ReachNext(a, Flushing(Clear(1)));
  }

  lemma TrimIdles(s: Net, now: int)
    requires s.live.retries == map[] && forall e :: e in s.disk.queue ==> e.expiresAt.Some? && e.expiresAt.value > now
    ensures Trim(s, now) == s
  {
    var q := s.disk.queue;
    assert !Unbounded(q) by { assert forall i :: 0 <= i < |q| ==> q[i] in q; }
    EveryoneStays(q, Alive(now));
    assert s.history.dropped + (Refs(q) - Refs(q)) == s.history.dropped;
  }

  lemma FirstSignal() returns (s: Net)
    ensures Reachable(s) && Plain(s, [Item(0, Ephemeral)], {[0]})
  {
    var x := Item(0, Ephemeral);
    assert AllowedRun(START, []) && Run(START, []) == START;
    var a := EnqueuesOne(START, [], {}, x);
    assert [] + [x] == [x];
    s := FlushesOne(a, [x], {}, x);
    assert {} + {x.clientRef} == {[0]};
  }

  /** Beside a signal in flight, the next envelope of its device is eligible, and the
      signal itself is not. */
  lemma OnlyTheSecond(x: Envelope, y: Envelope, anon: set<Ref>)
    requires x.kind == Ephemeral && y.kind != Essential && x.clientRef in anon && y.clientRef !in anon
    ensures var q := [x, y]; forall i: nat :: i < |q| ==> (Eligible(q, anon, i) <==> q[i] == y)
  {
    assert x != y;
  }

  lemma BothInFlight(s: Net, x: Envelope, y: Envelope)
    requires Plain(s, [x, y], {x.clientRef} + {y.clientRef}) && x.device == y.device
    ensures InFlightPair(s, 0, 1, x.kind, y.kind)
  {
  }

  /** A signal goes out, and while it is in flight another envelope for its device does. */
  lemma BesideASignal(kind: Kind) returns (s: Net)
    requires kind != Essential
    ensures Reachable(s) && InFlightPair(s, 0, 1, Ephemeral, kind)
  {
    var x, y := Item(0, Ephemeral), Item(1, kind);
    var q, anon: set<Ref> := [x, y], {[0]};
    var b := FirstSignal();
    assert [x] + [y] == q && x.clientRef[0] != y.clientRef[0];
    var c := EnqueuesOne(b, [x], anon, y);
    OnlyTheSecond(x, y, anon);
    s := FlushesOne(c, q, anon, y);
    BothInFlight(s, x, y);
  }
}
