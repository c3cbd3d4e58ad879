/** What every run of the sending protocol keeps. The invariant says that the queue, the
    log and the acknowledged and dropped references fit together, that nothing in flight
    is hindered by what it must wait for, that every frame that was sent was rightful,
    and that the evidence speaks of what was enqueued. Each section takes one kind of
    step (removing, acknowledging, enqueueing, dating, trimming, transmitting) and shows
    clause by clause that it keeps the invariant; SendingRuns puts the steps together and
    SendingPromises reads the promises off. */
module SendingSafety {
  import opened Envelopes
  import opened Scheduler
  import opened Delivery
  import opened Outbox
  import opened Sending

  // ----- The invariant -----

  /** The log lists each reference once, and `born` is where. */
  ghost predicate Logged(h: History) {
    && (forall n :: 0 <= n < |h.log| ==> h.log[n].clientRef in h.born && h.born[h.log[n].clientRef] == n)
    && (forall r :: r in h.born ==> h.born[r] < |h.log| && h.log[h.born[r]].clientRef == r)
  }

  function Origin(h: History, ref: Ref): Envelope
    requires ref in h.born && h.born[ref] < |h.log|
  {
    h.log[h.born[ref]]
  }

  ghost predicate Sorted(born: map<Ref, nat>, q: seq<Envelope>) {
    && (forall e :: e in q ==> e.clientRef in born)
    && forall i, j :: 0 <= i < j < |q| ==> born[q[i].clientRef] < born[q[j].clientRef]
  }

  /** The queue holds logged envelopes, in the order they were logged and, but for
      their lifetime, exactly as they were logged. */
  ghost predicate Holds(h: History, q: seq<Envelope>)
    requires Logged(h)
  {
    && Sorted(h.born, q)
    && forall e :: e in q ==> Undated(e) == Undated(Origin(h, e.clientRef))
  }

  /** Every logged reference is queued, acknowledged or dropped: exactly one of them. */
  ghost predicate Settled(h: History, q: seq<Envelope>) {
    && Refs(q) !! h.acked && Refs(q) !! h.dropped && h.acked !! h.dropped
    && Refs(q) + h.acked + h.dropped == h.born.Keys
  }

  ghost predicate Limits(s: Net) {
    && |s.disk.queue| <= MAX_ITEMS && TotalSize(s.disk.queue) <= MAX_BYTES
    && |s.live.direct| <= SLOTS && |s.live.anon| <= SLOTS
  }

  /** Nothing that `e` must wait for is still queued or in flight. */
  ghost predicate Unhindered(s: Net, e: Envelope)
    requires forall f :: f in s.disk.queue ==> f.clientRef in s.history.born
    requires e.clientRef in s.history.born
  {
    forall f :: f in s.disk.queue && f.device == e.device && f.clientRef != e.clientRef ==>
      && (f.clientRef in Inflight(s.live) ==> f.kind != Essential && e.kind != Essential && (f.kind == Ephemeral || e.kind == Ephemeral))
      && (s.history.born[f.clientRef] < s.history.born[e.clientRef] ==> f.kind != Essential && e.kind != Essential)
  }

  ghost predicate Exclusive(s: Net)
    requires Logged(s.history) && Holds(s.history, s.disk.queue)
  {
    && s.live.direct.Keys !! s.live.anon
    && forall e :: e in s.disk.queue && e.clientRef in Inflight(s.live) ==> Unhindered(s, e)
  }

  ghost predicate Depends(earlier: Envelope, later: Envelope) {
    earlier.device == later.device && (earlier.kind == Essential || later.kind == Essential)
  }

  /** A frame carries what was enqueued under its reference, on a path it may take, and
      everything it depends on had left the queue. */
  ghost predicate Rightful(h: History, t: Sent)
    requires Logged(h)
  {
    && t.ref in h.born
    && var e := Origin(h, t.ref);
       && t.device == e.device && t.ciphertext == e.ciphertext
       && (t.path == Auth ==> e.authenticated)
       && t.gone <= h.acked + h.dropped
       && forall n :: 0 <= n < h.born[t.ref] && Depends(h.log[n], e) ==> h.log[n].clientRef in t.gone
  }

  ghost predicate Flown(h: History, live: Live)
    requires Logged(h)
  {
    && (forall k :: 0 <= k < |h.sent| ==> Rightful(h, h.sent[k]))
    && (forall r :: r in Inflight(live) + h.acked ==> WasSent(h, r))
  }

  /** The evidence speaks of what was enqueued: a queued message has an entry, an
      acknowledged one is accepted, and there is no entry for anything else. */
  ghost predicate Evident(s: Net)
    requires Logged(s.history)
  {
    && (forall e :: e in s.disk.queue && Reports(e) ==> Known(s.disk.evidence, KeyOf(e), e.device))
    && (forall r :: r in s.history.acked && r in s.history.born && Reports(Origin(s.history, r)) ==>
          var e := Origin(s.history, r);
          Known(s.disk.evidence, KeyOf(e), e.device) && 1 <= Rank(s.disk.evidence[KeyOf(e)].devices[e.device]))
    && (forall k, d :: Known(s.disk.evidence, k, d) ==> Announced(s.history.log, k, d))
  }

  ghost predicate Announced(log: seq<Envelope>, key: Bytes, device: Device) {
    exists e :: e in log && Reports(e) && KeyOf(e) == key && e.device == device
  }

  ghost predicate Inv(s: Net) {
    && Logged(s.history)
    && Holds(s.history, s.disk.queue)
    && Settled(s.history, s.disk.queue)
    && Limits(s)
    && Exclusive(s)
    && Flown(s.history, s.live)
    && Evident(s)
  }

  // ----- Removing from the queue -----

  lemma {:induction false} RetainSorted(born: map<Ref, nat>, q: seq<Envelope>, keep: Envelope -> bool)
    requires Sorted(born, q)
    ensures Sorted(born, Retain(q, keep))
  {
    RetainKeeps(q, keep);
    if q != [] {
      var before := q[..|q| - 1];
      RetainKeeps(before, keep);
      RetainSorted(born, before, keep);
      forall e | e in before ensures born[e.clientRef] < born[q[|q| - 1].clientRef] {
        var i :| 0 <= i < |before| && before[i] == e;
        assert q[i] == e;
      }
    }
  }

  /** A sorted queue holds one envelope under each reference. */
  lemma OnePerRef(born: map<Ref, nat>, q: seq<Envelope>, e: Envelope, f: Envelope)
    requires Sorted(born, q) && e in q && f in q && e.clientRef == f.clientRef
    ensures e == f
  {
    var i :| 0 <= i < |q| && q[i] == e;
    var j :| 0 <= j < |q| && q[j] == f;
  }

  lemma RetainedRefs(born: map<Ref, nat>, q: seq<Envelope>, keep: Envelope -> bool)
    requires Sorted(born, q)
    ensures Refs(Retain(q, keep)) <= Refs(q)
    ensures forall e :: e in q ==> (e.clientRef in Refs(Retain(q, keep)) <==> keep(e))
  {
    RetainKeeps(q, keep);
    var left := Retain(q, keep);
    forall e | e in q ensures e.clientRef in Refs(left) <==> keep(e) {
      if e.clientRef in Refs(left) {
        var i :| 0 <= i < |left| && left[i].clientRef == e.clientRef;
        OnePerRef(born, q, e, left[i]);
      }
    }
  }

  lemma DropSettles(s: Net, keep: Envelope -> bool)
    requires Logged(s.history) && Holds(s.history, s.disk.queue) && Settled(s.history, s.disk.queue)
    ensures var t := Drop(s, keep);
            Logged(t.history) && Holds(t.history, t.disk.queue) && Settled(t.history, t.disk.queue)
  {
    RetainKeeps(s.disk.queue, keep);
    RetainSorted(s.history.born, s.disk.queue, keep);
    RetainedRefs(s.history.born, s.disk.queue, keep);
  }

  lemma DropKeepsInv(s: Net, keep: Envelope -> bool)
    requires Inv(s)
    ensures Inv(Drop(s, keep))
  {
    var t := Drop(s, keep);
    DropSettles(s, keep);
    RetainKeeps(s.disk.queue, keep);
    assert Flown(t.history, t.live) by { HistoryGrows(s, t); }
    assert Exclusive(t) by { NarrowerStaysExclusive(s, t); }
    assert Evident(t) by { EvidenceFollows(s, t); }
  }

  lemma NarrowerStaysExclusive(s: Net, t: Net)
    requires Logged(s.history) && Holds(s.history, s.disk.queue) && Exclusive(s)
    requires Logged(t.history) && Holds(t.history, t.disk.queue)
    requires t.history.born == s.history.born
    requires forall e :: e in t.disk.queue ==> e in s.disk.queue
    requires t.live.direct.Keys <= s.live.direct.Keys && t.live.anon <= s.live.anon
    ensures Exclusive(t)
  {
    forall e | e in t.disk.queue && e.clientRef in Inflight(t.live) ensures Unhindered(t, e) {
      assert Unhindered(s, e);
    }
  }

  /** The evidence agreement survives when the evidence only grows for what it knew,
      nothing enters the queue, and what is newly acknowledged is accepted. */
  lemma EvidenceFollows(s: Net, t: Net)
    requires Logged(s.history) && Evident(s)
    requires t.history.log == s.history.log && t.history.born == s.history.born
    requires forall e :: e in t.disk.queue ==> e in s.disk.queue
    requires Grows(s.disk.evidence, t.disk.evidence)
    requires forall k, d :: Known(t.disk.evidence, k, d) ==> Known(s.disk.evidence, k, d)
    requires forall r :: r in t.history.acked && r in s.history.born && Reports(Origin(s.history, r)) ==>
      r in s.history.acked
      || var e := Origin(s.history, r);
         Known(t.disk.evidence, KeyOf(e), e.device) && 1 <= Rank(t.disk.evidence[KeyOf(e)].devices[e.device])
    ensures Evident(t)
  {
    forall r | r in t.history.acked && r in t.history.born && Reports(Origin(t.history, r))
      ensures var e := Origin(t.history, r);
              Known(t.disk.evidence, KeyOf(e), e.device) && 1 <= Rank(t.disk.evidence[KeyOf(e)].devices[e.device])
    {
      var e := Origin(s.history, r);
      if r in s.history.acked {
        assert Known(s.disk.evidence, KeyOf(e), e.device);
      }
    }
    forall e | e in t.disk.queue && Reports(e) ensures Known(t.disk.evidence, KeyOf(e), e.device) {
      assert Known(s.disk.evidence, KeyOf(e), e.device);
    }
  }

  /** Frames stay rightful while the log is kept and more has left the queue. */
  lemma HistoryGrows(s: Net, t: Net)
    requires Logged(s.history) && Flown(s.history, s.live)
    requires t.history.log == s.history.log && t.history.born == s.history.born && t.history.sent == s.history.sent
    requires s.history.acked <= t.history.acked && s.history.dropped <= t.history.dropped
    requires forall r :: r in Inflight(t.live) + t.history.acked ==> WasSent(s.history, r)
    ensures Flown(t.history, t.live)
  {
    forall k | 0 <= k < |t.history.sent| ensures Rightful(t.history, t.history.sent[k]) {
      assert Rightful(s.history, s.history.sent[k]);
    }
    forall r | r in Inflight(t.live) + t.history.acked ensures WasSent(t.history, r) {
      assert WasSent(s.history, r);
    }
  }

  /** Letting go of what is in flight disturbs nothing. */
  lemma ReleaseKeepsInv(s: Net, live: Live)
    requires Inv(s)
    requires live.direct.Keys <= s.live.direct.Keys && live.anon <= s.live.anon
    ensures Inv(s.(live := live))
  {
    var t := s.(live := live);
    SubsetSize(live.direct.Keys, s.live.direct.Keys);
    SubsetSize(live.anon, s.live.anon);
    HistoryGrows(s, t);
    NarrowerStaysExclusive(s, t);
  }

  // ----- Acknowledging -----

  lemma {:induction false} AcceptBatchFacts(ev: Evidence, batch: seq<Envelope>, at: int)
    ensures var ev' := AcceptBatch(ev, batch, at);
            && Grows(ev, ev')
            && (forall k, d :: Known(ev', k, d) ==> Known(ev, k, d))
            && (forall e :: e in batch && Reports(e) && Known(ev, KeyOf(e), e.device) ==>
                  Known(ev', KeyOf(e), e.device) && 1 <= Rank(ev'[KeyOf(e)].devices[e.device]))
  {
    if batch != [] {
      var init, last := batch[..|batch| - 1], batch[|batch| - 1];
      AcceptBatchFacts(ev, init, at);
      var before := AcceptBatch(ev, init, at);
      if Reports(last) {
        AcceptGrows(before, KeyOf(last), last.device, at);
        GrowsTransitively(ev, before, AcceptBatch(ev, batch, at));
      }
      forall e | e in batch && Reports(e) && Known(ev, KeyOf(e), e.device)
        ensures var ev' := AcceptBatch(ev, batch, at);
                Known(ev', KeyOf(e), e.device) && 1 <= Rank(ev'[KeyOf(e)].devices[e.device])
      {
        assert batch == init + [last];
        assert Known(before, KeyOf(e), e.device);
      }
    }
  }

  lemma RefsWithout(born: map<Ref, nat>, q: seq<Envelope>, ref: Ref)
    requires Sorted(born, q)
    ensures Refs(Retain(q, LacksRef(ref))) == Refs(q) - {ref}
  {
    RetainedRefs(born, q, LacksRef(ref));
    forall r | r in Refs(q) ensures r in Refs(Retain(q, LacksRef(ref))) <==> r != ref {
      var i :| 0 <= i < |q| && q[i].clientRef == r;
      assert q[i] in q;
    }
  }

  lemma AckSettles(h: History, q: seq<Envelope>, ref: Ref)
    requires Logged(h) && Holds(h, q) && Settled(h, q)
    ensures var h' := h.(acked := h.acked + (Refs(q) * {ref}));
            && Logged(h') && Holds(h', Retain(q, LacksRef(ref))) && Settled(h', Retain(q, LacksRef(ref)))
  {
    var h', left := h.(acked := h.acked + (Refs(q) * {ref})), Retain(q, LacksRef(ref));
    assert Sorted(h.born, left) by { RetainSorted(h.born, q, LacksRef(ref)); }
    assert Holds(h', left) by { RetainKeeps(q, LacksRef(ref)); }
    assert Settled(h', left) by {
      RefsWithout(h.born, q, ref);
      MovesOver(Refs(q), h.acked, h.dropped, ref);
    }
  }

  /** One reference moves from the queued ones to the acknowledged ones. */
  lemma MovesOver(queued: set<Ref>, acked: set<Ref>, dropped: set<Ref>, ref: Ref)
    requires queued !! acked && queued !! dropped && acked !! dropped
    ensures var left, more := queued - {ref}, acked + (queued * {ref});
            left !! more && left !! dropped && more !! dropped && left + more + dropped == queued + acked + dropped
  {
  }

  ghost predicate Acks(s: Net, t: Net, ref: Ref, at: int) {
    && t.disk.queue == Retain(s.disk.queue, LacksRef(ref))
    && t.disk.evidence == AcceptBatch(s.disk.evidence, Retain(s.disk.queue, HasRef(ref)), at)
    && t.history == s.history.(acked := s.history.acked + (Refs(s.disk.queue) * {ref}))
    && t.live == s.live
  }

  lemma NewlyAcked(s: Net, t: Net, ref: Ref, at: int, r: Ref)
    requires Logged(s.history) && Holds(s.history, s.disk.queue) && Evident(s) && Acks(s, t, ref, at)
    requires r in t.history.acked && r !in s.history.acked && r in s.history.born && Reports(Origin(s.history, r))
    ensures var e := Origin(s.history, r);
            Known(t.disk.evidence, KeyOf(e), e.device) && 1 <= Rank(t.disk.evidence[KeyOf(e)].devices[e.device])
  {
    var q := s.disk.queue;
    var i :| 0 <= i < |q| && q[i].clientRef == r;
    assert q[i] in q;
    RetainKeeps(q, HasRef(ref));
    AcceptBatchFacts(s.disk.evidence, Retain(q, HasRef(ref)), at);
    assert q[i] in Retain(q, HasRef(ref));
  }

  lemma AckStaysEvident(s: Net, t: Net, ref: Ref, at: int)
    requires Logged(s.history) && Holds(s.history, s.disk.queue) && Evident(s) && Acks(s, t, ref, at)
    ensures Logged(t.history) && Evident(t)
  {
    RetainKeeps(s.disk.queue, LacksRef(ref));
    AcceptBatchFacts(s.disk.evidence, Retain(s.disk.queue, HasRef(ref)), at);
    forall r | r in t.history.acked && r !in s.history.acked && r in s.history.born && Reports(Origin(s.history, r))
      ensures var e := Origin(s.history, r);
              Known(t.disk.evidence, KeyOf(e), e.device) && 1 <= Rank(t.disk.evidence[KeyOf(e)].devices[e.device])
    {
      NewlyAcked(s, t, ref, at, r);
    }
    EvidenceFollows(s, t);
  }

  lemma AckStaysFlown(s: Net, t: Net, ref: Ref, at: int)
    requires Logged(s.history) && Flown(s.history, s.live) && WasSent(s.history, ref) && Acks(s, t, ref, at)
    ensures Logged(t.history) && Flown(t.history, t.live)
  {
    forall r | r in Inflight(t.live) + t.history.acked ensures WasSent(s.history, r) {
      if r in Inflight(s.live) + s.history.acked {
      } else {
        assert r == ref;
      }
    }
    HistoryGrows(s, t);
  }

  lemma AckKeepsInv(s: Net, t: Net, ref: Ref, at: int)
    requires Inv(s) && WasSent(s.history, ref) && Acks(s, t, ref, at)
    ensures Inv(t)
  {
    assert Logged(t.history) && Holds(t.history, t.disk.queue) && Settled(t.history, t.disk.queue) by {
      AckSettles(s.history, s.disk.queue, ref);
    }
    assert Limits(t) && forall e :: e in t.disk.queue ==> e in s.disk.queue by {
      RetainKeeps(s.disk.queue, LacksRef(ref));
    }
    assert Flown(t.history, t.live) by { AckStaysFlown(s, t, ref, at); }
    assert Exclusive(t) by { NarrowerStaysExclusive(s, t); }
    assert Evident(t) by { AckStaysEvident(s, t, ref, at); }
  }

  // ----- Enqueueing -----

  lemma {:induction false} BirthFacts(born: map<Ref, nat>, base: nat, batch: seq<Envelope>)
    requires UniqueRefs(batch)
    ensures var b := Birth(born, base, batch);
            && (forall r :: r in b <==> r in born || r in Refs(batch))
            && (forall r :: r in born && r !in Refs(batch) ==> b[r] == born[r])
            && (forall i :: 0 <= i < |batch| ==> b[batch[i].clientRef] == base + i)
  {
    if batch != [] {
      var init := batch[..|batch| - 1];
      BirthFacts(born, base, init);
      RefsOfPrefix(batch, |batch| - 1);
      assert batch[..|batch|] == batch;
      forall i | 0 <= i < |batch| ensures Birth(born, base, batch)[batch[i].clientRef] == base + i {
        if i < |init| {
          assert init[i] == batch[i];
        }
      }
    }
  }

  lemma {:induction false} TrackBatchFacts(ev: Evidence, batch: seq<Envelope>, now: int)
    ensures var ev' := TrackBatch(ev, batch, now);
            && Grows(ev, ev')
            && (forall e :: e in batch && Reports(e) ==> Known(ev', KeyOf(e), e.device))
            && (forall k, d :: Known(ev', k, d) ==> Known(ev, k, d) || Announced(batch, k, d))
  {
    if batch != [] {
      var init, last := batch[..|batch| - 1], batch[|batch| - 1];
      var before, ev' := TrackBatch(ev, init, now), TrackBatch(ev, batch, now);
      TrackBatchFacts(ev, init, now);
      assert batch == init + [last];
      if Reports(last) {
        TrackGrows(before, KeyOf(last), last.device, last.expiresAt, now);
        GrowsTransitively(ev, before, ev');
      }
      forall e | e in batch && Reports(e) ensures Known(ev', KeyOf(e), e.device) {
        assert e in init ==> Known(before, KeyOf(e), e.device);
      }
      forall k, d | Known(ev', k, d) ensures Known(ev, k, d) || Announced(batch, k, d) {
        if Known(before, k, d) && !Known(ev, k, d) {
          var e :| e in init && Reports(e) && KeyOf(e) == k && e.device == d;
          assert e in batch;
        }
      }
    }
  }

  lemma {:induction false} TotalSizeAdds(q: seq<Envelope>, batch: seq<Envelope>)
    ensures TotalSize(q + batch) == TotalSize(q) + TotalSize(batch)
  {
    if batch == [] {
      assert q + batch == q;
    } else {
      var init := batch[..|batch| - 1];
      TotalSizeAdds(q, init);
      assert (q + batch)[..|q + batch| - 1] == q + init;
    }
  }

  ghost predicate Enqueues(s: Net, t: Net, batch: seq<Envelope>, now: int) {
    && Fresh(s.disk.queue, batch) && Fits(s.disk.queue, batch)
    && Refs(batch) !! s.history.born.Keys
    && t == s.(disk := Enqueued(s.disk, batch, now), history := Logging(s.history, batch))
  }

  lemma LoggedForward(h: History, batch: seq<Envelope>, h': History)
    requires Logged(h) && h'.log == h.log + batch && Refs(batch) !! h.born.Keys
    requires forall r :: r in h.born ==> r in h'.born && h'.born[r] == h.born[r]
    requires forall i :: 0 <= i < |batch| ==> batch[i].clientRef in h'.born && h'.born[batch[i].clientRef] == |h.log| + i
    ensures forall n :: 0 <= n < |h'.log| ==> h'.log[n].clientRef in h'.born && h'.born[h'.log[n].clientRef] == n
  {
    forall n | 0 <= n < |h'.log| ensures h'.log[n].clientRef in h'.born && h'.born[h'.log[n].clientRef] == n {
      if |h.log| <= n {
        assert h'.log[n] == batch[n - |h.log|];
      } else {
        assert h'.log[n] == h.log[n];
      }
    }
  }

  lemma LoggedBack(h: History, batch: seq<Envelope>, h': History)
    requires Logged(h) && h'.log == h.log + batch && h'.born.Keys == h.born.Keys + Refs(batch)
    requires forall r :: r in h.born ==> r in h'.born && h'.born[r] == h.born[r]
    requires forall i :: 0 <= i < |batch| ==> batch[i].clientRef in h'.born && h'.born[batch[i].clientRef] == |h.log| + i
    ensures forall r :: r in h'.born ==> h'.born[r] < |h'.log| && h'.log[h'.born[r]].clientRef == r
  {
    forall r | r in h'.born ensures h'.born[r] < |h'.log| && h'.log[h'.born[r]].clientRef == r {
      if r in h.born {
        assert h'.log[h.born[r]] == h.log[h.born[r]];
      } else {
        var i :| 0 <= i < |batch| && batch[i].clientRef == r;
        assert h'.log[|h.log| + i] == batch[i];
      }
    }
  }

  /** Logging a batch of unused references appends it, and moves nothing. */
  lemma LoggingAppends(h: History, batch: seq<Envelope>)
    requires Logged(h) && UniqueRefs(batch) && Refs(batch) !! h.born.Keys
    ensures var h' := Logging(h, batch);
            && Logged(h')
            && (forall r :: r in h.born ==> r in h'.born && h'.born[r] == h.born[r])
            && h'.born.Keys == h.born.Keys + Refs(batch)
            && (forall i :: 0 <= i < |batch| ==> h'.born[batch[i].clientRef] == |h.log| + i)
  {
    BirthFacts(h.born, |h.log|, batch);
    LoggedForward(h, batch, Logging(h, batch));
    LoggedBack(h, batch, Logging(h, batch));
  }

  /** Old envelopes keep their place in the log, new ones come after all of them. */
  lemma LoggingOrigins(h: History, batch: seq<Envelope>)
    requires Logged(h) && UniqueRefs(batch) && Refs(batch) !! h.born.Keys
    ensures var h' := Logging(h, batch);
            && Logged(h')
            && (forall r :: r in h.born ==> r in h'.born && h'.born[r] == h.born[r] && Origin(h', r) == Origin(h, r))
            && (forall e :: e in batch ==> e.clientRef in h'.born && |h.log| <= h'.born[e.clientRef] && Origin(h', e.clientRef) == e)
  {
    LoggingAppends(h, batch);
    var h' := Logging(h, batch);
    forall e | e in batch
      ensures e.clientRef in h'.born && |h.log| <= h'.born[e.clientRef] && Origin(h', e.clientRef) == e
    {
      var i :| 0 <= i < |batch| && batch[i] == e;
      assert h'.log[|h.log| + i] == e;
    }
  }

  lemma LoggingSorts(h: History, q: seq<Envelope>, batch: seq<Envelope>)
    requires Logged(h) && Sorted(h.born, q) && UniqueRefs(batch) && Refs(batch) !! h.born.Keys
    ensures Sorted(Logging(h, batch).born, q + batch)
  {
    LoggingAppends(h, batch);
    var born, q' := Logging(h, batch).born, q + batch;
    forall e | e in q' ensures e.clientRef in born {
      assert e in q || e in batch;
    }
    forall i, j | 0 <= i < j < |q'| ensures born[q'[i].clientRef] < born[q'[j].clientRef] {
      if |q| <= j {
        assert q'[j] == batch[j - |q|];
        if i < |q| {
          assert q'[i] == q[i] && q[i] in q;
        } else {
          assert q'[i] == batch[i - |q|];
        }
      } else {
        assert q'[i] == q[i] && q'[j] == q[j] && q[i] in q && q[j] in q;
      }
    }
  }

  lemma EnqueueHolds(s: Net, t: Net, batch: seq<Envelope>, now: int)
    requires Logged(s.history) && Holds(s.history, s.disk.queue) && Settled(s.history, s.disk.queue)
    requires Enqueues(s, t, batch, now)
    ensures Logged(t.history) && Holds(t.history, t.disk.queue) && Settled(t.history, t.disk.queue)
  {
    var h, q := s.history, s.disk.queue;
    LoggingAppends(h, batch);
    LoggingOrigins(h, batch);
    LoggingSorts(h, q, batch);
    forall e | e in q + batch ensures Undated(e) == Undated(Origin(t.history, e.clientRef)) {
      assert e in q || e in batch;
    }
    RefsOfSum(q, batch);
  }

  lemma RefsOfSum(q: seq<Envelope>, batch: seq<Envelope>)
    ensures Refs(q + batch) == Refs(q) + Refs(batch)
  {
    forall r | r in Refs(q) + Refs(batch) ensures r in Refs(q + batch) {
      if r in Refs(q) {
        var i :| 0 <= i < |q| && q[i].clientRef == r;
        assert (q + batch)[i].clientRef == r;
      } else {
        var i :| 0 <= i < |batch| && batch[i].clientRef == r;
        assert (q + batch)[|q| + i].clientRef == r;
      }
    }
  }

  lemma EnqueueKeepsInv(s: Net, t: Net, batch: seq<Envelope>, now: int)
    requires Inv(s) && Enqueues(s, t, batch, now)
    ensures Inv(t)
  {
    EnqueueHolds(s, t, batch, now);
    TotalSizeAdds(s.disk.queue, batch);
    assert Flown(t.history, t.live) by { EnqueueFlown(s, t, batch, now); }
    assert Exclusive(t) by { EnqueueExclusive(s, t, batch, now); }
    assert Evident(t) by { EnqueueEvident(s, t, batch, now); }
  }

  lemma EnqueueExclusive(s: Net, t: Net, batch: seq<Envelope>, now: int)
    requires Logged(s.history) && Holds(s.history, s.disk.queue) && Flown(s.history, s.live) && Exclusive(s)
    requires Logged(t.history) && Holds(t.history, t.disk.queue)
    requires Enqueues(s, t, batch, now)
    ensures Exclusive(t)
  {
    LoggingOrigins(s.history, batch);
    forall e | e in t.disk.queue && e.clientRef in Inflight(t.live) ensures Unhindered(t, e) {
      InflightIsLogged(s.history, s.live, e.clientRef);
      assert e in s.disk.queue;
      assert Unhindered(s, e);
      forall f | f in t.disk.queue && f !in s.disk.queue
        ensures f.clientRef !in Inflight(t.live) && t.history.born[e.clientRef] < t.history.born[f.clientRef]
      {
        assert f in batch;
        if f.clientRef in Inflight(t.live) {
          InflightIsLogged(s.history, s.live, f.clientRef);
        }
      }
    }
  }

  lemma InflightIsLogged(h: History, live: Live, r: Ref)
    requires Logged(h) && Flown(h, live) && r in Inflight(live)
    ensures r in h.born
  {
    assert WasSent(h, r);
    var k :| 0 <= k < |h.sent| && h.sent[k].ref == r;
    assert Rightful(h, h.sent[k]);
  }

  lemma EnqueueFlown(s: Net, t: Net, batch: seq<Envelope>, now: int)
    requires Logged(s.history) && Holds(s.history, s.disk.queue) && Flown(s.history, s.live)
    requires Enqueues(s, t, batch, now)
    ensures Logged(t.history) && Flown(t.history, t.live)
  {
    LoggingAppends(s.history, batch);
    LoggingOrigins(s.history, batch);
    forall k | 0 <= k < |t.history.sent| ensures Rightful(t.history, t.history.sent[k]) {
      assert Rightful(s.history, s.history.sent[k]);
    }
    forall r | r in Inflight(t.live) + t.history.acked ensures WasSent(t.history, r) {
      assert WasSent(s.history, r);
    }
  }

  lemma EnqueueEvident(s: Net, t: Net, batch: seq<Envelope>, now: int)
    requires Logged(s.history) && Holds(s.history, s.disk.queue) && Settled(s.history, s.disk.queue) && Evident(s)
    requires Enqueues(s, t, batch, now)
    ensures Logged(t.history) && Evident(t)
  {
    LoggingAppends(s.history, batch);
    LoggingOrigins(s.history, batch);
    TrackBatchFacts(s.disk.evidence, batch, now);
    forall e | e in t.disk.queue && Reports(e) ensures Known(t.disk.evidence, KeyOf(e), e.device) {
      if e in s.disk.queue {
        assert Known(s.disk.evidence, KeyOf(e), e.device);
      }
    }
    forall r | r in t.history.acked && r in t.history.born && Reports(Origin(t.history, r))
      ensures var e := Origin(t.history, r);
              Known(t.disk.evidence, KeyOf(e), e.device) && 1 <= Rank(t.disk.evidence[KeyOf(e)].devices[e.device])
    {
      var e := Origin(s.history, r);
      assert Known(s.disk.evidence, KeyOf(e), e.device);
    }
    forall k, d | Known(t.disk.evidence, k, d) ensures Announced(t.history.log, k, d) {
      if Known(s.disk.evidence, k, d) {
        var e :| e in s.history.log && Reports(e) && KeyOf(e) == k && e.device == d;
        assert e in t.history.log;
      } else {
        var e :| e in batch && Reports(e) && KeyOf(e) == k && e.device == d;
        assert e in t.history.log;
      }
    }
  }

  // ----- Lifetimes and expiry -----

  lemma {:induction false} SameSizes(q: seq<Envelope>, q': seq<Envelope>)
    requires |q| == |q'| && forall i :: 0 <= i < |q| ==> Undated(q[i]) == Undated(q'[i])
    ensures TotalSize(q) == TotalSize(q')
  {
    if q != [] {
      var n := |q| - 1;
      SameSizes(q[..n], q'[..n]);
      SameReport(q[n], q'[n]);
    }
  }

  lemma SameRefs(q: seq<Envelope>, q': seq<Envelope>)
    requires |q| == |q'| && forall i :: 0 <= i < |q| ==> Undated(q[i]) == Undated(q'[i])
    ensures Refs(q) <= Refs(q')
  {
    forall r | r in Refs(q) ensures r in Refs(q') {
      var i :| 0 <= i < |q| && q[i].clientRef == r;
      SameReport(q[i], q'[i]);
    }
  }

  ghost predicate Redates(s: Net, t: Net, now: int) {
    && |t.disk.queue| == |s.disk.queue|
    && (forall i :: 0 <= i < |s.disk.queue| ==> Undated(t.disk.queue[i]) == Undated(s.disk.queue[i]))
    && t.disk.evidence == TrackBatch(s.disk.evidence, t.disk.queue, now)
    && t.history == s.history && t.live == s.live
  }

  /** Items of the two queues correspond. */
  lemma Undate(s: Net, t: Net, now: int, e: Envelope) returns (f: Envelope)
    requires Redates(s, t, now) && e in t.disk.queue
    ensures f in s.disk.queue && Undated(f) == Undated(e)
  {
    var i :| 0 <= i < |t.disk.queue| && t.disk.queue[i] == e;
    f := s.disk.queue[i];
  }

  lemma RedatedHolds(s: Net, t: Net, now: int)
    requires Logged(s.history) && Holds(s.history, s.disk.queue) && Redates(s, t, now)
    ensures Holds(t.history, t.disk.queue)
  {
    var q, q' := s.disk.queue, t.disk.queue;
    forall e | e in q' ensures e.clientRef in s.history.born && Undated(e) == Undated(Origin(s.history, e.clientRef)) {
      var f := Undate(s, t, now, e);
      assert e.clientRef == Undated(e).clientRef;
    }
    forall i, j | 0 <= i < j < |q'| ensures s.history.born[q'[i].clientRef] < s.history.born[q'[j].clientRef] {
      assert q'[i].clientRef == Undated(q[i]).clientRef && q'[j].clientRef == Undated(q[j]).clientRef;
    }
  }

  lemma RedatedExclusive(s: Net, t: Net, now: int)
    requires Logged(s.history) && Holds(s.history, s.disk.queue) && Exclusive(s)
    requires Redates(s, t, now) && Holds(t.history, t.disk.queue)
    ensures Exclusive(t)
  {
    forall e | e in t.disk.queue && e.clientRef in Inflight(t.live) ensures Unhindered(t, e) {
      var e' := Undate(s, t, now, e);
      assert e'.clientRef == Undated(e).clientRef && e'.device == Undated(e).device && e'.kind == Undated(e).kind;
      assert Unhindered(s, e');
      forall f | f in t.disk.queue && f.device == e.device && f.clientRef != e.clientRef
        ensures f.clientRef in Inflight(t.live) ==> f.kind != Essential && e.kind != Essential && (f.kind == Ephemeral || e.kind == Ephemeral)
        ensures t.history.born[f.clientRef] < t.history.born[e.clientRef] ==> f.kind != Essential && e.kind != Essential
      {
        var f' := Undate(s, t, now, f);
        assert f'.clientRef == Undated(f).clientRef && f'.device == Undated(f).device && f'.kind == Undated(f).kind;
      }
    }
  }

  /** What a queued envelope reports does not depend on its lifetime. */
  lemma SameReport(e: Envelope, f: Envelope)
    requires Undated(e) == Undated(f)
    ensures Reports(e) == Reports(f) && e.device == f.device && e.clientRef == f.clientRef && e.kind == f.kind
    ensures e.ciphertext == f.ciphertext && e.authenticated == f.authenticated
    ensures Reports(e) ==> KeyOf(e) == KeyOf(f)
  {
    assert e.kind == Undated(e).kind && e.logicalId == Undated(e).logicalId && e.device == Undated(e).device;
    assert e.conversation == Undated(e).conversation && e.clientRef == Undated(e).clientRef;
    assert e.ciphertext == Undated(e).ciphertext && e.authenticated == Undated(e).authenticated;
  }

  lemma RedatedEvident(s: Net, t: Net, now: int)
    requires Logged(s.history) && Holds(s.history, s.disk.queue) && Evident(s) && Redates(s, t, now)
    requires Holds(t.history, t.disk.queue)
    ensures Evident(t)
  {
    TrackBatchFacts(s.disk.evidence, t.disk.queue, now);
    forall r | r in t.history.acked && r in t.history.born && Reports(Origin(t.history, r))
      ensures var e := Origin(t.history, r);
              Known(t.disk.evidence, KeyOf(e), e.device) && 1 <= Rank(t.disk.evidence[KeyOf(e)].devices[e.device])
    {
      var e := Origin(s.history, r);
      assert Known(s.disk.evidence, KeyOf(e), e.device);
    }
    forall k, d | Known(t.disk.evidence, k, d) ensures Announced(t.history.log, k, d) {
      if !Known(s.disk.evidence, k, d) {
        var e :| e in t.disk.queue && Reports(e) && KeyOf(e) == k && e.device == d;
        SameReport(e, Origin(t.history, e.clientRef));
        assert Origin(t.history, e.clientRef) in t.history.log;
      }
    }
  }

  lemma RedatedSizes(s: Net, t: Net, now: int)
    requires Redates(s, t, now) && Settled(s.history, s.disk.queue) && Limits(s)
    ensures Settled(t.history, t.disk.queue) && Limits(t)
  {
    SameSizes(s.disk.queue, t.disk.queue);
    assert Refs(t.disk.queue) == Refs(s.disk.queue) by {
      SameRefs(s.disk.queue, t.disk.queue);
      SameRefs(t.disk.queue, s.disk.queue);
    }
  }

  lemma RedateKeepsInv(s: Net, t: Net, now: int)
    requires Inv(s) && Redates(s, t, now)
    ensures Inv(t)
  {
    RedatedSizes(s, t, now);
    assert Holds(t.history, t.disk.queue) by { RedatedHolds(s, t, now); }
    assert Exclusive(t) by { RedatedExclusive(s, t, now); }
    assert Evident(t) by { RedatedEvident(s, t, now); }
  }

  lemma BoundRedates(s: Net, now: int)
    requires Unbounded(s.disk.queue)
    ensures Redates(s, s.(disk := Bounded(s.disk, now, DEFAULT_TTL)), now)
  {
  }

  lemma BoundKeepsInv(s: Net, now: int)
    requires Inv(s)
    ensures Inv(s.(disk := Bounded(s.disk, now, DEFAULT_TTL)))
  {
    if Unbounded(s.disk.queue) {
      BoundRedates(s, now);
      RedateKeepsInv(s, s.(disk := Bounded(s.disk, now, DEFAULT_TTL)), now);
    }
  }

  lemma TrimKeepsInv(s: Net, now: int)
    requires Inv(s)
    ensures Inv(Trim(s, now))
    ensures Trim(s, now).live.direct == s.live.direct && Trim(s, now).live.anon == s.live.anon
  {
    var dated := s.(disk := Bounded(s.disk, now, DEFAULT_TTL));
    BoundKeepsInv(s, now);
    DropKeepsInv(dated, Alive(now));
    ReleaseKeepsInv(Drop(dated, Alive(now)), Trim(s, now).live);
  }

  // ----- Transmitting -----

  /** `e` may go on the wire now. */
  ghost predicate Open(s: Net, e: Envelope)
    requires Logged(s.history) && Holds(s.history, s.disk.queue)
  {
    e in s.disk.queue && e.clientRef !in Inflight(s.live) && Unhindered(s, e)
  }

  /** An eligible item is open, even when more than what is in flight was counted as
      in flight. */
  lemma EligibleIsOpen(s: Net, inflight: set<Ref>, i: nat)
    requires Inv(s) && Inflight(s.live) <= inflight
    requires i < |s.disk.queue| && Eligible(s.disk.queue, inflight, i)
    ensures Open(s, s.disk.queue[i])
  {
    var q := s.disk.queue;
    forall f | f in q && f.device == q[i].device && f.clientRef != q[i].clientRef
      ensures f.clientRef in Inflight(s.live) ==> f.kind == Ephemeral && q[i].kind != Essential
      ensures s.history.born[f.clientRef] < s.history.born[q[i].clientRef] ==> f.kind != Essential && q[i].kind != Essential
    {
      var j :| 0 <= j < |q| && q[j] == f;
      if i < j {
        assert s.history.born[q[i].clientRef] < s.history.born[q[j].clientRef];
      }
    }
  }

  /** What an open envelope depends on has left the queue. */
  lemma DependenciesAreGone(s: Net, e: Envelope, n: nat)
    requires Inv(s) && Open(s, e)
    requires n < s.history.born[e.clientRef] && Depends(s.history.log[n], Origin(s.history, e.clientRef))
    ensures s.history.log[n].clientRef in s.history.acked + s.history.dropped
  {
    var r := s.history.log[n].clientRef;
    SameReport(e, Origin(s.history, e.clientRef));
    forall f | f in s.disk.queue ensures f.clientRef != r {
      SameReport(f, Origin(s.history, f.clientRef));
    }
    assert r !in Refs(s.disk.queue);
    assert r in s.history.born;
  }

  lemma AttemptKeepsInv(s: Net, e: Envelope, path: Path)
    requires Inv(s) && Open(s, e) && (path == Auth ==> e.authenticated)
    ensures Inv(Attempt(s, e, path)) && Open(Attempt(s, e, path), e)
    ensures WasSent(Attempt(s, e, path).history, e.clientRef)
  {
    var t := Attempt(s, e, path);
    var h := t.history;
    assert Flown(h, t.live) by {
      forall k | 0 <= k < |h.sent| ensures Rightful(h, h.sent[k]) {
        if k < |s.history.sent| {
          assert Rightful(s.history, s.history.sent[k]);
        } else {
          SameReport(e, Origin(s.history, e.clientRef));
          forall n | 0 <= n < h.born[e.clientRef] && Depends(h.log[n], Origin(h, e.clientRef))
            ensures h.log[n].clientRef in h.sent[k].gone
          {
            DependenciesAreGone(s, e, n);
          }
        }
      }
      forall r | r in Inflight(t.live) + h.acked ensures WasSent(h, r) {
        assert WasSent(s.history, r);
        var k :| 0 <= k < |s.history.sent| && s.history.sent[k].ref == r;
        assert h.sent[k].ref == r;
      }
    }
    assert h.sent[|s.history.sent|].ref == e.clientRef;
    assert Exclusive(t) by { NarrowerStaysExclusive(s, t); }
    assert Evident(t) by { EvidenceFollows(s, t); }
  }

  lemma OneMoreKey(m: map<Ref, int>, r: Ref, at: int)
    requires r !in m
    ensures m[r := at].Keys == m.Keys + {r} && |m[r := at]| == |m| + 1
  {
    assert m[r := at].Keys == m.Keys + {r};
    assert |m| == |m.Keys| && |m[r := at]| == |m[r := at].Keys|;
  }

  lemma OneMoreIn(d: set<Ref>, a: set<Ref>, r: Ref)
    requires d !! a && r !in d && r !in a
    ensures d + {r} + a == d + a + {r} && d + {r} !! a
    ensures d + (a + {r}) == d + a + {r} && d !! a + {r}
  {
  }

  /** One more reference in flight, with its slot free and on neither path before. */
  lemma OneMoreInFlight(before: Live, after: Live, r: Ref, path: Path, at: int)
    requires after == if path == Auth then before.(direct := before.direct[r := at]) else before.(anon := before.anon + {r})
    requires before.direct.Keys !! before.anon && r !in before.direct && r !in before.anon
    requires |before.direct| <= SLOTS && |before.anon| <= SLOTS
    requires if path == Auth then |before.direct| < SLOTS else |before.anon| < SLOTS
    ensures Inflight(after) == Inflight(before) + {r} && after.direct.Keys !! after.anon
    ensures |after.direct| <= SLOTS && |after.anon| <= SLOTS
  {
    OneMoreIn(before.direct.Keys, before.anon, r);
    if path == Auth {
      OneMoreKey(before.direct, r, at);
    }
  }

  lemma TransmitHolds(s: Net, e: Envelope, path: Path, instant: int, t: Net)
    requires t == Transmit(s, e, path, instant)
    requires s.live.direct.Keys !! s.live.anon && e.clientRef !in Inflight(s.live)
    requires |s.live.direct| <= SLOTS && |s.live.anon| <= SLOTS
    requires if path == Auth then |s.live.direct| < SLOTS else |s.live.anon| < SLOTS
    ensures Inflight(t.live) == Inflight(s.live) + {e.clientRef} && t.live.direct.Keys !! t.live.anon
    ensures |t.live.direct| <= SLOTS && |t.live.anon| <= SLOTS
    ensures t.disk == s.disk && t.history == Attempt(s, e, path).history
  {
    OneMoreInFlight(s.live, t.live, e.clientRef, path, instant + ACK_TIMEOUT);
  }

  lemma TransmitKeepsInv(s: Net, e: Envelope, path: Path, instant: int)
    requires Inv(s) && Open(s, e) && (path == Auth ==> e.authenticated)
    requires if path == Auth then |s.live.direct| < SLOTS else |s.live.anon| < SLOTS
    ensures Inv(Transmit(s, e, path, instant))
  {
    var a := Attempt(s, e, path);
    AttemptKeepsInv(s, e, path);
    TransmitHolds(s, e, path, instant, Transmit(s, e, path, instant));
    HoldingKeepsInv(a, Transmit(s, e, path, instant), e);
  }

  /** Holding an open envelope that was just sent as in flight. */
  lemma HoldingKeepsInv(s: Net, t: Net, e: Envelope)
    requires Inv(s) && Open(s, e) && WasSent(s.history, e.clientRef)
    requires t.disk == s.disk && t.history == s.history
    requires Inflight(t.live) == Inflight(s.live) + {e.clientRef} && t.live.direct.Keys !! t.live.anon
    requires |t.live.direct| <= SLOTS && |t.live.anon| <= SLOTS
    ensures Inv(t)
  {
    assert Exclusive(t) by { AddingOpenStaysExclusive(s, t, e); }
    assert Flown(t.history, t.live) by {
      forall r | r in Inflight(t.live) + t.history.acked ensures WasSent(t.history, r) {
        assert r != e.clientRef ==> r in Inflight(s.live) + s.history.acked;
      }
    }
  }

  lemma AddingOpenStaysExclusive(s: Net, t: Net, e: Envelope)
    requires Logged(s.history) && Holds(s.history, s.disk.queue) && Exclusive(s) && Open(s, e)
    requires t.disk == s.disk && t.history == s.history
    requires Inflight(t.live) == Inflight(s.live) + {e.clientRef}
    requires t.live.direct.Keys !! t.live.anon
    ensures Exclusive(t)
  {
    forall f | f in t.disk.queue && f.clientRef in Inflight(t.live) ensures Unhindered(t, f) {
      if f.clientRef == e.clientRef {
        OnePerRef(s.history.born, s.disk.queue, e, f);
      } else {
        assert Unhindered(s, f) && Unhindered(s, e);
        forall g | g in t.disk.queue && g.device == f.device && g.clientRef != f.clientRef && g.clientRef == e.clientRef
          ensures g == e
        {
          OnePerRef(s.history.born, s.disk.queue, e, g);
        }
      }
    }
  }
}
