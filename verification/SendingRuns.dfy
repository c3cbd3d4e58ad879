/** Whole runs of the sending protocol: every event keeps the invariant, so every reachable
    state has it. A flush is the long one. Its two passes offer a schedule; the schedule
    stays servable while it is worked off, because no device is offered two items; and
    each transmission takes one slot of those that were free, whatever breaks on the way.
    The other events release, acknowledge, file or drop. */
module SendingRuns {
  import opened Envelopes
  import opened Scheduler
  import opened Delivery
  import opened Outbox
  import opened Sending
  import opened SendingSafety

  // ----- The two passes of a flush -----

  ghost predicate DistinctDevices(batch: seq<Envelope>) {
    forall i, j :: 0 <= i < j < |batch| ==> batch[i].device != batch[j].device
  }

  ghost predicate Servable(s: Net, batch: seq<Envelope>)
    requires Logged(s.history) && Holds(s.history, s.disk.queue)
  {
    DistinctDevices(batch) && forall e :: e in batch ==> Open(s, e)
  }

  lemma ReadyIsServable(s: Net, inflight: set<Ref>, now: int, limit: nat)
    requires Inv(s) && Inflight(s.live) <= inflight
    ensures Servable(s, Ready(s.disk.queue, inflight, now, limit))
    ensures |Ready(s.disk.queue, inflight, now, limit)| <= limit
  {
    var batch := Ready(s.disk.queue, inflight, now, limit);
    ReadyItems(s.disk.queue, inflight, now, limit);
    forall e | e in batch ensures Open(s, e) {
      var a :| 0 <= a < |batch| && batch[a] == e;
      var i: nat :| i < |s.disk.queue| && s.disk.queue[i] == batch[a] && Wins(s.disk.queue, inflight, now, i);
      EligibleIsOpen(s, inflight, i);
    }
  }

  lemma {:induction false} RetainDistinct(batch: seq<Envelope>, keep: Envelope -> bool)
    requires DistinctDevices(batch)
    ensures DistinctDevices(Retain(batch, keep))
  {
    if batch != [] {
      var init := batch[..|batch| - 1];
      RetainDistinct(init, keep);
      RetainKeeps(init, keep);
      var rest := Retain(init, keep);
      forall i | 0 <= i < |rest| ensures rest[i].device != batch[|batch| - 1].device {
        assert rest[i] in init;
      }
    }
  }

  /** Sending one of a servable batch leaves the others servable. */
  lemma RestIsServable(s: Net, t: Net, batch: seq<Envelope>)
    requires Logged(s.history) && Holds(s.history, s.disk.queue)
    requires batch != [] && Servable(s, batch)
    requires t.disk == s.disk && t.history.log == s.history.log && t.history.born == s.history.born
    requires Inflight(t.live) <= Inflight(s.live) + {batch[0].clientRef}
    ensures Servable(t, batch[1..])
  {
    forall f | f in batch[1..] ensures Open(t, f) {
      var j :| 0 <= j < |batch[1..]| && batch[1..][j] == f;
      assert batch[j + 1] == f && batch[0].device != f.device;
      assert Open(s, f) && Open(s, batch[0]);
      forall g | g in t.disk.queue && g.device == f.device ensures g.clientRef != batch[0].clientRef {
        if g.clientRef == batch[0].clientRef {
          OnePerRef(s.history.born, s.disk.queue, g, batch[0]);
        }
      }
    }
  }

  lemma TailIsServable(s: Net, batch: seq<Envelope>)
    requires Logged(s.history) && Holds(s.history, s.disk.queue)
    requires batch != [] && Servable(s, batch)
    ensures Servable(s, batch[1..])
  {
    RestIsServable(s, s, batch);
  }

  ghost predicate Loaded(s: Net, batch: seq<Envelope>, path: Path) {
    && Inv(s) && Servable(s, batch)
    && (if path == Auth then |s.live.direct| else |s.live.anon|) + |batch| <= SLOTS
  }

  lemma SendFirst(s: Net, batch: seq<Envelope>, path: Path, instant: int)
    requires Loaded(s, batch, path) && batch != [] && (path == Auth ==> batch[0].authenticated)
    ensures var t := Transmit(s, batch[0], path, instant);
            Loaded(t, batch[1..], path) && t.disk == s.disk && (path == Auth ==> t.live.anon == s.live.anon)
  {
    var t := Transmit(s, batch[0], path, instant);
    assert Open(s, batch[0]);
    TransmitKeepsInv(s, batch[0], path, instant);
    TransmitHolds(s, batch[0], path, instant, t);
    RestIsServable(s, t, batch);
  }

  lemma BreakAtFirst(s: Net, batch: seq<Envelope>)
    requires Loaded(s, batch, Auth) && batch != [] && batch[0].authenticated
    ensures Inv(Attempt(s, batch[0], Auth))
  {
    assert Open(s, batch[0]);
    AttemptKeepsInv(s, batch[0], Auth);
  }

  lemma SkipFirst(s: Net, batch: seq<Envelope>, path: Path)
    requires Loaded(s, batch, path) && batch != []
    ensures Loaded(s, batch[1..], path)
  {
    TailIsServable(s, batch);
  }

  lemma {:induction false} DirectLoopKeepsInv(s: Net, batch: seq<Envelope>, air: Air, wire: nat, t: Net)
    requires Loaded(s, batch, Auth) && t == DirectLoop(s, batch, air, wire).0
    ensures Inv(t) && t.disk == s.disk
    decreases |batch|
  {
    if batch == [] {
    } else if !MayGoDirect(air)(batch[0]) {
      SkipFirst(s, batch, Auth);
      DirectLoopKeepsInv(s, batch[1..], air, wire, t);
    } else if wire == 0 {
      BreakAtFirst(s, batch);
    } else {
      var u := SendsFirst(s, batch, air);
      DirectLoopKeepsInv(u, batch[1..], air, wire - 1, t);
    }
  }

  lemma SendsFirst(s: Net, batch: seq<Envelope>, air: Air) returns (u: Net)
    requires Loaded(s, batch, Auth) && batch != [] && MayGoDirect(air)(batch[0])
    ensures u == Transmit(s, batch[0], Auth, air.instant) && Loaded(u, batch[1..], Auth) && u.disk == s.disk
  {
    u := Transmit(s, batch[0], Auth, air.instant);
    SendFirst(s, batch, Auth, air.instant);
  }

  /** The pools have no part in the invariant. */
  lemma SpendKeepsLoaded(s: Net, live: Live, batch: seq<Envelope>)
    requires Loaded(s, batch, Anonymous) && live.direct == s.live.direct && live.anon == s.live.anon
    ensures Loaded(s.(live := live), batch, Anonymous)
  {
    ReleaseKeepsInv(s, live);
    SameInflightServes(s, s.(live := live), batch);
  }

  lemma {:induction false} AnonymousLoopKeepsInv(s: Net, batch: seq<Envelope>, air: Air)
    requires Loaded(s, batch, Anonymous)
    ensures Inv(AnonymousLoop(s, batch, air))
    ensures AnonymousLoop(s, batch, air).disk == s.disk
    decreases |batch|
  {
    if batch != [] && s.live.tickets > 0 {
      var taken := TakePrepared(s.live.prepared);
      var s' := s.(live := s.live.(prepared := taken.1));
      SpendKeepsLoaded(s, s'.live, batch);
      if !(air.requireAnonymous && !taken.0) {
        var paid := s'.(live := s'.live.(tickets := s.live.tickets - 1));
        SpendKeepsLoaded(s', paid.live, batch);
        if taken.0 || air.route {
          SendFirst(paid, batch, Anonymous, air.instant);
          AnonymousLoopKeepsInv(Transmit(paid, batch[0], Anonymous, air.instant), batch[1..], air);
        }
      }
    }
  }

  lemma SameInflightServes(s: Net, t: Net, batch: seq<Envelope>)
    requires Logged(s.history) && Holds(s.history, s.disk.queue) && Servable(s, batch)
    requires t.disk == s.disk && t.history == s.history && Inflight(t.live) == Inflight(s.live)
    ensures Servable(t, batch)
  {
    forall e | e in batch ensures Open(t, e) {
      assert Open(s, e);
    }
  }

  lemma DirectBatch(s: Net, batch: seq<Envelope>, inflight: set<Ref>, now: int)
    requires Inv(s) && Inflight(s.live) <= inflight
    requires batch == Ready(s.disk.queue, inflight, now, Free(|s.live.direct| + |s.live.anon|))
    ensures Loaded(s, batch, Auth)
  {
    ReadyIsServable(s, inflight, now, Free(|s.live.direct| + |s.live.anon|));
  }

  /** The pass is the loop over some batch that may be sent. */
  lemma DirectPassIsLoop(s: Net, air: Air, inflight: set<Ref>) returns (batch: seq<Envelope>)
    requires DirectAllowed(air) && inflight == Inflight(s.live) + BarredRefs(s.disk.queue, air)
    ensures DirectPass(s, air) == DirectLoop(s, batch, air, air.wire)
    ensures batch == Ready(s.disk.queue, inflight, air.now, Free(|s.live.direct| + |s.live.anon|))
  {
    batch := Ready(s.disk.queue, inflight, air.now, Free(|s.live.direct| + |s.live.anon|));
  }

  lemma DirectPassKeepsInv(s: Net, air: Air, t: Net)
    requires Inv(s) && t == DirectPass(s, air).0
    ensures Inv(t) && t.disk == s.disk
  {
    if DirectAllowed(air) {
      var inflight := Inflight(s.live) + BarredRefs(s.disk.queue, air);
      var batch := DirectPassIsLoop(s, air, inflight);
      DirectBatch(s, batch, inflight, air.now);
      DirectLoopKeepsInv(s, batch, air, air.wire, t);
    }
  }

  lemma AnonymousPassKeepsInv(s: Net, air: Air)
    requires Inv(s)
    ensures Inv(AnonymousPass(s, air)) && AnonymousPass(s, air).disk == s.disk
  {
    if air.available && AnonymousQueued(s.disk.queue, air) {
      var inflight := Inflight(s.live) + BarredRefs(s.disk.queue, air) + Cooling(s.live, air.instant);
      var ready := Ready(s.disk.queue, inflight, air.now, Free(|s.live.anon|));
      ReadyIsServable(s, inflight, air.now, Free(|s.live.anon|));
      var candidates := Retain(ready, MayGoAnonymous(air));
      RetainKeeps(ready, MayGoAnonymous(air));
      RetainDistinct(ready, MayGoAnonymous(air));
      AnonymousLoopKeepsInv(s, candidates, air);
    }
  }

  lemma ServeKeepsInv(s: Net, air: Air)
    requires Inv(s)
    ensures Inv(Serve(s, air)) && Serve(s, air).disk == s.disk
  {
    if s.disk.queue != [] {
      DirectPassKeepsInv(s, air, DirectPass(s, air).0);
      AnonymousPassKeepsInv(DirectPass(s, air).0, air);
    }
  }

  lemma FlushKeepsInv(s: Net, air: Air)
    requires Inv(s)
    ensures Inv(Flush(s, air)) && Flush(s, air).disk == Trim(s, air.now).disk
  {
    TrimKeepsInv(s, air.now);
    ServeKeepsInv(Trim(s, air.now), air);
  }

  // ----- Every event -----

  lemma GrowthKeepsInv(s: Net, ev: Evidence)
    requires Inv(s) && Grows(s.disk.evidence, ev)
    requires forall k, d :: Known(ev, k, d) ==> Known(s.disk.evidence, k, d)
    ensures Inv(s.(disk := s.disk.(evidence := ev)))
  {
    var t := s.(disk := s.disk.(evidence := ev));
    assert Exclusive(t) by { NarrowerStaysExclusive(s, t); }
    assert Evident(t) by { EvidenceFollows(s, t); }
  }

  lemma DirectWasSent(s: Net, ref: Ref)
    requires Inv(s) && ref in s.live.direct
    ensures WasSent(s.history, ref)
  {
    assert ref in Inflight(s.live) + s.history.acked;
  }

  /** The receipt of an acknowledgement is filed first. */
  function Told(s: Net, receipt: Option<(Bytes, Device)>, at: int): Net {
    if receipt.Some?
    then s.(disk := s.disk.(evidence := Accept(s.disk.evidence, receipt.value.0, receipt.value.1, at)))
    else s
  }

  lemma ToldKeepsInv(s: Net, receipt: Option<(Bytes, Device)>, at: int)
    requires Inv(s)
    ensures Inv(Told(s, receipt, at))
  {
    if receipt.Some? {
      AcceptGrows(s.disk.evidence, receipt.value.0, receipt.value.1, at);
      GrowthKeepsInv(s, Told(s, receipt, at).disk.evidence);
    }
  }

  lemma DirectOkKeepsInv(told: Net, ref: Ref, stored: bool, at: int)
    requires Inv(told) && ref in told.live.direct
    ensures var released := told.(live := told.live.(direct := told.live.direct - {ref}));
            Inv(if stored then Ack(released, ref, at) else released)
  {
    DirectWasSent(told, ref);
    var released := told.(live := told.live.(direct := told.live.direct - {ref}));
    ReleaseKeepsInv(told, released.live);
    if stored {
      AckKeepsInv(released, Ack(released, ref, at), ref, at);
    }
  }

  lemma SendOkKeepsInv(s: Net, ref: Ref, receipt: Option<(Bytes, Device)>, stored: bool, at: int)
    requires Inv(s)
    ensures Inv(Next(s, SendOk(ref, receipt, stored, at)))
  {
    ToldKeepsInv(s, receipt, at);
    if ref in s.live.direct {
      DirectOkKeepsInv(Told(s, receipt, at), ref, stored, at);
    }
  }

  lemma AnonymousOkKeepsInv(s: Net, released: Net, ref: Ref, stored: bool, at: int)
    requires Inv(s) && WasSent(s.history, ref)
    requires released == s.(live := s.live.(anon := s.live.anon - {ref}, retries := s.live.retries - {ref}))
    ensures Inv(if stored then Ack(released, ref, at) else released)
  {
    ReleaseKeepsInv(s, released.live);
    if stored {
      AckKeepsInv(released, Ack(released, ref, at), ref, at);
    }
  }

  predicate Removal(e: Event) {
    e.DeletingMessage? || e.ClearingThread? || e.ForgettingThread? || e.DroppingEphemeral?
  }

  lemma RemovalIsDrop(s: Net, e: Event) returns (keep: Envelope -> bool)
    requires Removal(e)
    ensures Next(s, e) == Drop(s, keep)
    ensures e.DeletingMessage? ==> keep == NotMessage(e.conversation, e.id)
    ensures e.ClearingThread? ==> keep == EssentialOrElsewhere(e.conversation)
    ensures e.ForgettingThread? ==> keep == NotInThread(e.conversation)
    ensures e.DroppingEphemeral? ==> keep == NotEphemeral()
  {
    match e
    case DeletingMessage(conversation, id) => keep := NotMessage(conversation, id);
    case ClearingThread(conversation) => keep := EssentialOrElsewhere(conversation);
    case ForgettingThread(conversation) => keep := NotInThread(conversation);
    case DroppingEphemeral => keep := NotEphemeral();
  }

  lemma NextKeepsInv(s: Net, e: Event)
    requires Inv(s) && Allowed(s, e)
    ensures Inv(Next(s, e))
  {
    if Removal(e) {
      var keep := RemovalIsDrop(s, e);
      DropKeepsInv(s, keep);
      return;
    }
    match e
    case Enqueuing(batch, now) =>
      if Fresh(s.disk.queue, batch) && Fits(s.disk.queue, batch) {
        EnqueueKeepsInv(s, Enqueue(s, batch, now), batch, now);
      }
    case Flushing(air) => FlushKeepsInv(s, air);
    case Bounding(now) => BoundKeepsInv(s, now);
    case SendOk(ref, receipt, stored, at) => SendOkKeepsInv(s, ref, receipt, stored, at);
    case AnonymousOk(ref, stored, at) =>
      AnonymousOkKeepsInv(s, s.(live := s.live.(anon := s.live.anon - {ref}, retries := s.live.retries - {ref})), ref, stored, at);
    case AnonymousFailed(ref, instant) => ReleaseKeepsInv(s, Backoff(s, ref, instant).live);
    case NetworkLost => ReleaseKeepsInv(s, Disconnected(s.live));
    case Refill(tickets, prepared) => ReleaseKeepsInv(s, s.live.(tickets := tickets, prepared := prepared));
    case CancellingRemoved => ReleaseKeepsInv(s, CancelRemoved(s).live);
    case Receipt(key, device) =>
      DeliverGrows(s.disk.evidence, key, device);
      GrowthKeepsInv(s, Deliver(s.disk.evidence, key, device));
    case _ =>
  }

  lemma {:induction false} RunKeepsInv(s: Net, events: seq<Event>)
    requires Inv(s) && AllowedRun(s, events)
    ensures Inv(Run(s, events))
  {
    if events != [] {
      var before := events[..|events| - 1];
      RunKeepsInv(s, before);
      NextKeepsInv(Run(s, before), events[|events| - 1]);
    }
  }

  /** Some allowed run leads here. */
  ghost predicate Reachable(s: Net) {
    exists events :: AllowedRun(START, events) && Run(START, events) == s
  }

  lemma ReachableInv(s: Net)
    requires Reachable(s)
    ensures Inv(s)
  {
    var events :| AllowedRun(START, events) && Run(START, events) == s;
    assert Inv(START);
    RunKeepsInv(START, events);
  }
}
