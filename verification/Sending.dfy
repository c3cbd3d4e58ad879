/** The sending protocol of the outbox as a state machine. The queue and the evidence
    are durable; what is in flight, what waits to be retried and the ticket pool are
    not. A history records everything enqueued, transmitted, acknowledged and dropped. */
module Sending {
  import opened Envelopes
  import opened Scheduler
  import opened Delivery
  import opened Outbox

  const SLOTS := 4
  const ACK_TIMEOUT := 45_000
  const DEFAULT_TTL := 14 * 24 * 3600 * 1000
  const MAX_U32 := 0xFFFF_FFFF

  /** The authenticated socket, or a single-use onion connection. */
  datatype Path = Auth | Anonymous

  /** A frame given to the network, and what had left the queue by then. */
  datatype Sent = Sent(ref: Ref, device: Device, ciphertext: Ciphertext, path: Path, gone: set<Ref>)

  datatype Retry = Retry(until: int, attempts: nat)

  datatype Live = Live(
    direct: map<Ref, int>,
    anon: set<Ref>,
    retries: map<Ref, Retry>,
    tickets: nat,
    prepared: seq<bool>)

  datatype History = History(
    log: seq<Envelope>,
    born: map<Ref, nat>,
    acked: set<Ref>,
    dropped: set<Ref>,
    sent: seq<Sent>)

  datatype Net = Net(disk: Disk, live: Live, history: History)

  /** What one flush finds around it: the clocks, the delivery policy, the devices it
      may not serve, how many frames the socket still takes, and whether an onion route
      can be picked. A prepared onion socket is true while it is alive. */
  datatype Air = Air(
    now: int,
    instant: int,
    requireAnonymous: bool,
    explicitRelay: bool,
    blocked: set<Device>,
    unpinned: set<Device>,
    wire: nat,
    available: bool,
    route: bool)

  predicate DirectAllowed(air: Air) {
    !air.requireAnonymous && air.explicitRelay
  }

  function Inflight(live: Live): set<Ref> {
    live.direct.Keys + live.anon
  }

  // ----- Steps on the state -----

  function Birth(born: map<Ref, nat>, base: nat, batch: seq<Envelope>): map<Ref, nat> {
    if batch == [] then born
    else Birth(born, base, batch[..|batch| - 1])[batch[|batch| - 1].clientRef := base + |batch| - 1]
  }

  function Logging(h: History, batch: seq<Envelope>): History {
    h.(log := h.log + batch, born := Birth(h.born, |h.log|, batch))
  }

  ghost function Enqueue(s: Net, batch: seq<Envelope>, now: int): Net {
    if Fresh(s.disk.queue, batch) && Fits(s.disk.queue, batch)
    then s.(disk := Enqueued(s.disk, batch, now), history := Logging(s.history, batch))
    else s
  }

  function Drop(s: Net, keep: Envelope -> bool): Net {
    var left := Retain(s.disk.queue, keep);
    s.(disk := s.disk.(queue := left),
       history := s.history.(dropped := s.history.dropped + (Refs(s.disk.queue) - Refs(left))))
  }

  function Ack(s: Net, ref: Ref, at: int): Net {
    s.(disk := Acked(s.disk, ref, at),
       history := s.history.(acked := s.history.acked + (Refs(s.disk.queue) * {ref})))
  }

  function Transmit(s: Net, e: Envelope, path: Path, instant: int): Net {
    Attempt(s, e, path).(live :=
      if path == Auth then s.live.(direct := s.live.direct[e.clientRef := instant + ACK_TIMEOUT])
      else s.live.(anon := s.live.anon + {e.clientRef}))
  }

  /** The frame may have left, but nothing holds it as in flight. */
  function Attempt(s: Net, e: Envelope, path: Path): Net {
    var gone := s.history.acked + s.history.dropped;
    s.(history := s.history.(sent := s.history.sent + [Sent(e.clientRef, e.device, e.ciphertext, path, gone)]))
  }

  /** Lifetimes, expiry, and retry records of what is no longer queued. */
  function Trim(s: Net, now: int): Net {
    var dated := s.(disk := Bounded(s.disk, now, DEFAULT_TTL));
    var pruned := Drop(dated, Alive(now));
    pruned.(live := pruned.live.(retries := map r | r in pruned.live.retries && r in Refs(pruned.disk.queue) :: pruned.live.retries[r]))
  }

  function BarredRefs(q: seq<Envelope>, air: Air): set<Ref> {
    set i | 0 <= i < |q| && q[i].device in air.blocked + air.unpinned :: q[i].clientRef
  }

  function Cooling(live: Live, instant: int): set<Ref> {
    set r | r in live.retries && live.retries[r].until > instant
  }

  function Free(used: nat): nat {
    if used < SLOTS then SLOTS - used else 0
  }

  function MayGoDirect(air: Air): Envelope -> bool {
    (e: Envelope) => e.authenticated && e.device !in air.blocked
  }

  function MayGoAnonymous(air: Air): Envelope -> bool {
    (e: Envelope) => !(DirectAllowed(air) && e.authenticated) && e.device !in air.blocked
  }

  /** Writes the frames in turn; the write that fails ends the flush. */
  function DirectLoop(s: Net, batch: seq<Envelope>, air: Air, wire: nat): (Net, bool)
    decreases |batch|
  {
    if batch == [] then (s, true)
    else if !MayGoDirect(air)(batch[0]) then DirectLoop(s, batch[1..], air, wire)
    else if wire == 0 then (Attempt(s, batch[0], Auth), false)
    else DirectLoop(Transmit(s, batch[0], Auth, air.instant), batch[1..], air, wire - 1)
  }

  ghost function DirectPass(s: Net, air: Air): (Net, bool) {
    if DirectAllowed(air)
    then DirectLoop(s, Ready(s.disk.queue, Inflight(s.live) + BarredRefs(s.disk.queue, air), air.now,
                             Free(|s.live.direct| + |s.live.anon|)), air, air.wire)
    else (s, true)
  }

  /** The first live prepared socket, and what is left of the pool behind it. */
  function TakePrepared(pool: seq<bool>): (r: (bool, seq<bool>))
    ensures |r.1| <= |pool|
  {
    if pool == [] then (false, [])
    else if pool[0] then (true, pool[1..])
    else TakePrepared(pool[1..])
  }

  /** Sends candidates while a ticket and a route can be had. A ticket is taken from the
      pool even when no route is found. */
  function AnonymousLoop(s: Net, candidates: seq<Envelope>, air: Air): Net
    decreases |candidates|
  {
    if candidates == [] || s.live.tickets == 0 then s
    else
      var taken := TakePrepared(s.live.prepared);
      var s' := s.(live := s.live.(prepared := taken.1));
      if air.requireAnonymous && !taken.0 then s'
      else
        var paid := s'.(live := s'.live.(tickets := s.live.tickets - 1));
        if taken.0 || air.route
        then AnonymousLoop(Transmit(paid, candidates[0], Anonymous, air.instant), candidates[1..], air)
        else paid
  }

  predicate AnonymousQueued(q: seq<Envelope>, air: Air) {
    exists i :: 0 <= i < |q| && (!q[i].authenticated || !DirectAllowed(air))
  }

  ghost function AnonymousPass(s: Net, air: Air): Net {
    if air.available && AnonymousQueued(s.disk.queue, air)
    then AnonymousLoop(s, Retain(Ready(s.disk.queue,
           Inflight(s.live) + BarredRefs(s.disk.queue, air) + Cooling(s.live, air.instant), air.now,
           Free(|s.live.anon|)), MayGoAnonymous(air)), air)
    else s
  }

  /** The two passes over a trimmed queue. */
  ghost function Serve(s: Net, air: Air): Net {
    if s.disk.queue == [] then s
    else
      var direct := DirectPass(s, air);
      if direct.1 then AnonymousPass(direct.0, air) else direct.0
  }

  ghost function Flush(s: Net, air: Air): Net {
    Serve(Trim(s, air.now), air)
  }

  function Delay(attempts: nat): nat {
    1000 * if attempts == 0 then 1 else if attempts == 1 then 2 else if attempts == 2 then 4 else 8
  }

  function Backoff(s: Net, ref: Ref, instant: int): Net {
    var n := if ref in s.live.retries
             then if s.live.retries[ref].attempts < MAX_U32 then s.live.retries[ref].attempts + 1 else MAX_U32
             else 1;
    s.(live := s.live.(anon := s.live.anon - {ref}, retries := s.live.retries[ref := Retry(instant + Delay(n), n)]))
  }

  function CancelRemoved(s: Net): Net {
    var queued := Refs(s.disk.queue);
    s.(live := s.live.(direct := map r | r in s.live.direct && r in queued :: s.live.direct[r],
                       anon := s.live.anon * queued))
  }

  function Disconnected(live: Live): Live {
    live.(direct := map[], anon := {}, retries := map[], prepared := [])
  }

  // ----- Events and runs -----

  datatype Event =
    | Enqueuing(batch: seq<Envelope>, now: int)
    | Flushing(air: Air)
    /** A flush that bounded the lifetimes and then found the storage refusing. */
    | Bounding(now: int)
    /** The server accepted a frame on the authenticated socket; `receipt` is the
        delivery record that is filed under the reference, if any. */
    | SendOk(ref: Ref, receipt: Option<(Bytes, Device)>, stored: bool, at: int)
    | AnonymousOk(ref: Ref, stored: bool, at: int)
    | AnonymousFailed(ref: Ref, instant: int)
    /** A lost connection, a change of network, or a restart. */
    | NetworkLost
    | Refill(tickets: nat, prepared: seq<bool>)
    | DeletingMessage(conversation: Bytes, id: Bytes)
    | ClearingThread(conversation: Bytes)
    | ForgettingThread(conversation: Bytes)
    | DroppingEphemeral
    | CancellingRemoved
    | Receipt(key: Bytes, device: Device)

  ghost function Next(s: Net, e: Event): Net {
    match e
    case Enqueuing(batch, now) => Enqueue(s, batch, now)
    case Flushing(air) => Flush(s, air)
    case Bounding(now) => s.(disk := Bounded(s.disk, now, DEFAULT_TTL))
    case SendOk(ref, receipt, stored, at) =>
      var told := if receipt.Some?
                  then s.(disk := s.disk.(evidence := Accept(s.disk.evidence, receipt.value.0, receipt.value.1, at)))
                  else s;
      if ref in s.live.direct
      then
        var released := told.(live := told.live.(direct := told.live.direct - {ref}));
        if stored then Ack(released, ref, at) else released
      else told
    case AnonymousOk(ref, stored, at) =>
      var released := s.(live := s.live.(anon := s.live.anon - {ref}, retries := s.live.retries - {ref}));
      if stored then Ack(released, ref, at) else released
    case AnonymousFailed(ref, instant) => Backoff(s, ref, instant)
    case NetworkLost => s.(live := Disconnected(s.live))
    case Refill(tickets, prepared) => s.(live := s.live.(tickets := tickets, prepared := prepared))
    case DeletingMessage(conversation, id) => Drop(s, NotMessage(conversation, id))
    case ClearingThread(conversation) => Drop(s, EssentialOrElsewhere(conversation))
    case ForgettingThread(conversation) => Drop(s, NotInThread(conversation))
    case DroppingEphemeral => Drop(s, NotEphemeral())
    case CancellingRemoved => CancelRemoved(s)
    case Receipt(key, device) => s.(disk := s.disk.(evidence := Deliver(s.disk.evidence, key, device)))
  }

  ghost predicate WasSent(h: History, ref: Ref) {
    exists k :: 0 <= k < |h.sent| && h.sent[k].ref == ref
  }

  /** What the surroundings guarantee: references are random and so never used before,
      and an onion task reports only the reference it was started with. */
  ghost predicate Allowed(s: Net, e: Event) {
    match e
    case Enqueuing(batch, _) => Refs(batch) !! s.history.born.Keys
    case AnonymousOk(ref, _, _) => WasSent(s.history, ref)
    case _ => true
  }

  const START := Net(Disk([], map[]), Live(map[], {}, map[], 0, []), History([], map[], {}, {}, []))

  ghost function Run(s: Net, events: seq<Event>): Net {
    if events == [] then s else Next(Run(s, events[..|events| - 1]), events[|events| - 1])
  }

  ghost predicate AllowedRun(s: Net, events: seq<Event>) {
    events == []
    || (AllowedRun(s, events[..|events| - 1]) && Allowed(Run(s, events[..|events| - 1]), events[|events| - 1]))
  }
}
