/** Call signalling: probes that wait for an answer, and the memory that keeps a probe
    from being answered twice although it forgets. */
module Calls {
  import opened Envelopes

  const TTL := 90_000
  const SKEW := 5_000
  const MAX_OUTGOING := 8
  const MAX_SEEN := 128

  type Peer = Bytes
  type CallId = Bytes

  datatype Action = Probe | Unavailable | Offer | Accept | Reject | End | Busy
  datatype Media = Media(room: Bytes, secret: Bytes)
  datatype Signal = Signal(v: nat, id: CallId, action: Action, expiresAt: int, media: Option<Media>)

  predicate LowerHex(b: Bytes) {
    forall i :: 0 <= i < |b| ==> 48 <= b[i] <= 57 || 97 <= b[i] <= 102
  }

  predicate ValidMedia(m: Media) {
    |m.room| == 64 && |m.secret| == 64 && LowerHex(m.room) && LowerHex(m.secret)
  }

  predicate Valid(s: Signal) {
    && (if s.action == Offer then s.media.Some? && ValidMedia(s.media.value) else s.media == None)
    && s.v == 1 && |s.id| == 32 && LowerHex(s.id)
  }

  predicate Fresh(s: Signal, now: int) {
    Valid(s) && now < s.expiresAt <= now + TTL + SKEW
  }

  // ----- What the operations compute -----

  datatype State = State(outgoing: map<CallId, (Peer, int)>, seen: map<(Peer, CallId), int>)

  function Pruned(s: State, now: int): State {
    State(map i | i in s.outgoing && s.outgoing[i].1 > now :: s.outgoing[i],
          map k | k in s.seen && s.seen[k] > now :: s.seen[k])
  }

  predicate Waits(s: State, peer: Peer) {
    exists i :: i in s.outgoing && s.outgoing[i].0 == peer
  }

  predicate MayStart(s: State, peer: Peer) {
    |s.outgoing| < MAX_OUTGOING && !Waits(s, peer)
  }

  function Started(s: State, peer: Peer, id: CallId, now: int): State {
    var p := Pruned(s, now);
    if MayStart(p, peer) then p.(outgoing := p.outgoing[id := (peer, now + TTL)]) else p
  }

  predicate MayAnswer(s: State, peer: Peer, signal: Signal, now: int) {
    Fresh(signal, now) && |s.seen| < MAX_SEEN && (peer, signal.id) !in s.seen
  }

  function Answered(s: State, peer: Peer, signal: Signal, now: int): State {
    var p := Pruned(s, now);
    if MayAnswer(p, peer, signal, now) then p.(seen := p.seen[(peer, signal.id) := signal.expiresAt]) else p
  }

  predicate MayComplete(s: State, peer: Peer, signal: Signal, now: int) {
    && signal.action == Unavailable && Fresh(signal, now)
    && signal.id in s.outgoing && s.outgoing[signal.id].0 == peer
  }

  function Completed(s: State, peer: Peer, signal: Signal, now: int): State {
    var p := Pruned(s, now);
    if MayComplete(p, peer, signal, now) then p.(outgoing := p.outgoing - {signal.id}) else p
  }

  // ----- Runs -----

  datatype Event =
    | Starting(peer: Peer, id: CallId, now: int)
    | Answering(peer: Peer, signal: Signal, now: int)
    | Completing(peer: Peer, signal: Signal, now: int)

  /** The state, the clock, and what has been done: probes started and for whom, answers
      given, probes completed. */
  datatype World = World(
    state: State,
    clock: int,
    started: map<CallId, Peer>,
    answered: seq<(Peer, CallId, int)>,
    completed: seq<CallId>)

  function Next(w: World, e: Event): World {
    var p := Pruned(w.state, e.now);
    match e
    case Starting(peer, id, now) =>
      w.(state := Started(w.state, peer, id, now), clock := now,
         started := if MayStart(p, peer) then w.started[id := peer] else w.started)
    case Answering(peer, signal, now) =>
      w.(state := Answered(w.state, peer, signal, now), clock := now,
         answered := if MayAnswer(p, peer, signal, now) then w.answered + [(peer, signal.id, signal.expiresAt)] else w.answered)
    case Completing(peer, signal, now) =>
      w.(state := Completed(w.state, peer, signal, now), clock := now,
         completed := if MayComplete(p, peer, signal, now) then w.completed + [signal.id] else w.completed)
  }

  /** The clock does not go back, and a new probe has a new random identifier. */
  predicate Allowed(w: World, e: Event) {
    w.clock <= e.now && (e.Starting? ==> e.id !in w.started)
  }

  function Run(w: World, events: seq<Event>): World {
    if events == [] then w
    else
      var v := Run(w, events[..|events| - 1]);
      if Allowed(v, events[|events| - 1]) then Next(v, events[|events| - 1]) else v
  }

  function Begin(clock: int): World {
    World(State(map[], map[]), clock, map[], [], [])
  }

  // ----- What every run keeps -----

  ghost predicate Bounded(s: State) {
    && |s.outgoing| <= MAX_OUTGOING && |s.seen| <= MAX_SEEN
    && forall i, j :: i in s.outgoing && j in s.outgoing && s.outgoing[i].0 == s.outgoing[j].0 ==> i == j
  }

  /** An answer is remembered until it has expired, and nothing else is remembered. */
  ghost predicate Remembers(w: World) {
    && (forall a :: a in w.answered ==>
          a.2 <= w.clock || ((a.0, a.1) in w.state.seen && w.state.seen[(a.0, a.1)] == a.2))
    && (forall k :: k in w.state.seen ==> (k.0, k.1, w.state.seen[k]) in w.answered)
  }

  ghost predicate Distinct<T>(s: seq<T>) {
    forall i, j :: 0 <= i < j < |s| ==> s[i] != s[j]
  }

  /** A waiting probe was started for its peer and has not been completed. */
  ghost predicate Honest(w: World) {
    && (forall i :: i in w.state.outgoing ==> i in w.started && w.started[i] == w.state.outgoing[i].0 && i !in w.completed)
    && (forall i :: i in w.completed ==> i in w.started)
  }

  ghost predicate Inv(w: World) {
    Bounded(w.state) && Remembers(w) && Distinct(w.answered) && Honest(w) && Distinct(w.completed)
  }

  lemma SubmapSize<K, V>(m: map<K, V>, n: map<K, V>)
    requires m.Keys <= n.Keys
    ensures |m| <= |n|
  {
    assert m.Keys <= n.Keys;
    SubsetSize(m.Keys, n.Keys);
    assert |m| == |m.Keys| && |n| == |n.Keys|;
  }

  lemma PruningKeeps(w: World, now: int)
    requires Inv(w) && w.clock <= now
    ensures Inv(w.(state := Pruned(w.state, now), clock := now))
  {
    SubmapSize(Pruned(w.state, now).outgoing, w.state.outgoing);
    SubmapSize(Pruned(w.state, now).seen, w.state.seen);
  }

  lemma InsertSize<K, V>(m: map<K, V>, k: K, v: V)
    ensures |m[k := v]| <= |m| + 1
  {
    assert m[k := v].Keys == m.Keys + {k};
    assert |m| == |m.Keys| && |m[k := v]| == |m[k := v].Keys|;
  }

  lemma RemoveSize<K, V>(m: map<K, V>, k: K)
    ensures |m - {k}| <= |m|
  {
    SubmapSize(m - {k}, m);
  }

  lemma StartKeeps(v: World, peer: Peer, id: CallId)
    requires Inv(v) && MayStart(v.state, peer) && id !in v.started
    ensures Inv(v.(state := v.state.(outgoing := v.state.outgoing[id := (peer, v.clock + TTL)]), started := v.started[id := peer]))
  {
    InsertSize(v.state.outgoing, id, (peer, v.clock + TTL));
  }

  lemma CompleteKeeps(v: World, id: CallId)
    requires Inv(v) && id in v.state.outgoing
    ensures Inv(v.(state := v.state.(outgoing := v.state.outgoing - {id}), completed := v.completed + [id]))
  {
    RemoveSize(v.state.outgoing, id);
    assert id !in v.completed;
  }

  lemma AnswerKeeps(v: World, peer: Peer, signal: Signal)
    requires Inv(v) && MayAnswer(v.state, peer, signal, v.clock)
    ensures Inv(v.(state := v.state.(seen := v.state.seen[(peer, signal.id) := signal.expiresAt]),
                   answered := v.answered + [(peer, signal.id, signal.expiresAt)]))
  {
    InsertSize(v.state.seen, (peer, signal.id), signal.expiresAt);
    assert (peer, signal.id, signal.expiresAt) !in v.answered;
  }

  lemma StepKeeps(w: World, e: Event)
    requires Inv(w) && Allowed(w, e)
    ensures Inv(Next(w, e))
  {
    var v := w.(state := Pruned(w.state, e.now), clock := e.now);
    PruningKeeps(w, e.now);
    match e
    case Starting(peer, id, now) => StartingKeeps(w, v, peer, id);
    case Answering(peer, signal, now) => AnsweringKeeps(w, v, peer, signal);
    case Completing(peer, signal, now) => CompletingKeeps(w, v, peer, signal);
  }

  lemma StartingKeeps(w: World, v: World, peer: Peer, id: CallId)
    requires Inv(v) && v == w.(state := Pruned(w.state, v.clock), clock := v.clock) && id !in v.started
    ensures Inv(Next(w, Starting(peer, id, v.clock)))
  {
    if MayStart(v.state, peer) { StartKeeps(v, peer, id); }
  }

  lemma AnsweringKeeps(w: World, v: World, peer: Peer, signal: Signal)
    requires Inv(v) && v == w.(state := Pruned(w.state, v.clock), clock := v.clock)
    ensures Inv(Next(w, Answering(peer, signal, v.clock)))
  {
    if MayAnswer(v.state, peer, signal, v.clock) { AnswerKeeps(v, peer, signal); }
  }

  lemma CompletingKeeps(w: World, v: World, peer: Peer, signal: Signal)
    requires Inv(v) && v == w.(state := Pruned(w.state, v.clock), clock := v.clock)
    ensures Inv(Next(w, Completing(peer, signal, v.clock)))
  {
    if MayComplete(v.state, peer, signal, v.clock) { CompleteKeeps(v, signal.id); }
  }

  lemma {:induction false} RunKeeps(w: World, events: seq<Event>)
    requires Inv(w)
    ensures Inv(Run(w, events))
  {
    if events != [] {
      RunKeeps(w, events[..|events| - 1]);
      var v := Run(w, events[..|events| - 1]);
      if Allowed(v, events[|events| - 1]) {
        StepKeeps(v, events[|events| - 1]);
      }
    }
  }

  // ----- The promises -----

  /** Under a clock that does not go back, one request (peer, identifier and expiry) is
      answered at most once in any run, although what expired is forgotten. */
  lemma AnsweredAtMostOnce(clock: int, events: seq<Event>, i: nat, j: nat)
    requires i < j < |Run(Begin(clock), events).answered|
    ensures Run(Begin(clock), events).answered[i] != Run(Begin(clock), events).answered[j]
  {
    RunKeeps(Begin(clock), events);
  }

  /** The memory never exceeds its bounds, and no two waiting probes have one peer. */
  lemma MemoryIsBounded(clock: int, events: seq<Event>)
    ensures Bounded(Run(Begin(clock), events).state)
  {
    RunKeeps(Begin(clock), events);
  }

  /** A probe completes at most once, and only when its own peer answers in time. */
  lemma CompletesOnceForItsPeer(clock: int, events: seq<Event>, peer: Peer, signal: Signal, now: int)
    requires var w := Run(Begin(clock), events); w.clock <= now && MayComplete(Pruned(w.state, now), peer, signal, now)
    ensures var w := Run(Begin(clock), events);
            && signal.id in w.started && w.started[signal.id] == peer && signal.id !in w.completed
  {
    RunKeeps(Begin(clock), events);
  }

  /** The answers of a run that have not expired. */
  function Unexpired(w: World, now: int): set<((Peer, CallId), int)> {
    set a | a in w.answered && a.2 > now :: ((a.0, a.1), a.2)
  }

  /** The pruned memory is exactly the unexpired answers. */
  lemma MemoryIsUnexpired(w: World, now: int)
    requires Inv(w) && w.clock <= now
    ensures Pruned(w.state, now).seen.Items == Unexpired(w, now)
  {
    var seen := Pruned(w.state, now).seen;
    forall x | x in Unexpired(w, now) ensures x in seen.Items {
      var a :| a in w.answered && a.2 > now && x == ((a.0, a.1), a.2);
      assert (a.0, a.1) in seen && seen[(a.0, a.1)] == a.2;
    }
    forall x | x in seen.Items ensures x in Unexpired(w, now) {
      assert (x.0.0, x.0.1, x.1) in w.answered;
    }
  }

  /** A request is answered exactly when it is fresh, fewer than 128 answers are still
      unexpired, and every earlier answer to this peer and identifier has expired; so a
      new expiry does not help while the first answer lasts. */
  lemma AnsweredExactlyWhen(clock: int, events: seq<Event>, peer: Peer, signal: Signal, now: int)
    requires Run(Begin(clock), events).clock <= now
    ensures var w := Run(Begin(clock), events);
            Next(w, Answering(peer, signal, now)).answered != w.answered
            <==> Fresh(signal, now) && |Unexpired(w, now)| < MAX_SEEN
                 && forall a :: a in w.answered && a.0 == peer && a.1 == signal.id ==> a.2 <= now
  {
    var w := Run(Begin(clock), events);
    RunKeeps(Begin(clock), events);
    MemoryIsUnexpired(w, now);
    ExactlyWhen(w, peer, signal, now);
  }

  lemma ExactlyWhen(w: World, peer: Peer, signal: Signal, now: int)
    requires Inv(w) && w.clock <= now && Pruned(w.state, now).seen.Items == Unexpired(w, now)
    ensures MayAnswer(Pruned(w.state, now), peer, signal, now)
            <==> Fresh(signal, now) && |Unexpired(w, now)| < MAX_SEEN
                 && forall a :: a in w.answered && a.0 == peer && a.1 == signal.id ==> a.2 <= now
  {
    var seen, k := Pruned(w.state, now).seen, (peer, signal.id);
    assert |seen| == |seen.Items|;
    if k in seen {
      assert (peer, signal.id, seen[k]) in w.answered && seen[k] > now;
    }
  }

  /** The expiry is part of what is answered once: with a new expiry the same peer and
      identifier are answered again when the first has run out. */
  lemma NewExpiryIsAnsweredAgain(peer: Peer, id: CallId, now: int)
    requires |id| == 32 && LowerHex(id)
    ensures var first := Answering(peer, Signal(1, id, Probe, now + 10, None), now);
            var second := Answering(peer, Signal(1, id, Probe, now + 30, None), now + 20);
            Run(Begin(now), [first, second]).answered == [(peer, id, now + 10), (peer, id, now + 30)]
  {
    var first := Answering(peer, Signal(1, id, Probe, now + 10, None), now);
    var second := Answering(peer, Signal(1, id, Probe, now + 30, None), now + 20);
    var both := [first, second];
    assert both[..1] == [first] && [first][..0] == [];
    assert Run(Begin(now), []) == Begin(now);
    assert Pruned(State(map[], map[]), now).seen == map[];
    var w := Run(Begin(now), [first]);
    assert w == Next(Begin(now), first) && w.state.seen == map[(peer, id) := now + 10];
    assert Pruned(w.state, now + 20).seen == map[];
  }

  // ----- The class -----

  class Pending {
    var outgoing: map<CallId, (Peer, int)>
    var seen: map<(Peer, CallId), int>

    constructor ()
      ensures View() == State(map[], map[])
    {
      outgoing, seen := map[], map[];
    }

    function View(): State
      reads this
    {
      State(outgoing, seen)
    }

    method Prune(now: int)
      modifies this
      ensures View() == Pruned(old(View()), now)
    {
      outgoing := map i | i in outgoing && outgoing[i].1 > now :: outgoing[i];
      seen := map k | k in seen && seen[k] > now :: seen[k];
    }

    /** `id` is the random identifier of the new probe. */
    method StartProbe(peer: Peer, id: CallId, now: int) returns (probe: Option<Signal>)
      modifies this
      ensures View() == Started(old(View()), peer, id, now)
      ensures probe == if MayStart(Pruned(old(View()), now), peer) then Some(Signal(1, id, Probe, now + TTL, None)) else None
    {
      Prune(now);
      if |outgoing| >= MAX_OUTGOING { return None; }
      var rest := outgoing.Keys;
      while rest != {}
        invariant rest <= outgoing.Keys && View() == Pruned(old(View()), now)
        invariant forall i :: i in outgoing.Keys - rest ==> outgoing[i].0 != peer
      {
        var i :| i in rest;
        if outgoing[i].0 == peer { return None; }
        rest := rest - {i};
      }
      outgoing := outgoing[id := (peer, now + TTL)];
      probe := Some(Signal(1, id, Probe, now + TTL, None));
    }

    method Answer(peer: Peer, signal: Signal, now: int) returns (answered: bool)
      modifies this
      ensures View() == Answered(old(View()), peer, signal, now)
      ensures answered <==> MayAnswer(Pruned(old(View()), now), peer, signal, now)
    {
      Prune(now);
      if !Fresh(signal, now) || |seen| >= MAX_SEEN || (peer, signal.id) in seen { return false; }
      seen := seen[(peer, signal.id) := signal.expiresAt];
      answered := true;
    }

    method Complete(peer: Peer, signal: Signal, now: int) returns (completed: bool)
      modifies this
      ensures View() == Completed(old(View()), peer, signal, now)
      ensures completed <==> MayComplete(Pruned(old(View()), now), peer, signal, now)
    {
      Prune(now);
      if signal.action != Unavailable || !Fresh(signal, now) || signal.id !in outgoing || outgoing[signal.id].0 != peer {
        return false;
      }
      outgoing := outgoing - {signal.id};
      completed := true;
    }
  }
}
