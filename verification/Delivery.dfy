/** Delivery evidence: for each message, how far each recipient device has got.
    The evidence of a message is filed under a hash; the model files it under the
    bytes that are hashed, so two messages share a record exactly when those agree. */
module Delivery {
  import opened Envelopes

  datatype Step = Queued | Accepted | Delivered

  function Rank(s: Step): nat {
    match s
    case Queued => 0
    case Accepted => 1
    case Delivered => 2
  }

  function Max(a: Step, b: Step): Step {
    if Rank(a) < Rank(b) then b else a
  }

  datatype Record = Record(
    devices: map<Device, Step>,
    queuedAt: Option<int>,
    sentAt: map<Device, int>,
    acceptedAt: map<Device, int>,
    expiresAt: Option<int>)

  const EMPTY_RECORD := Record(map[], None, map[], map[], None)

  type Evidence = map<Bytes, Record>

  function Key(conversation: Bytes, id: Bytes): Bytes {
    conversation + id
  }

  function Load(ev: Evidence, key: Bytes): Record {
    if key in ev then ev[key] else EMPTY_RECORD
  }

  // ----- The updates of one record -----

  function Tracked(r: Record, device: Device, expiresAt: Option<int>, now: int): Record {
    Record(
      if device in r.devices then r.devices else r.devices[device := Queued],
      if r.queuedAt == None then Some(now) else r.queuedAt,
      r.sentAt,
      r.acceptedAt,
      if r.expiresAt == None then expiresAt else r.expiresAt)
  }

  function Advanced(r: Record, device: Device, step: Step): Record {
    if device in r.devices then r.(devices := r.devices[device := Max(r.devices[device], step)]) else r
  }

  function Acknowledged(r: Record, device: Device, at: int): Record {
    if device in r.devices && device !in r.acceptedAt
    then Advanced(r, device, Accepted).(acceptedAt := r.acceptedAt[device := at])
    else Advanced(r, device, Accepted)
  }

  // ----- The updates of the whole evidence -----

  function Track(ev: Evidence, key: Bytes, device: Device, expiresAt: Option<int>, now: int): Evidence {
    ev[key := Tracked(Load(ev, key), device, expiresAt, now)]
  }

  /** A receipt for an unknown message or recipient writes nothing. */
  function Revise(ev: Evidence, key: Bytes, device: Device, revised: Record): Evidence {
    if device in Load(ev, key).devices then ev[key := revised] else ev
  }

  function Accept(ev: Evidence, key: Bytes, device: Device, at: int): Evidence {
    Revise(ev, key, device, Acknowledged(Load(ev, key), device, at))
  }

  function Deliver(ev: Evidence, key: Bytes, device: Device): Evidence {
    Revise(ev, key, device, Advanced(Load(ev, key), device, Delivered))
  }

  ghost predicate Known(ev: Evidence, key: Bytes, device: Device) {
    key in ev && device in ev[key].devices
  }

  /** What no update takes back: known devices stay known and steps never fall. */
  ghost predicate Grows(ev: Evidence, ev': Evidence) {
    forall key, d :: Known(ev, key, d) ==>
      Known(ev', key, d) && Rank(ev[key].devices[d]) <= Rank(ev'[key].devices[d])
  }

  // ----- Evidence is a join -----

  datatype Happening =
    | Tracking(device: Device, expiresAt: Option<int>)
    | Accepting(device: Device)
    | Delivering(device: Device)

  /** The step that an event vouches for. */
  function Vouched(e: Happening): Step {
    match e
    case Tracking(_, _) => Queued
    case Accepting(_) => Accepted
    case Delivering(_) => Delivered
  }

  function Apply(r: Record, e: Happening, at: int): Record {
    match e
    case Tracking(d, x) => Tracked(r, d, x, at)
    case Accepting(d) => Acknowledged(r, d, at)
    case Delivering(d) => Advanced(r, d, Delivered)
  }

  function Replay(r: Record, events: seq<Happening>, at: int): Record {
    if events == [] then r else Apply(Replay(r, events[..|events| - 1], at), events[|events| - 1], at)
  }

  /** For a tracked device, replaying any events leaves the least upper bound of its
      step and of what the events vouch for; an untracked device never appears. */
  lemma {:induction false} ReplayIsJoin(r: Record, events: seq<Happening>, at: int, d: Device)
    ensures d in r.devices ==>
      && d in Replay(r, events, at).devices
      && var s := Replay(r, events, at).devices[d];
         && Rank(r.devices[d]) <= Rank(s)
         && (forall e :: e in events && e.device == d ==> Rank(Vouched(e)) <= Rank(s))
         && (s == r.devices[d] || exists e :: e in events && e.device == d && Vouched(e) == s)
    ensures d in Replay(r, events, at).devices ==>
      d in r.devices || exists e :: e in events && e.Tracking? && e.device == d
  {
    if events != [] {
      var before, last := events[..|events| - 1], events[|events| - 1];
      ReplayIsJoin(r, before, at, d);
      assert forall e :: e in events <==> e in before || e == last by { assert events == before + [last]; }
      OneStepJoins(Replay(r, before, at), last, at, d);
    }
  }

  /** One event: a tracked device's step becomes the larger of what it was and what the
      event vouches for; only tracking adds a device. */
  lemma OneStepJoins(r: Record, e: Happening, at: int, d: Device)
    ensures var r' := Apply(r, e, at);
            && (d in r.devices ==> d in r'.devices)
            && (d in r.devices ==> r'.devices[d] == if e.device == d then Max(r.devices[d], Vouched(e)) else r.devices[d])
            && (d in r'.devices && d !in r.devices ==> e.Tracking? && e.device == d)
  {
  }

  /** Order and repetition of receipts do not matter: two event lists with the same
      events give every tracked device the same step. */
  lemma {:induction false} ReplayIgnoresOrder(r: Record, es: seq<Happening>, fs: seq<Happening>, at: int)
    requires forall e :: e in es <==> e in fs
    requires forall e :: e in es ==> e.device in r.devices
    ensures Replay(r, es, at).devices == Replay(r, fs, at).devices
  {
    var a, b := Replay(r, es, at).devices, Replay(r, fs, at).devices;
    forall d | d in a.Keys + b.Keys ensures d in a && d in b && a[d] == b[d] {
      ReplayIsJoin(r, es, at, d);
      ReplayIsJoin(r, fs, at, d);
      assert Rank(a[d]) <= Rank(b[d]) && Rank(b[d]) <= Rank(a[d]);
    }
  }

  // ----- What is reported -----

  datatype Report = Unknown | Expired | At(step: Step)

  ghost predicate IsLeast(devices: map<Device, Step>, s: Step) {
    && (exists d :: d in devices && devices[d] == s)
    && forall d :: d in devices ==> Rank(s) <= Rank(devices[d])
  }

  /** The state of a message: the least step over its devices, or expired. */
  method State(r: Record, now: int) returns (report: Report)
    ensures report == Unknown <==> r.devices == map[]
    ensures report == Expired <==>
      (exists d :: d in r.devices && r.devices[d] == Queued) && r.expiresAt.Some? && r.expiresAt.value <= now
    ensures report.At? ==> IsLeast(r.devices, report.step)
  {
    var rest := r.devices.Keys;
    var least: Option<Step> := None;
    while rest != {}
      invariant rest <= r.devices.Keys
      invariant least == None <==> rest == r.devices.Keys
      invariant least.Some? ==> exists d :: d in r.devices.Keys - rest && r.devices[d] == least.value
      invariant forall d :: d in r.devices.Keys - rest ==> least.Some? && Rank(least.value) <= Rank(r.devices[d])
    {
      var d :| d in rest;
      rest := rest - {d};
      if least == None || Rank(r.devices[d]) < Rank(least.value) {
        least := Some(r.devices[d]);
      }
    }
    if least == Some(Queued) && r.expiresAt.Some? && r.expiresAt.value <= now {
      return Expired;
    }
    match least
    case None => report := Unknown;
    case Some(s) => report := At(s);
  }

  /** For a fixed set of devices the reported step never regresses. */
  lemma ReportNeverRegresses(r: Record, events: seq<Happening>, at: int, s: Step, s': Step)
    requires forall e :: e in events ==> e.device in r.devices
    requires IsLeast(r.devices, s) && IsLeast(Replay(r, events, at).devices, s')
    ensures Rank(s) <= Rank(s')
  {
    var d :| d in Replay(r, events, at).devices && Replay(r, events, at).devices[d] == s';
    ReplayIsJoin(r, events, at, d);
  }

  // ----- What the filing key binds -----

  /** Evidence binds to a conversation and an id only as far as their concatenation
      does: two messages share a record exactly when one conversation extends the
      other by the bytes that its id is shorter by. */
  lemma KeysCollide(c: Bytes, i: Bytes, c': Bytes, i': Bytes)
    ensures Key(c, i) == Key(c', i') <==>
      || (c <= c' && i == c'[|c|..] + i')
      || (c' <= c && i' == c[|c'|..] + i)
  {
    if Key(c, i) == Key(c', i') {
      if |c| <= |c'| {
        assert Key(c, i)[..|c|] == c && Key(c', i')[..|c|] == c'[..|c|];
        assert Key(c, i)[|c|..] == i && Key(c', i')[|c|..] == c'[|c|..] + i';
      } else {
        assert Key(c, i)[..|c'|] == c[..|c'|] && Key(c', i')[..|c'|] == c';
        assert Key(c, i)[|c'|..] == c[|c'|..] + i && Key(c', i')[|c'|..] == i';
      }
    } else {
      assert c <= c' && i == c'[|c|..] + i' ==> c + i == c' + i';
      assert c' <= c && i' == c[|c'|..] + i ==> c + i == c' + i';
    }
  }

  /** A concrete collision: the first byte of the id moved into the conversation. */
  lemma KeysDoCollide()
    ensures Key([1], [109, 50]) == Key([1, 109], [50])
  {
    assert [1] + [109, 50] == [1, 109] + [50];
  }

  /** Between conversations of one length the binding is exact. */
  lemma KeysBind(c: Bytes, i: Bytes, c': Bytes, i': Bytes)
    requires |c| == |c'|
    ensures Key(c, i) == Key(c', i') ==> c == c' && i == i'
  {
    KeysCollide(c, i, c', i');
    assert c <= c' ==> c'[|c|..] + i' == i';
  }

  // ----- No update takes anything back -----

  /** Rewriting one record grows the evidence when that record grows. */
  lemma OneRecordGrows(ev: Evidence, key: Bytes, r: Record)
    requires forall d :: d in Load(ev, key).devices ==>
      d in r.devices && Rank(Load(ev, key).devices[d]) <= Rank(r.devices[d])
    ensures Grows(ev, ev[key := r])
  {
  }

  lemma TrackGrows(ev: Evidence, key: Bytes, device: Device, expiresAt: Option<int>, at: int)
    ensures var ev' := Track(ev, key, device, expiresAt, at);
            && Grows(ev, ev')
            && Known(ev', key, device)
            && forall k, d :: Known(ev', k, d) ==> Known(ev, k, d) || (k == key && d == device)
  {
    OneRecordGrows(ev, key, Tracked(Load(ev, key), device, expiresAt, at));
  }

  lemma AcceptGrows(ev: Evidence, key: Bytes, device: Device, at: int)
    ensures var ev' := Accept(ev, key, device, at);
            && Grows(ev, ev')
            && (Known(ev, key, device) ==> Known(ev', key, device) && 1 <= Rank(ev'[key].devices[device]))
            && forall k, d :: Known(ev', k, d) ==> Known(ev, k, d)
  {
    OneRecordGrows(ev, key, Acknowledged(Load(ev, key), device, at));
  }

  lemma DeliverGrows(ev: Evidence, key: Bytes, device: Device)
    ensures var ev' := Deliver(ev, key, device);
            && Grows(ev, ev')
            && forall k, d :: Known(ev', k, d) ==> Known(ev, k, d)
  {
    OneRecordGrows(ev, key, Advanced(Load(ev, key), device, Delivered));
  }

  lemma GrowsTransitively(a: Evidence, b: Evidence, c: Evidence)
    requires Grows(a, b) && Grows(b, c)
    ensures Grows(a, c)
  {
    forall k, d | Known(a, k, d)
      ensures Known(c, k, d) && Rank(a[k].devices[d]) <= Rank(c[k].devices[d])
    {
      assert Known(b, k, d);
    }
  }
}
