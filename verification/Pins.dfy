/** Key pinning: which key belongs to a name, and which keys are blocked until a person has
    decided. */
module Pins {
  import opened Envelopes

  type Name = Bytes
  type Key = Bytes

  datatype Pin = Pin(device: Key, firstSeen: int, changedAt: Option<int>, pending: Option<Key>, untrusted: set<Key>)
  datatype Verdict = First | Same | Changed

  type Names = map<Name, Pin>

  // ----- What the operations compute -----

  function Judge(m: Names, name: Name, device: Key): Verdict {
    if name !in m then First else if m[name].device == device then Same else Changed
  }

  function Checked(m: Names, name: Name, device: Key, now: int): Names {
    match Judge(m, name, device)
    case First => m[name := Pin(device, now, None, None, {})]
    case Same => m
    case Changed => m[name := m[name].(pending := Some(device), untrusted := m[name].untrusted + {device})]
  }

  predicate MayAccept(m: Names, name: Name, device: Key) {
    name in m && m[name].pending == Some(device) && m[name].device != device
  }

  function Accepted(m: Names, name: Name, device: Key, now: int): Names {
    if MayAccept(m, name, device)
    then m[name := Pin(device, m[name].firstSeen, Some(now), None, m[name].untrusted - {device})]
    else m
  }

  predicate Blocks(m: Names, device: Key) {
    exists n :: n in m && (m[n].pending == Some(device) || device in m[n].untrusted)
  }

  // ----- Runs -----

  datatype Event =
    | Check(name: Name, device: Key, now: int)
    | Accept(name: Name, device: Key, now: int)
    | Forget(name: Name)

  function Next(m: Names, e: Event): Names {
    match e
    case Check(name, device, now) => Checked(m, name, device, now)
    case Accept(name, device, now) => Accepted(m, name, device, now)
    case Forget(name) => m - {name}
  }

  function Run(events: seq<Event>): Names {
    if events == [] then map[] else Next(Run(events[..|events| - 1]), events[|events| - 1])
  }

  // ----- What every run keeps -----

  /** No pinned key is among the name's own untrusted ones, and what waits for a decision
      is always one of those. */
  ghost predicate Sound(m: Names) {
    forall n :: n in m ==>
      m[n].device !in m[n].untrusted && (m[n].pending.Some? ==> m[n].pending.value in m[n].untrusted)
  }

  lemma {:induction false} PinsAreSound(events: seq<Event>)
    ensures Sound(Run(events))
  {
    if events != [] {
      PinsAreSound(events[..|events| - 1]);
    }
  }

  /** The event that settles a name's key: the first look at an unknown name, or the
      acceptance of what waits. */
  predicate Settles(events: seq<Event>, i: nat, name: Name, device: Key)
    requires i < |events|
  {
    match events[i]
    case Check(n, d, _) => n == name && d == device && name !in Run(events[..i])
    case Accept(n, d, _) => n == name && d == device && MayAccept(Run(events[..i]), n, d)
    case Forget(_) => false
  }

  /** The event undoes what was settled: another acceptance, or forgetting. */
  predicate Unsettles(events: seq<Event>, i: nat, name: Name)
    requires i < |events|
  {
    match events[i]
    case Check(_, _, _) => false
    case Accept(n, d, _) => n == name && MayAccept(Run(events[..i]), n, d)
    case Forget(n) => n == name
  }

  ghost predicate LastSettled(events: seq<Event>, i: nat, name: Name, device: Key) {
    i < |events| && Settles(events, i, name, device) && forall j :: i < j < |events| ==> !Unsettles(events, j, name)
  }

  /** A pinned key is always the first that was seen, or the last that was accepted, since
      the name was last forgotten. */
  lemma {:induction false} PinIsFirstOrLastAccepted(events: seq<Event>, name: Name) returns (i: nat)
    requires name in Run(events)
    ensures LastSettled(events, i, name, Run(events)[name].device)
  {
    var n := |events| - 1;
    var init := events[..n];
    assert forall j :: 0 <= j < n ==> events[..j] == init[..j];
    if Settles(events, n, name, Run(events)[name].device) {
      i := n;
    } else {
      i := PinIsFirstOrLastAccepted(init, name);
      assert forall j :: i < j < n ==> Unsettles(events, j, name) == Unsettles(init, j, name);
      assert !Unsettles(events, n, name);
    }
  }

  /** The event reports the key as changed under the name. */
  predicate Reports(events: seq<Event>, i: nat, name: Name, device: Key)
    requires i < |events|
  {
    match events[i]
    case Check(n, d, _) => n == name && d == device && Judge(Run(events[..i]), n, d) == Changed
    case _ => false
  }

  /** The event releases the key: its acceptance while it waits for a decision under the
      name, or the forgetting of the name. An acceptance that is refused releases nothing. */
  predicate Releases(events: seq<Event>, j: nat, name: Name, device: Key)
    requires j < |events|
  {
    match events[j]
    case Check(_, _, _) => false
    case Accept(n, d, _) => n == name && d == device && MayAccept(Run(events[..j]), n, d)
    case Forget(n) => n == name
  }

  ghost predicate HeldSince(events: seq<Event>, i: nat, name: Name, device: Key) {
    i < |events| && Reports(events, i, name, device) && forall j :: i < j < |events| ==> !Releases(events, j, name, device)
  }

  lemma HeldBefore(events: seq<Event>, i: nat, name: Name, device: Key)
    requires i < |events| - 1
    ensures var n := |events| - 1;
            HeldSince(events, i, name, device) <==> HeldSince(events[..n], i, name, device) && !Releases(events, n, name, device)
  {
    var n := |events| - 1;
    var init := events[..n];
    assert forall j :: 0 <= j < n ==> init[..j] == events[..j];
    assert forall j :: i < j < n ==> Releases(init, j, name, device) == Releases(events, j, name, device);
  }

  /** Once reported as changed a key stays blocked, whatever is looked up or accepted later
      and under whichever name, until it is accepted while it waits under that name, or the
      name is forgotten. */
  lemma {:induction false} ChangedStaysBlocked(events: seq<Event>, i: nat, name: Name, device: Key)
    requires HeldSince(events, i, name, device)
    ensures name in Run(events) && device in Run(events)[name].untrusted && Blocks(Run(events), device)
  {
    var n := |events| - 1;
    if i < n {
      HeldBefore(events, i, name, device);
      ChangedStaysBlocked(events[..n], i, name, device);
    }
  }

  /** And nothing else is held back: an untrusted key was reported as changed under its name
      and has not been released since. */
  lemma {:induction false} UntrustedWasReported(events: seq<Event>, name: Name, device: Key) returns (i: nat)
    requires name in Run(events) && device in Run(events)[name].untrusted
    ensures HeldSince(events, i, name, device)
  {
    var n := |events| - 1;
    if Reports(events, n, name, device) {
      i := n;
    } else {
      i := UntrustedWasReported(events[..n], name, device);
      HeldBefore(events, i, name, device);
    }
  }

  /** After any run a device is blocked if and only if its key was reported as changed under
      some name and not released there since. */
  lemma BlockedExactlyWhen(events: seq<Event>, device: Key)
    ensures Blocks(Run(events), device) <==> exists name, i :: HeldSince(events, i, name, device)
  {
    PinsAreSound(events);
    if Blocks(Run(events), device) {
      var name :| name in Run(events) && (Run(events)[name].pending == Some(device) || device in Run(events)[name].untrusted);
      var i := UntrustedWasReported(events, name, device);
    }
    if name, i :| HeldSince(events, i, name, device) {
      ChangedStaysBlocked(events, i, name, device);
    }
  }

  /** A superseded candidate: accepting it is refused, and it stays blocked. */
  lemma RefusedAcceptanceReleasesNothing(name: Name, k: Key, d1: Key, d2: Key, now: int)
    requires k != d1 && k != d2 && d1 != d2
    ensures var before := [Check(name, k, now), Check(name, d1, now), Check(name, d2, now)];
            var events := before + [Accept(name, d1, now)];
            && !MayAccept(Run(before), name, d1) && HeldSince(events, 1, name, d1) && Blocks(Run(events), d1)
  {
    var one, two := [Check(name, k, now)], [Check(name, k, now), Check(name, d1, now)];
    var before := two + [Check(name, d2, now)];
    var events := before + [Accept(name, d1, now)];
    assert one[..0] == [] && Run(one) == map[name := Pin(k, now, None, None, {})];
    assert two[..1] == one && before[..2] == two && events[..3] == before;
    assert before == [Check(name, k, now), Check(name, d1, now), Check(name, d2, now)];
    assert events[..1] == one && events[..2] == two;
    assert Run(two) == Next(Run(one), Check(name, d1, now)) && Run(before) == Next(Run(two), Check(name, d2, now));
    assert Run(before)[name].pending == Some(d2);
    assert Reports(events, 1, name, d1) && !Releases(events, 2, name, d1) && !Releases(events, 3, name, d1);
    ChangedStaysBlocked(events, 1, name, d1);
  }

  /** Exactly the acceptance of the key that was offered last lifts a name's block on it,
      and it lifts no other. */
  lemma AcceptanceLiftsOneBlock(m: Names, name: Name, device: Key, now: int, other: Key)
    requires Sound(m) && name in m && other in m[name].untrusted
    ensures var m' := Accepted(m, name, device, now);
            other !in m'[name].untrusted <==> other == device && m[name].pending == Some(device)
  {
  }

  // ----- The class -----

  class PinBook {
    var names: Names

    constructor ()
      ensures names == map[]
    {
      names := map[];
    }

    method CheckKey(name: Name, device: Key, now: int) returns (v: Verdict)
      modifies this
      ensures v == Judge(old(names), name, device) && names == Checked(old(names), name, device, now)
    {
      if name !in names {
        names := names[name := Pin(device, now, None, None, {})];
        return First;
      }
      var pin := names[name];
      if pin.device == device { return Same; }
      names := names[name := pin.(pending := Some(device), untrusted := pin.untrusted + {device})];
      v := Changed;
    }

    method AcceptKey(name: Name, device: Key, now: int) returns (done: bool)
      modifies this
      ensures done <==> MayAccept(old(names), name, device)
      ensures names == Accepted(old(names), name, device, now)
    {
      if name !in names { return false; }
      var pin := names[name];
      if pin.pending != Some(device) || pin.device == device { return false; }
      pin := pin.(device := device, changedAt := Some(now), pending := None, untrusted := pin.untrusted - {device});
      names := names[name := pin];
      done := true;
    }

    method ForgetName(name: Name) returns (known: bool)
      modifies this
      ensures known <==> name in old(names)
      ensures names == old(names) - {name}
    {
      known := name in names;
      names := names - {name};
    }

    method BlocksDevice(device: Key) returns (blocked: bool)
      ensures blocked <==> Blocks(names, device)
    {
      var rest := names.Keys;
      while rest != {}
        invariant rest <= names.Keys
        invariant forall n :: n in names.Keys - rest ==> names[n].pending != Some(device) && device !in names[n].untrusted
      {
        var n :| n in rest;
        if names[n].pending == Some(device) || device in names[n].untrusted { return true; }
        rest := rest - {n};
      }
      blocked := false;
    }
  }
}
