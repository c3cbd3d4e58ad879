/** What every run of sending and first contact keeps: the ratchet in memory is the one
    on disk, no ratchet position is used for two plaintexts, a Welcome comes before what
    it makes readable, and nothing that waits is lost or sent twice. What is said of the
    log and of the queue is kept apart from the invariant of the network underneath, so
    that each operation is looked at once for what it stores and once for what it hands
    to the network. */
module FirstContactSafety {
  import opened Envelopes
  import opened Outbox
  import opened Sending
  import opened SendingSafety
  import opened SendingRuns
  import opened FirstContact

  // ----- The log of everything ever stored -----

  ghost predicate WelcomeAt(log: seq<Envelope>, m: int, g: Bytes, d: Device) {
    0 <= m < |log| && log[m].ciphertext.Welcome? && log[m].ciphertext.group == g && log[m].device == d && log[m].kind == Essential
  }

  predicate SamePosition(c: Ciphertext, d: Ciphertext) {
    !c.Welcome? && !d.Welcome? && c.group == d.group && c.position == d.position
  }

  /** A stored ciphertext was produced at a position the ratchet has passed, and two at
      one position are one commit sent to several members. */
  ghost predicate Positions(r: Ratchet, log: seq<Envelope>) {
    && (forall n :: 0 <= n < |log| ==>
          var c := log[n].ciphertext;
          c.group in r && (!c.Welcome? ==> c.position < r[c.group].position))
    && (forall m, n :: 0 <= m < n < |log| && SamePosition(log[m].ciphertext, log[n].ciphertext) ==>
          log[m].ciphertext == log[n].ciphertext && log[m].ciphertext.Commit?)
  }

  /** A group that was started here has one peer and a logged Welcome for it, and what
      is stored for the group comes after that Welcome. */
  ghost predicate Welcomed(r: Ratchet, created: set<Bytes>, log: seq<Envelope>) {
    && (forall g :: g in created ==> g in r && |r[g].members| == 1 && exists m :: WelcomeAt(log, m, g, r[g].members[0]))
    && (forall n :: 0 <= n < |log| && !log[n].ciphertext.Welcome? && log[n].ciphertext.group in created ==>
          exists m :: WelcomeAt(log, m, log[n].ciphertext.group, log[n].device) && m < n)
  }

  ghost predicate LogInv(r: Ratchet, created: set<Bytes>, log: seq<Envelope>) {
    Positions(r, log) && Welcomed(r, created, log)
  }

  lemma WelcomeStays(log: seq<Envelope>, more: seq<Envelope>, m: int, g: Bytes, d: Device)
    requires WelcomeAt(log, m, g, d)
    ensures WelcomeAt(log + more, m, g, d)
  {
  }

  /** Appending ciphertexts of one group, all alike and at its next position, to members
      that have been welcomed. */
  lemma AppendAtPosition(r: Ratchet, created: set<Bytes>, log: seq<Envelope>, g: Bytes, batch: seq<Envelope>, c: Ciphertext)
    requires LogInv(r, created, log) && g in r
    requires !c.Welcome? && c.group == g && c.position == r[g].position
    requires forall i :: 0 <= i < |batch| ==> batch[i].ciphertext == c
    requires c.Commit? || |batch| <= 1
    requires g in created ==> forall i :: 0 <= i < |batch| ==> batch[i].device == r[g].members[0]
    ensures LogInv(r[g := r[g].(position := r[g].position + 1)], created, log + batch)
  {
    var r', log' := r[g := r[g].(position := r[g].position + 1)], log + batch;
    assert Positions(r', log') by {
      forall n | 0 <= n < |log'|
        ensures var c' := log'[n].ciphertext; c'.group in r' && (!c'.Welcome? ==> c'.position < r'[c'.group].position)
      {
        if n < |log| { assert log'[n] == log[n]; } else { assert log'[n] == batch[n - |log|]; }
      }
      forall m, n | 0 <= m < n < |log'| && SamePosition(log'[m].ciphertext, log'[n].ciphertext)
        ensures log'[m].ciphertext == log'[n].ciphertext && log'[m].ciphertext.Commit?
      {
        if n < |log| {
          assert log'[m] == log[m] && log'[n] == log[n];
        } else {
          assert log'[n] == batch[n - |log|];
          assert forall k :: 0 <= k < |log| ==> log'[k] == log[k] && !SamePosition(log[k].ciphertext, c);
          assert log'[m] == batch[m - |log|];
        }
      }
    }
    forall h | h in created ensures exists m :: WelcomeAt(log', m, h, r'[h].members[0]) {
      var m :| WelcomeAt(log, m, h, r[h].members[0]);
      WelcomeStays(log, batch, m, h, r[h].members[0]);
    }
    forall n | 0 <= n < |log'| && !log'[n].ciphertext.Welcome? && log'[n].ciphertext.group in created
      ensures exists m :: WelcomeAt(log', m, log'[n].ciphertext.group, log'[n].device) && m < n
    {
      if n < |log| {
        var m :| WelcomeAt(log, m, log[n].ciphertext.group, log[n].device) && m < n;
        WelcomeStays(log, batch, m, log[n].ciphertext.group, log[n].device);
      } else {
        assert log'[n] == batch[n - |log|];
        var m :| WelcomeAt(log, m, g, r[g].members[0]);
        WelcomeStays(log, batch, m, g, r[g].members[0]);
      }
    }
  }

  lemma AppendWelcome(r: Ratchet, created: set<Bytes>, log: seq<Envelope>, g: Bytes, d: Device, e: Envelope)
    requires LogInv(r, created, log) && g !in r
    requires e.ciphertext.Welcome? && e.ciphertext.group == g && e.device == d && e.kind == Essential
    ensures LogInv(r[g := Group(0, [d])], created + {g}, log + [e])
  {
    var r', created', log' := r[g := Group(0, [d])], created + {g}, log + [e];
    assert WelcomeAt(log', |log|, g, d);
    assert Positions(r', log') by {
      assert forall n :: 0 <= n < |log| ==> log'[n] == log[n];
    }
    forall h | h in created' ensures h in r' && |r'[h].members| == 1 && exists m :: WelcomeAt(log', m, h, r'[h].members[0]) {
      if h == g {
        assert WelcomeAt(log', |log|, h, r'[h].members[0]);
      } else {
        var m :| WelcomeAt(log, m, h, r[h].members[0]);
        WelcomeStays(log, [e], m, h, r[h].members[0]);
      }
    }
    forall n | 0 <= n < |log'| && !log'[n].ciphertext.Welcome? && log'[n].ciphertext.group in created'
      ensures exists m :: WelcomeAt(log', m, log'[n].ciphertext.group, log'[n].device) && m < n
    {
      assert log'[n] == log[n];
      var m :| WelcomeAt(log, m, log[n].ciphertext.group, log[n].device) && m < n;
      WelcomeStays(log, [e], m, log[n].ciphertext.group, log[n].device);
    }
  }

  // ----- The invariant -----

  ghost predicate Twins(e: Envelope, f: Envelope) {
    && e.ciphertext.Application? && f.ciphertext.Application? && e.logicalId.Some?
    && e.logicalId == f.logicalId && e.conversation == f.conversation && e.device == f.device
  }

  ghost predicate NoTwins(q: seq<Envelope>) {
    forall e, f :: e in q && f in q && Twins(e, f) ==> e.clientRef == f.clientRef
  }

  predicate SamePurpose(c: Claim, c': Claim) {
    c.Start? && c'.Start? && c.intent.device == c'.intent.device
  }

  ghost predicate OneClaim(claims: map<Ref, Claim>) {
    forall r, r' :: r in claims && r' in claims && SamePurpose(claims[r], claims[r']) ==> r == r'
  }

  ghost predicate StoreInv(a: Account) {
    && a.ratchet == a.durable.mls
    && LogInv(a.ratchet, a.created, a.net.history.log)
    && NoTwins(a.net.disk.queue)
    && OneClaim(a.claims)
  }

  ghost predicate AccountInv(a: Account) {
    StoreInv(a) && Inv(a.net)
  }

  // ----- Adding to the outbox -----

  ghost predicate Adds(net: Net, t: Net, batch: seq<Envelope>) {
    && t.history.log == net.history.log + batch && t.disk.queue == net.disk.queue + batch
    && t.history.born.Keys == net.history.born.Keys + Refs(batch)
  }

  lemma AdmitAdds(net: Net, t: Net, batch: seq<Envelope>, now: int)
    requires Admit(net, batch, now) == Ok(t)
    ensures Adds(net, t, batch)
  {
    BirthFacts(net.history.born, |net.history.log|, batch);
  }

  lemma AdmitKeepsInv(net: Net, t: Net, batch: seq<Envelope>, now: int)
    requires Inv(net) && Refs(batch) !! net.history.born.Keys && Admit(net, batch, now) == Ok(t)
    ensures Inv(t)
  {
    EnqueueKeepsInv(net, t, batch, now);
  }

  lemma SingleRef(e: Envelope)
    ensures Refs([e]) == {e.clientRef}
  {
    assert [e][0] == e;
  }

  /** After one reference is used the remaining ones are still unused. */
  lemma StillUnused(a: Account, b: Account, refs: seq<Ref>)
    requires Unused(a, refs) && refs != []
    requires b.net.history.born.Keys <= a.net.history.born.Keys + {refs[0]}
    ensures Unused(b, refs[1..])
  {
    forall i | 0 <= i < |refs[1..]| ensures refs[1..][i] !in b.net.history.born {
      assert refs[1..][i] == refs[i + 1];
    }
  }

  // ----- Messages in an existing group -----

  function Stepped(r: Ratchet, g: Bytes): Ratchet
    requires g in r
  {
    r[g := r[g].(position := r[g].position + 1)]
  }

  ghost predicate IsNext(r: Ratchet, g: Bytes, e: Envelope) {
    && g in r && r[g].members == [e.device]
    && e.ciphertext.Application? && e.ciphertext.group == g && e.ciphertext.position == r[g].position
  }

  /** What queueing a message does: nothing to the outbox, or one more ciphertext, made
      at the ratchet's next position, that has no twin in the queue. */
  lemma QueuePrivateAdds(a: Account, b: Account, g: Bytes, w: Intent, env: Env, ref: Ref) returns (added: Option<Envelope>)
    requires QueuePrivate(a, g, w, env, ref) == Ok(b)
    ensures b.claims == a.claims && b.created == a.created
    ensures added == None ==> b.net == a.net && b.ratchet == a.ratchet && b.durable.mls == a.durable.mls
    ensures added.Some? ==>
      var e := added.value;
      && e.clientRef == ref && Admit(a.net, [e], env.now) == Ok(b.net) && IsNext(a.ratchet, g, e)
      && b.ratchet == b.durable.mls == Stepped(a.ratchet, g)
      && (e.logicalId.Some? ==> !AlreadyQueued(a.net.disk.queue, e.conversation, e.device, e.logicalId.value))
  {
    var thread := ThreadOf(a.durable, g);
    if Silenced(w, env) || (w.body.id.Some? && AlreadyQueued(a.net.disk.queue, thread, w.device, w.body.id.value)) {
      added := None;
    } else {
      added := Some(MessageEnvelope(w, thread, Encrypt(a.ratchet, g, w, env.size).value.1, env, ref));
    }
  }

  lemma MessageKeepsLog(r: Ratchet, created: set<Bytes>, log: seq<Envelope>, g: Bytes, e: Envelope)
    requires LogInv(r, created, log) && IsNext(r, g, e)
    ensures LogInv(Stepped(r, g), created, log + [e])
  {
    AppendAtPosition(r, created, log, g, [e], e.ciphertext);
  }

  lemma MessageHasNoTwin(q: seq<Envelope>, e: Envelope)
    requires NoTwins(q)
    requires e.logicalId.Some? ==> !AlreadyQueued(q, e.conversation, e.device, e.logicalId.value)
    ensures NoTwins(q + [e])
  {
    forall f | f in q ensures !Twins(e, f) && !Twins(f, e) {
      var i :| 0 <= i < |q| && q[i] == f;
    }
  }

  ghost predicate Follows(a: Account, b: Account, ref: Ref) {
    b.claims == a.claims && b.net.history.born.Keys <= a.net.history.born.Keys + {ref}
  }

  lemma QueuePrivateStores(a: Account, b: Account, g: Bytes, w: Intent, env: Env, ref: Ref)
    requires StoreInv(a) && QueuePrivate(a, g, w, env, ref) == Ok(b)
    ensures StoreInv(b) && Follows(a, b, ref)
  {
    var added := QueuePrivateAdds(a, b, g, w, env, ref);
    if added.Some? {
      AdmitAdds(a.net, b.net, [added.value], env.now);
      SingleRef(added.value);
      MessageKeepsLog(a.ratchet, a.created, a.net.history.log, g, added.value);
      MessageHasNoTwin(a.net.disk.queue, added.value);
    }
  }

  lemma QueuePrivateNets(a: Account, b: Account, g: Bytes, w: Intent, env: Env, ref: Ref)
    requires Inv(a.net) && ref !in a.net.history.born && QueuePrivate(a, g, w, env, ref) == Ok(b)
    ensures Inv(b.net)
  {
    var added := QueuePrivateAdds(a, b, g, w, env, ref);
    if added.Some? {
      SingleRef(added.value);
      AdmitKeepsInv(a.net, b.net, [added.value], env.now);
    }
  }

  lemma {:induction false} QueueAllStores(a: Account, b: Account, g: Bytes, ws: seq<Intent>, env: Env, refs: seq<Ref>)
    requires StoreInv(a) && |refs| >= |ws| && QueueAll(a, g, ws, env, refs) == Ok(b)
    ensures StoreInv(b) && b.claims == a.claims
    decreases |ws|
  {
    if ws != [] {
      var c := QueuePrivate(a, g, ws[0], env, refs[0]).value;
      QueuePrivateStores(a, c, g, ws[0], env, refs[0]);
      QueueAllStores(c, b, g, ws[1..], env, refs[1..]);
    }
  }

  lemma {:induction false} QueueAllNets(a: Account, b: Account, g: Bytes, ws: seq<Intent>, env: Env, refs: seq<Ref>)
    requires Inv(a.net) && StoreInv(a) && Unused(a, refs) && |refs| >= |ws| && QueueAll(a, g, ws, env, refs) == Ok(b)
    ensures Inv(b.net)
    decreases |ws|
  {
    if ws != [] {
      var c := QueuePrivate(a, g, ws[0], env, refs[0]).value;
      QueuePrivateNets(a, c, g, ws[0], env, refs[0]);
      QueuePrivateStores(a, c, g, ws[0], env, refs[0]);
      StillUnused(a, c, refs);
      QueueAllNets(c, b, g, ws[1..], env, refs[1..]);
    }
  }

  // ----- A new group, and a new epoch -----

  lemma FoundAdds(a: Account, b: Account, w: Intent, valid: bool, g: Bytes, env: Env, ref: Ref) returns (e: Envelope)
    requires Found(a, w, valid, g, env, ref) == Ok(b)
    ensures e.clientRef == ref && Admit(a.net, [e], env.now) == Ok(b.net)
    ensures e.ciphertext.Welcome? && e.ciphertext.group == g && e.device == w.device && e.kind == Essential
    ensures b.ratchet == b.durable.mls == a.ratchet[g := Group(0, [w.device])] && b.created == a.created + {g}
    ensures b.claims == a.claims && b.durable.intents == a.durable.intents
  {
    e := EssentialEnvelope(w.device, Attach(a.durable, w.device, g, env.identityThread).1, Welcome(g, env.size), env, ref);
  }

  lemma FoundStores(a: Account, b: Account, w: Intent, valid: bool, g: Bytes, env: Env, ref: Ref)
    requires StoreInv(a) && g !in a.ratchet && Found(a, w, valid, g, env, ref) == Ok(b)
    ensures StoreInv(b) && Follows(a, b, ref) && b.durable.intents == a.durable.intents
  {
    var e := FoundAdds(a, b, w, valid, g, env, ref);
    AdmitAdds(a.net, b.net, [e], env.now);
    SingleRef(e);
    AppendWelcome(a.ratchet, a.created, a.net.history.log, g, w.device, e);
    WelcomeHasNoTwin(a.net.disk.queue, e);
  }

  lemma WelcomeHasNoTwin(q: seq<Envelope>, e: Envelope)
    requires NoTwins(q) && e.ciphertext.Welcome?
    ensures NoTwins(q + [e])
  {
  }

  lemma FoundNets(a: Account, b: Account, w: Intent, valid: bool, g: Bytes, env: Env, ref: Ref)
    requires Inv(a.net) && ref !in a.net.history.born && Found(a, w, valid, g, env, ref) == Ok(b)
    ensures Inv(b.net)
  {
    var e := FoundAdds(a, b, w, valid, g, env, ref);
    SingleRef(e);
    AdmitKeepsInv(a.net, b.net, [e], env.now);
  }

  /** The three stages of a first contact, in turn. */
  lemma EstablishStages(a: Account, d: Account, w: Intent, valid: bool, g: Bytes, env: Env, refs: seq<Ref>)
      returns (b: Account, c: Account)
    requires |refs| >= 2 + |a.durable.intents| && Establish(a, w, valid, g, env, refs) == Ok(d)
    ensures Found(a, w, valid, g, env, refs[0]) == Ok(b)
    ensures QueuePrivate(b, g, w, env, refs[1]) == Ok(c)
    ensures |refs[2..]| >= |For(c.durable.intents, w.device)|
    ensures QueueAll(c, g, For(c.durable.intents, w.device), env, refs[2..]) == Ok(d)
  {
    b := Found(a, w, valid, g, env, refs[0]).value;
    c := QueuePrivate(b, g, w, env, refs[1]).value;
    ForSize(c.durable.intents, w.device);
    QueuePrivateForgets(b, g, w, env, refs[1]);
  }

  lemma EstablishStores(a: Account, d: Account, w: Intent, valid: bool, g: Bytes, env: Env, refs: seq<Ref>)
    requires StoreInv(a) && g !in a.ratchet
    requires |refs| >= 2 + |a.durable.intents| && Establish(a, w, valid, g, env, refs) == Ok(d)
    ensures StoreInv(d) && d.claims == a.claims
  {
    var b, c := EstablishStages(a, d, w, valid, g, env, refs);
    FoundStores(a, b, w, valid, g, env, refs[0]);
    QueuePrivateStores(b, c, g, w, env, refs[1]);
    QueueAllStores(c, d, g, For(c.durable.intents, w.device), env, refs[2..]);
  }

  lemma EstablishNets(a: Account, d: Account, w: Intent, valid: bool, g: Bytes, env: Env, refs: seq<Ref>)
    requires Inv(a.net) && StoreInv(a) && Unused(a, refs) && g !in a.ratchet
    requires |refs| >= 2 + |a.durable.intents| && Establish(a, w, valid, g, env, refs) == Ok(d)
    ensures Inv(d.net)
  {
    var b, c := EstablishStages(a, d, w, valid, g, env, refs);
    FoundNets(a, b, w, valid, g, env, refs[0]);
    FoundStores(a, b, w, valid, g, env, refs[0]);
    StillUnused(a, b, refs);
    assert refs[1..][0] == refs[1] && refs[1..][1..] == refs[2..];
    QueuePrivateNets(b, c, g, w, env, refs[1]);
    QueuePrivateStores(b, c, g, w, env, refs[1]);
    StillUnused(b, c, refs[1..]);
    QueueAllNets(c, d, g, For(c.durable.intents, w.device), env, refs[2..]);
  }

  lemma CommitsAreNoTwins(q: seq<Envelope>, batch: seq<Envelope>)
    requires NoTwins(q) && forall i :: 0 <= i < |batch| ==> batch[i].ciphertext.Commit?
    ensures NoTwins(q + batch)
  {
    forall e | e in batch ensures e.ciphertext.Commit? {
      var i :| 0 <= i < |batch| && batch[i] == e;
    }
  }

  lemma RekeyStores(a: Account, b: Account, g: Bytes, env: Env, refs: seq<Ref>)
    requires StoreInv(a) && (g in a.ratchet ==> |refs| >= |a.ratchet[g].members|)
    requires Rekey(a, g, env, refs) == Ok(b)
    ensures StoreInv(b)
  {
    var c := Commit(g, a.ratchet[g].position, env.size);
    var batch := CommitBatch(a.ratchet[g].members, g, c, env, refs);
    AdmitAdds(a.net, b.net, batch, env.now);
    AppendAtPosition(a.ratchet, a.created, a.net.history.log, g, batch, c);
    CommitsAreNoTwins(a.net.disk.queue, batch);
  }

  lemma RekeyNets(a: Account, b: Account, g: Bytes, env: Env, refs: seq<Ref>)
    requires Inv(a.net) && Unused(a, refs) && (g in a.ratchet ==> |refs| >= |a.ratchet[g].members|)
    requires Rekey(a, g, env, refs) == Ok(b)
    ensures Inv(b.net)
  {
    var batch := CommitBatch(a.ratchet[g].members, g, Commit(g, a.ratchet[g].position, env.size), env, refs);
    assert Refs(batch) !! a.net.history.born.Keys;
    AdmitKeepsInv(a.net, b.net, batch, env.now);
  }

  // ----- Steps of the network -----

  lemma {:induction false} DirectLoopKeepsLog(s: Net, batch: seq<Envelope>, air: Air, wire: nat)
    ensures var t := DirectLoop(s, batch, air, wire).0;
            t.history.log == s.history.log && t.history.born == s.history.born && t.disk == s.disk
    decreases |batch|
  {
    if batch == [] {
    } else if !MayGoDirect(air)(batch[0]) {
      DirectLoopKeepsLog(s, batch[1..], air, wire);
    } else if wire > 0 {
      DirectLoopKeepsLog(Transmit(s, batch[0], Auth, air.instant), batch[1..], air, wire - 1);
    }
  }

  lemma {:induction false} AnonymousLoopKeepsLog(s: Net, batch: seq<Envelope>, air: Air)
    ensures var t := AnonymousLoop(s, batch, air);
            t.history.log == s.history.log && t.history.born == s.history.born && t.disk == s.disk
    decreases |batch|
  {
    if batch != [] && s.live.tickets > 0 {
      var taken := TakePrepared(s.live.prepared);
      var s' := s.(live := s.live.(prepared := taken.1));
      if !(air.requireAnonymous && !taken.0) && (taken.0 || air.route) {
        var paid := s'.(live := s'.live.(tickets := s.live.tickets - 1));
        AnonymousLoopKeepsLog(Transmit(paid, batch[0], Anonymous, air.instant), batch[1..], air);
      }
    }
  }

  ghost predicate Narrows(s: Net, t: Net) {
    && t.history.log == s.history.log && t.history.born == s.history.born
    && forall f :: f in t.disk.queue ==> exists e :: e in s.disk.queue && Undated(e) == Undated(f)
  }

  lemma SubqueueNarrows(s: Net, t: Net)
    requires t.history.log == s.history.log && t.history.born == s.history.born
    requires forall f :: f in t.disk.queue ==> f in s.disk.queue
    ensures Narrows(s, t)
  {
  }

  lemma DirectPassKeepsLog(s: Net, air: Air)
    ensures var t := DirectPass(s, air).0;
            t.history.log == s.history.log && t.history.born == s.history.born && t.disk == s.disk
  {
    if DirectAllowed(air) {
      var batch := DirectPassIsLoop(s, air, Inflight(s.live) + BarredRefs(s.disk.queue, air));
      DirectLoopKeepsLog(s, batch, air, air.wire);
    }
  }

  lemma AnonymousPassKeepsLog(s: Net, air: Air)
    ensures var t := AnonymousPass(s, air);
            t.history.log == s.history.log && t.history.born == s.history.born && t.disk == s.disk
  {
    if air.available && AnonymousQueued(s.disk.queue, air) {
      var ready := Scheduler.Ready(s.disk.queue, Inflight(s.live) + BarredRefs(s.disk.queue, air) + Cooling(s.live, air.instant),
                                   air.now, Free(|s.live.anon|));
      AnonymousLoopKeepsLog(s, Retain(ready, MayGoAnonymous(air)), air);
    }
  }

  lemma ServeKeepsLog(s: Net, air: Air)
    ensures var t := Serve(s, air);
            t.history.log == s.history.log && t.history.born == s.history.born && t.disk == s.disk
  {
    if s.disk.queue != [] {
      DirectPassKeepsLog(s, air);
      AnonymousPassKeepsLog(DirectPass(s, air).0, air);
    }
  }

  lemma TrimNarrows(s: Net, now: int)
    ensures Narrows(s, Trim(s, now))
  {
    BoundingNarrows(s, now);
    RetainKeeps(Bounded(s.disk, now, DEFAULT_TTL).queue, Alive(now));
    assert forall f :: f in Trim(s, now).disk.queue ==> f in Next(s, Bounding(now)).disk.queue;
  }

  lemma BoundingNarrows(s: Net, now: int)
    ensures Narrows(s, Next(s, Bounding(now)))
  {
    var q, q' := s.disk.queue, Next(s, Bounding(now)).disk.queue;
    forall f | f in q' ensures exists e :: e in q && Undated(e) == Undated(f) {
      var i :| 0 <= i < |q'| && q'[i] == f;
      assert q[i] in q && Undated(q[i]) == Undated(f);
    }
  }

  lemma NextNarrows(s: Net, e: Event)
    requires !e.Enqueuing?
    ensures Narrows(s, Next(s, e))
  {
    match e
    case Flushing(air) =>
      TrimNarrows(s, air.now);
      ServeKeepsLog(Trim(s, air.now), air);
    case Bounding(now) => BoundingNarrows(s, now);
    case SendOk(ref, _, _, _) => RetainKeeps(s.disk.queue, LacksRef(ref)); SubqueueNarrows(s, Next(s, e));
    case AnonymousOk(ref, _, _) => RetainKeeps(s.disk.queue, LacksRef(ref)); SubqueueNarrows(s, Next(s, e));
    case DeletingMessage(c, id) => RetainKeeps(s.disk.queue, NotMessage(c, id)); SubqueueNarrows(s, Next(s, e));
    case ClearingThread(c) => RetainKeeps(s.disk.queue, EssentialOrElsewhere(c)); SubqueueNarrows(s, Next(s, e));
    case ForgettingThread(c) => RetainKeeps(s.disk.queue, NotInThread(c)); SubqueueNarrows(s, Next(s, e));
    case DroppingEphemeral => RetainKeeps(s.disk.queue, NotEphemeral()); SubqueueNarrows(s, Next(s, e));
    case _ => SubqueueNarrows(s, Next(s, e));
  }

  lemma NarrowerHasNoTwins(s: Net, t: Net)
    requires Narrows(s, t) && NoTwins(s.disk.queue)
    ensures NoTwins(t.disk.queue)
  {
    forall e, f | e in t.disk.queue && f in t.disk.queue && Twins(e, f) ensures e.clientRef == f.clientRef {
      var e' :| e' in s.disk.queue && Undated(e') == Undated(e);
      var f' :| f' in s.disk.queue && Undated(f') == Undated(f);
      SameIdentity(e, e');
      SameIdentity(f, f');
      assert Twins(e', f');
    }
  }

  lemma SameIdentity(e: Envelope, f: Envelope)
    requires Undated(e) == Undated(f)
    ensures e.logicalId == f.logicalId && e.conversation == f.conversation && e.device == f.device
    ensures e.ciphertext == f.ciphertext && e.clientRef == f.clientRef
  {
    SameReport(e, f);
    assert e.logicalId == Undated(e).logicalId && e.conversation == Undated(e).conversation;
  }

  lemma NetworkStores(a: Account, e: Event)
    requires StoreInv(a) && !e.Enqueuing?
    ensures StoreInv(a.(net := Next(a.net, e)))
  {
    NextNarrows(a.net, e);
    NarrowerHasNoTwins(a.net, Next(a.net, e));
  }

  // ----- Every step -----

  lemma ArriveStores(a: Account, claim: Ref, valid: Option<bool>, g: Bytes, env: Env, refs: seq<Ref>, stored: bool)
    requires StoreInv(a) && |refs| >= 2 + |a.durable.intents| && g !in a.ratchet
    ensures StoreInv(Arrive(a, claim, valid, g, env, refs, stored))
  {
    if claim in a.claims {
      var b := a.(claims := a.claims - {claim});
      if valid.Some? && a.claims[claim].Start? && Establish(b, a.claims[claim].intent, valid.value, g, env, refs).Ok? {
        EstablishStores(b, Establish(b, a.claims[claim].intent, valid.value, g, env, refs).value,
                        a.claims[claim].intent, valid.value, g, env, refs);
      }
    }
  }

  lemma ArriveNets(a: Account, claim: Ref, valid: Option<bool>, g: Bytes, env: Env, refs: seq<Ref>, stored: bool)
    requires Inv(a.net) && StoreInv(a) && Unused(a, refs) && |refs| >= 2 + |a.durable.intents| && g !in a.ratchet
    ensures Inv(Arrive(a, claim, valid, g, env, refs, stored).net)
  {
    if claim in a.claims {
      var b := a.(claims := a.claims - {claim});
      if valid.Some? && a.claims[claim].Start? && Establish(b, a.claims[claim].intent, valid.value, g, env, refs).Ok? {
        EstablishNets(b, Establish(b, a.claims[claim].intent, valid.value, g, env, refs).value,
                      a.claims[claim].intent, valid.value, g, env, refs);
      }
    }
  }

  lemma DeliverStores(a: Account, b: Account, w: Intent, env: Env, ref: Ref, wrote: bool)
    requires StoreInv(a) && Deliver(a, w, env, ref, wrote) == Ok(b)
    ensures StoreInv(b)
  {
    if w.device !in env.blocked && w.device !in env.unpinned && HasChannel(a, w) {
      QueuePrivateStores(a, b, a.durable.conversations[w.device], w, env, ref);
    }
  }

  lemma DeliverNets(a: Account, b: Account, w: Intent, env: Env, ref: Ref, wrote: bool)
    requires Inv(a.net) && ref !in a.net.history.born && Deliver(a, w, env, ref, wrote) == Ok(b)
    ensures Inv(b.net)
  {
    if w.device !in env.blocked && w.device !in env.unpinned && HasChannel(a, w) {
      QueuePrivateNets(a, b, a.durable.conversations[w.device], w, env, ref);
    }
  }

  lemma JoinKeepsLog(r: Ratchet, created: set<Bytes>, log: seq<Envelope>, g: Bytes, members: seq<Device>)
    requires LogInv(r, created, log) && g !in r
    ensures LogInv(r[g := Group(0, members)], created, log)
  {
  }

  lemma DoStores(a: Account, s: FirstContact.Step)
    requires StoreInv(a) && Enabled(a, s)
    ensures StoreInv(Do(a, s))
  {
    match s
    case Sends(g, w, env, ref, stored) =>
      if QueuePrivate(a, g, w, env, ref).Ok? { QueuePrivateStores(a, QueuePrivate(a, g, w, env, ref).value, g, w, env, ref); }
    case Delivers(w, env, ref, stored, wrote) =>
      if Deliver(a, w, env, ref, wrote).Ok? { DeliverStores(a, Deliver(a, w, env, ref, wrote).value, w, env, ref, wrote); }
    case Arrives(claim, valid, g, env, refs, stored) => ArriveStores(a, claim, valid, g, env, refs, stored);
    case Rekeys(g, env, refs, stored) =>
      if Rekey(a, g, env, refs).Ok? { RekeyStores(a, Rekey(a, g, env, refs).value, g, env, refs); }
    case Joins(g, members) => JoinKeepsLog(a.ratchet, a.created, a.net.history.log, g, members);
    case Reconnects => NetworkStores(a, NetworkLost);
    case Network(e) => NetworkStores(a, e);
    case _ =>
  }

  lemma DoNets(a: Account, s: FirstContact.Step)
    requires Inv(a.net) && StoreInv(a) && Enabled(a, s)
    ensures Inv(Do(a, s).net)
  {
    match s
    case Sends(g, w, env, ref, stored) =>
      assert [ref][0] == ref;
      if QueuePrivate(a, g, w, env, ref).Ok? { QueuePrivateNets(a, QueuePrivate(a, g, w, env, ref).value, g, w, env, ref); }
    case Delivers(w, env, ref, stored, wrote) =>
      assert [ref][0] == ref;
      if Deliver(a, w, env, ref, wrote).Ok? { DeliverNets(a, Deliver(a, w, env, ref, wrote).value, w, env, ref, wrote); }
    case Arrives(claim, valid, g, env, refs, stored) => ArriveNets(a, claim, valid, g, env, refs, stored);
    case Rekeys(g, env, refs, stored) =>
      if Rekey(a, g, env, refs).Ok? { RekeyNets(a, Rekey(a, g, env, refs).value, g, env, refs); }
    case Reconnects => NextKeepsInv(a.net, NetworkLost);
    case Network(e) => NextKeepsInv(a.net, e);
    case _ =>
  }

  lemma {:induction false} RunKeepsAccountInv(a: Account, steps: seq<FirstContact.Step>)
    requires AccountInv(a)
    ensures AccountInv(FirstContact.Run(a, steps))
  {
    if steps != [] {
      RunKeepsAccountInv(a, steps[..|steps| - 1]);
      var b := FirstContact.Run(a, steps[..|steps| - 1]);
      if Enabled(b, steps[|steps| - 1]) {
        DoStores(b, steps[|steps| - 1]);
        DoNets(b, steps[|steps| - 1]);
      }
    }
  }
}
