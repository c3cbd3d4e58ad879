/** The promises of sending and first contact, for every account that any sequence of
    steps can reach. */
module FirstContactPromises {
  import opened Envelopes
  import opened Outbox
  import opened Sending
  import opened SendingSafety
  import opened FirstContact
  import opened FirstContactSafety

  ghost function Reached(steps: seq<FirstContact.Step>): Account {
    FirstContact.Run(EMPTY, steps)
  }

  /** Some run leads to this account. */
  ghost predicate Reachable(a: Account) {
    exists steps :: Reached(steps) == a
  }

  lemma ReachableInv(a: Account)
    requires Reachable(a)
    ensures AccountInv(a)
  {
    var steps :| Reached(steps) == a;
    RunKeepsAccountInv(EMPTY, steps);
  }

  lemma ReachMore(a: Account, s: FirstContact.Step)
    requires Reachable(a) && Enabled(a, s)
    ensures Reachable(Do(a, s))
  {
    var steps :| Reached(steps) == a;
    assert (steps + [s])[..|steps|] == steps;
    assert Reached(steps + [s]) == Do(a, s);
  }

  /** The ratchet in memory is the one on disk, whatever was refused on the way. */
  lemma RatchetIsDurable(a: Account)
    requires Reachable(a)
    ensures a.ratchet == a.durable.mls
  {
    ReachableInv(a);
  }

  /** Although a refused operation gives its ratchet position back, no position is ever
      stored under two plaintexts: of two stored ciphertexts at one position of a group
      both are the same commit. */
  lemma PositionsAreUsedOnce(a: Account, m: nat, n: nat)
    requires Reachable(a) && m < n < |a.net.history.log|
    requires SamePosition(a.net.history.log[m].ciphertext, a.net.history.log[n].ciphertext)
    ensures a.net.history.log[m].ciphertext == a.net.history.log[n].ciphertext
    ensures a.net.history.log[m].ciphertext.Commit?
  {
    ReachableInv(a);
  }

  /** What is stored was made at a position that the ratchet on disk has left behind, so
      a restart does not make it again. */
  lemma StoredPositionsArePassed(a: Account, n: nat)
    requires Reachable(a) && n < |a.net.history.log| && !a.net.history.log[n].ciphertext.Welcome?
    ensures var c := a.net.history.log[n].ciphertext;
            c.group in a.durable.mls && c.position < a.durable.mls[c.group].position
  {
    ReachableInv(a);
  }

  /** At most one key package is on its way for a device. */
  lemma OneClaimPerDevice(a: Account, r: Ref, r': Ref)
    requires Reachable(a) && r in a.claims && r' in a.claims && SamePurpose(a.claims[r], a.claims[r'])
    ensures r == r'
  {
    ReachableInv(a);
  }

  /** One logical message is never queued twice for a device. */
  lemma NothingQueuedTwice(a: Account, i: nat, j: nat)
    requires Reachable(a) && i < j < |a.net.disk.queue|
    ensures !Twins(a.net.disk.queue[i], a.net.disk.queue[j])
  {
    ReachableInv(a);
    var s := a.net;
    assert s.disk.queue[i] in s.disk.queue && s.disk.queue[j] in s.disk.queue;
    assert s.history.born[s.disk.queue[i].clientRef] < s.history.born[s.disk.queue[j].clientRef];
  }

  /** Of a group started here everything but the Welcome was stored after the Welcome for
      its device, and was transmitted only once that Welcome had left the queue. */
  lemma WelcomeLeavesFirst(a: Account, k: nat) returns (m: nat)
    requires Reachable(a) && k < |a.net.history.sent|
    requires !a.net.history.sent[k].ciphertext.Welcome? && a.net.history.sent[k].ciphertext.group in a.created
    ensures var h := a.net.history; var t := h.sent[k];
            && WelcomeAt(h.log, m, t.ciphertext.group, t.device)
            && t.ref in h.born && m < h.born[t.ref]
            && h.log[m].clientRef in t.gone
  {
    ReachableInv(a);
    m := WelcomeBefore(a, k);
  }

  lemma WelcomeBefore(a: Account, k: nat) returns (m: nat)
    requires AccountInv(a) && k < |a.net.history.sent|
    requires !a.net.history.sent[k].ciphertext.Welcome? && a.net.history.sent[k].ciphertext.group in a.created
    ensures var h := a.net.history; var t := h.sent[k];
            && WelcomeAt(h.log, m, t.ciphertext.group, t.device)
            && t.ref in h.born && m < h.born[t.ref]
            && h.log[m].clientRef in t.gone
  {
    var h := a.net.history;
    var t := h.sent[k];
    assert Rightful(h, t);
    var n := h.born[t.ref];
    assert !h.log[n].ciphertext.Welcome? && h.log[n].ciphertext.group in a.created;
    var i :| WelcomeAt(h.log, i, h.log[n].ciphertext.group, h.log[n].device) && i < n;
    m := i;
    assert Depends(h.log[m], Origin(h, t.ref));
  }

  // ----- Nothing that waits is lost -----

  predicate Carries(e: Envelope, v: Intent) {
    e.device == v.device && e.logicalId == v.body.id && e.ciphertext.Application? && e.ciphertext.text == v.body.text
  }

  /** The outbox of `b` answers for an intent: it holds an envelope, new since `a`, that
      carries the message, or one for the same device under the same logical id. */
  ghost predicate Answered(a: Account, b: Account, v: Intent) {
    || (exists e :: e in b.net.disk.queue && Carries(e, v) && e.clientRef !in a.net.history.born)
    || (v.body.id.Some? && exists e :: e in b.net.disk.queue && e.device == v.device && e.logicalId == v.body.id)
  }

  ghost predicate Cleared(a: Account, s: FirstContact.Step, v: Intent) {
    match s
    case Delivers(w, env, _, _, _) => SameIntent(v, w) && w.device in env.blocked
    case Clears(thread) => InThread(a.durable, v.device, thread)
    case Forgets(conversation) => InThread(a.durable, v.device, conversation)
    case _ => false
  }

  lemma SendsAnswers(a: Account, b: Account, g: Bytes, w: Intent, env: Env, ref: Ref, stored: bool, v: Intent)
    requires ref !in a.net.history.born && b == Settle(a, QueuePrivate(a, g, w, env, ref), stored)
    requires v in a.durable.intents && v !in b.durable.intents
    ensures Answered(a, b, v)
  {
    QueuePrivateAnswers(a, b, g, w, env, ref, v);
  }

  lemma DeliversAnswers(a: Account, b: Account, w: Intent, env: Env, ref: Ref, stored: bool, wrote: bool, v: Intent)
    requires ref !in a.net.history.born && b == Settle(a, Deliver(a, w, env, ref, wrote), stored)
    requires v in a.durable.intents && v !in b.durable.intents
    ensures (SameIntent(v, w) && w.device in env.blocked) || Answered(a, b, v)
  {
    if w.device !in env.blocked && w.device !in env.unpinned && HasChannel(a, w) {
      QueuePrivateAnswers(a, b, a.durable.conversations[w.device], w, env, ref, v);
    }
  }

  lemma ArrivesAnswers(a: Account, d: Account, claim: Ref, valid: Option<bool>, g: Bytes, env: Env, refs: seq<Ref>, stored: bool, v: Intent)
    requires Unused(a, refs) && |refs| >= 2 + |a.durable.intents| && d == Arrive(a, claim, valid, g, env, refs, stored)
    requires v in a.durable.intents && v !in d.durable.intents
    ensures Answered(a, d, v)
  {
    var b := a.(claims := a.claims - {claim});
    EstablishAnswers(b, d, a.claims[claim].intent, valid.value, g, env, refs, v);
  }

  /** A step takes a waiting message off the list only when the outbox answers for it
      from then on, or its peer is blocked, or its thread is cleared or forgotten. */
  lemma IntentLeavesOnlyBy(a: Account, s: FirstContact.Step, v: Intent)
    requires Enabled(a, s) && v in a.durable.intents && v !in Do(a, s).durable.intents
    ensures Cleared(a, s, v) || Answered(a, Do(a, s), v)
  {
    match s
    case Sends(g, w, env, ref, stored) =>
      assert [ref][0] == ref;
      SendsAnswers(a, Do(a, s), g, w, env, ref, stored, v);
    case Delivers(w, env, ref, stored, wrote) =>
      assert [ref][0] == ref;
      DeliversAnswers(a, Do(a, s), w, env, ref, stored, wrote, v);
    case Arrives(claim, valid, g, env, refs, stored) => ArrivesAnswers(a, Do(a, s), claim, valid, g, env, refs, stored, v);
    case _ =>
  }

  /** What an operation that only adds to the outbox keeps. */
  ghost predicate Widens(a: Account, b: Account) {
    && (forall e :: e in a.net.disk.queue ==> e in b.net.disk.queue)
    && a.net.history.born.Keys <= b.net.history.born.Keys
  }

  lemma QueuePrivateWidens(a: Account, b: Account, g: Bytes, w: Intent, env: Env, ref: Ref)
    requires QueuePrivate(a, g, w, env, ref) == Ok(b)
    ensures Widens(a, b) && b.net.history.born.Keys <= a.net.history.born.Keys + {ref}
  {
    var added := QueuePrivateAdds(a, b, g, w, env, ref);
    if added.Some? {
      AdmitAdds(a.net, b.net, [added.value], env.now);
      SingleRef(added.value);
    }
  }

  lemma QueuePrivateAnswers(a: Account, b: Account, g: Bytes, w: Intent, env: Env, ref: Ref, v: Intent)
    requires QueuePrivate(a, g, w, env, ref) == Ok(b) && ref !in a.net.history.born
    requires v in a.durable.intents && v !in b.durable.intents
    ensures SameIntent(v, w) && Answered(a, b, v)
  {
    var thread := ThreadOf(a.durable, g);
    if w.body.id.Some? && AlreadyQueued(a.net.disk.queue, thread, w.device, w.body.id.value) {
      var i :| 0 <= i < |a.net.disk.queue| && a.net.disk.queue[i].conversation == thread
               && a.net.disk.queue[i].device == w.device && a.net.disk.queue[i].logicalId == Some(w.body.id.value);
      assert a.net.disk.queue[i] in b.net.disk.queue;
    } else {
      var e := MessageEnvelope(w, thread, Encrypt(a.ratchet, g, w, env.size).value.1, env, ref);
      AdmitAdds(a.net, b.net, [e], env.now);
      assert e in b.net.disk.queue && Carries(e, v);
    }
  }

  lemma AnsweredLater(a: Account, b: Account, c: Account, d: Account, v: Intent)
    requires a.net.history.born.Keys <= b.net.history.born.Keys
    requires Answered(b, c, v) && Widens(c, d)
    ensures Answered(a, d, v)
  {
    if e :| e in c.net.disk.queue && Carries(e, v) && e.clientRef !in b.net.history.born {
      assert e in d.net.disk.queue;
    } else {
      var e :| e in c.net.disk.queue && e.device == v.device && e.logicalId == v.body.id;
      assert e in d.net.disk.queue;
    }
  }

  lemma {:induction false} QueueAllWidens(a: Account, b: Account, g: Bytes, ws: seq<Intent>, env: Env, refs: seq<Ref>)
    requires |refs| >= |ws| && QueueAll(a, g, ws, env, refs) == Ok(b)
    ensures Widens(a, b)
    decreases |ws|
  {
    if ws != [] {
      var c := QueuePrivate(a, g, ws[0], env, refs[0]).value;
      QueuePrivateWidens(a, c, g, ws[0], env, refs[0]);
      QueueAllWidens(c, b, g, ws[1..], env, refs[1..]);
    }
  }

  lemma {:induction false} QueueAllAnswers(
      a: Account, b: Account, g: Bytes, ws: seq<Intent>, env: Env, refs: seq<Ref>, v: Intent)
    requires |refs| >= |ws| && QueueAll(a, g, ws, env, refs) == Ok(b) && Unused(a, refs)
    requires v in a.durable.intents && v !in b.durable.intents
    ensures Answered(a, b, v)
    decreases |ws|
  {
    if ws != [] {
      var c := QueuePrivate(a, g, ws[0], env, refs[0]).value;
      QueuePrivateWidens(a, c, g, ws[0], env, refs[0]);
      QueueAllWidens(c, b, g, ws[1..], env, refs[1..]);
      if v in c.durable.intents {
        StillUnused(a, c, refs);
        QueueAllAnswers(c, b, g, ws[1..], env, refs[1..], v);
        AnsweredLater(a, c, b, b, v);
      } else {
        QueuePrivateAnswers(a, c, g, ws[0], env, refs[0], v);
        AnsweredLater(a, a, c, b, v);
      }
    }
  }

  lemma FoundWidens(a: Account, b: Account, w: Intent, valid: bool, g: Bytes, env: Env, ref: Ref)
    requires Found(a, w, valid, g, env, ref) == Ok(b)
    ensures Widens(a, b) && b.net.history.born.Keys <= a.net.history.born.Keys + {ref}
    ensures b.durable.intents == a.durable.intents
  {
    var e := FoundAdds(a, b, w, valid, g, env, ref);
    AdmitAdds(a.net, b.net, [e], env.now);
    SingleRef(e);
  }

  lemma EstablishAnswers(a: Account, d: Account, w: Intent, valid: bool, g: Bytes, env: Env, refs: seq<Ref>, v: Intent)
    requires |refs| >= 2 + |a.durable.intents| && Establish(a, w, valid, g, env, refs) == Ok(d) && Unused(a, refs)
    requires v in a.durable.intents && v !in d.durable.intents
    ensures Answered(a, d, v)
  {
    var b, c := EstablishStages(a, d, w, valid, g, env, refs);
    FoundWidens(a, b, w, valid, g, env, refs[0]);
    QueuePrivateWidens(b, c, g, w, env, refs[1]);
    QueueAllWidens(c, d, g, For(c.durable.intents, w.device), env, refs[2..]);
    StillUnused(a, b, refs);
    assert refs[1..][0] == refs[1] && refs[1..][1..] == refs[2..];
    if v in c.durable.intents {
      StillUnused(b, c, refs[1..]);
      QueueAllAnswers(c, d, g, For(c.durable.intents, w.device), env, refs[2..], v);
      AnsweredLater(a, c, d, d, v);
    } else {
      QueuePrivateAnswers(b, c, g, w, env, refs[1], v);
      AnsweredLater(a, b, c, d, v);
    }
  }

  ghost predicate Excused(steps: seq<FirstContact.Step>, n: nat, v: Intent)
    requires n < |steps|
  {
    var a := Reached(steps[..n]);
    Enabled(a, steps[n]) && (Cleared(a, steps[n], v) || Answered(a, Reached(steps[..n + 1]), v))
  }

  /** Over whole runs: a message that waited at some point and no longer waits at the
      end was answered for by the outbox, or was cleared, at some step in between. */
  lemma {:induction false} NothingWaitingIsLost(steps: seq<FirstContact.Step>, from: nat, v: Intent)
    requires from <= |steps| && v in Reached(steps[..from]).durable.intents
    ensures v in Reached(steps).durable.intents || exists n :: from <= n < |steps| && Excused(steps, n, v)
    decreases |steps|
  {
    if from == |steps| {
      assert steps[..from] == steps;
    } else {
      var init, last := steps[..|steps| - 1], steps[|steps| - 1];
      assert init[..from] == steps[..from];
      NothingWaitingIsLost(init, from, v);
      if v in Reached(init).durable.intents {
        if v !in Reached(steps).durable.intents {
          IntentLeavesOnlyBy(Reached(init), last, v);
          assert steps[..|steps| - 1 + 1] == steps;
          assert Excused(steps, |steps| - 1, v);
        }
      } else {
        var n :| from <= n < |init| && Excused(init, n, v);
        assert init[..n] == steps[..n] && init[..n + 1] == steps[..n + 1];
        assert Excused(steps, n, v);
      }
    }
  }

  // ----- A first contact serves everything that waits -----

  /** After a first contact with a device nothing waits for that device any more, but
      for activity that it may not be told. */
  lemma EstablishServesAll(a: Account, d: Account, w: Intent, valid: bool, g: Bytes, env: Env, refs: seq<Ref>, v: Intent)
    requires |refs| >= 2 + |a.durable.intents| && Establish(a, w, valid, g, env, refs) == Ok(d)
    requires v in d.durable.intents && v.device == w.device
    ensures Silenced(v, env)
  {
    var b, c := EstablishStages(a, d, w, valid, g, env, refs);
    QueueAllServes(c, d, g, For(c.durable.intents, w.device), env, refs[2..], v);
  }

  lemma {:induction false} QueueAllServes(
      a: Account, b: Account, g: Bytes, ws: seq<Intent>, env: Env, refs: seq<Ref>, v: Intent)
    requires |refs| >= |ws| && QueueAll(a, g, ws, env, refs) == Ok(b)
    requires v in b.durable.intents
    ensures v in a.durable.intents && (v in ws ==> Silenced(v, env))
    decreases |ws|
  {
    if ws != [] {
      var c := QueuePrivate(a, g, ws[0], env, refs[0]).value;
      QueueAllServes(c, b, g, ws[1..], env, refs[1..], v);
      assert v in c.durable.intents;
    }
  }

  // ----- The conversation's own history -----

  ghost predicate Sourced(o: Own, log: seq<Envelope>) {
    exists e :: e in log && e.clientRef == o.id && e.conversation == o.thread && e.kind == Message
                && e.ciphertext.Application? && e.ciphertext.text == o.body.text
  }

  ghost predicate DistinctIds(messages: seq<Own>) {
    forall i, j :: 0 <= i < j < |messages| ==> messages[i].id != messages[j].id
  }

  ghost predicate OwnInv(a: Account) {
    && (forall i :: 0 <= i < |a.durable.messages| ==>
          a.durable.messages[i].id in a.net.history.born && Sourced(a.durable.messages[i], a.net.history.log))
    && DistinctIds(a.durable.messages)
  }

  lemma OwnStays(a: Account, b: Account)
    requires OwnInv(a) && b.durable.messages == a.durable.messages
    requires forall e :: e in a.net.history.log ==> e in b.net.history.log
    requires a.net.history.born.Keys <= b.net.history.born.Keys
    ensures OwnInv(b)
  {
    forall i | 0 <= i < |b.durable.messages| ensures Sourced(b.durable.messages[i], b.net.history.log) {
      assert Sourced(a.durable.messages[i], a.net.history.log);
    }
  }

  /** Nothing sent, or one more ciphertext whose plaintext may join the history. */
  lemma OneMoreOwn(a: Account, b: Account, e: Envelope, now: int, o: Own)
    requires OwnInv(a) && Admit(a.net, [e], now) == Ok(b.net) && e.clientRef !in a.net.history.born
    requires e.clientRef == o.id && e.conversation == o.thread && e.kind == Message
    requires e.ciphertext.Application? && e.ciphertext.text == o.body.text
    requires b.durable.messages == a.durable.messages + [o]
    ensures OwnInv(b)
  {
    AdmitAdds(a.net, b.net, [e], now);
    SingleRef(e);
    OwnStays(a, b.(durable := a.durable));
    assert e in b.net.history.log;
    assert Sourced(o, b.net.history.log);
  }

  lemma NoMoreOwn(a: Account, b: Account, e: Envelope, now: int)
    requires OwnInv(a) && Admit(a.net, [e], now) == Ok(b.net) && b.durable.messages == a.durable.messages
    ensures OwnInv(b)
  {
    AdmitAdds(a.net, b.net, [e], now);
    OwnStays(a, b);
  }

  lemma QueuePrivateOwn(a: Account, b: Account, g: Bytes, w: Intent, env: Env, ref: Ref)
    requires OwnInv(a) && ref !in a.net.history.born && QueuePrivate(a, g, w, env, ref) == Ok(b)
    ensures OwnInv(b)
  {
    var thread := ThreadOf(a.durable, g);
    if Silenced(w, env) || (w.body.id.Some? && AlreadyQueued(a.net.disk.queue, thread, w.device, w.body.id.value)) {
      OwnStays(a, b);
    } else {
      var e := MessageEnvelope(w, thread, Encrypt(a.ratchet, g, w, env.size).value.1, env, ref);
      if !w.stored && KindOf(w.body) == Message {
        OneMoreOwn(a, b, e, env.now, Own(ref, thread, w.body));
      } else {
        NoMoreOwn(a, b, e, env.now);
      }
    }
  }

  lemma {:induction false} QueueAllOwn(a: Account, b: Account, g: Bytes, ws: seq<Intent>, env: Env, refs: seq<Ref>)
    requires OwnInv(a) && Unused(a, refs) && |refs| >= |ws| && QueueAll(a, g, ws, env, refs) == Ok(b)
    ensures OwnInv(b)
    decreases |ws|
  {
    if ws != [] {
      var c := QueuePrivate(a, g, ws[0], env, refs[0]).value;
      QueuePrivateOwn(a, c, g, ws[0], env, refs[0]);
      QueuePrivateWidens(a, c, g, ws[0], env, refs[0]);
      StillUnused(a, c, refs);
      QueueAllOwn(c, b, g, ws[1..], env, refs[1..]);
    }
  }

  lemma EstablishOwn(a: Account, d: Account, w: Intent, valid: bool, g: Bytes, env: Env, refs: seq<Ref>)
    requires OwnInv(a) && Unused(a, refs)
    requires |refs| >= 2 + |a.durable.intents| && Establish(a, w, valid, g, env, refs) == Ok(d)
    ensures OwnInv(d)
  {
    var b, c := EstablishStages(a, d, w, valid, g, env, refs);
    var e := FoundAdds(a, b, w, valid, g, env, refs[0]);
    AdmitAdds(a.net, b.net, [e], env.now);
    SingleRef(e);
    OwnStays(a, b);
    StillUnused(a, b, refs);
    assert refs[1..][0] == refs[1] && refs[1..][1..] == refs[2..];
    QueuePrivateOwn(b, c, g, w, env, refs[1]);
    QueuePrivateWidens(b, c, g, w, env, refs[1]);
    StillUnused(b, c, refs[1..]);
    QueueAllOwn(c, d, g, For(c.durable.intents, w.device), env, refs[2..]);
  }

  lemma DeliverOwn(a: Account, b: Account, w: Intent, env: Env, ref: Ref, wrote: bool)
    requires OwnInv(a) && ref !in a.net.history.born && Deliver(a, w, env, ref, wrote) == Ok(b)
    ensures OwnInv(b)
  {
    if w.device !in env.blocked + env.unpinned && HasChannel(a, w) {
      QueuePrivateOwn(a, b, a.durable.conversations[w.device], w, env, ref);
    } else {
      OwnStays(a, b);
    }
  }

  lemma ArriveOwn(a: Account, claim: Ref, valid: Option<bool>, g: Bytes, env: Env, refs: seq<Ref>, stored: bool, d: Account)
    requires OwnInv(a) && Unused(a, refs) && |refs| >= 2 + |a.durable.intents|
    requires d == Arrive(a, claim, valid, g, env, refs, stored)
    ensures OwnInv(d)
  {
    if claim in a.claims {
      var c := a.(claims := a.claims - {claim});
      OwnStays(a, c);
      if valid.Some? && a.claims[claim].Start? && a.claims[claim].intent.device !in env.unpinned && stored
         && Establish(c, a.claims[claim].intent, valid.value, g, env, refs).Ok? {
        EstablishOwn(c, d, a.claims[claim].intent, valid.value, g, env, refs);
      }
    }
  }

  lemma RekeyOwn(a: Account, b: Account, g: Bytes, env: Env, refs: seq<Ref>)
    requires OwnInv(a) && (g in a.ratchet ==> |refs| >= |a.ratchet[g].members|) && Rekey(a, g, env, refs) == Ok(b)
    ensures OwnInv(b)
  {
    var batch := CommitBatch(a.ratchet[g].members, g, Commit(g, a.ratchet[g].position, env.size), env, refs);
    AdmitAdds(a.net, b.net, batch, env.now);
    OwnStays(a, b);
  }

  lemma DistinctTail(messages: seq<Own>)
    requires DistinctIds(messages) && messages != []
    ensures DistinctIds(messages[1..]) && forall o :: o in messages[1..] ==> o.id != messages[0].id
  {
    forall o | o in messages[1..] ensures o.id != messages[0].id {
      var i :| 0 <= i < |messages[1..]| && messages[1..][i] == o;
      assert messages[1 + i] == o;
    }
  }

  lemma DistinctCons(o: Own, rest: seq<Own>)
    requires DistinctIds(rest) && forall p :: p in rest ==> p.id != o.id
    ensures DistinctIds([o] + rest)
  {
    var r := [o] + rest;
    forall i, j | 0 <= i < j < |r| ensures r[i].id != r[j].id {
      assert r[j] == rest[j - 1] && rest[j - 1] in rest;
    }
  }

  lemma {:induction false} ElsewhereIsPart(messages: seq<Own>, thread: Bytes)
    requires DistinctIds(messages)
    ensures DistinctIds(MessagesElsewhere(messages, thread))
  {
    if messages != [] {
      var rest := MessagesElsewhere(messages[1..], thread);
      DistinctTail(messages);
      ElsewhereIsPart(messages[1..], thread);
      DistinctCons(messages[0], rest);
      assert [] + rest == rest;
    }
  }

  lemma ClearOwn(a: Account, b: Account, thread: Bytes)
    requires OwnInv(a) && b.net == a.net && b.durable.messages == MessagesElsewhere(a.durable.messages, thread)
    ensures OwnInv(b)
  {
    ElsewhereIsPart(a.durable.messages, thread);
    forall i | 0 <= i < |b.durable.messages|
      ensures b.durable.messages[i].id in b.net.history.born && Sourced(b.durable.messages[i], b.net.history.log)
    {
      assert b.durable.messages[i] in a.durable.messages;
    }
  }

  lemma NetworkOwn(a: Account, b: Account, e: Event)
    requires OwnInv(a) && !e.Enqueuing? && b.net == Next(a.net, e) && b.durable.messages == a.durable.messages
    ensures OwnInv(b)
  {
    NextNarrows(a.net, e);
    OwnStays(a, b);
  }

  lemma DoOwn(a: Account, s: FirstContact.Step)
    requires OwnInv(a) && Enabled(a, s)
    ensures OwnInv(Do(a, s))
  {
    match s
    case Sends(g, w, env, ref, _) =>
      assert [ref][0] == ref;
      if QueuePrivate(a, g, w, env, ref).Ok? { QueuePrivateOwn(a, QueuePrivate(a, g, w, env, ref).value, g, w, env, ref); }
    case Delivers(w, env, ref, _, wrote) =>
      assert [ref][0] == ref;
      if Deliver(a, w, env, ref, wrote).Ok? { DeliverOwn(a, Deliver(a, w, env, ref, wrote).value, w, env, ref, wrote); }
    case Arrives(claim, valid, g, env, refs, stored) => ArriveOwn(a, claim, valid, g, env, refs, stored, Do(a, s));
    case Rekeys(g, env, refs, _) =>
      if Rekey(a, g, env, refs).Ok? { RekeyOwn(a, Rekey(a, g, env, refs).value, g, env, refs); }
    case Clears(thread) => ClearOwn(a, Do(a, s), thread);
    case Forgets(conversation) => ClearOwn(a, Do(a, s), conversation);
    case Reconnects => NetworkOwn(a, Do(a, s), NetworkLost);
    case Network(e) => NetworkOwn(a, Do(a, s), e);
    case _ => OwnStays(a, Do(a, s));
  }

  /** The own history says what was sent: every message in it is, once, the plaintext of
      the ciphertext that was stored in the outbox under the same reference. */
  lemma {:induction false} OwnHistoryIsWhatWasSent(steps: seq<FirstContact.Step>)
    ensures OwnInv(Reached(steps))
  {
    if steps != [] {
      OwnHistoryIsWhatWasSent(steps[..|steps| - 1]);
      var b := Reached(steps[..|steps| - 1]);
      if Enabled(b, steps[|steps| - 1]) {
        DoOwn(b, steps[|steps| - 1]);
      }
    }
  }

  // ----- A channel that is missing -----

  /** A linked history leaves a conversation without its group, and then the repair asks
      for a key package: the branch is one that runs take. */
  lemma RepairActs(device: Device, group: Bytes, env: Env, ref: Ref) returns (a: Account)
    requires device !in env.blocked + env.unpinned
    ensures Reachable(a) && device in a.durable.conversations && a.durable.conversations[device] !in a.ratchet
    ensures Repair(a, device, env, ref, true).claims == map[ref := Start(Intent(device, CHANNEL_READY, true))]
    ensures Reachable(Repair(a, device, env, ref, true))
  {
    assert Reached([]) == EMPTY;
    a := Do(EMPTY, Imports(device, group));
    ReachMore(EMPTY, Imports(device, group));
    ReachMore(a, Repairs(device, env, ref, true));
  }

  ghost predicate SameChannels(a: Account, b: Account) {
    && b.durable.conversations == a.durable.conversations && b.durable.threads == a.durable.threads
    && a.ratchet.Keys <= b.ratchet.Keys
  }

  lemma QueuePrivateKeepsChannels(a: Account, b: Account, g: Bytes, w: Intent, env: Env, ref: Ref)
    requires QueuePrivate(a, g, w, env, ref) == Ok(b)
    ensures SameChannels(a, b)
  {
  }

  lemma {:induction false} QueueAllKeepsChannels(a: Account, b: Account, g: Bytes, ws: seq<Intent>, env: Env, refs: seq<Ref>)
    requires |refs| >= |ws| && QueueAll(a, g, ws, env, refs) == Ok(b)
    ensures SameChannels(a, b)
    decreases |ws|
  {
    if ws != [] {
      var c := QueuePrivate(a, g, ws[0], env, refs[0]).value;
      QueuePrivateKeepsChannels(a, c, g, ws[0], env, refs[0]);
      QueueAllKeepsChannels(c, b, g, ws[1..], env, refs[1..]);
    }
  }

  /** A first contact with a device that was talked to before, as after a repair, puts the
      new group in the place of the missing one and leaves the conversation in its thread,
      with all that is in it. */
  lemma NewGroupKeepsTheThread(a: Account, d: Account, w: Intent, valid: bool, g: Bytes, env: Env, refs: seq<Ref>)
    requires |refs| >= 2 + |a.durable.intents| && Establish(a, w, valid, g, env, refs) == Ok(d)
    requires w.device in a.durable.conversations && g !in a.durable.threads
    ensures w.device in d.durable.conversations && d.durable.conversations[w.device] == g && g in d.ratchet
    ensures ThreadOf(d.durable, g) == ThreadOf(a.durable, a.durable.conversations[w.device])
    ensures forall e :: e in a.durable.conversations && e != w.device ==>
      e in d.durable.conversations && d.durable.conversations[e] == a.durable.conversations[e]
  {
    var b, c := EstablishStages(a, d, w, valid, g, env, refs);
    FoundKeepsTheThread(a, b, w, valid, g, env, refs[0]);
    QueuePrivateKeepsChannels(b, c, g, w, env, refs[1]);
    QueueAllKeepsChannels(c, d, g, For(c.durable.intents, w.device), env, refs[2..]);
  }

  lemma FoundKeepsTheThread(a: Account, b: Account, w: Intent, valid: bool, g: Bytes, env: Env, ref: Ref)
    requires Found(a, w, valid, g, env, ref) == Ok(b) && w.device in a.durable.conversations && g !in a.durable.threads
    ensures b.durable.conversations == a.durable.conversations[w.device := g] && g in b.ratchet
    ensures ThreadOf(b.durable, g) == ThreadOf(a.durable, a.durable.conversations[w.device])
  {
  }

  // ----- Copies of one commit -----

  /** A group of three: its new epoch is one commit, stored once for each other member. */
  lemma CommitsAreCopied(g: Bytes, one: Device, two: Device) returns (a: Account)
    ensures Reachable(a) && |a.net.history.log| == 2
    ensures a.net.history.log[0].ciphertext == a.net.history.log[1].ciphertext == Commit(g, 0, 1)
    ensures a.net.history.log[0].device == one && a.net.history.log[1].device == two
  {
    var env, refs := Env({}, {}, true, false, None, 0, 1), [[0], [1]];
    assert Reached([]) == EMPTY;
    var b := Joined(EMPTY, g, [one, two]);
    ReachMore(EMPTY, Joins(g, [one, two]));
    var batch := CommitBatch([one, two], g, Commit(g, 0, 1), env, refs);
    TwoFit(batch);
    assert refs[0][0] != refs[1][0];
    a := Do(b, Rekeys(g, env, refs, true));
    ReachMore(b, Rekeys(g, env, refs, true));
    AdmitAdds(b.net, a.net, batch, 0);
    assert [] + batch == batch;
  }

  lemma TwoFit(batch: seq<Envelope>)
    requires |batch| == 2 && batch[0].ciphertext.size == batch[1].ciphertext.size == 1 && batch[0].clientRef != batch[1].clientRef
    ensures Fresh([], batch) && Fits([], batch)
  {
    assert batch[..1][..0] == [] && TotalSize(batch[..1][..0]) == 0;
    assert TotalSize(batch[..1]) == 1 && TotalSize(batch) == 2;
  }
}
