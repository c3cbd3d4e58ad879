/** The account as the program keeps it: the ratchet in memory beside what is on disk,
    and operations that move both together. Every operation runs its writes under a
    savepoint and puts the ratchet back when any of them is refused. */
module Messenger {
  import opened Envelopes
  import opened Delivery
  import opened Outbox
  import opened Sending
  import opened Session
  import opened FirstContact

  datatype Verdict = Fine | Refused(why: Refusal)

  /** An operation either does all that is specified, or changes nothing and reports the
      specified refusal or a failure of the storage. */
  ghost predicate AllOrNothing(before: Account, after: Account, r: Verdict, specified: FirstContact.Result<Account>) {
    && (r.Fine? ==> specified == Ok(after))
    && (r.Refused? ==> after == before && (r.why == StorageDown || specified == Err(r.why)))
  }

  class Messenger {
    const client: Client
    var saved: Ratchet
    var conversations: map<Device, Bytes>
    var threads: map<Bytes, Bytes>
    var messages: seq<Own>
    var intents: seq<Intent>
    var mls: Ratchet
    var claims: map<Ref, Claim>
    ghost var created: set<Bytes>

    constructor ()
      ensures fresh(client) && fresh(client.store) && State() == EMPTY
    {
      client := new Client();
      saved, conversations, threads, messages, intents := map[], map[], map[], [], [];
      mls, claims, created := map[], map[], {};
    }

    function Disk(): Durable
      reads this
    {
      Durable(saved, conversations, threads, messages, intents)
    }

    ghost function State(): Account
      reads this, client, client.store
    {
      Account(Disk(), client.State(), mls, claims, created)
    }

    /** A write that the storage may refuse. */
    method Write() returns (ok: bool)
    {
      ok := *;
    }

    /** Back to a savepoint: everything on disk, and with it the ghost history. */
    method RollBack(durable: Durable, queue: seq<Envelope>, evidence: Evidence, ghost history: History, ghost started: set<Bytes>)
      modifies this`saved, this`conversations, this`threads, this`messages, this`intents, this`created
      modifies client`history, client.store
      ensures Disk() == durable && created == started && client.history == history
      ensures client.store.Contents() == Outbox.Disk(queue, evidence)
    {
      saved, conversations, threads := durable.mls, durable.conversations, durable.threads;
      messages, intents := durable.messages, durable.intents;
      client.store.queue, client.store.evidence := queue, evidence;
      client.history, created := history, started;
    }

    method ForgetSend(w: Intent) returns (ok: bool)
      modifies this`intents
      ensures intents == if ok then Forget(old(intents), w) else old(intents)
    {
      ok := Write();
      if ok { intents := Forget(intents, w); }
    }

    method RememberSend(w: Intent) returns (r: Verdict)
      modifies this`intents
      ensures r.Fine? ==> Remember(old(Disk()), w) == Ok(Disk())
      ensures r.Refused? ==> intents == old(intents) && (r.why == StorageDown || Remember(old(Disk()), w) == Err(r.why))
    {
      if Remembered(intents, w) { return Fine; }
      if |intents| >= MAX_INTENTS || BodySize(intents) + |w.body.text| > MAX_BYTES { return Refused(IntentsFull); }
      var ok := Write();
      if !ok { return Refused(StorageDown); }
      intents := intents + [w];
      r := Fine;
    }

    method Enqueue(batch: seq<Envelope>, now: int) returns (r: Verdict)
      modifies client`history, client.store
      ensures r.Fine? ==> Admit(old(client.State()), batch, now) == Ok(client.State())
      ensures r.Refused? ==>
        client.State() == old(client.State()) && (r.why == StorageDown || Admit(old(client.State()), batch, now) == Err(r.why))
    {
      var outcome := client.EnqueueBatch(batch, now);
      match outcome
      case Done => r := Fine;
      case Failed(DuplicateRef) => r := Refused(OutboxRefused(DuplicateRef));
      case Failed(QueueFull) => r := Refused(OutboxRefused(QueueFull));
      case Failed(StorageFailed) => r := Refused(StorageDown);
    }

    /** A message that is not in the history yet goes there. */
    method KeepOwnCopy(w: Intent, thread: Bytes, ref: Ref) returns (ok: bool)
      modifies this`messages
      ensures ok ==> messages == KeepOwn(old(Disk()), w, thread, ref).messages
    {
      ok := true;
      if !w.stored && KindOf(w.body) == Message {
        ok := Write();
        if ok { messages := messages + [Own(ref, thread, w.body)]; }
      }
    }

    /** The ratchet, the own copy, the ciphertext and the intent; what was written before
        a refusal stays for the caller to take back. */
    method WriteMessage(w: Intent, thread: Bytes, e: Envelope, now: int) returns (r: Verdict)
      modifies this`saved, this`messages, this`intents, client`history, client.store
      ensures r.Fine? ==> Admit(old(client.State()), [e], now) == Ok(client.State())
      ensures r.Fine? ==> Disk() == KeepOwn(old(Disk()), w, thread, e.clientRef).(mls := mls, intents := Forget(old(intents), w))
      ensures r.Refused? ==> r.why == StorageDown || Admit(old(client.State()), [e], now) == Err(r.why)
    {
      var ok := Write();
      if !ok { return Refused(StorageDown); }
      saved := mls;
      ok := KeepOwnCopy(w, thread, e.clientRef);
      if !ok { return Refused(StorageDown); }
      r := Enqueue([e], now);
      if r.Fine? {
        ok := ForgetSend(w);
        if !ok { r := Refused(StorageDown); }
      }
    }

    /** All of a message's writes as one change, or none of them. */
    method StoreMessage(w: Intent, thread: Bytes, e: Envelope, now: int) returns (r: Verdict)
      modifies this`saved, this`conversations, this`threads, this`messages, this`intents, this`created
      modifies client`history, client.store
      ensures r.Fine? ==> Admit(old(client.State()), [e], now) == Ok(client.State())
      ensures r.Fine? ==> Disk() == KeepOwn(old(Disk()), w, thread, e.clientRef).(mls := mls, intents := Forget(old(intents), w))
      ensures r.Fine? ==> created == old(created)
      ensures r.Refused? ==> State() == old(State())
      ensures r.Refused? ==> r.why == StorageDown || Admit(old(client.State()), [e], now) == Err(r.why)
    {
      var durable, queue, evidence := Disk(), client.store.queue, client.store.evidence;
      ghost var history, started := client.history, created;
      r := WriteMessage(w, thread, e, now);
      if r.Refused? {
        RollBack(durable, queue, evidence, history, started);
      }
    }

    method QueuePrivateMessage(g: Bytes, w: Intent, env: Env, ref: Ref) returns (r: Verdict)
      modifies this, client`history, client.store
      ensures AllOrNothing(old(State()), State(), r, QueuePrivate(old(State()), g, w, env, ref))
    {
      if Silenced(w, env) { return Fine; }
      if w.device in env.unpinned { return Refused(PinBlocked); }
      var thread := ThreadOf(Disk(), g);
      if w.body.id.Some? && AlreadyQueued(client.store.queue, thread, w.device, w.body.id.value) {
        var ok := ForgetSend(w);
        return if ok then Fine else Refused(StorageDown);
      }
      if g !in mls { return Refused(MissingGroup); }
      if mls[g].members != [w.device] { return Refused(WrongMembers); }
      var before := mls;
      var c := Application(g, mls[g].position, w.body.text, env.size);
      mls := mls[g := mls[g].(position := mls[g].position + 1)];
      r := StoreMessage(w, thread, MessageEnvelope(w, thread, c, env, ref), env.now);
      if r.Refused? { mls := before; }
    }

    method RekeyGroup(g: Bytes, env: Env, refs: seq<Ref>) returns (r: Verdict)
      requires g in mls ==> |refs| >= |mls[g].members|
      modifies this, client`history, client.store
      ensures AllOrNothing(old(State()), State(), r, Rekey(old(State()), g, env, refs))
    {
      if g !in mls { return Refused(MissingGroup); }
      var before := mls;
      var commit := Commit(g, mls[g].position, env.size);
      mls := mls[g := mls[g].(position := mls[g].position + 1)];
      var ok := Write();
      if !ok {
        mls := before;
        return Refused(StorageDown);
      }
      r := Enqueue(CommitBatch(before[g].members, g, commit, env, refs), env.now);
      if r.Refused? {
        mls := before;
      } else {
        saved := mls;
      }
    }

    method AttachChannel(device: Device, g: Bytes, identityThread: Option<Bytes>) returns (ok: bool, thread: Bytes)
      modifies this`conversations, this`threads
      ensures ok ==> (Disk(), thread) == Attach(old(Disk()), device, g, identityThread)
    {
      thread := if device in conversations then ThreadOf(Disk(), conversations[device])
                else if identityThread.Some? then identityThread.value
                else g;
      ok := Write();
      if ok {
        conversations := conversations[device := g];
        if thread != g {
          ok := Write();
          if ok { threads := threads[g := thread]; }
        }
      }
    }

    /** The group, its Welcome, and everything that waits for the device. The ratchet is
        left where it got to; the caller puts it back. */
    method StartGroup(w: Intent, g: Bytes, env: Env, refs: seq<Ref>) returns (r: Verdict)
      requires |refs| >= 2 + |intents|
      modifies this, client`history, client.store
      ensures r.Fine? ==> Establish(old(State()), w, true, g, env, refs) == Ok(State())
      ensures r.Refused? ==> r.why == StorageDown || Establish(old(State()), w, true, g, env, refs) == Err(r.why)
      ensures claims == old(claims)
    {
      r := OpenChannel(w, g, env, refs[0]);
      if r.Refused? { return; }
      ghost var b := State();
      r := QueuePrivateMessage(g, w, env, refs[1]);
      if r.Refused? { return; }
      QueuePrivateForgets(b, g, w, env, refs[1]);
      ForSize(intents, w.device);
      r := QueueEach(g, For(intents, w.device), env, refs[2..]);
    }

    /** The new group in the ratchet, attached and saved. */
    method SaveGroup(device: Device, g: Bytes, identityThread: Option<Bytes>) returns (ok: bool, thread: Bytes)
      modifies this`mls, this`saved, this`conversations, this`threads
      ensures mls == old(mls)[g := Group(0, [device])]
      ensures ok ==> Disk() == Attach(old(Disk()), device, g, identityThread).0.(mls := mls)
      ensures ok ==> thread == Attach(old(Disk()), device, g, identityThread).1
    {
      mls := mls[g := Group(0, [device])];
      ok, thread := AttachChannel(device, g, identityThread);
      if ok {
        ok := Write();
        if ok { saved := mls; }
      }
    }

    method OpenChannel(w: Intent, g: Bytes, env: Env, ref: Ref) returns (r: Verdict)
      modifies this, client`history, client.store
      ensures r.Fine? ==> Found(old(State()), w, true, g, env, ref) == Ok(State())
      ensures r.Refused? ==> r.why == StorageDown || Found(old(State()), w, true, g, env, ref) == Err(r.why)
      ensures claims == old(claims)
    {
      var ok, thread := SaveGroup(w.device, g, env.identityThread);
      if !ok { return Refused(StorageDown); }
      var welcome := EssentialEnvelope(w.device, thread, Welcome(g, env.size), env, ref);
      r := Enqueue([welcome], env.now);
      if r.Fine? { created := created + {g}; }
    }

    method QueueEach(g: Bytes, ws: seq<Intent>, env: Env, refs: seq<Ref>) returns (r: Verdict)
      requires |refs| >= |ws|
      modifies this, client`history, client.store
      ensures r.Fine? ==> QueueAll(old(State()), g, ws, env, refs) == Ok(State())
      ensures r.Refused? ==> r.why == StorageDown || QueueAll(old(State()), g, ws, env, refs) == Err(r.why)
      ensures claims == old(claims)
    {
      r := Fine;
      var k := 0;
      assert ws[0..] == ws && refs[0..] == refs;
      while k < |ws|
        invariant k <= |ws| && r.Fine? && claims == old(claims)
        invariant QueueAll(old(State()), g, ws, env, refs) == QueueAll(State(), g, ws[k..], env, refs[k..])
      {
        QueueAllStep(State(), g, ws, k, env, refs);
        r := QueuePrivateMessage(g, ws[k], env, refs[k]);
        if r.Refused? { return; }
        k := k + 1;
      }
    }

    /** The answer to a claim. Whatever goes wrong, the claim is no longer outstanding,
        and of a first contact that was refused nothing else remains. */
    method OnKeyPackage(claim: Ref, valid: Option<bool>, g: Bytes, env: Env, refs: seq<Ref>) returns (stored: bool)
      requires |refs| >= 2 + |intents|
      modifies this, client`history, client.store
      ensures State() == Arrive(old(State()), claim, valid, g, env, refs, stored)
    {
      stored := true;
      if claim !in claims { return; }
      var why := claims[claim];
      claims := claims - {claim};
      if valid == None || why.Invite? || why.intent.device in env.unpinned { return; }
      if !valid.value { return; }
      var before, durable, queue, evidence := mls, Disk(), client.store.queue, client.store.evidence;
      ghost var history, started := client.history, created;
      var r := StartGroup(why.intent, g, env, refs);
      if r.Refused? {
        stored := r.why != StorageDown;
        RollBack(durable, queue, evidence, history, started);
        mls := before;
      }
    }

    /** Sends now, or remembers the message and asks for a key package. */
    method DeliverTo(w: Intent, env: Env, ref: Ref) returns (r: Verdict, wrote: bool)
      modifies this, client`history, client.store
      ensures AllOrNothing(old(State()), State(), r, FirstContact.Deliver(old(State()), w, env, ref, wrote))
    {
      wrote := true;
      if w.device in env.blocked {
        var ok := ForgetSend(w);
        return (if ok then Fine else Refused(StorageDown)), true;
      }
      if w.device in env.unpinned { return Fine, true; }
      if w.device in conversations && w.body != CHANNEL_READY && conversations[w.device] in mls {
        r := QueuePrivateMessage(conversations[w.device], w, env, ref);
        return;
      }
      r := RememberSend(w);
      if r.Refused? { return; }
      var outstanding := Outstanding(w.device);
      if outstanding { return; }
      wrote := Write();
      if wrote { claims := claims[ref := Start(w)]; }
    }

    method Outstanding(device: Device) returns (found: bool)
      ensures found <==> Claimed(claims, device)
    {
      found := false;
      var rest := claims.Keys;
      while rest != {}
        invariant rest <= claims.Keys
        invariant forall r :: r in claims.Keys - rest ==> !(claims[r].Start? && claims[r].intent.device == device)
      {
        var r :| r in rest;
        if claims[r].Start? && claims[r].intent.device == device { return true; }
        rest := rest - {r};
      }
    }

    /** A conversation whose group is missing asks for a new one. */
    method RepairMissing(device: Device, env: Env, ref: Ref) returns (wrote: bool)
      modifies this`claims
      ensures State() == Repair(old(State()), device, env, ref, wrote)
    {
      wrote := true;
      if device !in conversations || conversations[device] in mls { return; }
      if device in env.blocked || device in env.unpinned { return; }
      var outstanding := Outstanding(device);
      if outstanding { return; }
      wrote := Write();
      if wrote { claims := claims[ref := Start(Intent(device, CHANNEL_READY, true))]; }
    }
  }

  lemma QueueAllStep(a: Account, g: Bytes, ws: seq<Intent>, k: nat, env: Env, refs: seq<Ref>)
    requires k < |ws| <= |refs|
    ensures QueueAll(a, g, ws[k..], env, refs[k..]) ==
      match QueuePrivate(a, g, ws[k], env, refs[k])
      case Err(e) => Err(e)
      case Ok(b) => QueueAll(b, g, ws[k + 1..], env, refs[k + 1..])
  {
    assert ws[k..][0] == ws[k] && ws[k..][1..] == ws[k + 1..];
    assert refs[k..][0] == refs[k] && refs[k..][1..] == refs[k + 1..];
  }
}
