/** Sending and first contact: the MLS ratchet, the conversation's own history, the
    outbox with its evidence, and the list of messages that wait for a key package,
    moved together or not at all. The functions here say what each operation does when
    the storage works; a refused operation leaves the account as it was. */
module FirstContact {
  import opened Envelopes
  import opened Delivery
  import opened Outbox
  import opened Sending

  const CALL_TTL := 90_000
  const EPHEMERAL_TTL := 15_000
  const MAX_INTENTS := 128

  /** What a message body says about itself. */
  datatype Body = Body(
    text: Bytes,
    id: Option<Bytes>,
    control: bool,
    activity: bool,
    call: bool,
    media: bool)

  /** The body that asks for nothing but a working channel. */
  const CHANNEL_READY := Body([123, 125], None, true, false, false, false)

  /** A message that waits for the peer's key package. */
  datatype Intent = Intent(device: Device, body: Body, stored: bool)

  datatype Claim = Start(intent: Intent) | Invite(group: Bytes, device: Device)

  /** An MLS group: the next position of our ratchet, and the other members. */
  datatype Group = Group(position: nat, members: seq<Device>)

  type Ratchet = map<Bytes, Group>

  datatype Own = Own(id: Ref, thread: Bytes, body: Body)

  datatype Durable = Durable(
    mls: Ratchet,
    conversations: map<Device, Bytes>,
    threads: map<Bytes, Bytes>,
    messages: seq<Own>,
    intents: seq<Intent>)

  /** `created` names the groups this device started with a peer. */
  datatype Account = Account(
    durable: Durable,
    net: Net,
    ratchet: Ratchet,
    claims: map<Ref, Claim>,
    created: set<Bytes>)

  datatype Refusal =
    | PinBlocked | MissingGroup | WrongMembers | BadPackage
    | OutboxRefused(error: Error) | IntentsFull | StorageDown
  datatype Result<T> = Ok(value: T) | Err(refusal: Refusal)

  datatype Env = Env(
    blocked: set<Device>,
    unpinned: set<Device>,
    permits: bool,
    anonymousRequired: bool,
    identityThread: Option<Bytes>,
    now: int,
    size: nat)

  // ----- Envelopes -----

  function Priority(b: Body): nat {
    if b.call then 0 else if b.activity then 3 else if b.control then 0 else if b.media then 2 else 1
  }

  function KindOf(b: Body): Kind {
    if b.activity then Ephemeral else if b.control then Essential else Message
  }

  function Lifetime(b: Body): int {
    if b.call then CALL_TTL else if b.activity then EPHEMERAL_TTL else DEFAULT_TTL
  }

  function ThreadOf(d: Durable, group: Bytes): Bytes {
    if group in d.threads then d.threads[group] else group
  }

  function MessageEnvelope(w: Intent, thread: Bytes, c: Ciphertext, env: Env, ref: Ref): Envelope {
    Envelope(!env.anonymousRequired, Priority(w.body), env.now, ref, w.device, thread, w.body.id, c,
             KindOf(w.body), Some(env.now + Lifetime(w.body)))
  }

  function EssentialEnvelope(device: Device, thread: Bytes, c: Ciphertext, env: Env, ref: Ref): Envelope {
    Envelope(!env.anonymousRequired, 0, env.now, ref, device, thread, None, c,
             Essential, Some(env.now + DEFAULT_TTL))
  }

  ghost function Admit(net: Net, batch: seq<Envelope>, now: int): Result<Net> {
    if !Fresh(net.disk.queue, batch) then Err(OutboxRefused(DuplicateRef))
    else if !Fits(net.disk.queue, batch) then Err(OutboxRefused(QueueFull))
    else Ok(Enqueue(net, batch, now))
  }

  // ----- Intents -----

  predicate SameIntent(v: Intent, w: Intent) {
    v.device == w.device && v.body == w.body
  }

  predicate Remembered(intents: seq<Intent>, w: Intent) {
    exists i :: 0 <= i < |intents| && SameIntent(intents[i], w)
  }

  function Forget(intents: seq<Intent>, w: Intent): (r: seq<Intent>)
    ensures forall v :: v in r <==> v in intents && !SameIntent(v, w)
  {
    if intents == [] then []
    else (if SameIntent(intents[0], w) then [] else [intents[0]]) + Forget(intents[1..], w)
  }

  function For(intents: seq<Intent>, device: Device): (r: seq<Intent>)
    ensures forall v :: v in r <==> v in intents && v.device == device
  {
    if intents == [] then []
    else (if intents[0].device == device then [intents[0]] else []) + For(intents[1..], device)
  }

  function BodySize(intents: seq<Intent>): nat {
    if intents == [] then 0 else |intents[0].body.text| + BodySize(intents[1..])
  }

  function Remember(d: Durable, w: Intent): Result<Durable> {
    if Remembered(d.intents, w) then Ok(d)
    else if |d.intents| >= MAX_INTENTS || BodySize(d.intents) + |w.body.text| > MAX_BYTES then Err(IntentsFull)
    else Ok(d.(intents := d.intents + [w]))
  }

  // ----- Sending in an existing group -----

  predicate AlreadyQueued(q: seq<Envelope>, thread: Bytes, device: Device, id: Bytes) {
    exists i :: 0 <= i < |q| && q[i].conversation == thread && q[i].device == device && q[i].logicalId == Some(id)
  }

  predicate Silenced(w: Intent, env: Env) {
    w.body.activity && !w.body.call && !env.permits
  }

  function Encrypt(r: Ratchet, g: Bytes, w: Intent, size: nat): Result<(Ratchet, Ciphertext)> {
    if g !in r then Err(MissingGroup)
    else if r[g].members != [w.device] then Err(WrongMembers)
    else Ok((r[g := r[g].(position := r[g].position + 1)], Application(g, r[g].position, w.body.text, size)))
  }

  function KeepOwn(d: Durable, w: Intent, thread: Bytes, ref: Ref): Durable {
    if !w.stored && KindOf(w.body) == Message then d.(messages := d.messages + [Own(ref, thread, w.body)]) else d
  }

  ghost function QueuePrivate(a: Account, g: Bytes, w: Intent, env: Env, ref: Ref): Result<Account> {
    if Silenced(w, env) then Ok(a)
    else if w.device in env.unpinned then Err(PinBlocked)
    else
      var thread := ThreadOf(a.durable, g);
      if w.body.id.Some? && AlreadyQueued(a.net.disk.queue, thread, w.device, w.body.id.value)
      then Ok(a.(durable := a.durable.(intents := Forget(a.durable.intents, w))))
      else match Encrypt(a.ratchet, g, w, env.size)
        case Err(e) => Err(e)
        case Ok((ratchet, c)) =>
          match Admit(a.net, [MessageEnvelope(w, thread, c, env, ref)], env.now)
          case Err(e) => Err(e)
          case Ok(net) => Ok(a.(
            durable := KeepOwn(a.durable, w, thread, ref).(mls := ratchet, intents := Forget(a.durable.intents, w)),
            net := net,
            ratchet := ratchet))
  }

  /** Several intents in turn; the first refusal refuses them all. */
  ghost function QueueAll(a: Account, g: Bytes, ws: seq<Intent>, env: Env, refs: seq<Ref>): Result<Account>
    requires |refs| >= |ws|
    decreases |ws|
  {
    if ws == [] then Ok(a)
    else match QueuePrivate(a, g, ws[0], env, refs[0])
      case Err(e) => Err(e)
      case Ok(b) => QueueAll(b, g, ws[1..], env, refs[1..])
  }

  // ----- A new group -----

  /** The new group takes the place of the old one and stays in its thread. */
  function Attach(d: Durable, device: Device, g: Bytes, identityThread: Option<Bytes>): (r: (Durable, Bytes))
    ensures r.0.conversations == d.conversations[device := g] && r.0.mls == d.mls && r.0.intents == d.intents
    ensures r.0.messages == d.messages
  {
    var thread := if device in d.conversations then ThreadOf(d, d.conversations[device])
                  else if identityThread.Some? then identityThread.value
                  else g;
    var attached := d.(conversations := d.conversations[device := g]);
    (if thread != g then attached.(threads := d.threads[g := thread]) else attached, thread)
  }

  /** Starting the group, attaching it, and queueing the Welcome. */
  ghost function Found(a: Account, w: Intent, valid: bool, g: Bytes, env: Env, ref: Ref): Result<Account> {
    if !valid then Err(BadPackage)
    else
      var ratchet := a.ratchet[g := Group(0, [w.device])];
      var attached := Attach(a.durable, w.device, g, env.identityThread);
      match Admit(a.net, [EssentialEnvelope(w.device, attached.1, Welcome(g, env.size), env, ref)], env.now)
      case Err(e) => Err(e)
      case Ok(net) => Ok(a.(durable := attached.0.(mls := ratchet), net := net, ratchet := ratchet, created := a.created + {g}))
  }

  /** The whole first contact: the group, its Welcome, the message that asked for it,
      and every other message that waits for the device. */
  ghost function Establish(a: Account, w: Intent, valid: bool, g: Bytes, env: Env, refs: seq<Ref>): Result<Account>
    requires |refs| >= 2 + |a.durable.intents|
  {
    match Found(a, w, valid, g, env, refs[0])
    case Err(e) => Err(e)
    case Ok(b) =>
      match QueuePrivate(b, g, w, env, refs[1])
      case Err(e) => Err(e)
      case Ok(c) =>
        ForSize(c.durable.intents, w.device);
        QueuePrivateForgets(b, g, w, env, refs[1]);
        QueueAll(c, g, For(c.durable.intents, w.device), env, refs[2..])
  }

  lemma ForSize(intents: seq<Intent>, device: Device)
    ensures |For(intents, device)| <= |intents|
  {
  }

  lemma ForgetSize(intents: seq<Intent>, w: Intent)
    ensures |Forget(intents, w)| <= |intents|
  {
  }

  lemma QueuePrivateForgets(a: Account, g: Bytes, w: Intent, env: Env, ref: Ref)
    requires QueuePrivate(a, g, w, env, ref).Ok?
    ensures |QueuePrivate(a, g, w, env, ref).value.durable.intents| <= |a.durable.intents|
  {
    ForgetSize(a.durable.intents, w);
  }

  // ----- A new epoch -----

  function CommitBatch(members: seq<Device>, g: Bytes, c: Ciphertext, env: Env, refs: seq<Ref>): (b: seq<Envelope>)
    requires |refs| >= |members|
    ensures |b| == |members|
    ensures forall i :: 0 <= i < |b| ==> b[i] == EssentialEnvelope(members[i], g, c, env, refs[i])
  {
    seq(|members|, i requires 0 <= i < |members| => EssentialEnvelope(members[i], g, c, env, refs[i]))
  }

  ghost function Rekey(a: Account, g: Bytes, env: Env, refs: seq<Ref>): Result<Account>
    requires g in a.ratchet ==> |refs| >= |a.ratchet[g].members|
  {
    if g !in a.ratchet then Err(MissingGroup)
    else
      var ratchet := a.ratchet[g := a.ratchet[g].(position := a.ratchet[g].position + 1)];
      match Admit(a.net, CommitBatch(a.ratchet[g].members, g, Commit(g, a.ratchet[g].position, env.size), env, refs), env.now)
      case Err(e) => Err(e)
      case Ok(net) => Ok(a.(durable := a.durable.(mls := ratchet), net := net, ratchet := ratchet))
  }

  /** A group is rekeyed only while nothing of its conversation is queued. */
  predicate MayRekey(a: Account, g: Bytes) {
    forall i :: 0 <= i < |a.net.disk.queue| ==>
      a.net.disk.queue[i].conversation != g && a.net.disk.queue[i].conversation != ThreadOf(a.durable, g)
  }

  // ----- Asking for a key package -----

  ghost predicate Claimed(claims: map<Ref, Claim>, device: Device) {
    exists r :: r in claims && claims[r].Start? && claims[r].intent.device == device
  }

  predicate HasChannel(a: Account, w: Intent) {
    w.device in a.durable.conversations && w.body != CHANNEL_READY && a.durable.conversations[w.device] in a.ratchet
  }

  /** Sends what can be sent now; otherwise remembers it, and asks for a key package
      unless one is on its way. A request that cannot be written is not outstanding. */
  ghost function Deliver(a: Account, w: Intent, env: Env, ref: Ref, wrote: bool): Result<Account> {
    if w.device in env.blocked then Ok(a.(durable := a.durable.(intents := Forget(a.durable.intents, w))))
    else if w.device in env.unpinned then Ok(a)
    else if HasChannel(a, w) then QueuePrivate(a, a.durable.conversations[w.device], w, env, ref)
    else match Remember(a.durable, w)
      case Err(e) => Err(e)
      case Ok(durable) =>
        var b := a.(durable := durable);
        if Claimed(a.claims, w.device) || !wrote then Ok(b)
        else Ok(b.(claims := a.claims[ref := Start(w)]))
  }

  ghost function Repair(a: Account, device: Device, env: Env, ref: Ref, wrote: bool): Account {
    if device !in a.durable.conversations || a.durable.conversations[device] in a.ratchet then a
    else if device in env.blocked + env.unpinned || Claimed(a.claims, device) || !wrote then a
    else a.(claims := a.claims[ref := Start(Intent(device, CHANNEL_READY, true))])
  }

  /** A key package, or the news that there is none, for a claim. */
  ghost function Arrive(a: Account, claim: Ref, valid: Option<bool>, g: Bytes, env: Env, refs: seq<Ref>, stored: bool): Account
    requires |refs| >= 2 + |a.durable.intents|
  {
    if claim !in a.claims then a
    else
      var b := a.(claims := a.claims - {claim});
      if valid == None || a.claims[claim].Invite? || a.claims[claim].intent.device in env.unpinned || !stored then b
      else match Establish(b, a.claims[claim].intent, valid.value, g, env, refs)
        case Err(_) => b
        case Ok(c) => c
  }

  function InThread(d: Durable, device: Device, thread: Bytes): bool {
    device in d.conversations && ThreadOf(d, d.conversations[device]) == thread
  }

  function OutsideThread(d: Durable, intents: seq<Intent>, thread: Bytes): (r: seq<Intent>)
    ensures forall v :: v in r <==> v in intents && !InThread(d, v.device, thread)
  {
    if intents == [] then []
    else (if InThread(d, intents[0].device, thread) then [] else [intents[0]]) + OutsideThread(d, intents[1..], thread)
  }

  function MessagesElsewhere(messages: seq<Own>, thread: Bytes): (r: seq<Own>)
    ensures forall o :: o in r <==> o in messages && o.thread != thread
  {
    if messages == [] then []
    else (if messages[0].thread == thread then [] else [messages[0]]) + MessagesElsewhere(messages[1..], thread)
  }

  /** Clearing a thread drops its messages, what waits for it, and the claims made for
      that. */
  function Clear(a: Account, thread: Bytes): Account {
    var kept := OutsideThread(a.durable, a.durable.intents, thread);
    a.(durable := a.durable.(intents := kept, messages := MessagesElsewhere(a.durable.messages, thread)),
       claims := map r | r in a.claims && (a.claims[r].Start? ==> Remembered(kept, a.claims[r].intent)) :: a.claims[r])
  }

  /** Forgetting a conversation also drops who talks in it. */
  function Forgotten(a: Account, conversation: Bytes): Account {
    var b := Clear(a, conversation);
    b.(durable := b.durable.(conversations :=
      map d | d in b.durable.conversations && b.durable.conversations[d] != conversation :: b.durable.conversations[d]))
  }

  /** A group that a peer invited this device to: with one other member it becomes the
      conversation with that peer. */
  function Joined(a: Account, g: Bytes, members: seq<Device>): Account {
    var ratchet, cs := a.ratchet[g := Group(0, members)], a.durable.conversations;
    a.(ratchet := ratchet, durable := a.durable.(mls := ratchet, conversations := if |members| == 1 then cs[members[0] := g] else cs))
  }

  // ----- Steps and runs -----

  datatype Step =
    | Sends(group: Bytes, intent: Intent, env: Env, ref: Ref, stored: bool)
    | Delivers(intent: Intent, env: Env, ref: Ref, stored: bool, wrote: bool)
    | Arrives(claim: Ref, valid: Option<bool>, group: Bytes, env: Env, refs: seq<Ref>, stored: bool)
    | Rekeys(group: Bytes, env: Env, refs: seq<Ref>, stored: bool)
    | Repairs(device: Device, env: Env, ref: Ref, wrote: bool)
    | Clears(thread: Bytes)
    | Forgets(conversation: Bytes)
    /** A Welcome from a peer was processed and saved. */
    | Joins(group: Bytes, members: seq<Device>)
    /** A linked history was installed, which names the group in which the other device of
        this account talks to a peer; the group itself need not be here. */
    | Imports(device: Device, group: Bytes)
    /** A new connection: no claim is outstanding and the ratchet is read from disk. */
    | Reconnects
    | Network(event: Event)

  ghost function Settle(a: Account, r: Result<Account>, stored: bool): Account {
    if stored && r.Ok? then r.value else a
  }

  ghost function Do(a: Account, s: Step): Account
    requires Enabled(a, s)
  {
    match s
    case Sends(g, w, env, ref, stored) => Settle(a, QueuePrivate(a, g, w, env, ref), stored)
    case Delivers(w, env, ref, stored, wrote) => Settle(a, Deliver(a, w, env, ref, wrote), stored)
    case Arrives(claim, valid, g, env, refs, stored) => Arrive(a, claim, valid, g, env, refs, stored)
    case Rekeys(g, env, refs, stored) => if MayRekey(a, g) then Settle(a, Rekey(a, g, env, refs), stored) else a
    case Repairs(device, env, ref, wrote) => Repair(a, device, env, ref, wrote)
    case Clears(thread) => Clear(a, thread)
    case Forgets(conversation) => Forgotten(a, conversation)
    case Joins(g, members) => Joined(a, g, members)
    case Imports(device, g) => a.(durable := a.durable.(conversations := a.durable.conversations[device := g]))
    case Reconnects => a.(claims := map[], ratchet := a.durable.mls, net := Next(a.net, NetworkLost))
    case Network(e) => a.(net := Next(a.net, e))
  }

  ghost predicate Unused(a: Account, refs: seq<Ref>) {
    && (forall i :: 0 <= i < |refs| ==> refs[i] !in a.net.history.born)
    && (forall i, j :: 0 <= i < j < |refs| ==> refs[i] != refs[j])
  }

  /** What the surroundings guarantee: random references and group identifiers are new,
      and enough of them are drawn. */
  ghost predicate Enabled(a: Account, s: Step) {
    match s
    case Sends(_, _, _, ref, _) => Unused(a, [ref])
    case Delivers(_, _, ref, _, _) => Unused(a, [ref]) && ref !in a.claims
    case Arrives(_, _, g, _, refs, _) => Unused(a, refs) && |refs| >= 2 + |a.durable.intents| && g !in a.ratchet
    case Rekeys(g, _, refs, _) => Unused(a, refs) && (g in a.ratchet ==> |refs| >= |a.ratchet[g].members|)
    case Repairs(_, _, ref, _) => ref !in a.claims
    case Joins(g, _) => g !in a.ratchet
    case Network(e) => !e.Enqueuing? && Allowed(a.net, e)
    case _ => true
  }

  const EMPTY := Account(Durable(map[], map[], map[], [], []), START, map[], map[], {})

  /** A step that is not enabled does not happen. */
  ghost function Run(a: Account, steps: seq<Step>): Account {
    if steps == [] then a
    else
      var b := Run(a, steps[..|steps| - 1]);
      if Enabled(b, steps[|steps| - 1]) then Do(b, steps[|steps| - 1]) else b
  }
}
