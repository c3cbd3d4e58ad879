/** What pairing guarantees under every interleaving of the two users, the two tasks, the
    core thread, the channels and a cancellation. The invariant has five parts, each kept
    step by step in a section of its own: what the source has said is a beginning of what
    its user released; what the target has staged was said; what the core holds to be
    confirmed was confirmed; what is being installed is genuine; and a cancellation shows
    in the epoch, or is on its way, or was refused while its session was active. */
module PairingSafety {
  import opened Envelopes
  import opened Pairing

  // ----- What was said on the channels -----

  /** What the source has said in a session is a beginning of: its confirmation, the
      account, the records in order; possibly cut off by an end. */
  ghost predicate Spoken(log: seq<Notice>, x: Export) {
    forall i :: 0 <= i < |log| ==>
      && (i == 0 ==> log[i] == Confirmed)
      && (i == 1 ==> log[i] == Payload(x.link))
      && (i >= 2 ==> log[i] == End || (i - 2 <= |x.messages| && log[i] == Item(RecordAt(x, i - 2))))
  }

  ghost predicate Honest(w: World, id: Id) {
    var log := Log(w.toTarget, id);
    && (log != [] ==> id in w.source && w.source[id].exported.Some? && Spoken(log, w.source[id].exported.value))
    && (id in w.source && w.source[id].phase == SVerify ==> log == [])
    && (id in w.source && w.source[id].phase == SAwaitPeer ==> |log| == 1)
    && (id in w.source && w.source[id].phase.SStreaming? ==> |log| == 2 + w.source[id].phase.next)
    && (|log| >= 2 || Log(w.toSource, id) != [] ==> id in w.userConfirmed)
  }

  ghost predicate SourceInv(w: World) {
    forall id :: Honest(w, id)
  }

  // ----- What the target has taken from them -----

  ghost predicate StageInv(m: map<Id, seq<Notice>>, t: Target) {
    && (forall id :: id in t.stage ==> SaysItems(Log(m, id), t.stage[id]))
    && (forall c :: c in t.queue ==> Said(m, c))
    && (forall id :: id in t.tasks ==> Follows(Log(m, id), t.tasks[id]))
  }

  ghost predicate Said(m: map<Id, seq<Notice>>, c: Command) {
    && (c.Stage? ==> SaysItem(Log(m, c.id), c.seqNo, c.record))
    && (c.Install? ==> SaysLink(Log(m, c.id), c.link))
  }

  ghost predicate SaysItems(log: seq<Notice>, records: seq<Record>) {
    forall i :: 0 <= i < |records| ==> SaysItem(log, i, records[i])
  }

  ghost predicate SaysItem(log: seq<Notice>, n: nat, r: Record) {
    2 + n < |log| && log[2 + n] == Item(r)
  }

  ghost predicate SaysLink(log: seq<Notice>, link: Bytes) {
    1 < |log| && log[1] == Payload(link)
  }

  ghost predicate Follows(log: seq<Notice>, t: Task) {
    match t.phase
    case Verify => t.read == 0
    case AwaitPeer => t.read == 0
    case AwaitPayload => t.read == 1
    case Receiving(link, n) => t.read == 2 + n && SaysLink(log, link)
    case Staging(link, n) => t.read == 3 + n && SaysLink(log, link)
    case _ => true
  }

  /** The user of the target confirmed what the core holds to be confirmed. */
  ghost predicate UserInv(t: Target, issued: set<Id>, confirmed: set<Id>) {
    && (forall c :: c in t.queue ==> Asked(t, issued, confirmed, c))
    && (forall id :: id in t.tasks ==> id in issued && Controlled(t.tasks[id], id in confirmed))
    && (t.active.Some? ==> t.active.value.id in t.tasks && (t.active.value.confirmed ==> t.active.value.id in confirmed))
    && NoRestart(t.queue)
  }

  ghost predicate Asked(t: Target, issued: set<Id>, confirmed: set<Id>, c: Command) {
    && (c.Confirm? ==> c.id in confirmed && c.id in t.tasks)
    && (c.Start? ==> c.id in issued && c.id !in t.tasks)
  }

  ghost predicate Controlled(t: Task, confirmed: bool) {
    && (t.control ==> confirmed)
    && (!t.phase.Verify? && !t.phase.Over? ==> t.control)
  }

  ghost predicate NoRestart(q: seq<Command>) {
    forall i, j :: 0 <= i < j < |q| && q[i].Start? && q[j].Start? ==> q[i].id != q[j].id
  }

  // ----- What is installed -----

  /** The account and the whole history that the source's user released for a session
      that the target's user confirmed too. */
  ghost predicate Genuine(w: World, id: Id, link: Bytes, history: seq<Message>) {
    && id in w.userConfirmed
    && id in w.source && w.source[id].exported.Some?
    && w.source[id].exported.value.link == link && w.source[id].exported.value.messages == history
  }

  ghost predicate InstallInv(w: World) {
    && (w.target.core.Writing? ==> Genuine(w, w.target.core.id, w.target.core.link, w.target.core.history))
    && (w.target.core.Checked? ==> Genuine(w, w.target.core.id, w.target.core.link, w.target.core.history))
    && (w.target.core != Idle ==> w.target.credentials == None)
    && (w.target.credentials.Some? <==> w.installer.Some?)
    && (w.target.credentials == None ==> w.target.history == [])
    && (w.installer.Some? ==> Genuine(w, w.installer.value.0, w.target.credentials.value, w.target.history))
    && ToldRightly(w)
  }

  /** Whoever was told of an installation was told rightly. */
  ghost predicate ToldRightly(w: World) {
    && (forall id :: id in w.target.tasks && w.target.tasks[id].installed == Some(true) ==> By(w, id))
    && (forall id, n :: n in Log(w.toSource, id) && n == Installed ==> By(w, id))
    && (forall id :: id in w.source && w.source[id].phase == SComplete ==> By(w, id))
  }

  ghost predicate By(w: World, id: Id) {
    w.installer.Some? && w.installer.value.0 == id
  }

  // ----- Cancelling -----

  /** A cancellation is under way that the core handles before any confirmation. */
  ghost predicate Shielded(q: seq<Command>, cancelling: bool, id: Id) {
    || (cancelling && Confirm(id) !in q)
    || (exists i :: 0 <= i < |q| && q[i] == Cancel && Confirm(id) !in q[..i])
  }

  ghost predicate Cancelling(q: seq<Command>, cancelling: bool, from: nat) {
    cancelling || exists j :: from <= j < |q| && q[j] == Cancel
  }

  /** A session that runs under a later epoch than it was started in has outlived a
      cancellation, or one is still to be handled before the session can be confirmed. A
      session that runs under its own epoch has outlived one only if the epoch has moved
      on since; while it has not, no cancellation is on its way. */
  ghost predicate ActiveEpoch(a: Active, t: Target, issued: map<Id, nat>, cancelling: bool, outlived: set<Id>) {
    && a.id in issued && issued[a.id] <= a.epoch <= t.epoch
    && (issued[a.id] < a.epoch ==> a.id in outlived || (!a.confirmed && Shielded(t.queue, cancelling, a.id)))
    && (issued[a.id] == a.epoch == t.epoch ==> a.id !in outlived && !Cancelling(t.queue, cancelling, 0))
  }

  /** A start that waits in the queue has cancellations behind it exactly when the epoch
      has moved since the user pressed it. */
  ghost predicate StartEpochs(q: seq<Command>, issued: map<Id, nat>, epoch: nat, cancelling: bool) {
    forall i :: 0 <= i < |q| && q[i].Start? ==>
      q[i].id in issued && (issued[q[i].id] < epoch <==> Cancelling(q, cancelling, i + 1))
  }

  ghost predicate EpochInv(t: Target, issued: map<Id, nat>, cancelling: bool, outlived: set<Id>) {
    && (forall id :: id in issued ==> issued[id] <= t.epoch)
    && outlived <= t.tasks.Keys
    && (t.active.Some? ==> ActiveEpoch(t.active.value, t, issued, cancelling, outlived))
    && StartEpochs(t.queue, issued, t.epoch, cancelling)
    && (t.core.Checked? ==> Outran(t.core.id, t.core.epoch, issued, outlived))
  }

  /** The epoch of a session's final check is not the one of its start exactly when the
      session has outlived a cancellation. */
  ghost predicate Outran(id: Id, epoch: nat, issued: map<Id, nat>, outlived: set<Id>) {
    id in issued && (epoch != issued[id] <==> id in outlived)
  }

  ghost predicate PromptInv(w: World) {
    && (w.installer == None ==> EpochInv(w.target, w.issued, w.cancelling, w.outlived))
    && (w.installer.Some? ==> Outran(w.installer.value.0, w.installer.value.1, w.issued, w.outlived))
  }

  ghost predicate Inv(w: World) {
    SourceInv(w) && StageInv(w.toTarget, w.target) && UserInv(w.target, w.issued.Keys, w.userConfirmed) && InstallInv(w)
    && PromptInv(w)
  }

  // ----- The source's part -----

  lemma SourceFrame(w: World, v: World)
    requires SourceInv(w)
    requires v.toTarget == w.toTarget && v.toSource == w.toSource && v.source == w.source && w.userConfirmed <= v.userConfirmed
    ensures SourceInv(v)
  {
    forall id ensures Honest(v, id) {
      assert Honest(w, id);
    }
  }

  /** Only the part of one session changes. */
  lemma SourceOnly(w: World, v: World, id: Id)
    requires SourceInv(w) && Honest(v, id) && v.userConfirmed == w.userConfirmed
    requires forall k :: k != id ==> Log(v.toTarget, k) == Log(w.toTarget, k) && Log(v.toSource, k) == Log(w.toSource, k)
    requires forall k :: k != id ==> (k in v.source <==> k in w.source) && (k in w.source ==> v.source[k] == w.source[k])
    ensures SourceInv(v)
  {
    forall k ensures Honest(v, k) {
      assert Honest(w, k);
    }
  }

  /** The part of one session, on values: what was said, and the task that said it. */
  lemma SilenceStaysHonest(w: World, s: Step)
    requires Enabled(w, s) && IsSourceStep(s) && Honest(w, s.id) && SourceSays(w, s) == []
    ensures Honest(Next(w, s), s.id)
  {
    assert Log(w.toTarget, s.id) + [] == Log(w.toTarget, s.id);
    SilentTask(w, Next(w, s), s.id, SourceAfter(w, s));
  }

  /** A task that has said nothing more and released no other account. */
  lemma SilentTask(w: World, v: World, id: Id, task: SourceTask)
    requires Honest(w, id) && v.userConfirmed == w.userConfirmed && v.toSource == w.toSource
    requires v.source == w.source[id := task] && Log(v.toTarget, id) == Log(w.toTarget, id)
    requires Log(w.toTarget, id) != [] ==> id in w.source && task.exported == w.source[id].exported
    requires task.phase == SVerify ==> id !in w.source || w.source[id].phase == SVerify
    requires task.phase != SVerify ==> task.phase == SComplete || task.phase == SOver
    ensures Honest(v, id)
  {
  }

  lemma SpeechStaysHonest(w: World, s: Step)
    requires Enabled(w, s) && IsSourceStep(s) && Honest(w, s.id) && SourceSays(w, s) != []
    ensures Honest(Next(w, s), s.id)
  {
    assert Log(Next(w, s).toTarget, s.id) == Log(w.toTarget, s.id) + SourceSays(w, s);
  }

  lemma SourceStep(w: World, s: Step)
    requires SourceInv(w) && Enabled(w, s) && IsSourceStep(s)
    ensures SourceInv(Next(w, s))
  {
    assert Honest(w, s.id);
    if SourceSays(w, s) == [] { SilenceStaysHonest(w, s); } else { SpeechStaysHonest(w, s); }
    SourceOnly(w, Next(w, s), s.id);
  }

  lemma TaskSpeaks(w: World, s: Step)
    requires SourceInv(w) && UserInv(w.target, w.issued.Keys, w.userConfirmed) && Enabled(w, s) && IsTaskStep(s)
    ensures SourceInv(Next(w, s))
  {
    assert Honest(w, s.id);
    assert Controlled(w.target.tasks[s.id], s.id in w.userConfirmed);
    SourceOnly(w, Next(w, s), s.id);
  }

  lemma OthersAreSilent(w: World, s: Step)
    requires SourceInv(w) && Enabled(w, s) && !IsTaskStep(s) && !IsSourceStep(s)
    ensures SourceInv(Next(w, s))
  {
    SourceFrame(w, Next(w, s));
  }

  // ----- The target's part -----

  ghost predicate Extends(m: map<Id, seq<Notice>>, m': map<Id, seq<Notice>>) {
    forall id :: Log(m, id) <= Log(m', id)
  }

  lemma SaidStill(log: seq<Notice>, log': seq<Notice>)
    requires log <= log'
    ensures forall records :: SaysItems(log, records) ==> SaysItems(log', records)
    ensures forall t :: Follows(log, t) ==> Follows(log', t)
  {
    forall records | SaysItems(log, records) ensures SaysItems(log', records) {
      assert forall i :: 0 <= i < |records| ==> SaysItem(log, i, records[i]);
    }
  }

  /** More said on the channels changes nothing about what was taken from them. */
  lemma StageFrame(m: map<Id, seq<Notice>>, m': map<Id, seq<Notice>>, t: Target)
    requires StageInv(m, t) && Extends(m, m')
    ensures StageInv(m', t)
  {
    forall id | id in t.stage ensures SaysItems(Log(m', id), t.stage[id]) {
      SaidStill(Log(m, id), Log(m', id));
    }
    forall c | c in t.queue ensures Said(m', c) {
      assert Said(m, c);
      if c.Stage? || c.Install? { assert Log(m, c.id) <= Log(m', c.id); }
    }
    forall id | id in t.tasks ensures Follows(Log(m', id), t.tasks[id]) {
      SaidStill(Log(m, id), Log(m', id));
    }
  }

  lemma SourceExtends(w: World, s: Step)
    requires Enabled(w, s) && IsSourceStep(s)
    ensures Extends(w.toTarget, Next(w, s).toTarget) && Next(w, s).target == w.target
  {
  }

  /** The head of the queue is taken off. */
  lemma Pop(q: seq<Command>)
    requires q != []
    ensures q[0] in q && forall c :: c in q[1..] ==> c in q
  {
  }

  lemma OnStageStages(m: map<Id, seq<Notice>>, t: Target, c: Command, ok: bool)
    requires StageInv(m, t) && c.Stage? && Said(m, c)
    ensures StageInv(m, OnStage(t, c.id, c.seqNo, c.record, ok))
  {
    assert SaysItems(Log(m, c.id), Staged(t, c.id));
  }

  lemma HandleStages(m: map<Id, seq<Notice>>, t: Target, c: Command, ok: bool)
    requires StageInv(m, t) && Said(m, c)
    ensures StageInv(m, Handle(t, c, ok))
  {
    match c
    case Stage(_, _, _) => OnStageStages(m, t, c, ok);
    case _ =>
  }

  lemma CoreStages(m: map<Id, seq<Notice>>, t: Target, ok: bool)
    requires StageInv(m, t)
    ensures StageInv(m, Process(t, ok)) && StageInv(m, Check(t)) && StageInv(m, Release(t, ok))
  {
    if t.core == Idle && t.queue != [] {
      Pop(t.queue);
      HandleStages(m, t.(queue := t.queue[1..]), t.queue[0], ok);
    }
  }

  /** A task moves on and may give the core a command. */
  ghost predicate MovesOn(t: Target, u: Target, id: Id, task: Task, more: seq<Command>) {
    id in t.tasks && u == t.(tasks := t.tasks[id := task], queue := t.queue + more)
  }

  lemma TaskFollows(w: World, s: Step)
    requires Enabled(w, s) && IsTaskStep(s) && StageInv(w.toTarget, w.target)
    ensures Follows(Log(w.toTarget, s.id), TaskAfter(w, s))
    ensures forall c :: c in TaskAsks(w, s) ==> Said(w.toTarget, c) && !c.Confirm? && !c.Start?
  {
    assert Follows(Log(w.toTarget, s.id), w.target.tasks[s.id]);
  }

  lemma TaskStages(m: map<Id, seq<Notice>>, t: Target, u: Target, id: Id, task: Task, more: seq<Command>)
    requires StageInv(m, t) && MovesOn(t, u, id, task, more)
    requires Follows(Log(m, id), task) && forall c :: c in more ==> Said(m, c)
    ensures StageInv(m, u)
  {
  }

  lemma HandleUsers(t: Target, issued: set<Id>, confirmed: set<Id>, c: Command, ok: bool)
    requires UserInv(t, issued, confirmed) && Asked(t, issued, confirmed, c)
    requires c.Start? ==> Start(c.id) !in t.queue
    ensures UserInv(Handle(t, c, ok), issued, confirmed)
  {
  }

  lemma CoreUsers(t: Target, issued: set<Id>, confirmed: set<Id>, ok: bool)
    requires UserInv(t, issued, confirmed)
    ensures UserInv(Process(t, ok), issued, confirmed)
    ensures UserInv(Check(t), issued, confirmed)
    ensures UserInv(Release(t, ok), issued, confirmed)
  {
    if t.core == Idle && t.queue != [] {
      Pop(t.queue);
      forall c | c in t.queue[1..] ensures c.Start? && t.queue[0].Start? ==> c.id != t.queue[0].id {
        var j :| 0 <= j < |t.queue[1..]| && t.queue[1..][j] == c;
        assert t.queue[j + 1] == c;
      }
      HandleUsers(t.(queue := t.queue[1..]), issued, confirmed, t.queue[0], ok);
    }
  }

  lemma TaskUsers(t: Target, u: Target, id: Id, task: Task, more: seq<Command>, issued: set<Id>, confirmed: set<Id>)
    requires UserInv(t, issued, confirmed) && MovesOn(t, u, id, task, more)
    requires task.control == t.tasks[id].control
    requires (task.phase.Verify? || task.phase.Over? || task.control) || (!t.tasks[id].phase.Verify? && !t.tasks[id].phase.Over?)
    requires forall c :: c in more ==> !c.Confirm? && !c.Start?
    ensures UserInv(u, issued, confirmed)
  {
    assert Controlled(t.tasks[id], id in confirmed);
    assert forall j :: |t.queue| <= j < |u.queue| ==> u.queue[j] in more;
  }

  lemma TaskKeeps(w: World, s: Step)
    requires Enabled(w, s) && IsTaskStep(s)
    requires StageInv(w.toTarget, w.target) && UserInv(w.target, w.issued.Keys, w.userConfirmed)
    ensures StageInv(Next(w, s).toTarget, Next(w, s).target)
    ensures UserInv(Next(w, s).target, w.issued.Keys, w.userConfirmed)
  {
    var u := Next(w, s).target;
    TaskFollows(w, s);
    TaskStages(w.toTarget, w.target, u, s.id, TaskAfter(w, s), TaskAsks(w, s));
    TaskUsers(w.target, u, s.id, TaskAfter(w, s), TaskAsks(w, s), w.issued.Keys, w.userConfirmed);
  }

  lemma UsersKeep(w: World, s: Step)
    requires Enabled(w, s) && !IsTaskStep(s) && !IsSourceStep(s)
    requires StageInv(w.toTarget, w.target) && UserInv(w.target, w.issued.Keys, w.userConfirmed)
    ensures StageInv(Next(w, s).toTarget, Next(w, s).target)
    ensures UserInv(Next(w, s).target, Next(w, s).issued.Keys, Next(w, s).userConfirmed)
  {
    match s
    case CoreProcesses(ok) => CoreStages(w.toTarget, w.target, ok); CoreUsers(w.target, w.issued.Keys, w.userConfirmed, ok);
    case CoreChecks => CoreStages(w.toTarget, w.target, true); CoreUsers(w.target, w.issued.Keys, w.userConfirmed, true);
    case CoreCommits(ok) => CoreStages(w.toTarget, w.target, ok); CoreUsers(w.target, w.issued.Keys, w.userConfirmed, ok);
    case UserStarts(id) => QueueOne(w.target, w.issued.Keys, w.issued.Keys + {id}, w.userConfirmed, w.userConfirmed, Start(id));
    case UserConfirms(id) => QueueOne(w.target, w.issued.Keys, w.issued.Keys, w.userConfirmed, w.userConfirmed + {id}, Confirm(id));
    case CancelQueued => QueueOne(w.target, w.issued.Keys, w.issued.Keys, w.userConfirmed, w.userConfirmed, Cancel);
    case UserCancels =>
  }

  /** The user's thread adds a command; what the task sent before stays as it was. */
  lemma QueueOne(t: Target, issued: set<Id>, issued': set<Id>, confirmed: set<Id>, confirmed': set<Id>, c: Command)
    requires UserInv(t, issued, confirmed) && issued <= issued' && confirmed <= confirmed'
    requires Asked(t, issued', confirmed', c) && (c.Start? ==> c.id !in issued)
    ensures UserInv(Queued(t, c), issued', confirmed')
  {
    var u := Queued(t, c);
    assert forall d :: d in t.queue ==> Asked(t, issued, confirmed, d);
    assert forall d :: d in u.queue ==> d in t.queue || d == c;
    assert forall i :: 0 <= i < |t.queue| ==> t.queue[i] in t.queue;
  }

  // ----- Installing -----

  /** What passes the installation's own checks is what the source's user released. */
  lemma InstallsGenuine(w: World, id: Id, link: Bytes, history: seq<Message>)
    requires SourceInv(w) && StageInv(w.toTarget, w.target) && SaysLink(Log(w.toTarget, id), link)
    requires id in w.userConfirmed && Restores(Staged(w.target, id), history)
    ensures Genuine(w, id, link, history)
  {
    var log, records := Log(w.toTarget, id), Staged(w.target, id);
    assert Honest(w, id);
    var x := w.source[id].exported.value;
    assert SaysItems(log, records);
    forall i | 0 <= i < |records| ensures i <= |x.messages| && records[i] == RecordAt(x, i) {
      assert SaysItem(log, i, records[i]);
    }
    CutHistoryIsRefused(x, records, history);
  }

  /** No confirmation is taken back, and what a source has released stays released. */
  ghost predicate Keeps(w: World, v: World) {
    && w.userConfirmed <= v.userConfirmed
    && forall id :: id in w.source && w.source[id].exported.Some? ==> id in v.source && v.source[id].exported == w.source[id].exported
  }

  /** What is being written or installed stays genuine. */
  lemma GenuineStays(w: World, v: World)
    requires InstallInv(w) && Keeps(w, v)
    ensures var t := w.target;
            && (t.core.Writing? ==> Genuine(v, t.core.id, t.core.link, t.core.history))
            && (t.core.Checked? ==> Genuine(v, t.core.id, t.core.link, t.core.history))
            && (w.installer.Some? ==> Genuine(v, w.installer.value.0, t.credentials.value, t.history))
  {
  }

  lemma SourceKeeps(w: World, s: Step)
    requires Enabled(w, s) && IsSourceStep(s)
    ensures Keeps(w, Next(w, s))
  {
  }

  lemma SourceIsToldRightly(w: World, v: World, s: Step)
    requires Enabled(w, s) && IsSourceStep(s) && ToldRightly(w)
    requires v == w.(source := w.source[s.id := SourceAfter(w, s)], toTarget := v.toTarget)
    ensures ToldRightly(v)
  {
    if s.SourceHearsInstalled? {
      assert Log(w.toSource, s.id)[w.source[s.id].read] in Log(w.toSource, s.id);
    }
  }

  lemma OnlyTheInstalledTell(w: World, s: Step, id: Id, n: Notice)
    requires Enabled(w, s) && IsTaskStep(s) && n == Installed && n in Log(Tell(w.toSource, s.id, TaskSays(s)), id)
    ensures n in Log(w.toSource, id) || (id in w.target.tasks && w.target.tasks[id].installed == Some(true))
  {
    assert n in Log(w.toSource, id) || (id == s.id && n in TaskSays(s));
  }

  lemma TaskTellsRightly(w: World, v: World, s: Step)
    requires Enabled(w, s) && IsTaskStep(s) && ToldRightly(w)
    requires v == w.(target := w.target.(tasks := w.target.tasks[s.id := TaskAfter(w, s)], queue := v.target.queue),
                     toSource := Tell(w.toSource, s.id, TaskSays(s)))
    ensures ToldRightly(v)
  {
    forall id, n | n in Log(v.toSource, id) && n == Installed ensures By(v, id) {
      OnlyTheInstalledTell(w, s, id, n);
      assert By(w, id);
    }
  }

  lemma SourceInstalls(w: World, s: Step)
    requires Enabled(w, s) && IsSourceStep(s) && InstallInv(w)
    ensures InstallInv(Next(w, s))
  {
    SourceKeeps(w, s);
    GenuineStays(w, Next(w, s));
    SourceIsToldRightly(w, Next(w, s), s);
  }

  lemma TaskInstalls(w: World, s: Step)
    requires Enabled(w, s) && IsTaskStep(s) && InstallInv(w)
    ensures InstallInv(Next(w, s))
  {
    GenuineStays(w, Next(w, s));
    TaskTellsRightly(w, Next(w, s), s);
  }

  /** Handling a command starts no installation but a genuine one, and neither installs
      nor answers that anything was installed. */
  lemma HandleInstalls(t: Target, c: Command, ok: bool)
    requires t.core == Idle
    ensures var u := Handle(t, c, ok);
            && u.credentials == t.credentials && u.history == t.history && !u.core.Checked?
            && (forall id :: id in u.tasks && u.tasks[id].installed == Some(true) ==>
                  id in t.tasks && t.tasks[id].installed == Some(true))
            && (u.core.Writing? ==>
                  c == Install(u.core.id, u.core.link) && t.credentials == None && Eligible(t, u.core.id)
                  && Restores(Staged(t, u.core.id), u.core.history))
  {
  }

  lemma ProcessInstalls(w: World, ok: bool)
    requires w.target.core == Idle && w.target.queue != [] && InstallInv(w)
    requires SourceInv(w) && StageInv(w.toTarget, w.target) && UserInv(w.target, w.issued.Keys, w.userConfirmed)
    ensures InstallInv(w.(target := Process(w.target, ok)))
  {
    var c, t, u := w.target.queue[0], w.target.(queue := w.target.queue[1..]), Process(w.target, ok);
    Pop(w.target.queue);
    assert Said(w.toTarget, c);
    HandleInstalls(t, c, ok);
    if u.core.Writing? {
      InstallsGenuine(w, c.id, c.link, u.core.history);
    }
  }

  /** The records of what was refused are no part of this. */
  lemma ProcessedInstalls(w: World, v: World)
    requires InstallInv(w) && v == w.(refused := v.refused, outlived := v.outlived)
    ensures InstallInv(v)
  {
  }

  /** What a user does only adds to the queue, or moves the epoch. */
  lemma UsersInstall(w: World, v: World)
    requires InstallInv(w) && w.userConfirmed <= v.userConfirmed
    requires v == w.(target := v.target, issued := v.issued, userConfirmed := v.userConfirmed, cancelling := v.cancelling)
    requires v.target == w.target.(queue := v.target.queue, epoch := v.target.epoch)
    ensures InstallInv(v)
  {
    GenuineStays(w, v);
  }

  lemma CheckInstalls(w: World)
    requires w.target.core.Writing? && InstallInv(w)
    ensures InstallInv(w.(target := Check(w.target)))
  {
    GenuineStays(w, w.(target := Check(w.target)));
  }

  /** What commits is what was genuine while it was being written. */
  lemma CommitInstalls(w: World, ok: bool)
    requires w.target.core.Checked? && InstallInv(w)
    ensures InstallInv(w.(target := Release(w.target, ok),
                          installer := if ok then Some((w.target.core.id, w.target.core.epoch)) else w.installer))
  {
    assert w.target.history + w.target.core.history == w.target.core.history;
  }

  // ----- Cancelling in time -----

  /** More commands at the end, none of them a confirmation, change no shield. */
  lemma ShieldedStays(q: seq<Command>, more: seq<Command>, cancelling: bool, id: Id)
    requires Shielded(q, cancelling, id) && Confirm(id) !in more
    ensures Shielded(q + more, cancelling, id)
  {
    if !(cancelling && Confirm(id) !in q) {
      var i :| 0 <= i < |q| && q[i] == Cancel && Confirm(id) !in q[..i];
      assert (q + more)[..i] == q[..i] && (q + more)[i] == Cancel;
    }
  }

  lemma CancellingStays(q: seq<Command>, more: seq<Command>, cancelling: bool, from: nat)
    requires Cancel !in more && from <= |q|
    ensures Cancelling(q + more, cancelling, from) <==> Cancelling(q, cancelling, from)
  {
    if !cancelling && Cancelling(q, cancelling, from) {
      var j :| from <= j < |q| && q[j] == Cancel;
      assert (q + more)[j] == Cancel;
    }
    assert forall k :: |q| <= k < |q + more| ==> (q + more)[k] in more;
  }

  lemma StartsStay(q: seq<Command>, more: seq<Command>, issued: map<Id, nat>, epoch: nat, cancelling: bool)
    requires StartEpochs(q, issued, epoch, cancelling) && Cancel !in more
    requires forall c :: c in more ==> !c.Start?
    ensures StartEpochs(q + more, issued, epoch, cancelling)
  {
    var u := q + more;
    assert forall k :: |q| <= k < |u| ==> u[k] in more;
    forall i | 0 <= i < |u| && u[i].Start?
      ensures u[i].id in issued && (issued[u[i].id] < epoch <==> Cancelling(u, cancelling, i + 1))
    {
      CancellingStays(q, more, cancelling, i + 1);
    }
  }

  /** Commands that neither start, confirm nor cancel a session. */
  lemma EpochQueues(t: Target, u: Target, issued: map<Id, nat>, cancelling: bool, outlived: set<Id>, more: seq<Command>)
    requires EpochInv(t, issued, cancelling, outlived)
    requires forall c :: c in more ==> !c.Start? && !c.Confirm? && c != Cancel
    requires u == t.(queue := t.queue + more, tasks := u.tasks) && t.tasks.Keys <= u.tasks.Keys
    ensures EpochInv(u, issued, cancelling, outlived)
  {
    CancellingStays(t.queue, more, cancelling, 0);
    StartsStay(t.queue, more, issued, t.epoch, cancelling);
    if t.active.Some? && Shielded(t.queue, cancelling, t.active.value.id) {
      ShieldedStays(t.queue, more, cancelling, t.active.value.id);
    }
  }

  lemma NewStart(q: seq<Command>, issued: map<Id, nat>, epoch: nat, id: Id)
    requires StartEpochs(q, issued, epoch, false) && id !in issued
    ensures StartEpochs(q + [Start(id)], issued[id := epoch], epoch, false)
  {
    var u, issued' := q + [Start(id)], issued[id := epoch];
    forall i | 0 <= i < |u| && u[i].Start?
      ensures u[i].id in issued' && (issued'[u[i].id] < epoch <==> Cancelling(u, false, i + 1))
    {
      if i < |q| {
        assert u[i] == q[i];
        CancellingStays(q, [Start(id)], false, i + 1);
      }
    }
  }

  lemma EpochStarts(t: Target, issued: map<Id, nat>, outlived: set<Id>, id: Id)
    requires EpochInv(t, issued, false, outlived) && id !in issued
    ensures EpochInv(Queued(t, Start(id)), issued[id := t.epoch], false, outlived)
  {
    NewStart(t.queue, issued, t.epoch, id);
    CancellingStays(t.queue, [Start(id)], false, 0);
    if t.active.Some? && Shielded(t.queue, false, t.active.value.id) {
      ShieldedStays(t.queue, [Start(id)], false, t.active.value.id);
    }
  }

  /** Without a cancellation between press and command, a shield is a queued cancellation. */
  lemma ShieldOutlasts(q: seq<Command>, c: Command, id: Id)
    requires Shielded(q, false, id)
    ensures Shielded(q + [c], false, id)
  {
    var i :| 0 <= i < |q| && q[i] == Cancel && Confirm(id) !in q[..i];
    assert (q + [c])[..i] == q[..i] && (q + [c])[i] == Cancel;
  }

  lemma EpochConfirms(t: Target, issued: map<Id, nat>, outlived: set<Id>, id: Id)
    requires EpochInv(t, issued, false, outlived)
    ensures EpochInv(Queued(t, Confirm(id)), issued, false, outlived)
  {
    CancellingStays(t.queue, [Confirm(id)], false, 0);
    StartsStay(t.queue, [Confirm(id)], issued, t.epoch, false);
    if t.active.Some? && Shielded(t.queue, false, t.active.value.id) {
      ShieldOutlasts(t.queue, Confirm(id), t.active.value.id);
    }
  }

  /** The user cancels: the epoch moves, and the command follows. */
  lemma EpochCancels(t: Target, issued: map<Id, nat>, outlived: set<Id>)
    requires EpochInv(t, issued, false, outlived)
    ensures EpochInv(t.(epoch := t.epoch + 1), issued, true, outlived)
  {
    if t.active.Some? && Shielded(t.queue, false, t.active.value.id) {
      assert Shielded(t.queue, true, t.active.value.id);
    }
    assert forall i :: Cancelling(t.queue, true, i);
  }

  lemma EpochCancelQueued(t: Target, issued: map<Id, nat>, outlived: set<Id>)
    requires EpochInv(t, issued, true, outlived)
    ensures EpochInv(Queued(t, Cancel), issued, false, outlived)
  {
    var u := Queued(t, Cancel);
    assert u.queue[|t.queue|] == Cancel && u.queue[..|t.queue|] == t.queue;
    assert forall i :: 0 <= i <= |t.queue| ==> Cancelling(u.queue, false, i);
    assert forall i :: 0 <= i <= |t.queue| ==> Cancelling(t.queue, true, i);
    assert forall i :: 0 <= i < |u.queue| && u.queue[i].Start? ==> u.queue[i] == t.queue[i];
    if t.active.Some? && Shielded(t.queue, true, t.active.value.id) {
      var id := t.active.value.id;
      if Confirm(id) in t.queue {
        ShieldOutlasts(t.queue, Cancel, id);
      }
    }
  }

  // ----- The core takes the next command -----

  lemma CancellingPops(q: seq<Command>, cancelling: bool, from: nat)
    requires q != [] && from >= 1
    ensures Cancelling(q[1..], cancelling, from - 1) <==> Cancelling(q, cancelling, from)
  {
    if !cancelling && Cancelling(q, cancelling, from) {
      var j :| from <= j < |q| && q[j] == Cancel;
      assert q[1..][j - 1] == Cancel;
    }
    if !cancelling && Cancelling(q[1..], cancelling, from - 1) {
      var j :| from - 1 <= j < |q[1..]| && q[1..][j] == Cancel;
      assert q[j + 1] == Cancel;
    }
  }

  lemma ShieldedPops(q: seq<Command>, cancelling: bool, id: Id)
    requires q != [] && Shielded(q, cancelling, id)
    ensures q[0] != Cancel ==> q[0] != Confirm(id) && Shielded(q[1..], cancelling, id)
  {
    if cancelling && Confirm(id) !in q {
      assert q[0] in q && forall c :: c in q[1..] ==> c in q;
    } else {
      var i :| 0 <= i < |q| && q[i] == Cancel && Confirm(id) !in q[..i];
      if i > 0 {
        assert q[0] == q[..i][0] && q[1..][i - 1] == Cancel && q[1..][..i - 1] == q[1..i];
        assert forall c :: c in q[1..i] ==> c in q[..i];
      }
    }
  }

  lemma StartsPop(q: seq<Command>, issued: map<Id, nat>, epoch: nat, cancelling: bool)
    requires q != [] && StartEpochs(q, issued, epoch, cancelling)
    ensures StartEpochs(q[1..], issued, epoch, cancelling)
  {
    forall i | 0 <= i < |q[1..]| && q[1..][i].Start?
      ensures q[1..][i].id in issued && (issued[q[1..][i].id] < epoch <==> Cancelling(q[1..], cancelling, i + 1))
    {
      assert q[1..][i] == q[i + 1];
      CancellingPops(q, cancelling, i + 2);
    }
  }

  /** What remains of the active session's clause when the head of the queue is taken off;
      a cancellation at the head finds a session that runs under a later epoch than its
      own, or one that the epoch has left behind. */
  lemma ActivePops(t: Target, issued: map<Id, nat>, cancelling: bool, outlived: set<Id>)
    requires EpochInv(t, issued, cancelling, outlived) && t.active.Some? && t.queue != []
    ensures var a, u, c := t.active.value, t.(queue := t.queue[1..]), t.queue[0];
            && (c != Cancel ==> ActiveEpoch(a, u, issued, cancelling, outlived))
            && (c == Cancel ==> ActiveEpoch(a, u, issued, cancelling, outlived + {a.id}))
            && (c == Confirm(a.id) ==> issued[a.id] == a.epoch || a.id in outlived)
  {
    var a, q := t.active.value, t.queue;
    if q[0] == Cancel {
      assert Cancelling(q, cancelling, 0);
    }
    if Shielded(q, cancelling, a.id) {
      ShieldedPops(q, cancelling, a.id);
    }
    CancellingPops(q, cancelling, 1);
  }

  /** The core starts a session: under the epoch it was asked for in, or with a
      cancellation coming before any confirmation. */
  lemma StartShields(q: seq<Command>, cancelling: bool, id: Id)
    requires Cancelling(q, cancelling, 0) && Confirm(id) !in q
    ensures Shielded(q, cancelling, id)
  {
    if !cancelling {
      var j :| 0 <= j < |q| && q[j] == Cancel;
      assert forall c :: c in q[..j] ==> c in q;
    }
  }

  lemma EpochStarted(t: Target, issued: map<Id, nat>, cancelling: bool, outlived: set<Id>, confirmed: set<Id>, ok: bool)
    requires EpochInv(t, issued, cancelling, outlived) && UserInv(t, issued.Keys, confirmed)
    requires t.core == Idle && t.queue != [] && t.queue[0].Start? && t.credentials == None
    ensures EpochInv(Process(t, ok), issued, cancelling, outlived)
  {
    var q, id := t.queue[1..], t.queue[0].id;
    StartsPop(t.queue, issued, t.epoch, cancelling);
    CancellingPops(t.queue, cancelling, 1);
    Pop(t.queue);
    assert Asked(t, issued.Keys, confirmed, t.queue[0]);
    assert Confirm(id) in q ==> Asked(t, issued.Keys, confirmed, Confirm(id));
    if Cancelling(q, cancelling, 0) {
      StartShields(q, cancelling, id);
    }
  }

  lemma EpochCancelled(t: Target, issued: map<Id, nat>, cancelling: bool, outlived: set<Id>, ok: bool)
    requires EpochInv(t, issued, cancelling, outlived) && t.core == Idle && t.queue != [] && t.queue[0] == Cancel
    requires t.active.Some? ==> t.active.value.id in t.tasks
    ensures var more := if !ok && t.active.Some? then outlived + {t.active.value.id} else outlived;
            EpochInv(Process(t, ok), issued, cancelling, more)
  {
    StartsPop(t.queue, issued, t.epoch, cancelling);
    if t.active.Some? {
      ActivePops(t, issued, cancelling, outlived);
    }
  }

  /** The other commands, among them a confirmation, find the session as they should. */
  lemma EpochHandles(u: Target, issued: map<Id, nat>, cancelling: bool, outlived: set<Id>, c: Command, ok: bool)
    requires !c.Start? && c != Cancel && u.core == Idle && EpochInv(u, issued, cancelling, outlived)
    requires u.active.Some? && c == Confirm(u.active.value.id) ==>
      issued[u.active.value.id] == u.active.value.epoch || u.active.value.id in outlived
    ensures EpochInv(Handle(u, c, ok), issued, cancelling, outlived)
  {
  }

  lemma EpochProcesses(w: World, ok: bool)
    requires w.target.core == Idle && w.target.queue != [] && w.target.credentials == None && w.installer == None
    requires EpochInv(w.target, w.issued, w.cancelling, w.outlived) && UserInv(w.target, w.issued.Keys, w.userConfirmed)
    ensures EpochInv(Process(w.target, ok), w.issued, w.cancelling,
                     if Outlives(w, ok) then w.outlived + {w.target.active.value.id} else w.outlived)
  {
    var t := w.target;
    match t.queue[0]
    case Start(_) => EpochStarted(t, w.issued, w.cancelling, w.outlived, w.userConfirmed, ok);
    case Cancel => EpochCancelled(t, w.issued, w.cancelling, w.outlived, ok);
    case c =>
      StartsPop(t.queue, w.issued, t.epoch, w.cancelling);
      if t.active.Some? { ActivePops(t, w.issued, w.cancelling, w.outlived); }
      EpochHandles(t.(queue := t.queue[1..]), w.issued, w.cancelling, w.outlived, c, ok);
  }

  lemma EpochChecks(t: Target, issued: map<Id, nat>, cancelling: bool, outlived: set<Id>)
    requires EpochInv(t, issued, cancelling, outlived)
    ensures EpochInv(Check(t), issued, cancelling, outlived)
  {
  }

  lemma EpochReleases(t: Target, issued: map<Id, nat>, cancelling: bool, outlived: set<Id>)
    requires EpochInv(t, issued, cancelling, outlived)
    ensures EpochInv(Release(t, false), issued, cancelling, outlived)
  {
  }

  lemma TaskPrompt(w: World, s: Step)
    requires Enabled(w, s) && IsTaskStep(s) && PromptInv(w) && w.installer == None
    ensures PromptInv(Next(w, s))
  {
    assert forall c :: c in TaskAsks(w, s) ==> !c.Start? && !c.Confirm? && c != Cancel;
    EpochQueues(w.target, Next(w, s).target, w.issued, w.cancelling, w.outlived, TaskAsks(w, s));
  }

  lemma UsersPrompt(w: World, s: Step)
    requires Enabled(w, s) && !IsTaskStep(s) && !IsSourceStep(s) && PromptInv(w)
    requires w.target.credentials == None && w.installer == None && UserInv(w.target, w.issued.Keys, w.userConfirmed)
    ensures PromptInv(Next(w, s))
  {
    match s
    case UserStarts(id) => EpochStarts(w.target, w.issued, w.outlived, id);
    case UserConfirms(id) => EpochConfirms(w.target, w.issued, w.outlived, id);
    case UserCancels => EpochCancels(w.target, w.issued, w.outlived);
    case CancelQueued => EpochCancelQueued(w.target, w.issued, w.outlived);
    case CoreProcesses(ok) => EpochProcesses(w, ok);
    case CoreChecks => EpochChecks(w.target, w.issued, w.cancelling, w.outlived);
    case CoreCommits(ok) => if !ok { EpochReleases(w.target, w.issued, w.cancelling, w.outlived); }
  }

  lemma SourcePrompt(w: World, s: Step)
    requires Enabled(w, s) && IsSourceStep(s) && PromptInv(w)
    ensures PromptInv(Next(w, s))
  {
  }

  /** Once something is installed, who installed it and how does not change. */
  lemma InstalledStays(w: World, s: Step)
    requires Enabled(w, s) && w.installer.Some? && PromptInv(w) && InstallInv(w)
    requires UserInv(w.target, w.issued.Keys, w.userConfirmed)
    ensures PromptInv(Next(w, s))
  {
  }

  lemma PromptStep(w: World, s: Step)
    requires Enabled(w, s) && PromptInv(w) && InstallInv(w) && UserInv(w.target, w.issued.Keys, w.userConfirmed)
    ensures PromptInv(Next(w, s))
  {
    if IsSourceStep(s) {
      SourcePrompt(w, s);
    } else if w.installer.Some? {
      InstalledStays(w, s);
    } else if IsTaskStep(s) {
      TaskPrompt(w, s);
    } else {
      UsersPrompt(w, s);
    }
  }

  // ----- Runs -----

  lemma OthersInstall(w: World, s: Step)
    requires Inv(w) && Enabled(w, s) && !IsTaskStep(s) && !IsSourceStep(s)
    ensures InstallInv(Next(w, s))
  {
    match s
    case UserStarts(_) => UsersInstall(w, Next(w, s));
    case UserConfirms(_) => UsersInstall(w, Next(w, s));
    case UserCancels => UsersInstall(w, Next(w, s));
    case CancelQueued => UsersInstall(w, Next(w, s));
    case CoreProcesses(ok) =>
      ProcessInstalls(w, ok);
      ProcessedInstalls(w.(target := Process(w.target, ok)), Next(w, s));
    case CoreChecks => CheckInstalls(w);
    case CoreCommits(ok) => CommitInstalls(w, ok);
  }

  lemma StepKeepsInv(w: World, s: Step)
    requires Inv(w) && Enabled(w, s)
    ensures Inv(Next(w, s))
  {
    PromptStep(w, s);
    if IsTaskStep(s) {
      TaskSpeaks(w, s);
      TaskKeeps(w, s);
      TaskInstalls(w, s);
    } else if IsSourceStep(s) {
      SourceStep(w, s);
      SourceExtends(w, s);
      StageFrame(w.toTarget, Next(w, s).toTarget, w.target);
      SourceInstalls(w, s);
    } else {
      OthersAreSilent(w, s);
      UsersKeep(w, s);
      OthersInstall(w, s);
    }
  }

  lemma {:induction false} RunKeepsInv(w: World, steps: seq<Step>)
    requires Inv(w)
    ensures Inv(Run(w, steps))
  {
    if steps != [] {
      RunKeepsInv(w, steps[..|steps| - 1]);
      var v := Run(w, steps[..|steps| - 1]);
      if Enabled(v, steps[|steps| - 1]) {
        StepKeepsInv(v, steps[|steps| - 1]);
      }
    }
  }
}
