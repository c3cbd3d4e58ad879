/** Linking a new device to an account over the local network. Two users, two tasks, a
    core thread and a channel each way move on their own; an epoch counter lets a
    cancellation overtake an installation that is already being written. */
module Pairing {
  import opened Envelopes

  type Id = Bytes

  datatype Message = Message(id: Bytes, conversation: Bytes, outgoing: bool, createdAt: int, body: Bytes)
  datatype Record = Meta(peers: Bytes, count: nat) | Entry(message: Message)

  /** What the source reads when its user has confirmed: the account, and the history in
      its order. */
  datatype Export = Export(link: Bytes, peers: Bytes, messages: seq<Message>)

  function RecordAt(x: Export, i: nat): Record
    requires i <= |x.messages|
  {
    if i == 0 then Meta(x.peers, |x.messages|) else Entry(x.messages[i - 1])
  }

  /** What travels on the channel; each payload is one item of the frame stream. */
  datatype Notice = Confirmed | Payload(link: Bytes) | Item(record: Record) | End | Installed

  // ----- The staged history -----

  predicate Distinct(ms: seq<Message>) {
    forall i, j :: 0 <= i < j < |ms| ==> ms[i].id != ms[j].id
  }

  /** A staged history is installed only when it opens with its header, holds exactly as
      many messages as that says, and repeats none. */
  ghost predicate Restores(records: seq<Record>, history: seq<Message>) {
    && |records| == 1 + |history|
    && records[0].Meta? && records[0].count == |history|
    && (forall i :: 0 <= i < |history| ==> records[1 + i] == Entry(history[i]))
    && Distinct(history)
  }

  /** The loop over the staged records. */
  method InstallHistory(records: seq<Record>) returns (history: Option<seq<Message>>)
    ensures history.Some? ==> Restores(records, history.value)
    ensures history == None ==> forall h :: !Restores(records, h)
  {
    var meta, expected := false, 0;
    var messages: seq<Message> := [];
    for seqNo := 0 to |records|
      invariant meta <==> 0 < seqNo
      invariant meta ==> records[0].Meta? && records[0].count == expected && |messages| == seqNo - 1 <= expected
      invariant !meta ==> messages == []
      invariant forall i :: 0 <= i < |messages| ==> records[1 + i] == Entry(messages[i])
      invariant Distinct(messages)
    {
      match records[seqNo]
      case Meta(_, count) =>
        if meta || seqNo != 0 {
          SecondHeader(records, seqNo);
          return None;
        }
        meta, expected := true, count;
      case Entry(message) =>
        if !meta || |messages| >= expected { return None; }
        var known := HasMessage(messages, message.id);
        if known {
          Repeated(records, messages, message);
          return None;
        }
        messages := messages + [message];
    }
    if !meta || expected != |messages| { return None; }
    history := Some(messages);
  }

  method HasMessage(messages: seq<Message>, id: Bytes) returns (found: bool)
    ensures found <==> exists i :: 0 <= i < |messages| && messages[i].id == id
  {
    for i := 0 to |messages|
      invariant forall j :: 0 <= j < i ==> messages[j].id != id
    {
      if messages[i].id == id { return true; }
    }
    found := false;
  }

  lemma SecondHeader(records: seq<Record>, at: nat)
    requires 0 < at < |records| && records[at].Meta?
    ensures forall h :: !Restores(records, h)
  {
    forall h: seq<Message> | |records| == 1 + |h| ensures !(forall i :: 0 <= i < |h| ==> records[1 + i] == Entry(h[i])) {
      assert records[1 + (at - 1)] != Entry(h[at - 1]);
    }
  }

  lemma Repeated(records: seq<Record>, messages: seq<Message>, m: Message)
    requires |messages| + 1 < |records| && records[|messages| + 1] == Entry(m)
    requires forall i :: 0 <= i < |messages| ==> records[1 + i] == Entry(messages[i])
    requires exists i :: 0 <= i < |messages| && messages[i].id == m.id
    ensures forall h :: !Restores(records, h)
  {
    var i :| 0 <= i < |messages| && messages[i].id == m.id;
    forall h | |records| == 1 + |h| && (forall k :: 0 <= k < |h| ==> records[1 + k] == Entry(h[k])) ensures !Distinct(h) {
      assert h[i] == messages[i] && h[|messages|] == m;
    }
  }

  /** Only one history can come out of staged records. */
  lemma RestoresOnce(records: seq<Record>, h: seq<Message>, h': seq<Message>)
    requires Restores(records, h) && Restores(records, h')
    ensures h == h'
  {
    forall i | 0 <= i < |h| ensures h[i] == h'[i] {
      assert records[1 + i] == Entry(h[i]);
    }
  }

  /** A history that was cut short does not install: what a part of an export restores
      is all of its messages. */
  lemma CutHistoryIsRefused(x: Export, records: seq<Record>, history: seq<Message>)
    requires |records| <= 1 + |x.messages| && forall i :: 0 <= i < |records| ==> records[i] == RecordAt(x, i)
    requires Restores(records, history)
    ensures history == x.messages
  {
    assert records[0] == RecordAt(x, 0);
    forall i | 0 <= i < |history| ensures history[i] == x.messages[i] {
      assert records[1 + i] == RecordAt(x, 1 + i);
    }
  }

  // ----- The target -----

  datatype Phase =
    | Verify
    | AwaitPeer
    | AwaitPayload
    | Receiving(link: Bytes, count: nat)
    | Staging(link: Bytes, count: nat)
    | Installing
    | Complete
    | Over

  /** The task that talks to the peer. `control` is the user's confirmation, `read` how
      much of the channel it has consumed; the last two are answers of the core. */
  datatype Task = Task(phase: Phase, control: bool, read: nat, staged: Option<(nat, bool)>, installed: Option<bool>)

  datatype Active = Active(id: Id, epoch: nat, confirmed: bool)

  datatype Command =
    | Start(id: Id)
    | Confirm(id: Id)
    | Cancel
    | Stage(id: Id, seqNo: nat, record: Record)
    | Install(id: Id, link: Bytes)
    | Cleanup(id: Id)

  /** What the core thread is in the middle of: nothing, the writes of an installation
      before the final check, or those writes after it. */
  datatype Core =
    | Idle
    | Writing(id: Id, link: Bytes, history: seq<Message>)
    | Checked(id: Id, link: Bytes, history: seq<Message>, epoch: nat)

  datatype Target = Target(
    credentials: Option<Bytes>,
    history: seq<Message>,
    stage: map<Id, seq<Record>>,
    active: Option<Active>,
    epoch: nat,
    queue: seq<Command>,
    core: Core,
    tasks: map<Id, Task>)

  predicate Finished(t: Target, id: Id) {
    id !in t.tasks || t.tasks[id].phase.Complete? || t.tasks[id].phase.Over?
  }

  predicate Eligible(t: Target, id: Id) {
    t.active.Some? && t.active.value.id == id && t.active.value.confirmed && !Finished(t, id)
  }

  predicate ValidReceiver(t: Target, id: Id) {
    Eligible(t, id) && t.active.value.epoch == t.epoch
  }

  function Staged(t: Target, id: Id): seq<Record> {
    if id in t.stage then t.stage[id] else []
  }

  function Answer(t: Target, id: Id, done: bool): Target {
    if id in t.tasks then t.(tasks := t.tasks[id := t.tasks[id].(installed := Some(done))]) else t
  }

  function OnStart(t: Target, id: Id, ok: bool): Target {
    if t.credentials.Some? then t
    else if !ok then t.(active := None)
    else t.(active := Some(Active(id, t.epoch, false)), stage := map[], tasks := t.tasks[id := Task(Verify, false, 0, None, None)])
  }

  function OnConfirm(t: Target, id: Id): Target {
    if t.active.Some? && t.active.value.id == id && !Finished(t, id) && !t.active.value.confirmed
    then t.(active := Some(t.active.value.(confirmed := true)), tasks := t.tasks[id := t.tasks[id].(control := true)])
    else t
  }

  function OnCancel(t: Target, ok: bool): Target {
    if t.active == None then t
    else if !ok then t
    else t.(stage := t.stage - {t.active.value.id}, active := None)
  }

  function OnStage(t: Target, id: Id, seqNo: nat, record: Record, ok: bool): Target {
    var accepted := ValidReceiver(t, id) && |Staged(t, id)| == seqNo && ok;
    var kept := if accepted then t.(stage := t.stage[id := Staged(t, id) + [record]]) else t;
    if id in t.tasks then kept.(tasks := t.tasks[id := t.tasks[id].(staged := Some((seqNo, accepted)))]) else kept
  }

  ghost function OnInstall(t: Target, id: Id, link: Bytes, ok: bool): Target {
    if h: seq<Message> :| Eligible(t, id) && t.credentials == None && ok && Restores(Staged(t, id), h)
    then t.(core := Writing(id, link, h))
    else Answer(t, id, false)
  }

  function OnCleanup(t: Target, id: Id, ok: bool): Target {
    if ok then t.(stage := t.stage - {id}) else t
  }

  /** The core handles one command; `ok` says whether what it needs of the storage and
      of the payload's format works out. */
  ghost function Handle(t: Target, c: Command, ok: bool): Target {
    match c
    case Start(id) => OnStart(t, id, ok)
    case Confirm(id) => OnConfirm(t, id)
    case Cancel => OnCancel(t, ok)
    case Stage(id, n, record) => OnStage(t, id, n, record, ok)
    case Install(id, link) => OnInstall(t, id, link, ok)
    case Cleanup(id) => OnCleanup(t, id, ok)
  }

  ghost function Process(t: Target, ok: bool): Target {
    if t.core != Idle || t.queue == [] then t else Handle(t.(queue := t.queue[1..]), t.queue[0], ok)
  }

  /** The last thing done inside the savepoint. */
  function Check(t: Target): Target {
    if !t.core.Writing? then t
    else if ValidReceiver(t, t.core.id) then t.(core := Checked(t.core.id, t.core.link, t.core.history, t.epoch))
    else Answer(t.(core := Idle), t.core.id, false)
  }

  function Release(t: Target, ok: bool): Target {
    if !t.core.Checked? then t
    else if ok then
      Answer(t.(core := Idle, credentials := Some(t.core.link), history := t.history + t.core.history, stage := t.stage - {t.core.id}),
             t.core.id, true)
    else Answer(t.(core := Idle), t.core.id, false)
  }

  // ----- The source -----

  datatype SourcePhase = SVerify | SAwaitPeer | SStreaming(next: nat) | SAwaitInstalled | SComplete | SOver

  datatype SourceTask = SourceTask(phase: SourcePhase, exported: Option<Export>, read: nat)

  // ----- The whole -----

  /** `issued` is the epoch when the user started a session, `userConfirmed` the sessions
      whose target user pressed confirm, `cancelling` a cancellation that has bumped the
      epoch and not yet queued its command, `refused` the commands for which the storage
      failed, `outlived` the sessions that were active when it failed for a cancellation
      and nothing was installed yet, and `installer` who installed, at which epoch. */
  datatype World = World(
    target: Target,
    source: map<Id, SourceTask>,
    toTarget: map<Id, seq<Notice>>,
    toSource: map<Id, seq<Notice>>,
    issued: map<Id, nat>,
    userConfirmed: set<Id>,
    cancelling: bool,
    refused: set<Command>,
    outlived: set<Id>,
    installer: Option<(Id, nat)>)

  const BEGIN := World(Target(None, [], map[], None, 0, [], Idle, map[]), map[], map[], map[], map[], {}, false, {}, {}, None)

  function Log(m: map<Id, seq<Notice>>, id: Id): seq<Notice> {
    if id in m then m[id] else []
  }

  datatype Step =
    | UserStarts(id: Id)
    | UserConfirms(id: Id)
    | UserCancels
    | CancelQueued
    | CoreProcesses(ok: bool)
    | CoreChecks
    | CoreCommits(ok: bool)
    | TaskConfirms(id: Id)
    | TaskHearsPeer(id: Id)
    | TaskHearsPayload(id: Id)
    | TaskHearsItem(id: Id)
    | TaskStaged(id: Id)
    | TaskHearsEnd(id: Id)
    | TaskInstalled(id: Id, wrote: bool)
    /** A timeout, a broken connection, or an abort. */
    | TaskEnds(id: Id)
    | SourceStarts(id: Id)
    | SourceConfirms(id: Id, unlocked: bool, exported: Export)
    | SourceSpeaks(id: Id)
    | SourceHearsPeer(id: Id)
    | SourceSendsItem(id: Id)
    /** The producer has ended, after the last record or before it. */
    | SourceSendsEnd(id: Id)
    | SourceHearsInstalled(id: Id)
    | SourceEnds(id: Id)

  function Queued(t: Target, c: Command): Target {
    t.(queue := t.queue + [c])
  }

  function Tell(m: map<Id, seq<Notice>>, id: Id, said: seq<Notice>): map<Id, seq<Notice>> {
    m[id := Log(m, id) + said]
  }

  predicate Hears(w: World, id: Id, phase: Phase, n: Notice) {
    && id in w.target.tasks && w.target.tasks[id].phase == phase
    && w.target.tasks[id].read < |Log(w.toTarget, id)| && Log(w.toTarget, id)[w.target.tasks[id].read] == n
  }

  predicate SourceHears(w: World, id: Id, phase: SourcePhase, n: Notice) {
    && id in w.source && w.source[id].phase == phase
    && w.source[id].read < |Log(w.toSource, id)| && Log(w.toSource, id)[w.source[id].read] == n
  }

  function Heard(t: Task, phase: Phase): Task {
    t.(phase := phase, read := t.read + 1)
  }

  predicate IsTaskStep(s: Step) {
    s.TaskConfirms? || s.TaskHearsPeer? || s.TaskHearsPayload? || s.TaskHearsItem? || s.TaskStaged? || s.TaskHearsEnd?
    || s.TaskInstalled? || s.TaskEnds?
  }

  predicate IsSourceStep(s: Step) {
    s.SourceStarts? || s.SourceConfirms? || s.SourceSpeaks? || s.SourceHearsPeer? || s.SourceSendsItem?
    || s.SourceSendsEnd? || s.SourceHearsInstalled? || s.SourceEnds?
  }

  /** What the surroundings guarantee: session identifiers are new, a user confirms only
      a session that is shown, and the user's thread does one thing at a time. */
  predicate Enabled(w: World, s: Step) {
    match s
    case UserStarts(id) => !w.cancelling && id !in w.issued
    case UserConfirms(id) => !w.cancelling && id in w.target.tasks
    case UserCancels => !w.cancelling
    case CancelQueued => w.cancelling
    case CoreProcesses(_) => w.target.core == Idle && w.target.queue != []
    case CoreChecks => w.target.core.Writing?
    case CoreCommits(_) => w.target.core.Checked?
    case TaskConfirms(id) => id in w.target.tasks && w.target.tasks[id].phase == Verify && w.target.tasks[id].control
    case TaskHearsPeer(id) => Hears(w, id, AwaitPeer, Confirmed)
    case TaskHearsPayload(id) =>
      && id in w.target.tasks && w.target.tasks[id].phase == AwaitPayload
      && w.target.tasks[id].read < |Log(w.toTarget, id)| && Log(w.toTarget, id)[w.target.tasks[id].read].Payload?
    case TaskHearsItem(id) =>
      && id in w.target.tasks && w.target.tasks[id].phase.Receiving?
      && w.target.tasks[id].read < |Log(w.toTarget, id)| && Log(w.toTarget, id)[w.target.tasks[id].read].Item?
    case TaskStaged(id) =>
      && id in w.target.tasks && w.target.tasks[id].phase.Staging?
      && w.target.tasks[id].staged == Some((w.target.tasks[id].phase.count, true))
    case TaskHearsEnd(id) =>
      id in w.target.tasks && w.target.tasks[id].phase.Receiving? && Hears(w, id, w.target.tasks[id].phase, End)
    case TaskInstalled(id, _) =>
      id in w.target.tasks && w.target.tasks[id].phase == Installing && w.target.tasks[id].installed == Some(true)
    case TaskEnds(id) => !Finished(w.target, id)
    case SourceStarts(id) => id !in w.source
    case SourceConfirms(id, _, exported) =>
      id in w.source && w.source[id].phase == SVerify && w.source[id].exported == None
    case SourceSpeaks(id) => id in w.source && w.source[id].phase == SVerify && w.source[id].exported.Some?
    case SourceHearsPeer(id) => SourceHears(w, id, SAwaitPeer, Confirmed) && w.source[id].exported.Some?
    case SourceSendsItem(id) =>
      && id in w.source && w.source[id].phase.SStreaming? && w.source[id].exported.Some?
      && w.source[id].phase.next <= |w.source[id].exported.value.messages|
    case SourceSendsEnd(id) => id in w.source && w.source[id].phase.SStreaming?
    case SourceHearsInstalled(id) => SourceHears(w, id, SAwaitInstalled, Installed)
    case SourceEnds(id) => id in w.source && !w.source[id].phase.SComplete?
  }

  // ----- The tasks -----

  function TaskAfter(w: World, s: Step): Task
    requires Enabled(w, s) && IsTaskStep(s)
  {
    var task := w.target.tasks[s.id];
    match s
    case TaskConfirms(_) => task.(phase := AwaitPeer)
    case TaskHearsPeer(_) => Heard(task, AwaitPayload)
    case TaskHearsPayload(id) => Heard(task, Receiving(Log(w.toTarget, id)[task.read].link, 0))
    case TaskHearsItem(_) => Heard(task, Staging(task.phase.link, task.phase.count))
    case TaskStaged(_) => task.(phase := Receiving(task.phase.link, task.phase.count + 1))
    case TaskHearsEnd(_) => Heard(task, Installing)
    case TaskInstalled(_, _) => task.(phase := Complete)
    case TaskEnds(_) => task.(phase := Over)
  }

  /** The commands a task sends to the core; the last is sent however the task ends. */
  function TaskAsks(w: World, s: Step): seq<Command>
    requires Enabled(w, s) && IsTaskStep(s)
  {
    var task := w.target.tasks[s.id];
    match s
    case TaskHearsItem(id) => [Stage(id, task.phase.count, Log(w.toTarget, id)[task.read].record)]
    case TaskHearsEnd(id) => [Install(id, task.phase.link)]
    case TaskInstalled(id, _) => [Cleanup(id)]
    case TaskEnds(id) => [Cleanup(id)]
    case _ => []
  }

  function TaskSays(s: Step): seq<Notice> {
    match s
    case TaskConfirms(_) => [Confirmed]
    case TaskInstalled(_, wrote) => if wrote then [Installed] else []
    case _ => []
  }

  function SourceAfter(w: World, s: Step): SourceTask
    requires Enabled(w, s) && IsSourceStep(s)
  {
    match s
    case SourceStarts(_) => SourceTask(SVerify, None, 0)
    case SourceConfirms(id, unlocked, exported) =>
      if unlocked then w.source[id].(exported := Some(exported)) else w.source[id]
    case SourceSpeaks(id) => w.source[id].(phase := SAwaitPeer)
    case SourceHearsPeer(id) => w.source[id].(phase := SStreaming(0), read := w.source[id].read + 1)
    case SourceSendsItem(id) => w.source[id].(phase := SStreaming(w.source[id].phase.next + 1))
    case SourceSendsEnd(id) => w.source[id].(phase := SAwaitInstalled)
    case SourceHearsInstalled(id) => w.source[id].(phase := SComplete, read := w.source[id].read + 1)
    case SourceEnds(id) => w.source[id].(phase := SOver)
  }

  function SourceSays(w: World, s: Step): seq<Notice>
    requires Enabled(w, s) && IsSourceStep(s)
  {
    match s
    case SourceSpeaks(_) => [Confirmed]
    case SourceHearsPeer(id) => [Payload(w.source[id].exported.value.link)]
    case SourceSendsItem(id) => [Item(RecordAt(w.source[id].exported.value, w.source[id].phase.next))]
    case SourceSendsEnd(_) => [End]
    case _ => []
  }

  /** The command at hand cancels the active session, and the storage refuses to clear its
      stage: the session stays. */
  predicate Outlives(w: World, ok: bool)
    requires w.target.queue != []
  {
    !ok && w.target.queue[0] == Cancel && w.target.active.Some? && w.installer == None
  }

  ghost function Next(w: World, s: Step): World
    requires Enabled(w, s)
  {
    var t := w.target;
    if IsTaskStep(s) then
      w.(target := t.(tasks := t.tasks[s.id := TaskAfter(w, s)], queue := t.queue + TaskAsks(w, s)),
         toSource := Tell(w.toSource, s.id, TaskSays(s)))
    else if IsSourceStep(s) then
      w.(source := w.source[s.id := SourceAfter(w, s)], toTarget := Tell(w.toTarget, s.id, SourceSays(w, s)))
    else match s
      case UserStarts(id) => w.(target := Queued(t, Start(id)), issued := w.issued[id := t.epoch])
      case UserConfirms(id) => w.(target := Queued(t, Confirm(id)), userConfirmed := w.userConfirmed + {id})
      case UserCancels => w.(target := t.(epoch := t.epoch + 1), cancelling := true)
      case CancelQueued => w.(target := Queued(t, Cancel), cancelling := false)
      case CoreProcesses(ok) =>
        w.(target := Process(t, ok), refused := if ok then w.refused else w.refused + {t.queue[0]},
           outlived := if Outlives(w, ok) then w.outlived + {t.active.value.id} else w.outlived)
      case CoreChecks => w.(target := Check(t))
      case CoreCommits(ok) =>
        w.(target := Release(t, ok), installer := if ok then Some((t.core.id, t.core.epoch)) else w.installer)
  }

  /** A step that is not enabled does not happen. */
  ghost function Run(w: World, steps: seq<Step>): World {
    if steps == [] then w
    else
      var v := Run(w, steps[..|steps| - 1]);
      if Enabled(v, steps[|steps| - 1]) then Next(v, steps[|steps| - 1]) else v
  }
}
