/** Runs of account linking, step by step: the one that links, the one way to outrun a
    cancellation, and one in which the storage refuses the cancellation of another
    session. */
module PairingRuns {
  import opened Envelopes
  import opened Pairing
  import opened PairingPromises

  /** One step of each kind. */
  lemma SourceMoves(w: World, v: World, s: Step)
    requires Reachable(w) && Enabled(w, s) && IsSourceStep(s)
    requires v == w.(source := w.source[s.id := SourceAfter(w, s)], toTarget := Tell(w.toTarget, s.id, SourceSays(w, s)))
    ensures Reachable(v)
  {
    ReachMore(w, s);
  }

  lemma TaskMoves(w: World, v: World, s: Step)
    requires Reachable(w) && Enabled(w, s) && IsTaskStep(s)
    requires v.target == w.target.(tasks := w.target.tasks[s.id := TaskAfter(w, s)], queue := w.target.queue + TaskAsks(w, s))
    requires v == w.(target := v.target, toSource := Tell(w.toSource, s.id, TaskSays(s)))
    ensures Reachable(v)
  {
    ReachMore(w, s);
  }

  lemma CoreMoves(w: World, v: World, c: Command)
    requires Reachable(w) && w.target.core == Idle && w.target.queue != [] && w.target.queue[0] == c
    requires v == w.(target := v.target) && v.target == Handle(w.target.(queue := w.target.queue[1..]), c, true)
    ensures Reachable(v)
  {
    ReachMore(w, CoreProcesses(true));
  }

  /** The storage refuses to clear the stage for a cancellation. */
  lemma CancelFails(w: World, v: World)
    requires Reachable(w) && w.target.core == Idle && w.target.queue == [Cancel] && w.target.active.Some? && w.installer == None
    requires v == w.(target := w.target.(queue := []), refused := w.refused + {Cancel}, outlived := w.outlived + {w.target.active.value.id})
    ensures Reachable(v)
  {
    assert w.target.queue[1..] == [];
    ReachMore(w, CoreProcesses(false));
  }

  lemma CoreWrites(w: World, a: World, v: World)
    requires Reachable(w) && w.target.core.Writing?
    requires a == w.(target := Check(w.target)) && a.target.core.Checked?
    requires v == a.(target := Release(a.target, true), installer := Some((a.target.core.id, a.target.core.epoch)))
    ensures Reachable(v)
  {
    ReachMore(w, CoreChecks);
    ReachMore(a, CoreCommits(true));
  }

  /** What went before: the session that is shown now, the epoch it runs under, the epochs
      in which sessions were started, what the storage has refused, which sessions have
      outlived a cancellation, and the tasks of other sessions. */
  datatype Scene = Scene(id: Id, epoch: nat, issued: map<Id, nat>, refused: set<Command>, outlived: set<Id>, others: map<Id, Task>)

  /** A session that is shown to both users. */
  function Shown(c: Scene): World {
    World(Target(None, [], map[], Some(Active(c.id, c.epoch, false)), c.epoch, [], Idle, c.others[c.id := Task(Verify, false, 0, None, None)]),
          map[], map[], map[], c.issued, {}, false, c.refused, c.outlived, None)
  }

  /** The user of the target presses confirm, and the core takes it up. */
  lemma TargetConfirms(c: Scene)
    requires Reachable(Shown(c))
    ensures Reachable(TargetReady(c))
  {
    var w, v := Shown(c), TargetReady(c);
    var a := w.(target := w.target.(queue := [Confirm(c.id)]), userConfirmed := {c.id});
    ConfirmPressed(w, a, c.id);
    assert a.target.queue[1..] == [];
    CoreMoves(a, v, Confirm(c.id));
  }

  lemma ConfirmPressed(w: World, v: World, id: Id)
    requires Reachable(w) && !w.cancelling && id in w.target.tasks && w.target.queue == []
    requires v == w.(target := w.target.(queue := [Confirm(id)]), userConfirmed := w.userConfirmed + {id})
    ensures Reachable(v)
  {
    ReachMore(w, UserConfirms(id));
    assert w.target.queue + [Confirm(id)] == [Confirm(id)];
  }

  /** The user of the target has confirmed. */
  function TargetReady(c: Scene): World {
    var w := Shown(c);
    w.(target := w.target.(active := Some(Active(c.id, c.epoch, true)), tasks := c.others[c.id := Task(Verify, true, 0, None, None)]),
       userConfirmed := {c.id})
  }

  /** Both users have confirmed and nothing has been said. */
  function Agreed(c: Scene, x: Export): World {
    TargetReady(c).(source := map[c.id := SourceTask(SVerify, Some(x), 0)], toTarget := map[c.id := []])
  }

  lemma SourceAgrees(c: Scene, x: Export)
    requires Reachable(TargetReady(c))
    ensures Reachable(Agreed(c, x))
  {
    var w := TargetReady(c);
    var a := Next(w, SourceStarts(c.id));
    ReachMore(w, SourceStarts(c.id));
    ReachMore(a, SourceConfirms(c.id, true, x));
    assert Next(a, SourceConfirms(c.id, true, x)) == Agreed(c, x);
  }

  /** The first `n` records of an export, as they are staged and as they travel. */
  function Records(x: Export, n: nat): seq<Record>
    requires n <= 1 + |x.messages|
  {
    seq(n, i requires 0 <= i < n => RecordAt(x, i))
  }

  function Sent(x: Export, n: nat): seq<Notice>
    requires n <= 1 + |x.messages|
  {
    [Confirmed, Payload(x.link)] + seq(n, i requires 0 <= i < n => Item(RecordAt(x, i)))
  }

  /** The talk has begun: what the target has staged, its task, the source's task, and
      what has been said each way. */
  function Talk(c: Scene, staged: seq<Record>, task: Task, source: SourceTask,
                toTarget: seq<Notice>): World
  {
    var stage := if staged == [] then map[] else map[c.id := staged];
    World(Target(None, [], stage, Some(Active(c.id, c.epoch, true)), c.epoch, [], Idle, c.others[c.id := task]),
          map[c.id := source], map[c.id := toTarget], map[c.id := [Confirmed]], c.issued, {c.id}, false, c.refused, c.outlived, None)
  }

  /** The target has received and staged the first `n` records. */
  function Midway(c: Scene, x: Export, n: nat): World
    requires n <= 1 + |x.messages|
  {
    Talk(c, Records(x, n), Task(Receiving(x.link, n), true, 2 + n, if n == 0 then None else Some((n - 1, true)), None),
         SourceTask(SStreaming(n), Some(x), 1), Sent(x, n))
  }

  lemma Silence(m: map<Id, seq<Notice>>, id: Id)
    requires id in m
    ensures Tell(m, id, []) == m
  {
    assert m[id] + [] == m[id];
  }

  lemma TargetSpeaks(c: Scene, x: Export)
    requires Reachable(Agreed(c, x))
    ensures Reachable(Talk(c, [], Task(AwaitPeer, true, 0, None, None), SourceTask(SVerify, Some(x), 0), []))
  {
    var w := Agreed(c, x);
    var v := Talk(c, [], Task(AwaitPeer, true, 0, None, None), SourceTask(SVerify, Some(x), 0), []);
    assert [] + TaskAsks(w, TaskConfirms(c.id)) == [] && [] + [Confirmed] == [Confirmed];
    TaskMoves(w, v, TaskConfirms(c.id));
  }

  lemma SourceSpeaksToo(c: Scene, x: Export)
    requires Reachable(Talk(c, [], Task(AwaitPeer, true, 0, None, None), SourceTask(SVerify, Some(x), 0), []))
    ensures Reachable(Talk(c, [], Task(AwaitPeer, true, 0, None, None), SourceTask(SStreaming(0), Some(x), 1), Sent(x, 0)))
  {
    var w := Talk(c, [], Task(AwaitPeer, true, 0, None, None), SourceTask(SVerify, Some(x), 0), []);
    var a := w.(source := map[c.id := SourceTask(SAwaitPeer, Some(x), 0)], toTarget := map[c.id := [Confirmed]]);
    assert [] + [Confirmed] == [Confirmed];
    SourceMoves(w, a, SourceSpeaks(c.id));
    var b := w.(source := map[c.id := SourceTask(SStreaming(0), Some(x), 1)], toTarget := map[c.id := Sent(x, 0)]);
    assert [Confirmed] + [Payload(x.link)] == Sent(x, 0);
    SourceMoves(a, b, SourceHearsPeer(c.id));
  }

  lemma TargetHears(c: Scene, x: Export)
    requires Reachable(Talk(c, [], Task(AwaitPeer, true, 0, None, None), SourceTask(SStreaming(0), Some(x), 1), Sent(x, 0)))
    ensures Reachable(Midway(c, x, 0))
  {
    var w := Talk(c, [], Task(AwaitPeer, true, 0, None, None), SourceTask(SStreaming(0), Some(x), 1), Sent(x, 0));
    var a := w.(target := w.target.(tasks := c.others[c.id := Task(AwaitPayload, true, 1, None, None)]));
    Silence(w.toSource, c.id);
    assert [] + TaskAsks(w, TaskHearsPeer(c.id)) == [];
    TaskMoves(w, a, TaskHearsPeer(c.id));
    assert [] + TaskAsks(a, TaskHearsPayload(c.id)) == [];
    TaskMoves(a, Midway(c, x, 0), TaskHearsPayload(c.id));
  }

  /** A record on its way: the task has heard it and asked the core to stage it. */
  function Underway(c: Scene, x: Export, n: nat): World
    requires n <= |x.messages|
  {
    var w := Midway(c, x, n);
    var task := w.target.tasks[c.id].(phase := Staging(x.link, n), read := 3 + n);
    w.(target := w.target.(queue := [Stage(c.id, n, RecordAt(x, n))], tasks := c.others[c.id := task]),
       source := map[c.id := SourceTask(SStreaming(n + 1), Some(x), 1)], toTarget := map[c.id := Sent(x, n + 1)])
  }

  lemma SourceSendsOne(c: Scene, x: Export, n: nat, v: World)
    requires n <= |x.messages| && Reachable(Midway(c, x, n))
    requires v == Midway(c, x, n).(source := Underway(c, x, n).source, toTarget := Underway(c, x, n).toTarget)
    ensures Reachable(v)
  {
    assert Sent(x, n) + [Item(RecordAt(x, n))] == Sent(x, n + 1);
    SourceMoves(Midway(c, x, n), v, SourceSendsItem(c.id));
  }

  lemma SendsOne(c: Scene, x: Export, n: nat)
    requires n <= |x.messages| && Reachable(Midway(c, x, n))
    ensures Reachable(Underway(c, x, n))
  {
    var v := Underway(c, x, n);
    var a := Midway(c, x, n).(source := v.source, toTarget := v.toTarget);
    SourceSendsOne(c, x, n, a);
    assert [] + TaskAsks(a, TaskHearsItem(c.id)) == v.target.queue;
    Silence(a.toSource, c.id);
    TaskMoves(a, v, TaskHearsItem(c.id));
  }

  lemma TaskStagesOn(w: World, v: World, id: Id)
    requires Reachable(w) && Enabled(w, TaskStaged(id)) && id in w.toSource
    requires v == w.(target := w.target.(tasks := w.target.tasks[id := TaskAfter(w, TaskStaged(id))]))
    ensures Reachable(v)
  {
    assert w.target.queue + TaskAsks(w, TaskStaged(id)) == w.target.queue;
    Silence(w.toSource, id);
    TaskMoves(w, v, TaskStaged(id));
  }

  lemma Accepts(t: Target, id: Id, x: Export, n: nat)
    requires n <= |x.messages| && Staged(t, id) == Records(x, n) && ValidReceiver(t, id)
    ensures OnStage(t, id, n, RecordAt(x, n), true) ==
            t.(stage := t.stage[id := Records(x, n + 1)], tasks := t.tasks[id := t.tasks[id].(staged := Some((n, true)))])
  {
    assert Records(x, n) + [RecordAt(x, n)] == Records(x, n + 1);
  }

  /** The core has staged the record; the task does not know it yet. */
  function Taken(c: Scene, x: Export, n: nat): World
    requires n <= |x.messages|
  {
    Talk(c, Records(x, n + 1), Task(Staging(x.link, n), true, 3 + n, Some((n, true)), None),
         SourceTask(SStreaming(n + 1), Some(x), 1), Sent(x, n + 1))
  }

  lemma StageMoves(w: World, v: World, id: Id, n: nat, r: Record)
    requires Reachable(w) && w.target.core == Idle && w.target.queue == [Stage(id, n, r)]
    requires v == w.(target := v.target) && v.target == OnStage(w.target.(queue := []), id, n, r, true)
    ensures Reachable(v)
  {
    assert w.target.queue[1..] == [];
    CoreMoves(w, v, Stage(id, n, r));
  }

  lemma CoreAccepts(c: Scene, x: Export, n: nat)
    requires n <= |x.messages| && Reachable(Underway(c, x, n))
    ensures Reachable(Taken(c, x, n))
  {
    var w, v := Underway(c, x, n), Taken(c, x, n);
    var t := w.target.(queue := []);
    assert w.target.queue[1..] == [];
    Accepts(t, c.id, x, n);
    assert v.target == OnStage(t, c.id, n, RecordAt(x, n), true);
    StageMoves(w, v, c.id, n, RecordAt(x, n));
  }

  lemma StagesOne(c: Scene, x: Export, n: nat)
    requires n <= |x.messages| && Reachable(Underway(c, x, n))
    ensures Reachable(Midway(c, x, n + 1))
  {
    CoreAccepts(c, x, n);
    TaskStagesOn(Taken(c, x, n), Midway(c, x, n + 1), c.id);
  }

  lemma {:induction false} AllRecords(c: Scene, x: Export, n: nat)
    requires n <= 1 + |x.messages| && Reachable(Midway(c, x, 0))
    ensures Reachable(Midway(c, x, n))
  {
    if n > 0 {
      AllRecords(c, x, n - 1);
      SendsOne(c, x, n - 1);
      StagesOne(c, x, n - 1);
    }
  }

  /** Everything is staged, and the core writes it. */
  function Writes(c: Scene, x: Export): World {
    var w := AtEnd(c, x);
    var task := w.target.tasks[c.id].(phase := Installing, read := 4 + |x.messages|);
    w.(target := w.target.(core := Writing(c.id, x.link, x.messages), tasks := c.others[c.id := task]))
  }

  /** The source has sent everything and the end. */
  function AtEnd(c: Scene, x: Export): World {
    Talk(c, Records(x, 1 + |x.messages|),
         Task(Receiving(x.link, 1 + |x.messages|), true, 3 + |x.messages|, Some((|x.messages|, true)), None),
         SourceTask(SAwaitInstalled, Some(x), 1), Sent(x, 1 + |x.messages|) + [End])
  }

  lemma SourceEndsStream(c: Scene, x: Export)
    requires Reachable(Midway(c, x, 1 + |x.messages|))
    ensures Reachable(AtEnd(c, x))
  {
    SourceMoves(Midway(c, x, 1 + |x.messages|), AtEnd(c, x), SourceSendsEnd(c.id));
  }

  lemma TaskEndsStream(c: Scene, x: Export, v: World)
    requires Reachable(AtEnd(c, x))
    requires v == Writes(c, x).(target := v.target)
    requires v.target == Writes(c, x).target.(core := Idle, queue := [Install(c.id, x.link)])
    ensures Reachable(v)
  {
    var w := AtEnd(c, x);
    assert Log(w.toTarget, c.id)[3 + |x.messages|] == End;
    assert [] + TaskAsks(w, TaskHearsEnd(c.id)) == v.target.queue;
    Silence(w.toSource, c.id);
    TaskMoves(w, v, TaskHearsEnd(c.id));
  }

  lemma Begins(c: Scene, x: Export)
    requires Distinct(x.messages) && Reachable(Midway(c, x, 1 + |x.messages|))
    ensures Reachable(Writes(c, x))
  {
    var v := Writes(c, x);
    var t := v.target.(core := Idle);
    var b := v.(target := t.(queue := [Install(c.id, x.link)]));
    SourceEndsStream(c, x);
    TaskEndsStream(c, x, b);
    Installs(t, c.id, x);
    assert b.target.queue[1..] == [] && b.target.(queue := []) == t;
    CoreMoves(b, v, Install(c.id, x.link));
  }

  lemma Installs(t: Target, id: Id, x: Export)
    requires Eligible(t, id) && t.credentials == None && Staged(t, id) == Records(x, 1 + |x.messages|) && Distinct(x.messages)
    ensures OnInstall(t, id, x.link, true) == t.(core := Writing(id, x.link, x.messages))
  {
    assert Restores(Staged(t, id), x.messages);
    forall h | Restores(Staged(t, id), h) ensures h == x.messages {
      RestoresOnce(Staged(t, id), x.messages, h);
    }
  }

  /** The target holds the account; the source does not know it yet. */
  function Holds(c: Scene, x: Export): World {
    var w := Writes(c, x);
    w.(target := w.target.(core := Idle, credentials := Some(x.link), history := x.messages, stage := map[],
                           tasks := c.others[c.id := w.target.tasks[c.id].(installed := Some(true))]),
       installer := Some((c.id, c.epoch)))
  }

  lemma Commits(c: Scene, x: Export)
    requires Reachable(Writes(c, x))
    ensures Reachable(Holds(c, x))
  {
    var w, v := Writes(c, x), Holds(c, x);
    var a := w.(target := w.target.(core := Checked(c.id, x.link, x.messages, c.epoch)));
    assert [] + x.messages == x.messages && w.target.stage - {c.id} == map[];
    CoreWrites(w, a, v);
  }

  /** From a session on both screens to the account on the target. */
  lemma Completes(c: Scene, x: Export)
    requires Distinct(x.messages) && Reachable(Shown(c))
    ensures Reachable(Holds(c, x))
  {
    TargetConfirms(c);
    SourceAgrees(c, x);
    TargetSpeaks(c, x);
    SourceSpeaksToo(c, x);
    TargetHears(c, x);
    AllRecords(c, x, 1 + |x.messages|);
    Begins(c, x);
    Commits(c, x);
  }

  // ----- Three runs -----

  /** The user starts a session. */
  lemma Starts(w: World, v: World, id: Id)
    requires Reachable(w) && !w.cancelling && id !in w.issued
    requires v == w.(target := Queued(w.target, Start(id)), issued := w.issued[id := w.target.epoch])
    ensures Reachable(v)
  {
    ReachMore(w, UserStarts(id));
  }

  lemma Cancels(w: World, v: World)
    requires Reachable(w) && !w.cancelling
    requires v == w.(target := Queued(w.target, Cancel).(epoch := w.target.epoch + 1))
    ensures Reachable(v)
  {
    var a := Next(w, UserCancels);
    ReachMore(w, UserCancels);
    ReachMore(a, CancelQueued);
  }

  /** A target on which only sessions have been started, and none was confirmed. */
  function Early(epoch: nat, queue: seq<Command>, active: Option<Active>, tasks: map<Id, Task>,
                 issued: map<Id, nat>, refused: set<Command>, outlived: set<Id>): World {
    World(Target(None, [], map[], active, epoch, queue, Idle, tasks), map[], map[], map[], issued, {}, false, refused, outlived, None)
  }

  const NEW_TASK := Task(Verify, false, 0, None, None)

  lemma StartsFirst(id: Id)
    ensures Reachable(Early(0, [Start(id)], None, map[], map[id := 0], {}, {}))
  {
    assert Run(BEGIN, []) == BEGIN;
    assert [] + [Start(id)] == [Start(id)];
    Starts(BEGIN, Early(0, [Start(id)], None, map[], map[id := 0], {}, {}), id);
  }

  lemma TakesUp(w: World, v: World, id: Id)
    requires Reachable(w) && w.target.core == Idle && w.target.credentials == None && w.target.queue != [] && w.target.queue[0] == Start(id)
    requires v == w.(target := w.target.(queue := w.target.queue[1..], active := Some(Active(id, w.target.epoch, false)), stage := map[],
                                         tasks := w.target.tasks[id := NEW_TASK]))
    ensures Reachable(v)
  {
    CoreMoves(w, v, Start(id));
  }

  /** The protocol is not safe by refusing everything: every account whose message
      identifiers are distinct can be linked. */
  lemma LinkingCanSucceed(id: Id, x: Export) returns (w: World)
    requires Distinct(x.messages)
    ensures Reachable(w)
    ensures id in w.source && w.source[id].phase == SComplete
    ensures w.target.credentials == Some(x.link)
    ensures w.target.history == x.messages
  {
    var c := Scene(id, 0, map[id := 0], {}, {}, map[]);
    StartsFirst(id);
    TakesUp(Early(0, [Start(id)], None, map[], map[id := 0], {}, {}), Shown(c), id);
    Completes(c, x);
    var a := Holds(c, x);
    var b := Next(a, TaskInstalled(id, true));
    ReachMore(a, TaskInstalled(id, true));
    assert Log(b.toSource, id) == [Confirmed, Installed];
    w := Next(b, SourceHearsInstalled(id));
    ReachMore(b, SourceHearsInstalled(id));
  }

  /** The one way to outrun a cancellation. The user starts a session and cancels it at
      once; the core takes up the start only after the epoch has moved, and the storage
      then refuses to clear the stage. The session is still there, and if both users
      confirm it after all it installs, although a cancellation came between its start and
      the final check. */
  lemma RefusedCancelCanBeOutrun(id: Id, x: Export) returns (w: World)
    requires Distinct(x.messages)
    ensures Reachable(w)
    ensures w.issued == map[id := 0] && w.installer == Some((id, 1))
    ensures w.outlived == {id}
    ensures w.target.credentials == Some(x.link)
  {
    var c := Scene(id, 1, map[id := 0], {Cancel}, {id}, map[]);
    StartsFirst(id);
    var a := Early(1, [Start(id), Cancel], None, map[], map[id := 0], {}, {});
    assert [Start(id)] + [Cancel] == [Start(id), Cancel];
    Cancels(Early(0, [Start(id)], None, map[], map[id := 0], {}, {}), a);
    var b := Early(1, [Cancel], Some(Active(id, 1, false)), map[id := NEW_TASK], map[id := 0], {}, {});
    TakesUp(a, b, id);
    CancelFails(b, Shown(c));
    Completes(c, x);
    w := Holds(c, x);
  }

  /** A refused cancellation of another session takes nothing from the guarantee: the
      session that is started after it installs in its own epoch. */
  lemma RefusalElsewhereIsHarmless(other: Id, id: Id, x: Export) returns (w: World)
    requires Distinct(x.messages) && other != id
    ensures Reachable(w)
    ensures Cancel in w.refused && w.outlived == {other}
    ensures w.installer == Some((id, 1)) && id in w.issued && w.issued[id] == 1
    ensures w.target.credentials == Some(x.link)
  {
    var c := Scene(id, 1, map[other := 0, id := 1], {Cancel}, {other}, map[other := NEW_TASK]);
    StartsFirst(other);
    var a := Early(0, [], Some(Active(other, 0, false)), map[other := NEW_TASK], map[other := 0], {}, {});
    TakesUp(Early(0, [Start(other)], None, map[], map[other := 0], {}, {}), a, other);
    var b := Early(1, [Cancel], Some(Active(other, 0, false)), map[other := NEW_TASK], map[other := 0], {}, {});
    Cancels(a, b);
    var d := Early(1, [], Some(Active(other, 0, false)), map[other := NEW_TASK], map[other := 0], {Cancel}, {other});
    CancelFails(b, d);
    var e := Early(1, [Start(id)], Some(Active(other, 0, false)), map[other := NEW_TASK], c.issued, {Cancel}, {other});
    Starts(d, e, id);
    TakesUp(e, Shown(c), id);
    Completes(c, x);
    w := Holds(c, x);
  }
}
