/** The side of the core that manages linking on a new device: the active session, the
    staged history, and an installation under one savepoint. While it writes, the user's
    thread may move the epoch and the session's task may end. */
module Linking {
  import opened Envelopes
  import opened Pairing

  /** What other threads may do to a target meanwhile. */
  ghost predicate Interferes(t: Target, u: Target) {
    && u == t.(epoch := u.epoch, tasks := u.tasks)
    && t.epoch <= u.epoch && u.tasks.Keys == t.tasks.Keys
    && forall id :: id in t.tasks ==> u.tasks[id] == t.tasks[id] || u.tasks[id] == t.tasks[id].(phase := Over)
  }

  class Manager {
    var credentials: Option<Bytes>
    var history: seq<Message>
    var stage: map<Id, seq<Record>>
    var active: Option<Active>
    var epoch: nat
    var tasks: map<Id, Task>

    constructor ()
      ensures View() == BEGIN.target
    {
      credentials, history, stage, active, epoch, tasks := None, [], map[], None, 0, map[];
    }

    function View(): Target
      reads this
    {
      Target(credentials, history, stage, active, epoch, [], Idle, tasks)
    }

    method Write() returns (ok: bool)
    {
      ok := *;
    }

    method Listen(id: Id) returns (ok: bool)
      modifies this
      ensures View() == OnStart(old(View()), id, ok)
    {
      ok := true;
      if credentials.Some? { return; }
      active := None;
      ok := Write();
      if !ok { return; }
      stage := map[];
      tasks := tasks[id := Task(Verify, false, 0, None, None)];
      active := Some(Active(id, epoch, false));
    }

    method ConfirmSession(id: Id)
      modifies this`active, this`tasks
      ensures View() == OnConfirm(old(View()), id)
    {
      if active == None || active.value.id != id || Finished(View(), id) || active.value.confirmed { return; }
      active := Some(active.value.(confirmed := true));
      tasks := tasks[id := tasks[id].(control := true)];
    }

    method CancelSession() returns (ok: bool)
      modifies this`stage, this`active
      ensures View() == OnCancel(old(View()), ok)
    {
      ok := true;
      if active == None { return; }
      ok := Write();
      if !ok { return; }
      stage := stage - {active.value.id};
      active := None;
    }

    method StageRecord(id: Id, seqNo: nat, record: Record) returns (wrote: bool)
      modifies this`stage, this`tasks
      ensures View() == OnStage(old(View()), id, seqNo, record, wrote)
    {
      wrote := true;
      var accepted := false;
      if ValidReceiver(View(), id) && |Staged(View(), id)| == seqNo {
        wrote := Write();
        if wrote {
          stage := stage[id := Staged(View(), id) + [record]];
          accepted := true;
        }
      }
      if id in tasks {
        tasks := tasks[id := tasks[id].(staged := Some((seqNo, accepted)))];
      }
    }

    /** Everybody else, between two writes. */
    method Others()
      modifies this`epoch, this`tasks
      ensures Interferes(old(View()), View())
    {
      var cancels: int := *;
      var ended: set<Id> := *;
      if cancels > 0 { epoch := epoch + cancels; }
      tasks := map id | id in tasks :: if id in ended then tasks[id].(phase := Over) else tasks[id];
    }

    method Reply(id: Id, done: bool)
      modifies this`tasks
      ensures View() == Answer(old(View()), id, done)
    {
      if id in tasks { tasks := tasks[id := tasks[id].(installed := Some(done))]; }
    }

    /** The account, its history and the removal of the stage, with the final check inside
        the savepoint; `between` is the target as the final check finds it. */
    method InstallSession(id: Id, link: Bytes) returns (done: bool, ghost began: bool, ghost between: Target)
      modifies this
      ensures !began ==> !done && View() == Answer(old(View()), id, false)
      ensures began ==> OnInstall(old(View()), id, link, true).core.Writing?
      ensures began ==> Interferes(OnInstall(old(View()), id, link, true), between)
      ensures began ==> View() == Release(Check(between), done)
      ensures done ==> began && ValidReceiver(between, id)
      ensures !done ==> credentials == old(credentials) && history == old(history) && stage == old(stage)
    {
      done, began, between := false, false, View();
      if !Eligible(View(), id) || credentials.Some? {
        Reply(id, false);
        return;
      }
      var restored := InstallHistory(Staged(View(), id));
      var wrote := Write();
      if restored == None || !wrote {
        Reply(id, false);
        return;
      }
      began := true;
      var savepoint := (credentials, history, stage);
      ghost var start := OnInstall(View(), id, link, true);
      OneHistory(View(), id, link, restored.value);
      credentials, history, stage := Some(link), history + restored.value, stage - {id};
      Others();
      between := start.(epoch := epoch, tasks := tasks);
      if ValidReceiver(View(), id) {
        done := Write();
      }
      if !done {
        credentials, history, stage := savepoint.0, savepoint.1, savepoint.2;
      }
      Reply(id, done);
    }

    method CleanUp(id: Id) returns (ok: bool)
      modifies this`stage
      ensures View() == OnCleanup(old(View()), id, ok)
    {
      ok := Write();
      if ok { stage := stage - {id}; }
    }
  }

  lemma OneHistory(t: Target, id: Id, link: Bytes, history: seq<Message>)
    requires Eligible(t, id) && t.credentials == None && Restores(Staged(t, id), history)
    ensures OnInstall(t, id, link, true) == t.(core := Writing(id, link, history))
  {
    forall h | Restores(Staged(t, id), h) ensures h == history {
      RestoresOnce(Staged(t, id), history, h);
    }
  }
}
