/** The promises of account linking, for every world that any interleaving reaches. */
module PairingPromises {
  import opened Envelopes
  import opened Pairing
  import opened PairingSafety

  ghost predicate Reachable(w: World) {
    exists steps :: Run(BEGIN, steps) == w
  }

  lemma ReachableInv(w: World)
    requires Reachable(w)
    ensures Inv(w)
  {
    var steps :| Run(BEGIN, steps) == w;
    RunKeepsInv(BEGIN, steps);
  }

  lemma ReachMore(w: World, s: Step)
    requires Reachable(w) && Enabled(w, s)
    ensures Reachable(Next(w, s))
  {
    var steps :| Run(BEGIN, steps) == w;
    assert (steps + [s])[..|steps|] == steps;
    assert Run(BEGIN, steps + [s]) == Next(w, s);
  }

  // ----- Safety -----

  /** Credentials exist on the target only if both users confirmed one session and the
      source's unlock check passed; they are then the account that was released for it,
      with its whole history in order. */
  lemma CredentialsNeedBothUsers(w: World) returns (id: Id)
    requires Reachable(w) && w.target.credentials.Some?
    ensures Genuine(w, id, w.target.credentials.value, w.target.history)
  {
    ReachableInv(w);
    id := w.installer.value.0;
  }

  /** Nothing about the account leaves the source before both users have confirmed. */
  lemma AccountLeavesAfterBothConfirmed(w: World, id: Id, k: nat)
    requires Reachable(w) && k < |Log(w.toTarget, id)| && Log(w.toTarget, id)[k] != Confirmed
    ensures id in w.userConfirmed && id in w.source && w.source[id].exported.Some?
  {
    ReachableInv(w);
    assert Honest(w, id);
  }

  /** The source reports completion only when the target durably holds the account and
      the full ordered history that were released in that session. */
  lemma CompleteMeansInstalled(w: World, id: Id)
    requires Reachable(w) && id in w.source && w.source[id].phase == SComplete
    ensures w.source[id].exported.Some?
    ensures w.target.credentials == Some(w.source[id].exported.value.link)
    ensures w.target.history == w.source[id].exported.value.messages
  {
    ReachableInv(w);
  }

  /** Without credentials there is no history either. */
  lemma AccountAndHistoryTogether(w: World)
    requires Reachable(w) && w.target.credentials == None
    ensures w.target.history == []
  {
    ReachableInv(w);
  }

  /** A cancellation in time leaves nothing, with one exception. The epoch counts the
      cancellations that were pressed, so it differs between the start of a session and
      its final check exactly when a cancellation was pressed between the two; and that
      happens to the session that installs exactly when the storage refused to clear the
      stage for a cancellation that found this very session active, before anything was
      installed. */
  lemma CancelInTime(w: World)
    requires Reachable(w) && w.installer.Some?
    ensures w.installer.value.0 in w.issued
    ensures w.installer.value.1 != w.issued[w.installer.value.0] <==> w.installer.value.0 in w.outlived
  {
    ReachableInv(w);
  }

  // ----- What a task leaves behind -----

  /** Staged history belongs to a running task, or its clean-up is queued. */
  ghost predicate Tidy(w: World) {
    forall id :: id in w.target.stage ==>
      !Finished(w.target, id) || Cleanup(id) in w.target.queue || Cleanup(id) in w.refused
  }

  lemma HandleTidies(t: Target, c: Command, ok: bool, refused: set<Command>)
    requires forall id :: id in t.stage ==>
      !Finished(t, id) || Cleanup(id) in t.queue || Cleanup(id) == c || Cleanup(id) in refused
    ensures var u := Handle(t, c, ok); var refused' := if ok then refused else refused + {c};
            forall id :: id in u.stage ==> !Finished(u, id) || Cleanup(id) in u.queue || Cleanup(id) in refused'
  {
  }

  lemma CleanupPops(q: seq<Command>)
    requires q != []
    ensures forall id :: Cleanup(id) in q ==> Cleanup(id) in q[1..] || Cleanup(id) == q[0]
  {
    forall id | Cleanup(id) in q ensures Cleanup(id) in q[1..] || Cleanup(id) == q[0] {
      var i :| 0 <= i < |q| && q[i] == Cleanup(id);
      assert i > 0 ==> q[1..][i - 1] == Cleanup(id);
    }
  }

  lemma ProcessTidies(w: World, s: Step)
    requires Tidy(w) && Enabled(w, s) && s.CoreProcesses?
    ensures Tidy(Next(w, s))
  {
    CleanupPops(w.target.queue);
    HandleTidies(w.target.(queue := w.target.queue[1..]), w.target.queue[0], s.ok, w.refused);
  }

  lemma TaskTidies(w: World, s: Step)
    requires Tidy(w) && Enabled(w, s) && IsTaskStep(s)
    ensures Tidy(Next(w, s))
  {
    var v := Next(w, s);
    forall id | id in v.target.stage
      ensures !Finished(v.target, id) || Cleanup(id) in v.target.queue || Cleanup(id) in v.refused
    {
      if id == s.id && Finished(v.target, id) {
        assert TaskAsks(w, s)[0] == Cleanup(id);
      }
    }
  }

  /** A target that stages no more, runs no less and has the same commands queued. */
  lemma TidyStays(w: World, v: World)
    requires Tidy(w) && v.target.stage.Keys <= w.target.stage.Keys && w.target.queue <= v.target.queue
    requires v.refused == w.refused && forall id :: Finished(v.target, id) ==> Finished(w.target, id)
    ensures Tidy(v)
  {
    assert forall c :: c in w.target.queue ==> c in v.target.queue;
  }

  lemma CheckTidies(w: World)
    requires Tidy(w) && Enabled(w, CoreChecks)
    ensures Tidy(Next(w, CoreChecks))
  {
    TidyStays(w, Next(w, CoreChecks));
  }

  lemma CommitTidies(w: World, ok: bool)
    requires Tidy(w) && Enabled(w, CoreCommits(ok))
    ensures Tidy(Next(w, CoreCommits(ok)))
  {
    TidyStays(w, Next(w, CoreCommits(ok)));
  }

  lemma CommandTidies(w: World, v: World, c: Command)
    requires Tidy(w) && v.target == Queued(w.target, c) && v.refused == w.refused
    ensures Tidy(v)
  {
    TidyStays(w, v);
  }

  lemma StepTidies(w: World, s: Step)
    requires Tidy(w) && Enabled(w, s)
    ensures Tidy(Next(w, s))
  {
    if IsTaskStep(s) {
      TaskTidies(w, s);
    } else if IsSourceStep(s) {
      TidyStays(w, Next(w, s));
    } else {
      match s
      case UserStarts(id) => CommandTidies(w, Next(w, s), Start(id));
      case UserConfirms(id) => CommandTidies(w, Next(w, s), Confirm(id));
      case UserCancels => TidyStays(w, Next(w, s));
      case CancelQueued => CommandTidies(w, Next(w, s), Cancel);
      case CoreProcesses(_) => ProcessTidies(w, s);
      case CoreChecks => CheckTidies(w);
      case CoreCommits(ok) => CommitTidies(w, ok);
    }
  }

  lemma {:induction false} RunTidies(steps: seq<Step>)
    ensures Tidy(Run(BEGIN, steps))
  {
    if steps != [] {
      RunTidies(steps[..|steps| - 1]);
      if Enabled(Run(BEGIN, steps[..|steps| - 1]), steps[|steps| - 1]) {
        StepTidies(Run(BEGIN, steps[..|steps| - 1]), steps[|steps| - 1]);
      }
    }
  }

  /** However a receiving task ended, once the core has caught up no staged history of it
      is left, unless the storage refused to clear it. */
  lemma NothingStagedIsLeft(w: World, id: Id)
    requires Reachable(w) && w.target.queue == [] && Finished(w.target, id) && Cleanup(id) !in w.refused
    ensures id !in w.target.stage
  {
    var steps :| Run(BEGIN, steps) == w;
    RunTidies(steps);
  }
}
