/** The life of a job: worker processes, recovery commands and power losses, in any order. */
module UpdateLifetime {
  import opened UpdateJournal
  import opened UpdateProtocol
  import opened UpdateRuns
  import opened UpdateHost
  import opened UpdateWorker
  import opened Wrappers

  /** The operator's recovery command: it only asks the same job to run again. */
  method RecoverCommand(host: Host) returns (o: Outcome)
    requires host.Valid()
    modifies host
    ensures host.Valid() && OnlyChanges(Journal, old(host.w), host.w)
    ensures NeedsManualRestore(old(host.w).journal.seen) ==> o.ActionFailed? && host.w == old(host.w)
    ensures (host.OneFaultAtMost() || host.faults == REOPENING_FAILS) && !NeedsManualRestore(old(host.w).journal.seen) ==>
      var found := old(host.w).journal.seen;
      o.Returned? && host.w.journal.seen == if found.status == RecoveryRequired then found.(status := Running) else found
  {
    var record := host.w.journal.seen;
    if !(record.decision.Some? || !(RestoreData in record.ops && record.ops[RestoreData] == Intent)) {
      return ActionFailed;
    }
    if record.status == RecoveryRequired {
      record := record.(status := Running);
      o := host.SaveJob(record);
    } else {
      o := Returned;
    }
  }

  /** One piece of a job's life. */
  datatype Life = Work(faults: Faults) | Recovery(faults: Faults) | PowerCut | Pause

  /** What each piece may make of the machine. */
  ghost predicate Lived(life: Life, w: World, w': World) {
    var found, left := w.journal.seen, w'.journal.seen;
    match life
    case Work(faults) =>
      && (!Continues(found) ==> w' == w)
      && (faults == Never ==> left.status == Expected(found))
      && (RestoreData in found.ops ==> w'.restores == w.restores)
      && (Parks(w, w') && Undecided(left) ==> FenceRaised(w'))
      && (faults.Once? ==> left.status == Expected(found) || Recovered(w, w'))
      && (faults == REOPENING_FAILS && Continues(found) ==> Parks(w, w') && (FenceRaised(w') <==> NeedsManualRestore(found)))
    case Recovery(faults) =>
      && OnlyChanges(Journal, w, w')
      && (NeedsManualRestore(found) ==> w' == w)
      && (faults == Never && !NeedsManualRestore(found) ==>
            left == if found.status == RecoveryRequired then found.(status := Running) else found)
    case PowerCut => w' == Apply(w, UpdateProtocol.PowerLoss)
    case Pause => Background(w, w')
  }

  /** A single fault in an update that has not committed leaves the original deployment, the data as it
      was, and the fence open; any other fault leaves the job to the recovery command. */
  ghost predicate Recovered(w: World, w': World) {
    var found, left := w.journal.seen, w'.journal.seen;
    && Survived(found, left)
    && (found.status == Queued && left.decision != Some(CommitDecided) ==>
          && Deployed(w', w'.plan.original) && w'.data == Intact(w'.plan.original.backend, w'.accepted)
          && !w'.fence.seen.active && !w'.fence.kept.active
          && w'.restores == if Switch in left.ops then 1 else 0)
  }

  ghost predicate Parks(w: World, w': World) {
    Continues(w.journal.seen) && w'.journal.seen.status == RecoveryRequired
  }

  ghost predicate Reached(start: World, w: World) {
    exists run :: Legal(start, run) && w == Play(start, run)
  }

  lemma NothingRuns(start: World)
    ensures Legal(start, []) && Play(start, []) == start
  {
  }

  lemma IsReached(start: World, run: seq<Event>)
    requires Legal(start, run)
    ensures Reached(start, Play(start, run))
  {
  }

  /** One worker run on the machine as it is, under the given faults. */
  method WorkOnce(w: World, faults: Faults) returns (w': World, ghost run: seq<Event>)
    requires Inv(w)
    ensures Legal(w, run) && w' == Play(w, run) && Inv(w') && Lived(Work(faults), w, w')
  {
    var host := new Host(w, faults);
    var worker := new Worker(host);
    var o := worker.Run();
    w', run := host.w, host.run;
  }

  /** A worker run that parks its job promises isolated business services.  Whatever fails, it keeps the
      promise for a job that has switched and not decided; and when only the reopening of the fence
      fails, it parks every job it continues, with the fence open, unless a restore was interrupted. */
  method ParkedIsFencedExactlyWhenUndecided(w: World, faults: Faults) returns (w': World)
    requires Inv(w) && Continues(w.journal.seen)
    ensures w'.journal.seen.status == RecoveryRequired && Undecided(w'.journal.seen) ==> FenceRaised(w')
    ensures faults == REOPENING_FAILS ==>
      && w'.journal.seen.status == RecoveryRequired
      && (FenceRaised(w') <==> Undecided(w'.journal.seen))
      && (FenceRaised(w') <==> NeedsManualRestore(w.journal.seen))
  {
    var host := new Host(w, faults);
    var worker := new Worker(host);
    var o := worker.Run();
    w' := host.w;
  }

  /** Any lives in any order: one after the other they make up a run of the protocol. */
  method Lifetime(start: World, lives: seq<Life>) returns (worlds: seq<World>, ghost run: seq<Event>)
    requires Initial(start)
    ensures |worlds| == |lives| + 1 && worlds[0] == start
    ensures forall i :: 0 <= i < |lives| ==> Lived(lives[i], worlds[i], worlds[i + 1])
    ensures forall i :: 0 <= i <= |lives| ==> Reached(start, worlds[i]) && Inv(worlds[i])
    ensures Legal(start, run) && worlds[|lives|] == Play(start, run)
  {
    hide Lived, Inv, Initial, Legal, Play, Reached;
    worlds, run := [start], [];
    NothingRuns(start);
    RunKeepsInv(start, run);
    IsReached(start, run);
    for i := 0 to |lives|
      invariant |worlds| == i + 1 && worlds[0] == start
      invariant forall k :: 0 <= k < i ==> Lived(lives[k], worlds[k], worlds[k + 1])
      invariant forall k :: 0 <= k <= i ==> Reached(start, worlds[k]) && Inv(worlds[k])
      invariant Legal(start, run) && worlds[i] == Play(start, run)
    {
      var w;
      ghost var more;
      w, more := LiveOnce(lives[i], worlds[i]);
      RunsCompose(start, run, more);
      run := run + more;
      RunKeepsInv(start, run);
      IsReached(start, run);
      worlds := worlds + [w];
    }
  }

  method LiveOnce(life: Life, w: World) returns (w': World, ghost run: seq<Event>)
    requires Inv(w)
    ensures Legal(w, run) && w' == Play(w, run) && Lived(life, w, w')
  {
    if life.Work? {
      w', run := WorkOnce(w, life.faults);
    } else {
      var host := new Host(w, if life.Recovery? then life.faults else Never);
      if life.Recovery? {
        var _ := RecoverCommand(host);
      } else if life.PowerCut? {
        host.Do(UpdateProtocol.PowerLoss);
      } else {
        host.Interfere();
      }
      w', run := host.w, host.run;
    }
  }

  lemma {:induction false} RunsCompose(w: World, run: seq<Event>, more: seq<Event>)
    requires Legal(w, run) && Legal(Play(w, run), more)
    ensures Legal(w, run + more) && Play(w, run + more) == Play(Play(w, run), more)
  {
    if more == [] {
      assert run + more == run;
    } else {
      var last := |more| - 1;
      RunsCompose(w, run, more[..last]);
      assert (run + more)[..|run + more| - 1] == run + more[..last];
    }
  }

  /** From any reachable state, one fault-free run, and the recovery command where it is asked for,
      finishes the job; the only exception is left for manual recovery with its data untouched. */
  method RecoverToTheEnd(w: World) returns (w': World)
    requires Inv(w)
    ensures NeedsManualRestore(w.journal.seen) ==>
      !Terminal(w'.journal.seen.status) && w'.journal.seen.status == RecoveryRequired && w'.restores == w.restores
    ensures !NeedsManualRestore(w.journal.seen) ==> Terminal(w'.journal.seen.status)
    ensures !NeedsManualRestore(w.journal.seen) && w.journal.seen.status != RecoveryRequired ==>
      w'.journal.seen.status == Expected(w.journal.seen)
  {
    var host := new Host(w, Never);
    var worker := new Worker(host);
    var o := RecoverCommand(host);
    o := worker.Run();
    w' := host.w;
  }
}
