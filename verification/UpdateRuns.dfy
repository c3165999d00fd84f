/** What holds in every state of every run of the update transaction. */
module UpdateRuns {
  import opened UpdateJournal
  import opened UpdateProtocol
  import opened Wrappers

  /** A job that has just been accepted: nothing done, the original deployment settled. */
  predicate Initial(w: World) {
    && w.journal.Holds(Record(Queued, Preparing, map[], None, None))
    && w.fence.Holds(OPEN)
    && Deployed(w, w.plan.original)
    && (w.services.Live? ==> w.services.release == w.plan.original)
    && w.data == Intact(w.plan.original.backend, w.accepted)
    && w.snapshot.None? && w.backups == 0 && w.restores == 0
  }

  function Play(w: World, run: seq<Event>): World {
    if run == [] then w else Apply(Play(w, run[..|run| - 1]), run[|run| - 1])
  }

  predicate Legal(w: World, run: seq<Event>) {
    run == [] || (Legal(w, run[..|run| - 1]) && Allowed(Play(w, run[..|run| - 1]), run[|run| - 1]))
  }

  lemma LegalAppend(w: World, run: seq<Event>, e: Event)
    requires Legal(w, run) && Allowed(Play(w, run), e)
    ensures Legal(w, run + [e]) && Play(w, run + [e]) == Apply(Play(w, run), e)
  {
  }

  lemma {:induction false} RunKeepsInv(w: World, run: seq<Event>)
    requires Initial(w) && Legal(w, run)
    ensures Inv(Play(w, run))
  {
    if run != [] {
      RunKeepsInv(w, run[..|run| - 1]);
      EventKeepsInv(Play(w, run[..|run| - 1]), run[|run| - 1]);
    }
  }

  /** What one event can never undo. */
  predicate Progresses(w: World, w': World) {
    && w'.plan == w.plan
    && w.accepted <= w'.accepted
    && w.backups <= w'.backups && w.restores <= w'.restores
    && (w.snapshot.Some? ==> w'.snapshot == w.snapshot)
    && Follows(w.journal.kept, w'.journal.kept)
  }

  lemma FollowsIsReflexive(r: Record)
    ensures Follows(r, r)
  {
  }

  /** Only syncing the journal, and losing power, change what is durably recorded or bring it back. */
  lemma OtherEventsKeepJournal(w: World, e: Event)
    requires Allowed(w, e) && !e.SyncJournal?
    ensures Apply(w, e).journal.kept == w.journal.kept
  {
  }

  lemma EventProgresses(w: World, e: Event)
    requires Inv(w) && Allowed(w, e)
    ensures Progresses(w, Apply(w, e))
  {
    if !e.SyncJournal? {
      FollowsIsReflexive(w.journal.kept);
      OtherEventsKeepJournal(w, e);
      hide Inv, Follows;
    }
  }

  lemma {:induction false} RunProgresses(w: World, run: seq<Event>, later: seq<Event>)
    requires Initial(w) && Legal(w, later) && run <= later
    ensures Legal(w, run) && Progresses(Play(w, run), Play(w, later))
  {
    if run == later {
    } else {
      var before := later[..|later| - 1];
      assert run <= before;
      RunProgresses(w, run, before);
      RunKeepsInv(w, before);
      EventProgresses(Play(w, before), later[|later| - 1]);
    }
  }

  /** Once the switch is on the journal, the fence is up at every moment until a decision is durable. */
  lemma FenceOpensOnlyAfterDurableDecision(w: World, run: seq<Event>)
    requires Initial(w) && Legal(w, run)
    ensures var now := Play(w, run);
      Switch in now.journal.kept.ops && !FenceRaised(now) ==>
        now.journal.kept.decision.Some? && now.journal.seen.decision == now.journal.kept.decision
  {
    RunKeepsInv(w, run);
  }

  /** A durable decision is final, and after a durable commit nothing is ever restored. */
  lemma DurableDecisionIsFinal(w: World, run: seq<Event>, later: seq<Event>)
    requires Initial(w) && Legal(w, later) && run <= later
    ensures Legal(w, run)
    ensures var past := Play(w, run); var now := Play(w, later);
      past.journal.kept.decision.Some? ==>
        && now.journal.seen.decision == now.journal.kept.decision == past.journal.kept.decision
        && (past.journal.kept.decision == Some(CommitDecided) ==> Deployed(now, w.plan.target) && now.restores == 0)
        && (past.journal.kept.decision == Some(RestoreDecided) ==> Deployed(now, w.plan.original) && now.restores == 1)
  {
    RunProgresses(w, run, later);
    RunKeepsInv(w, later);
    RunProgresses(w, [], later);
  }

  /** Acknowledged writes only accumulate, and readable data holds all of them. */
  lemma NoAcknowledgedWriteIsLost(w: World, run: seq<Event>, later: seq<Event>)
    requires Initial(w) && Legal(w, later) && run <= later
    ensures Legal(w, run)
    ensures var past := Play(w, run); var now := Play(w, later);
      && past.accepted <= now.accepted
      && (now.data.Intact? ==> now.data.rows == now.accepted)
      && (now.data.Torn? ==>
            // half-restored data: nothing runs, nothing may start, and the snapshot still holds every write
            && now.services.Stopped? && now.fence.Holds(CLOSED) && SnapshotCurrent(now))
  {
    RunProgresses(w, run, later);
    RunKeepsInv(w, later);
  }

  /** Backup and restore only ever start on a stopped, fenced machine, and a restore loses no write. */
  lemma CopiesAreTakenAtRest(w: World, run: seq<Event>, e: Event)
    requires Initial(w) && Legal(w, run + [e]) && (e.StartBackup? || e.StartRestore?)
    ensures Legal(w, run)
    ensures var now := Play(w, run);
      && now.services.Stopped? && now.fence.Holds(CLOSED)
      && (e.StartBackup? ==> now.backups == 0 && now.data == Intact(w.plan.original.backend, now.accepted))
      && (e.StartRestore? ==> now.restores == 0 && SnapshotCurrent(now))
  {
    assert (run + [e])[..|run|] == run;
    RunKeepsInv(w, run);
    RunProgresses(w, [], run);
  }

  /** From the journalled switch up to any later undecided moment the fence never drops. */
  lemma FenceIsContinuous(w: World, run: seq<Event>, later: seq<Event>, i: nat)
    requires Initial(w) && Legal(w, later) && run <= later && |run| <= i <= |later|
    requires Switch in Play(w, run).journal.kept.ops
    requires Play(w, later).journal.kept.decision.None?
    ensures Legal(w, later[..i]) && FenceRaised(Play(w, later[..i])) && SnapshotCurrent(Play(w, later[..i]))
  {
    RunProgresses(w, later[..i], later);
    RunProgresses(w, run, later);
    RunProgresses(w, run, later[..i]);
    RunKeepsInv(w, later[..i]);
  }

  /** The terminal statuses say what really happened. */
  lemma TerminalStatusTellsTheTruth(w: World, run: seq<Event>)
    requires Initial(w) && Legal(w, run)
    ensures var now := Play(w, run); forall r | r == now.journal.seen || r == now.journal.kept ::
      && (r.status == Succeeded ==> Deployed(now, w.plan.target) && now.restores == 0)
      && (r.status == RolledBack ==>
            && Deployed(now, w.plan.original) && now.restores == 1
            && now.data == Intact(w.plan.original.backend, now.accepted))
      && (r.status == Failed ==>
            && Deployed(now, w.plan.original) && now.restores == 0
            && now.data == Intact(w.plan.original.backend, now.accepted))
      && (Terminal(r.status) ==> !now.fence.seen.active && !now.fence.kept.active)
  {
    RunKeepsInv(w, run);
    RunProgresses(w, [], run);
  }

  /** A durable terminal status never changes again, in any field. */
  lemma DurableTerminalIsAbsorbing(w: World, run: seq<Event>, later: seq<Event>)
    requires Initial(w) && Legal(w, later) && run <= later
    ensures Legal(w, run)
    ensures var kept := Play(w, run).journal.kept;
      Terminal(kept.status) ==> Play(w, later).journal.Holds(kept)
  {
    RunProgresses(w, run, later);
    RunKeepsInv(w, later);
  }

  predicate Outlives(past: Record, now: Record) {
    (Terminal(past.status) ==> now == past) && (now.status == Queued ==> past.status == Queued)
  }

  lemma EventKeepsVisibleEnd(w: World, e: Event)
    requires Allowed(w, e) && e != PowerLoss
    ensures Outlives(w.journal.seen, Apply(w, e).journal.seen)
  {
  }

  /** Without a power loss even a visible terminal status is final, and no job is queued again: what
      the admission of jobs relies on. */
  lemma {:induction false} VisibleTerminalIsAbsorbing(w: World, run: seq<Event>, more: seq<Event>)
    requires Initial(w) && Legal(w, run + more) && PowerLoss !in more
    ensures Legal(w, run)
    ensures Outlives(Play(w, run).journal.seen, Play(w, run + more).journal.seen)
  {
    if more == [] {
      assert run + more == run;
    } else {
      var before, last := more[..|more| - 1], more[|more| - 1];
      assert (run + more)[..|run + more| - 1] == run + before;
      VisibleTerminalIsAbsorbing(w, run, before);
      EventKeepsVisibleEnd(Play(w, run + before), last);
    }
  }

  lemma {:induction false} EarlierOperationsAreDone(ops: map<Op, Mark>, i: nat, j: nat)
    requires InOrder(ops) && i < j < |FORWARD| && FORWARD[j] in ops
    ensures IsDone(ops, FORWARD[i])
  {
  }

  /** Every journal is a prefix of the nine operations, all but the last done; and backup and restore
      each start at most once per job, with a durable intent before they do. */
  lemma JournalHasAFixedShape(w: World, run: seq<Event>)
    requires Initial(w) && Legal(w, run)
    ensures var now := Play(w, run); forall r | r == now.journal.seen || r == now.journal.kept ::
      && (forall i, j :: 0 <= i < j < |FORWARD| && FORWARD[j] in r.ops ==> IsDone(r.ops, FORWARD[i]))
      && (Switch in r.ops ==> r.snapshot.Some? && r.snapshot == now.snapshot)
      && (r.decision == Some(CommitDecided) ==> forall i :: 0 <= i < |FORWARD| ==> IsDone(r.ops, FORWARD[i]))
      && (r.decision == Some(RestoreDecided) ==> IsDone(r.ops, RestoreDeployment) && IsDone(r.ops, RestoreData))
    ensures var now := Play(w, run);
      && now.backups <= 1 && now.restores <= 1
      && (now.backups == 1 ==> BackUp in now.journal.kept.ops && BackUp in now.journal.seen.ops)
      && (now.restores == 1 ==> RestoreData in now.journal.kept.ops && RestoreData in now.journal.seen.ops)
  {
    RunKeepsInv(w, run);
    var now := Play(w, run);
    forall r, i, j | (r == now.journal.seen || r == now.journal.kept) && 0 <= i < j < |FORWARD| && FORWARD[j] in r.ops
      ensures IsDone(r.ops, FORWARD[i])
    {
      EarlierOperationsAreDone(r.ops, i, j);
    }
    forall r, i | (r == now.journal.seen || r == now.journal.kept) && 0 <= i < |FORWARD| && r.decision == Some(CommitDecided)
      ensures IsDone(r.ops, FORWARD[i])
    {
      if i < 8 {
        EarlierOperationsAreDone(r.ops, i, 8);
      }
    }
  }
}
