/** The worker: a journalled update transaction that any fault may interrupt and any later worker
    continues.  Every effect goes through the host, which demands that the protocol allows it; so
    whatever a method does to the machine is a legal run.  The contracts add what a run achieves. */
module UpdateWorker {
  import opened UpdateJournal
  import opened UpdateProtocol
  import opened UpdateHost
  import opened UpdateAdapters
  import opened Wrappers

  /** The worker has something to do for the job. */
  predicate Continues(r: Record) {
    !Terminal(r.status) && r.status != RecoveryRequired
  }

  /** Where a fault-free run of the worker leaves a job, from the record it finds. */
  function Expected(r: Record): Status {
    if Terminal(r.status) || r.status == RecoveryRequired then r.status
    else if r.decision.Some? then Concluded(r.decision.value)
    else if r.status == Queued then Succeeded
    else if Switch !in r.ops then Failed
    else if NeedsManualRestore(r) then RecoveryRequired
    else RolledBack
  }

  /** Data restoration was interrupted and nothing is decided: only a human may continue. */
  predicate NeedsManualRestore(r: Record) {
    r.decision.None? && RestoreData in r.ops && r.ops[RestoreData] == Intent
  }

  /** Where a single fault, other than of the journal, leaves a job: an update that has not committed is
      undone at once, as far as it went; a recovery, or what follows a decision, is left to the next one. */
  predicate Survived(found: Record, left: Record) {
    if found.status == Queued && left.decision != Some(CommitDecided)
    then left.status == if Switch in left.ops then RolledBack else Failed
    else left.status == RecoveryRequired
  }

  function Concluded(decision: Decision): Status {
    match decision
    case CommitDecided => Succeeded
    case RestoreDecided => RolledBack
  }

  function Marked(r: Record, op: Op, mark: Mark): Record {
    r.(ops := r.ops[op := mark])
  }

  /** A forward operation may be marked when its predecessor is done and, for the switch, when the
      snapshot is current behind a raised fence. */
  lemma MayMarkForward(w: World, r: Record, op: Op, mark: Mark)
    requires Inv(w) && MaySave(w, r) && r.decision.None? && r.status == Running
    requires Forward(op) && NothingRestored(r.ops)
    requires op in r.ops <==> mark == Done
    requires InOrder(r.ops[op := mark])
    requires op == Switch && mark == Intent ==> FenceRaised(w) && SnapshotCurrent(w) && r.snapshot == w.snapshot
    ensures MaySave(w, Marked(r, op, mark))
  {
  }

  predicate Forward(op: Op) {
    op != RestoreDeployment && op != RestoreData
  }

  predicate NothingRestored(ops: map<Op, Mark>) {
    RestoreDeployment !in ops && RestoreData !in ops
  }

  /** What the journal on disk shows may always be saved again. */
  lemma MaySaveAgain(w: World)
    requires Inv(w) && !Terminal(w.journal.seen.status)
    ensures MaySave(w, w.journal.seen)
  {
  }

  /** The restore operations may be marked once the switch is; data only on the original deployment. */
  lemma MayMarkRestore(w: World, r: Record, op: Op, mark: Mark)
    requires Inv(w) && MaySave(w, r) && r.decision.None? && r.status == Running && Switch in r.ops
    requires op == RestoreDeployment || op == RestoreData
    requires op == RestoreData ==> Deployed(w, w.plan.original) && RestoreDeployment in r.ops
    requires op == RestoreData && mark == Intent ==> RestoreData !in r.ops
    requires op == RestoreData && mark == Done ==>
      w.restores == 1 && w.data.Intact? && w.data.schema == w.plan.original.backend
    ensures MaySave(w, Marked(r, op, mark))
  {
  }

  /** Background activity and a failing fence write leave a recoverable job recoverable. */
  lemma KeepsRecoverable(w: World, w': World, r: Record)
    requires Inv(w') && MaySave(w, r) && MaySync(w.journal, w'.journal) && w'.snapshot == w.snapshot
    requires r.decision.None? && r.status == Running && r.ops == w.journal.seen.ops && w.journal.seen.decision.None?
    ensures MaySave(w', r)
  {
  }

  // ---- the calls of a run that ends its job ----

  /** The plan is checked again, the target prepared, the business isolated, its data copied and checked. */
  function Preparations(): seq<Call> {
    [Call.Prepared, Call.Prepared, Call.Fenced(CLOSED), Call.Stopped, Call.BackedUp, Call.Validated]
  }

  /** Everything in its order, the fence first raised, then let open for validation, and open at the end. */
  function UpdateCalls(plan: Plan): seq<Call> {
    Preparations() + (Deployment(plan) + Concluding(CommitDecided, plan))
  }

  function Deployment(plan: Plan): seq<Call> {
    [Call.Switched, Call.Fenced(VALIDATING), Call.Started, Call.Verified(plan.target), Call.HelperUpdated, Call.InstallationRecorded]
  }

  lemma InTwoParts(before: seq<Call>, a: seq<Call>, b: seq<Call>)
    ensures (before + a) + b == before + (a + b) && before + ([] + b) == before + b
  {
  }

  lemma InThreeParts(before: seq<Call>, a: seq<Call>, b: seq<Call>, c: seq<Call>)
    ensures ((before + a) + b) + c == before + (a + (b + c))
  {
  }

  /** The release that was decided for is checked before the fence is opened. */
  function Concluding(decision: Decision, plan: Plan): seq<Call> {
    [Call.Verified(if decision == CommitDecided then plan.target else plan.original), Call.Fenced(OPEN)]
  }

  /** The original release is started behind the fence and checked. */
  function Revival(plan: Plan): seq<Call> {
    [Call.Fenced(VALIDATING), Call.Started, Call.Verified(plan.original)]
  }

  function Restoration(found: Record): seq<Call> {
    [Call.DeploymentRestored] + if IsDone(found.ops, RestoreData) then [] else [Call.Validated, Call.DataRestored]
  }

  /** A job that meant to raise the fence is isolated first; a switched one is restored and then decided; what
      was never fenced just keeps its fence open. */
  function RecoveryCalls(found: Record, plan: Plan): seq<Call> {
    if Switch in found.ops then Isolation() + (Restoration(found) + (Revival(plan) + Concluding(RestoreDecided, plan)))
    else if RaiseFence in found.ops then Isolation() + (Revival(plan) + [Call.Fenced(OPEN)])
    else [Call.Fenced(OPEN)]
  }

  function Isolation(): seq<Call> {
    [Call.Fenced(CLOSED), Call.Stopped]
  }

  lemma ExpectedAfterRecovery(r: Record)
    requires r.status == Running && r.decision.None?
    ensures Expected(r) ==
      if Switch !in r.ops then Failed else if NeedsManualRestore(r) then RecoveryRequired else RolledBack
  {
  }

  lemma RestoringIsSwitched(w: World, r: Record)
    requires Inv(w) && MaySave(w, r)
    ensures RestoreData in r.ops ==> Switch in r.ops
  {
  }

  lemma SwitchedHasSnapshot(w: World, r: Record)
    requires Inv(w) && MaySave(w, r)
    ensures Switch in r.ops ==> r.snapshot.Some?
  {
  }

  /** A job that may be saved as it is may be parked. */
  lemma MayPark(w: World, r: Record)
    requires MaySave(w, r) && r.status == Running
    ensures MaySave(w, r.(status := RecoveryRequired))
  {
  }

  /** Whoever meant to switch had meant to raise the fence. */
  lemma SwitchedIsFenced(w: World, r: Record)
    requires Inv(w) && MaySave(w, r)
    ensures Switch in r.ops ==> RaiseFence in r.ops
  {
  }

  class Worker {
    const host: Host
    const deployment: LinuxDeployment
    const backup: BackupAdapter
    var record: Record

    ghost predicate Wired() {
      deployment.host == host && backup.host == host
    }

    /** The job goes on: nothing is decided or finished, and the disk shows the record in memory. */
    ghost predicate Underway()
      reads this, host
    {
      && Wired() && host.Valid()
      && record.decision.None? && record.status == Running
      && host.w.journal.seen == record
    }

    /** As `Underway`, and durably so. */
    ghost predicate Journalled()
      reads this, host
    {
      Underway() && host.w.journal.Holds(record)
    }

    /** What a failed action leaves behind: the record may be saved as it is. */
    ghost predicate Recoverable()
      reads this, host
    {
      && Wired() && host.Valid() && MaySave(host.w, record)
      && record.decision.None? && record.status == Running
      && record.ops == host.w.journal.seen.ops && host.w.journal.seen.decision.None?
    }

    /** What a failed forward action leaves behind: nothing of it is undone yet. */
    ghost predicate Undoable()
      reads this, host
    {
      Recoverable() && NothingRestored(record.ops)
    }

    /** The run is over: its result is durable. */
    ghost predicate Finished()
      reads this, host
    {
      && host.Valid() && host.w.journal.seen == host.w.journal.kept
      && (Terminal(host.w.journal.seen.status) || host.w.journal.seen.status == RecoveryRequired)
    }

    constructor (host: Host)
      requires host.Valid()
      ensures Wired() && this.host == host
    {
      this.host := host;
      this.deployment := new LinuxDeployment(host);
      this.backup := new BackupAdapter(host);
      this.record := host.w.journal.seen;
    }

    /** Save the record again with a new phase. */
    method SetPhase(phase: Phase) returns (o: Outcome)
      requires Recoverable()
      modifies this, host`run, host`w, host`effects
      ensures Wired() && host.Valid() && !o.ActionFailed?
      ensures host.Ran(old(host.effects), o)
      ensures record == old(record).(phase := phase)
      ensures o.Returned? ==> Journalled()
      ensures OnlyChanges(Journal, old(host.w), host.w)
    {
      record := record.(phase := phase);
      o := host.SaveJob(record);
    }

    /** Record, durably, that a forward operation is about to start. */
    method Begin(op: Op) returns (o: Outcome)
      requires Journalled() && Forward(op) && NothingRestored(record.ops)
      requires op !in record.ops && InOrder(record.ops[op := Intent])
      requires op == Switch ==> FenceRaised(host.w) && SnapshotCurrent(host.w) && record.snapshot == host.w.snapshot
      modifies this, host`run, host`w, host`effects
      ensures Wired() && host.Valid() && !o.ActionFailed?
      ensures host.Ran(old(host.effects), o)
      ensures record == Marked(old(record), op, Intent)
      ensures o.Returned? ==> Journalled()
      ensures OnlyChanges(Journal, old(host.w), host.w)
    {
      MaySaveAgain(host.w);
      MayMarkForward(host.w, record, op, Intent);
      record := Marked(record, op, Intent);
      o := host.SaveJob(record);
    }

    /** Begin an operation that starts a new phase. */
    method Enter(phase: Phase, op: Op) returns (o: Outcome)
      requires Journalled() && Forward(op) && NothingRestored(record.ops)
      requires op !in record.ops && InOrder(record.ops[op := Intent])
      requires op == Switch ==> FenceRaised(host.w) && SnapshotCurrent(host.w) && record.snapshot == host.w.snapshot
      modifies this, host`run, host`w, host`effects
      ensures Wired() && host.Valid() && !o.ActionFailed?
      ensures host.Ran(old(host.effects), o)
      ensures record == old(record).(phase := phase) || record == Marked(old(record).(phase := phase), op, Intent)
      ensures o.Returned? ==> Journalled() && record == Marked(old(record).(phase := phase), op, Intent)
      ensures OnlyChanges(Journal, old(host.w), host.w)
    {
      MaySaveAgain(host.w);
      o := SetPhase(phase);
      :- o;
      ghost var entered := host.w;
      o := Begin(op);
      ChangesCompose(Journal, old(host.w), entered, host.w);
    }

    /** Record, durably, that the operation is done. */
    method End(op: Op) returns (o: Outcome)
      requires Recoverable() && Forward(op) && NothingRestored(record.ops)
      requires op in record.ops && InOrder(record.ops[op := Done])
      modifies this, host`run, host`w, host`effects
      ensures Wired() && host.Valid() && !o.ActionFailed?
      ensures host.Ran(old(host.effects), o)
      ensures record == Marked(old(record), op, Done)
      ensures o.Returned? ==> Journalled()
      ensures OnlyChanges(Journal, old(host.w), host.w)
    {
      MayMarkForward(host.w, record, op, Done);
      record := Marked(record, op, Done);
      o := host.SaveJob(record);
    }

    /** Publish the final status of this run. */
    method Finish(status: Status) returns (o: Outcome)
      requires Wired() && host.Valid() && MaySave(host.w, record.(status := status))
      requires IsDone(record.ops, RestoreData) ==> IsDone(host.w.journal.seen.ops, RestoreData)
      requires Terminal(status) || status == RecoveryRequired
      modifies this, host`run, host`w, host`effects
      ensures Wired() && host.Valid() && !o.ActionFailed?
      ensures host.Ran(old(host.effects), o)
      ensures o.Returned? ==> Finished() && host.w.journal.seen == old(record).(status := status)
      ensures host.w.restores == old(host.w.restores) && host.w.fence.seen == old(host.w.fence.seen)
    {
      record := record.(status := status);
      o := host.SaveJob(record);
    }

    /** Make a decision durable; only then does the record in memory carry it. */
    method Decide(decision: Decision) returns (o: Outcome)
      requires Journalled() && MaySave(host.w, record.(decision := Some(decision)))
      requires IsDone(record.ops, RestoreData) ==> IsDone(host.w.journal.seen.ops, RestoreData)
      modifies this, host`run, host`w, host`effects
      ensures Wired() && host.Valid() && !o.ActionFailed?
      ensures host.Ran(old(host.effects), o)
      ensures o.Returned? ==> record == old(record).(decision := Some(decision)) && host.w.journal.Holds(record)
      ensures host.w.restores == old(host.w.restores)
    {
      var durable := record.(decision := Some(decision));
      :- host.SaveJob(durable);
      record := durable;
      return Returned;
    }

    /** The job waits for a recovery command although its fence is open. */
    ghost predicate ParkedOpen()
      reads host
    {
      && host.w.journal.seen.status == RecoveryRequired && host.w.fence.seen == OPEN && !Undecided(host.w.journal.seen)
    }

    /** The job waits for a recovery command with its switch undecided. */
    ghost predicate ParkedUndecided()
      reads host
    {
      host.w.journal.seen.status == RecoveryRequired && Undecided(host.w.journal.seen)
    }

    /** The job waits for a recovery command, its commit decided. */
    ghost predicate ParkedCommitted()
      reads host
    {
      host.w.journal.seen.status == RecoveryRequired && host.w.journal.seen.decision == Some(CommitDecided)
    }

    /** After a decision every run only proves the outcome and reopens; it never restores again. */
    method CompleteDecision() returns (o: Outcome)
      requires Wired() && host.Valid() && record == host.w.journal.seen
      requires record.decision.Some? && !Terminal(record.status)
      modifies this, host
      ensures Wired() && host.Valid() && !o.ActionFailed?
      ensures o.Returned? ==> Finished()
      ensures old(host.effects) <= host.effects
      ensures host.OneFaultAtMost() ==> o.Returned? && host.w.journal.seen.decision == old(record).decision
      ensures host.OneFaultAtMost() ==>
        host.w.journal.seen.status == if host.Struck(old(host.effects)) then RecoveryRequired else Concluded(old(record).decision.value)
      ensures host.faults == REOPENING_FAILS ==> o.Returned? && ParkedOpen()
      ensures host.w.restores == old(host.w.restores)
      ensures o.Returned? && Terminal(host.w.journal.seen.status) ==>
        host.Called(old(host.log), Concluding(old(record).decision.value, host.plan))
      ensures o.Returned? ==> host.w.journal.seen.status in {RecoveryRequired, Concluded(old(record).decision.value)}
    {
      o := TryComplete();
      if o.ActionFailed? {
        o := Finish(RecoveryRequired);
      }
    }

    method TryComplete() returns (o: Outcome)
      requires Wired() && host.Valid() && record == host.w.journal.seen
      requires record.decision.Some? && !Terminal(record.status)
      modifies this, host
      ensures Wired() && host.Valid()
      ensures o.ActionFailed? ==> record == host.w.journal.seen && record.decision.Some? && !Terminal(record.status)
      ensures o.Returned? ==> Finished()
      ensures host.Accounted(old(host.effects), o)
      ensures o.Returned? ==> host.w.journal.seen == old(record).(status := Concluded(old(record).decision.value))
      ensures o.ActionFailed? ==> record == old(record)
      ensures host.faults == REOPENING_FAILS ==> o.ActionFailed? && host.w.fence.seen == OPEN
      ensures host.w.restores == old(host.w.restores)
      ensures o.Returned? ==> host.Called(old(host.log), Concluding(old(record).decision.value, host.plan))
    {
      var decision := record.decision.value;
      :- ProveDecided();
      :- host.WriteMaintenance(OPEN);
      o := Finish(Concluded(decision));
    }

    /** Make the decision durable and check the release it stands for. */
    method ProveDecided() returns (o: Outcome)
      requires Wired() && host.Valid() && record == host.w.journal.seen
      requires record.decision.Some? && !Terminal(record.status)
      modifies host
      ensures host.Valid() && (o.Returned? || o.ActionFailed? ==> host.w.journal.seen == record)
      ensures host.Ran(old(host.effects), o)
      ensures o.Returned? ==> host.w.journal.Holds(record)
      ensures host.w.restores == old(host.w.restores)
      ensures o.Returned? ==>
        host.Called(old(host.log), [Call.Verified(if record.decision.value == CommitDecided then host.plan.target else host.plan.original)])
    {
      // a decision read back after a restart need not be durable yet
      o := host.SaveJob(record);
      :- o;
      o := deployment.Verify(if record.decision.value == RestoreDecided then host.plan.original else host.plan.target);
    }

    ghost predicate Prepared()
      reads this, host
    {
      Journalled() && NothingRestored(record.ops) && IsDone(record.ops, Prepare) && RaiseFence !in record.ops
    }

    ghost predicate Fenced()
      reads this, host
    {
      && Journalled() && NothingRestored(record.ops) && IsDone(record.ops, RaiseFence) && StopServices !in record.ops
      && host.w.fence.Holds(CLOSED)
    }

    method PrepareTarget() returns (o: Outcome)
      requires Journalled() && record.ops == map[] && record.snapshot.None?
      modifies this, host
      ensures Wired() && host.Valid()
      ensures host.Ran(old(host.effects), o)
      ensures o.ActionFailed? ==> Undoable()
      ensures o.Returned? ==> Prepared()
      ensures o.Returned? ==> host.Called(old(host.log), [Call.Prepared])
    {
      o := Begin(Prepare);
      :- o;
      :- deployment.Prepare();
      MaySaveAgain(host.w);
      o := End(Prepare);
    }

    method CloseFence() returns (o: Outcome)
      requires Prepared()
      modifies this, host
      ensures Wired() && host.Valid()
      ensures host.Ran(old(host.effects), o)
      ensures o.ActionFailed? ==> Undoable()
      ensures o.Returned? ==> Fenced()
      ensures o.Returned? ==> host.Called(old(host.log), [Call.Fenced(CLOSED)])
      ensures o.Returned? ==> record.phase == Maintenance
    {
      MaySaveAgain(host.w);
      :- Enter(Maintenance, RaiseFence);
      o := host.WriteMaintenance(CLOSED);
      MaySaveAgain(host.w);
      :- o;
      o := End(RaiseFence);
    }

    /** Nothing runs, nothing may start, and no data has been copied yet. */
    ghost predicate Isolated()
      reads this, host
    {
      && Journalled() && NothingRestored(record.ops) && IsDone(record.ops, StopServices) && BackUp !in record.ops
      && AtRest(host.w) && host.w.fence.Holds(CLOSED)
    }

    method StopBusiness() returns (o: Outcome)
      requires Fenced()
      modifies this, host
      ensures Wired() && host.Valid()
      ensures host.Ran(old(host.effects), o)
      ensures o.ActionFailed? ==> Undoable()
      ensures o.Returned? ==> Isolated()
      ensures o.Returned? ==> host.Called(old(host.log), [Call.Stopped])
    {
      o := Begin(StopServices);
      :- o;
      o := deployment.StopApplications();
      MaySaveAgain(host.w);
      :- o;
      o := End(StopServices);
    }

    ghost predicate BackedUp()
      reads this, host
    {
      && Journalled() && NothingRestored(record.ops) && IsDone(record.ops, BackUp) && Switch !in record.ops
      && AtRest(host.w) && host.w.fence.Holds(CLOSED)
      && record.snapshot == host.w.snapshot && SnapshotCurrent(host.w)
    }

    method BackUpData() returns (o: Outcome)
      requires Isolated()
      modifies this, host
      ensures Wired() && host.Valid()
      ensures host.Ran(old(host.effects), o)
      ensures o.ActionFailed? ==> Undoable()
      ensures o.Returned? ==> BackedUp()
      ensures o.Returned? ==> host.Called(old(host.log), [Call.BackedUp, Call.Validated])
      ensures o.Returned? ==> record.phase == BackingUp
    {
      MaySaveAgain(host.w);
      :- Enter(BackingUp, BackUp);
      :- CopyData();
      o := End(BackUp);
    }

    method CopyData() returns (o: Outcome)
      requires Journalled() && NothingRestored(record.ops) && BackUp in record.ops && Switch !in record.ops
      requires AtRest(host.w) && host.w.fence.Holds(CLOSED) && host.w.backups == 0
      modifies this, host
      ensures Wired() && host.Valid() && !o.JournalFailed?
      ensures host.Ran(old(host.effects), o)
      ensures o.Returned? || o.ActionFailed? ==> Recoverable()
      ensures record.ops == old(record).ops
      ensures o.Returned? ==>
        && AtRest(host.w) && host.w.fence.Holds(CLOSED)
        && record.snapshot == host.w.snapshot && SnapshotCurrent(host.w)
      ensures o.Returned? ==> host.Called(old(host.log), [Call.BackedUp, Call.Validated])
      ensures o.Returned? ==> record.phase == old(record).phase
    {
      var snapshot;
      o, snapshot := backup.Backup();
      MaySaveAgain(host.w);
      :- o;
      record := record.(snapshot := Some(snapshot));
      o := backup.Validate();
    }

    /** The links durably name the target, all else the original. */
    ghost predicate Switched()
      reads this, host
    {
      && Journalled() && NothingRestored(record.ops) && IsDone(record.ops, Switch)
      && host.w.backend.Holds(host.plan.target.backend) && host.w.web.Holds(host.plan.target.web)
      && host.w.updater.Holds(host.plan.original.backend) && host.w.installation.Holds(host.plan.original)
    }

    method SwitchLinks() returns (o: Outcome)
      requires BackedUp()
      modifies this, host
      ensures Wired() && host.Valid()
      ensures host.Ran(old(host.effects), o)
      ensures o.ActionFailed? ==> Undoable()
      ensures o.Returned? ==> Switched() && ValidationStart !in record.ops
      ensures o.Returned? ==> host.Called(old(host.log), [Call.Switched])
      ensures o.Returned? ==> record.phase == Switching
    {
      MaySaveAgain(host.w);
      :- Enter(Switching, Switch);
      o := deployment.SwitchApplications(host.plan);
      MaySaveAgain(host.w);
      :- o;
      o := End(Switch);
    }

    method StartForValidation() returns (o: Outcome)
      requires Switched() && ValidationStart !in record.ops
      modifies this, host
      ensures Wired() && host.Valid()
      ensures host.Ran(old(host.effects), o)
      ensures o.ActionFailed? ==> Undoable()
      ensures o.Returned? ==> Switched() && IsDone(record.ops, ValidationStart) && VerifyTarget !in record.ops
      ensures o.Returned? ==> host.w.fence.Holds(VALIDATING)
      ensures o.Returned? ==> host.Called(old(host.log), [Call.Fenced(VALIDATING), Call.Started])
    {
      MaySaveAgain(host.w);
      :- Begin(ValidationStart);
      o := host.WriteMaintenance(VALIDATING);
      MaySaveAgain(host.w);
      :- o;
      o := deployment.StartApplications();
      MaySaveAgain(host.w);
      :- o;
      o := End(ValidationStart);
    }

    method VerifySwitched() returns (o: Outcome)
      requires Switched() && IsDone(record.ops, ValidationStart) && VerifyTarget !in record.ops
      requires host.w.fence.Holds(VALIDATING)
      modifies this, host
      ensures Wired() && host.Valid()
      ensures host.Ran(old(host.effects), o)
      ensures o.ActionFailed? ==> Undoable()
      ensures o.Returned? ==> Switched() && IsDone(record.ops, VerifyTarget) && Helper !in record.ops
      ensures o.Returned? ==> host.w.fence.Holds(VALIDATING)
      ensures o.Returned? ==> host.Called(old(host.log), [Call.Verified(host.plan.target)])
      ensures o.Returned? ==> record.phase == Verifying
    {
      MaySaveAgain(host.w);
      :- Enter(Verifying, VerifyTarget);
      o := deployment.Verify(host.plan.target);
      MaySaveAgain(host.w);
      :- o;
      o := End(VerifyTarget);
    }

    method ReplaceHelper() returns (o: Outcome)
      requires Switched() && IsDone(record.ops, VerifyTarget) && Helper !in record.ops
      requires host.w.fence.Holds(VALIDATING)
      modifies this, host
      ensures Wired() && host.Valid()
      ensures host.Ran(old(host.effects), o)
      ensures o.ActionFailed? ==> Undoable()
      ensures o.Returned? ==>
        && Journalled() && NothingRestored(record.ops) && IsDone(record.ops, Helper) && PersistInstallation !in record.ops
        && host.w.fence.Holds(VALIDATING)
        && host.w.backend.Holds(host.plan.target.backend) && host.w.web.Holds(host.plan.target.web)
        && host.w.updater.Holds(host.plan.target.backend)
      ensures o.Returned? ==> host.Called(old(host.log), [Call.HelperUpdated])
      ensures o.Returned? ==> record.phase == UpdatingHelper
    {
      MaySaveAgain(host.w);
      :- Enter(UpdatingHelper, Helper);
      o := deployment.UpdateHelper(host.plan);
      MaySaveAgain(host.w);
      :- o;
      o := End(Helper);
    }

    /** Every forward operation is done and the target is durably deployed behind the fence. */
    ghost predicate Proved()
      reads this, host
    {
      && Journalled() && NothingRestored(record.ops) && IsDone(record.ops, PersistInstallation)
      && host.w.fence.Holds(VALIDATING) && Deployed(host.w, host.plan.target)
    }

    method RecordInstallation() returns (o: Outcome)
      requires Journalled() && NothingRestored(record.ops) && IsDone(record.ops, Helper) && PersistInstallation !in record.ops
      requires host.w.fence.Holds(VALIDATING)
      requires host.w.backend.Holds(host.plan.target.backend) && host.w.web.Holds(host.plan.target.web)
      requires host.w.updater.Holds(host.plan.target.backend)
      modifies this, host
      ensures Wired() && host.Valid()
      ensures host.Ran(old(host.effects), o)
      ensures o.ActionFailed? ==> Undoable()
      ensures o.Returned? ==> Proved()
      ensures o.Returned? ==> host.Called(old(host.log), [Call.InstallationRecorded])
      ensures o.Returned? ==> record.phase == Committing
    {
      MaySaveAgain(host.w);
      :- Enter(Committing, PersistInstallation);
      o := InstallTarget();
    }

    method InstallTarget() returns (o: Outcome)
      requires Journalled() && NothingRestored(record.ops) && InOrder(record.ops[PersistInstallation := Done])
      requires PersistInstallation in record.ops && record.ops[PersistInstallation] == Intent
      requires host.w.fence.Holds(VALIDATING)
      requires host.w.backend.Holds(host.plan.target.backend) && host.w.web.Holds(host.plan.target.web)
      requires host.w.updater.Holds(host.plan.target.backend)
      modifies this, host
      ensures Wired() && host.Valid()
      ensures host.Ran(old(host.effects), o)
      ensures o.ActionFailed? ==> Undoable()
      ensures o.Returned? ==> Proved()
      ensures o.Returned? ==> host.Called(old(host.log), [Call.InstallationRecorded])
      ensures o.Returned? ==> record.phase == old(record).phase
    {
      o := deployment.Commit(host.plan);
      MaySaveAgain(host.w);
      :- o;
      o := End(PersistInstallation);
    }

    method Commit() returns (o: Outcome)
      requires Proved()
      modifies this, host
      ensures Wired() && host.Valid() && !o.ActionFailed?
      ensures old(host.effects) <= host.effects
      ensures host.OneFaultAtMost() ==> o.Returned? && host.w.journal.seen.decision == Some(CommitDecided)
      ensures host.OneFaultAtMost() ==>
        host.w.journal.seen.status == if host.Struck(old(host.effects)) then RecoveryRequired else Succeeded
      ensures host.faults == REOPENING_FAILS ==> o.Returned? && ParkedOpen()
      ensures o.Returned? ==> Finished()
      ensures o.Returned? && Terminal(host.w.journal.seen.status) ==> host.Called(old(host.log), Concluding(CommitDecided, host.plan))
      ensures o.Returned? ==> host.w.journal.seen.status in {RecoveryRequired, Succeeded}
    {
      o := Decide(CommitDecided);
      :- o;
      o := CompleteDecision();
    }

    /** Raise the fence, stop the business and copy its data. */
    method SecureData() returns (o: Outcome)
      requires Prepared()
      modifies this, host
      ensures Wired() && host.Valid()
      ensures host.Ran(old(host.effects), o)
      ensures o.ActionFailed? ==> Undoable()
      ensures o.Returned? ==> BackedUp()
      ensures o.Returned? ==> host.Called(old(host.log), [Call.Fenced(CLOSED), Call.Stopped, Call.BackedUp, Call.Validated])
    {
      hide Inv, MaySave;
      o := CloseFence();
      :- o;
      :- StopBusiness();
      o := BackUpData();
    }

    /** Everything up to a validated backup. */
    method TryPrepare() returns (o: Outcome)
      requires Journalled() && record.ops == map[] && record.snapshot.None?
      modifies this, host
      ensures Wired() && host.Valid()
      ensures host.Ran(old(host.effects), o)
      ensures o.ActionFailed? ==> Undoable()
      ensures o.Returned? ==> BackedUp()
      ensures o.Returned? ==> host.Called(old(host.log), Preparations())
    {
      o := deployment.Prepare();  // revalidation of the plan: reads only, may fail
      MaySaveAgain(host.w);
      :- o;
      :- PrepareTarget();
      o := SecureData();
    }

    /** Put the target in place and prove it behind the fence. */
    method DeployTarget() returns (o: Outcome)
      requires BackedUp()
      modifies this, host
      ensures Wired() && host.Valid()
      ensures host.Ran(old(host.effects), o)
      ensures o.ActionFailed? ==> Undoable()
      ensures o.Returned? ==> Proved()
      ensures o.Returned? ==> host.Called(old(host.log), Deployment(host.plan))
      ensures o.Returned? ==> record.phase == Committing
    {
      hide Inv, MaySave, Deployed;
      o := SwitchLinks();
      :- o;
      :- StartForValidation();
      :- VerifySwitched();
      :- ReplaceHelper();
      o := RecordInstallation();
    }

    /** The whole forward path; a failed action leaves a recoverable job. */
    method TryUpdate() returns (o: Outcome)
      requires Journalled() && record.ops == map[] && record.snapshot.None?
      modifies this, host
      ensures Wired() && host.Valid()
      ensures old(host.effects) <= host.effects
      ensures host.OneFaultAtMost() ==>
        if host.Struck(old(host.effects)) then o.ActionFailed? || (o.Returned? && ParkedCommitted())
        else o.Returned? && host.w.journal.seen.status == Succeeded
      ensures host.faults == REOPENING_FAILS ==> o.Returned? && ParkedOpen()
      ensures o.ActionFailed? ==> Undoable()
      ensures o.Returned? ==> Finished()
      ensures o.Returned? && Terminal(host.w.journal.seen.status) ==> host.Called(old(host.log), UpdateCalls(host.plan))
    {
      hide Inv, MaySave, Deployed, Preparations, Deployment, Concluding;
      ghost var before := host.log;
      o := TryPrepare();
      :- o;
      :- DeployTarget();
      o := Commit();
      InThreeParts(before, Preparations(), Deployment(host.plan), Concluding(CommitDecided, host.plan));
    }

    /** Close the fence and stop the services again, if the job ever meant to. */
    method IsolateAgain() returns (o: Outcome)
      requires Recoverable() && RaiseFence in record.ops
      modifies this, host
      ensures Wired() && host.Valid() && record == old(record) && !o.JournalFailed?
      ensures host.Ran(old(host.effects), o)
      ensures !o.Died? ==> Recoverable()
      ensures o.Returned? ==> AtRest(host.w) && host.w.fence.Holds(CLOSED)
      ensures host.w.restores == old(host.w.restores)
      ensures o.Returned? ==> host.Called(old(host.log), Isolation())
    {
      o := host.WriteMaintenance(CLOSED);
      KeepsRecoverable(old(host.w), host.w, record);
      :- o;
      ghost var fenced := host.w;
      o := deployment.StopApplications();
      KeepsRecoverable(fenced, host.w, record);
    }

    method MarkRestore(op: Op, mark: Mark) returns (o: Outcome)
      requires Recoverable() && Switch in record.ops && AtRest(host.w)
      requires op == RestoreDeployment || op == RestoreData
      requires op == RestoreData ==> Deployed(host.w, host.plan.original) && RestoreDeployment in record.ops
      requires op == RestoreData && mark == Intent ==> RestoreData !in record.ops
      requires op == RestoreData && mark == Done ==>
        host.w.restores == 1 && host.w.data.Intact? && host.w.data.schema == host.plan.original.backend
      modifies this, host`run, host`w, host`effects
      ensures Wired() && host.Valid() && !o.ActionFailed?
      ensures host.Ran(old(host.effects), o)
      ensures record == Marked(old(record), op, mark)
      ensures o.Returned? ==> Journalled()
      ensures OnlyChanges(Journal, old(host.w), host.w)
    {
      MayMarkRestore(host.w, record, op, mark);
      record := Marked(record, op, mark);
      o := host.SaveJob(record);
    }

    /** Put links and installation record back; repeated by every recovery. */
    method RestoreLinks() returns (o: Outcome)
      requires Journalled() && Switch in record.ops && AtRest(host.w) && host.w.fence.Holds(CLOSED)
      modifies this, host
      ensures Wired() && host.Valid()
      ensures host.Ran(old(host.effects), o)
      ensures o.ActionFailed? ==> Recoverable() && old(record).ops.Keys <= record.ops.Keys
      ensures o.Returned? ==>
        && Journalled() && AtRest(host.w) && host.w.fence.Holds(CLOSED)
        && Deployed(host.w, host.plan.original) && IsDone(record.ops, RestoreDeployment) && Switch in record.ops
        && (RestoreData in record.ops <==> RestoreData in old(record).ops)
        && (IsDone(record.ops, RestoreData) <==> IsDone(old(record).ops, RestoreData))
      ensures host.w.restores == old(host.w.restores)
      ensures o.Returned? ==> host.Called(old(host.log), [Call.DeploymentRestored])
      ensures o.Returned? ==> record.phase == old(record).phase
    {
      hide Inv, MaySave;
      MaySaveAgain(host.w);
      :- MarkRestore(RestoreDeployment, Intent);
      o := deployment.RestoreDeployment();
      MaySaveAgain(host.w);
      :- o;
      o := MarkRestore(RestoreDeployment, Done);
    }

    /** Restore the data from the snapshot: at most once, never after an interrupted attempt. */
    method RestoreSnapshot() returns (o: Outcome)
      requires Journalled() && IsDone(record.ops, RestoreDeployment) && RestoreData !in record.ops
      requires AtRest(host.w) && host.w.fence.Holds(CLOSED) && Deployed(host.w, host.plan.original)
      modifies this, host
      ensures Wired() && host.Valid()
      ensures host.Ran(old(host.effects), o)
      ensures o.ActionFailed? ==> Recoverable() && old(record).ops.Keys <= record.ops.Keys
      ensures o.Returned? ==>
        && Journalled() && AtRest(host.w)
        && Deployed(host.w, host.plan.original)
        && IsDone(record.ops, RestoreDeployment) && IsDone(record.ops, RestoreData)
      ensures o.Returned? ==> host.Called(old(host.log), [Call.Validated, Call.DataRestored])
      ensures o.Returned? ==> record.phase == old(record).phase
    {
      MaySaveAgain(host.w);
      :- MarkRestore(RestoreData, Intent);
      o := PutBack();
      :- o;
      o := MarkRestore(RestoreData, Done);
    }

    /** Validate the snapshot once more and copy it back. */
    method PutBack() returns (o: Outcome)
      requires Journalled() && IsDone(record.ops, RestoreDeployment) && NeedsManualRestore(record)
      requires AtRest(host.w) && host.w.fence.Holds(CLOSED) && Deployed(host.w, host.plan.original) && host.w.restores == 0
      modifies this, host
      ensures Wired() && host.Valid() && record == old(record) && !o.JournalFailed?
      ensures host.Ran(old(host.effects), o)
      ensures !o.Died? ==> Recoverable()
      ensures o.Returned? ==>
        && AtRest(host.w) && Deployed(host.w, host.plan.original)
        && host.w.restores == 1 && host.w.data.Intact? && host.w.data.schema == host.plan.original.backend
      ensures o.Returned? ==> host.Called(old(host.log), [Call.Validated, Call.DataRestored])
    {
      o := backup.Validate();
      MaySaveAgain(host.w);
      :- o;
      o := backup.Restore();
      MaySaveAgain(host.w);
    }

    /** Links, record and data all the way back, from wherever an earlier recovery stopped. */
    method RestoreAll() returns (o: Outcome)
      requires Recoverable() && Switch in record.ops && AtRest(host.w) && host.w.fence.Holds(CLOSED)
      modifies this, host
      ensures Wired() && host.Valid()
      ensures NeedsManualRestore(old(record)) ==> !o.Returned?
      ensures old(host.effects) <= host.effects
      ensures NeedsManualRestore(old(record)) && (host.OneFaultAtMost() || host.faults == REOPENING_FAILS) ==> o.ActionFailed?
      ensures !NeedsManualRestore(old(record)) ==> host.Ran(old(host.effects), o)
      ensures o.ActionFailed? ==> Recoverable() && Switch in record.ops
      ensures o.Returned? ==>
        && Journalled() && Deployed(host.w, host.plan.original)
        && IsDone(record.ops, RestoreDeployment) && IsDone(record.ops, RestoreData)
      ensures RestoreData in old(record).ops ==> host.w.restores == old(host.w.restores)
      ensures o.Returned? ==> host.Called(old(host.log), Restoration(old(record)))
      ensures o.Returned? ==> record.phase == Restoring
    {
      hide Inv, MaySave, Deployed;
      SwitchedHasSnapshot(host.w, record);
      o := SetPhase(Restoring);
      :- o;
      if record.snapshot.None? || (RestoreData in record.ops && record.ops[RestoreData] == Intent) {
        MaySaveAgain(host.w);
        return ActionFailed;
      }
      :- RestoreLinks();
      if !IsDone(record.ops, RestoreData) {
        o := RestoreSnapshot();
        :- o;
      }
      return Returned;
    }

    /** Start the original release behind the fence and check it. */
    method Revive() returns (o: Outcome)
      requires Recoverable() && host.w.data.Intact? && Deployed(host.w, host.plan.original)
      modifies this, host
      ensures Wired() && host.Valid() && record == old(record) && !o.JournalFailed?
      ensures host.Ran(old(host.effects), o)
      ensures !o.Died? ==> Recoverable()
      ensures o.Returned? ==> host.w.fence.Holds(VALIDATING)
      ensures MaySync(old(host.w).journal, host.w.journal)
      ensures host.w.restores == old(host.w.restores)
      ensures o.Returned? ==> host.Called(old(host.log), Revival(host.plan))
    {
      o := host.WriteMaintenance(VALIDATING);
      KeepsRecoverable(old(host.w), host.w, record);
      :- o;
      ghost var fenced := host.w;
      o := deployment.StartApplications();
      KeepsRecoverable(fenced, host.w, record);
      :- o;
      ghost var started := host.w;
      o := deployment.Verify(host.plan.original);
      KeepsRecoverable(started, host.w, record);
    }

    method RollBack() returns (o: Outcome)
      requires Journalled() && Deployed(host.w, host.plan.original)
      requires IsDone(record.ops, RestoreDeployment) && IsDone(record.ops, RestoreData)
      modifies this, host
      ensures Wired() && host.Valid()
      ensures old(host.effects) <= host.effects
      ensures host.OneFaultAtMost() ==>
        if host.Struck(old(host.effects)) then o.ActionFailed? || (o.Returned? && host.w.journal.seen.status == RecoveryRequired)
        else o.Returned? && host.w.journal.seen.status == RolledBack
      ensures host.faults == REOPENING_FAILS ==> o.Returned? && ParkedOpen()
      ensures o.ActionFailed? ==> old(record).ops.Keys <= record.ops.Keys
      ensures o.ActionFailed? ==> Recoverable()
      ensures o.Returned? ==> Finished()
      ensures host.w.restores == old(host.w.restores)
      ensures o.Returned? && Terminal(host.w.journal.seen.status) ==>
        host.Called(old(host.log), Revival(host.plan) + Concluding(RestoreDecided, host.plan))
      ensures o.Returned? ==> host.w.journal.seen.status in {RecoveryRequired, RolledBack}
    {
      MaySaveAgain(host.w);
      :- Revive();
      :- Decide(RestoreDecided);
      o := CompleteDecision();
    }

    method Abandon() returns (o: Outcome)
      requires Recoverable() && Switch !in record.ops
      modifies this, host
      ensures Wired() && host.Valid()
      ensures host.Accounted(old(host.effects), o) && (o.Returned? ==> host.w.journal.seen.status == Failed)
      ensures host.faults == REOPENING_FAILS ==> o.ActionFailed? && host.w.fence.seen == OPEN
      ensures o.ActionFailed? ==> Recoverable() && record.ops == old(record).ops
      ensures o.Returned? ==> Finished()
      ensures host.w.restores == old(host.w.restores)
      ensures o.Returned? ==>
        host.Called(old(host.log), (if RaiseFence in old(record).ops then Revival(host.plan) else []) + [Call.Fenced(OPEN)])
    {
      if RaiseFence in record.ops {
        o := Revive();
        :- o;
      }
      ghost var revived := host.w;
      o := host.WriteMaintenance(OPEN);
      KeepsRecoverable(revived, host.w, record);
      :- o;
      o := Finish(Failed);
    }

    method TryRecover() returns (o: Outcome)
      requires Recoverable()
      modifies this, host
      ensures Wired() && host.Valid()
      ensures o.ActionFailed? ==> Recoverable()
      ensures o.Returned? ==> Finished()
      ensures old(host.effects) <= host.effects
      ensures host.OneFaultAtMost() ==>
        if NeedsManualRestore(old(record)) then o.ActionFailed?
        else if host.Struck(old(host.effects)) then o.ActionFailed? || (o.Returned? && host.w.journal.seen.status == RecoveryRequired)
        else o.Returned? && host.w.journal.seen.status == if Switch in old(record).ops then RolledBack else Failed
      ensures host.faults == REOPENING_FAILS ==>
        if Switch !in old(record).ops then o.ActionFailed? && host.w.fence.seen == OPEN
        else if NeedsManualRestore(old(record)) then o.ActionFailed?
        else o.Returned? && ParkedOpen()
      ensures NeedsManualRestore(old(record)) ==> !o.Returned?
      ensures o.ActionFailed? ==> (Switch in record.ops <==> Switch in old(record).ops)
      ensures RestoreData in old(record).ops ==> host.w.restores == old(host.w.restores)
      ensures o.Returned? && Terminal(host.w.journal.seen.status) ==> host.Called(old(host.log), RecoveryCalls(old(record), host.plan))
      ensures o.Returned? ==> host.w.journal.seen.status != Succeeded
    {
      SwitchedIsFenced(host.w, record);
      hide Inv, MaySave, Deployed, Restoration, Revival, Concluding, Isolation;
      ghost var before, found := host.log, record;
      if RaiseFence in record.ops {
        o := IsolateAgain();
        :- o;
      }
      if Switch in record.ops {
        o := RestoreAll();
        :- o;
        o := RollBack();
        InThreeParts(before, Isolation(), Restoration(found), Revival(host.plan) + Concluding(RestoreDecided, host.plan));
      } else {
        o := Abandon();
        InTwoParts(before, Isolation(), Revival(host.plan) + [Call.Fenced(OPEN)]);
      }
    }

    /** Undo an update that was not decided. */
    method Recover() returns (o: Outcome)
      requires Recoverable()
      modifies this, host
      ensures Wired() && host.Valid() && !o.ActionFailed?
      ensures o.Returned? ==> Finished()
      ensures old(host.effects) <= host.effects
      ensures host.OneFaultAtMost() ==>
        o.Returned? && host.w.journal.seen.status == if host.Struck(old(host.effects)) then RecoveryRequired else Expected(old(record))
      ensures NeedsManualRestore(old(record)) && o.Returned? ==> ParkedUndecided()
      ensures host.faults == REOPENING_FAILS ==>
        o.Returned? && if NeedsManualRestore(old(record)) then ParkedUndecided() else ParkedOpen()
      ensures RestoreData in old(record).ops ==> host.w.restores == old(host.w.restores)
      ensures o.Returned? && Terminal(host.w.journal.seen.status) ==> host.Called(old(host.log), RecoveryCalls(old(record), host.plan))
      ensures o.Returned? ==> host.w.journal.seen.status != Succeeded
    {
      hide Inv, MaySave, RecoveryCalls, Expected;
      ExpectedAfterRecovery(record);
      RestoringIsSwitched(host.w, record);
      o := TryRecover();
      if o.ActionFailed? {
        MayPark(host.w, record);
        o := Finish(RecoveryRequired);
      }
    }

    /** A queued job: update, and recover if that fails. */
    method Update() returns (o: Outcome)
      requires Wired() && host.Valid() && record == host.w.journal.seen && record.status == Queued
      modifies this, host
      ensures host.Valid() && !o.ActionFailed?
      ensures o.Returned? ==> Finished()
      ensures old(host.effects) <= host.effects && (host.OneFaultAtMost() ==> o.Returned?)
      ensures host.OneFaultAtMost() && !host.Struck(old(host.effects)) ==> host.w.journal.seen.status == Succeeded
      ensures host.Struck(old(host.effects)) ==> Survived(old(record), host.w.journal.seen)
      ensures host.faults == REOPENING_FAILS ==> o.Returned? && ParkedOpen()
      ensures o.Returned? && host.w.journal.seen.status == Succeeded ==> host.Called(old(host.log), UpdateCalls(host.plan))
    {
      MaySaveAgain(host.w);
      record := record.(status := Running);
      :- host.SaveJob(record);
      o := TryUpdate();
      if o.ActionFailed? {
        o := Recover();
      }
    }

    /** One run of the worker process on its job. */
    method Run() returns (o: Outcome)
      requires Wired() && host.Valid()
      modifies this, host
      ensures host.Valid() && !o.ActionFailed?
      ensures o.Returned? && Continues(old(host.w).journal.seen) ==> Finished()
      ensures !Continues(old(host.w).journal.seen) ==> host.w == old(host.w)
      ensures host.OneFaultAtMost() ==> o.Returned?
      ensures host.OneFaultAtMost() && !host.Struck(old(host.effects)) ==>
        host.w.journal.seen.status == Expected(old(host.w).journal.seen)
      ensures host.Struck(old(host.effects)) ==> Survived(old(host.w).journal.seen, host.w.journal.seen)
      ensures NeedsManualRestore(old(host.w).journal.seen) && o.Returned? ==> ParkedUndecided()
      ensures host.faults == REOPENING_FAILS && Continues(old(host.w).journal.seen) ==>
        o.Returned? && if NeedsManualRestore(old(host.w).journal.seen) then ParkedUndecided() else ParkedOpen()
      ensures RestoreData in old(host.w).journal.seen.ops ==> host.w.restores == old(host.w.restores)
      ensures Continues(old(host.w).journal.seen) && o.Returned? && Terminal(host.w.journal.seen.status) ==>
        var found, left := old(host.w).journal.seen, host.w.journal.seen;
        && (found.decision.Some? ==> host.Called(old(host.log), Concluding(found.decision.value, host.plan)))
        && (found.decision.None? && found.status == Running ==> host.Called(old(host.log), RecoveryCalls(found, host.plan)))
        && (found.status == Queued && left.status == Succeeded ==> host.Called(old(host.log), UpdateCalls(host.plan)))
    {
      record := host.w.journal.seen;
      if !Continues(record) {
        return Returned;
      }
      MaySaveAgain(host.w);
      if record.decision.Some? {
        o := CompleteDecision();
      } else if record.status == Running {
        o := Recover();
      } else {
        o := Update();
      }
    }
  }
}
