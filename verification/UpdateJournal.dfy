/** The records an update job leaves on disk, and what each record promises about the machine.

    A file written by rename-then-sync has two values: the one a reader sees now, and the one a
    power loss would bring back.  Every file the update transaction relies on is such a `Disk`.
 */
module UpdateJournal {
  import opened Wrappers

  /** `seen` is what a reader finds; `kept` is what survives a power loss. */
  datatype Disk<T(==)> = Disk(seen: T, kept: T) {
    predicate Holds(value: T) {
      seen == value && kept == value
    }
  }

  // A release is identified by a number; only equality of releases matters.
  type Version = nat

  datatype Release = Release(backend: Version, web: Version)

  datatype Plan = Plan(original: Release, target: Release)

  datatype Op =
    | Prepare | RaiseFence | StopServices | BackUp | Switch | ValidationStart | VerifyTarget | Helper | PersistInstallation
    | RestoreDeployment | RestoreData

  datatype Mark = Intent | Done

  datatype Status = Queued | Running | Succeeded | Failed | RolledBack | RecoveryRequired

  datatype Phase = Preparing | Maintenance | BackingUp | Switching | Verifying | UpdatingHelper | Committing | Restoring

  datatype Decision = CommitDecided | RestoreDecided

  /** Business data is either readable, with the schema its last migration gave it, or half restored. */
  datatype Data = Intact(schema: Version, rows: seq<int>) | Torn

  datatype Record = Record(
    status: Status, phase: Phase, ops: map<Op, Mark>, snapshot: Option<Data>, decision: Option<Decision>)

  datatype Fence = Fence(active: bool, allowStart: bool)

  const CLOSED := Fence(true, false)
  const VALIDATING := Fence(true, true)
  const OPEN := Fence(false, true)

  /** The nine forward operations, in the order the worker performs them. */
  const FORWARD: seq<Op> :=
    [Prepare, RaiseFence, StopServices, BackUp, Switch, ValidationStart, VerifyTarget, Helper, PersistInstallation]

  predicate Terminal(status: Status) {
    status in {Succeeded, Failed, RolledBack}
  }

  predicate IsDone(ops: map<Op, Mark>, op: Op) {
    op in ops && ops[op] == Done
  }

  /** A forward operation is recorded only after the one before it is done. */
  predicate InOrder(ops: map<Op, Mark>) {
    && (RaiseFence in ops ==> IsDone(ops, Prepare))
    && (StopServices in ops ==> IsDone(ops, RaiseFence))
    && (BackUp in ops ==> IsDone(ops, StopServices))
    && (Switch in ops ==> IsDone(ops, BackUp))
    && (ValidationStart in ops ==> IsDone(ops, Switch))
    && (VerifyTarget in ops ==> IsDone(ops, ValidationStart))
    && (Helper in ops ==> IsDone(ops, VerifyTarget))
    && (PersistInstallation in ops ==> IsDone(ops, Helper))
    && (RestoreDeployment in ops ==> Switch in ops)
    && (RestoreData in ops ==> RestoreDeployment in ops)
  }

  /** The shape every journal record has, whatever happened to the machine. */
  predicate WellShaped(r: Record) {
    && InOrder(r.ops)
    && (Switch in r.ops ==> r.snapshot.Some?)
    && (r.decision == Some(CommitDecided) ==>
          IsDone(r.ops, PersistInstallation) && RestoreDeployment !in r.ops && RestoreData !in r.ops)
    && (r.decision == Some(RestoreDecided) ==> IsDone(r.ops, RestoreDeployment) && IsDone(r.ops, RestoreData))
    && (r.status == Queued ==> r.ops == map[] && r.snapshot.None? && r.decision.None?)
    && (r.status == Succeeded ==> r.decision == Some(CommitDecided))
    && (r.status == RolledBack ==> r.decision == Some(RestoreDecided))
    && (r.status == Failed ==> r.decision.None? && Switch !in r.ops)
  }

  /** Once the switch is journalled and nothing is decided yet, the job may still need its snapshot. */
  predicate Undecided(r: Record) {
    r.decision.None? && Switch in r.ops
  }

  /** `newer` may replace `older` on disk: evidence is only ever added. */
  predicate Follows(older: Record, newer: Record) {
    && older.ops.Keys <= newer.ops.Keys
    && (IsDone(older.ops, RestoreData) ==> IsDone(newer.ops, RestoreData))
    && (older.decision.Some? ==> newer.decision == older.decision)
    && (older.snapshot.Some? ==> newer.snapshot == older.snapshot)
    && (newer.status == Queued ==> older.status == Queued)
    && (Terminal(older.status) ==> newer == older)
  }
}
