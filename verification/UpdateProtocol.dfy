/** The update transaction as a state machine: what the machine, its operators and the worker may do
    to files, services and data, and the invariant that every run keeps.

    Events are single effects.  A failed or interrupted action is a run that stops after some of its
    events; a process crash leaves the world as it is; a power loss is an event of its own.
 */
module UpdateProtocol {
  import opened UpdateJournal
  import opened Wrappers

  /** `serving` tells whether business requests may be in progress in the live services. */
  datatype Services = Stopped | Live(release: Release, serving: bool)

  datatype LinkName = BackendLink | WebLink | UpdaterLink

  datatype World = World(
    plan: Plan,
    journal: Disk<Record>,
    fence: Disk<Fence>,
    backend: Disk<Version>,
    web: Disk<Version>,
    updater: Disk<Version>,
    installation: Disk<Release>,
    services: Services,
    data: Data,
    accepted: seq<int>,        // every business write ever acknowledged, in order
    snapshot: Option<Data>,    // the job's immutable backup
    backups: nat,              // how often a backup was started
    restores: nat)             // how often a data restore was started

  datatype Event =
    | RenameJournal(record: Record) | SyncJournal
    | RenameFence(fence: Fence) | SyncFence
    | RenameLink(link: LinkName, version: Version) | SyncLink(link: LinkName)
    | RenameInstallation(release: Release) | SyncInstallation
    | StopEvent | StartEvent | Migrate | Admit | BusinessWrite(row: int)
    | StartBackup | TakeSnapshot | StartRestore | FinishRestore
    | PowerLoss

  /** A service that starts waits until the fence lets it proceed. */
  predicate MayStart(fence: Fence) {
    !fence.active || fence.allowStart
  }

  predicate Serving(w: World) {
    w.services.Live? && w.services.serving
  }

  function Linked(w: World): Release {
    Release(w.backend.seen, w.web.seen)
  }

  function LinkTarget(release: Release, link: LinkName): Version {
    if link == WebLink then release.web else release.backend
  }

  /** Every release link and the installation record durably name `release`. */
  predicate Deployed(w: World, release: Release) {
    && w.backend.Holds(release.backend)
    && w.web.Holds(release.web)
    && w.updater.Holds(release.backend)
    && w.installation.Holds(release)
  }

  predicate FenceRaised(w: World) {
    w.fence.seen.active && w.fence.kept.active
  }

  /** Restoring the snapshot now would lose no acknowledged write. */
  predicate SnapshotCurrent(w: World) {
    && w.snapshot.Some? && w.snapshot.value.Intact?
    && w.snapshot.value.rows == w.accepted
    && w.snapshot.value.schema == w.plan.original.backend
    && !Serving(w)
  }

  /** What a journal record, seen or kept, promises about the rest of the machine. */
  predicate Truthful(w: World, r: Record) {
    && WellShaped(r)
    && (r.snapshot.Some? ==> w.snapshot == r.snapshot)
    && (Undecided(r) ==> FenceRaised(w) && SnapshotCurrent(w))
    && (Switch !in r.ops || RestoreData in r.ops ==> Deployed(w, w.plan.original))
    && (IsDone(r.ops, RestoreData) ==>
          w.data.Intact? && w.data.schema == w.plan.original.backend && w.restores == 1)
    && (r.decision == Some(CommitDecided) ==> Deployed(w, w.plan.target) && w.restores == 0)
    && (r.decision.Some? ==> w.fence.seen.allowStart && w.fence.kept.allowStart)
    && (Terminal(r.status) ==> !w.fence.seen.active && !w.fence.kept.active)
  }

  /** The invariant of the whole machine. */
  predicate Inv(w: World) {
    && Truthful(w, w.journal.seen)
    && Truthful(w, w.journal.kept)
    && Follows(w.journal.kept, w.journal.seen)
    && (w.services.Live? ==> w.services.release == Linked(w))
    && (w.data.Intact? ==> w.data.rows == w.accepted)
    && (w.data.Torn? ==>
          && w.services.Stopped? && w.fence.Holds(CLOSED) && w.journal.seen.decision.None?
          && RestoreData in w.journal.kept.ops && !IsDone(w.journal.seen.ops, RestoreData))
    && (Switch !in w.journal.kept.ops ==> w.data.Intact? && w.data.schema == w.plan.original.backend)
    && w.backups <= 1 && (w.backups == 1 ==> BackUp in w.journal.kept.ops)
    && w.restores <= 1 && (w.restores == 1 ==> RestoreData in w.journal.kept.ops)
    && (w.snapshot.Some? ==> w.backups == 1)
  }

  predicate MayLink(w: World, link: LinkName, version: Version) {
    && (w.services.Live? && link != UpdaterLink ==>
          version == (if link == BackendLink then w.backend.seen else w.web.seen))
    && w.journal.seen.decision.None?
    && Switch in w.journal.kept.ops
    && (RestoreData in w.journal.seen.ops ==> version == LinkTarget(w.plan.original, link))
  }

  predicate MayRecordInstallation(w: World, release: Release) {
    && w.journal.seen.decision.None?
    && Switch in w.journal.kept.ops
    && (RestoreData in w.journal.seen.ops ==> release == w.plan.original)
  }

  predicate MaySave(w: World, r: Record) {
    !Terminal(w.journal.seen.status) && Follows(w.journal.seen, r) && Truthful(w, r)
  }

  /** The fence opens only for a job that switched nothing, or whose decision is durable. */
  predicate MaySetFence(w: World, fence: Fence) {
    && (w.data.Torn? ==> fence == CLOSED)
    && (!fence.active ==> Switch !in w.journal.seen.ops || w.journal.kept.decision.Some?)
    && (w.journal.seen.decision.Some? ==> fence.allowStart)
    && !Terminal(w.journal.seen.status)
  }

  /** The rules of the protocol: when each event may happen. */
  predicate Allowed(w: World, e: Event) {
    match e
    case RenameJournal(record) => MaySave(w, record)
    case RenameFence(fence) => MaySetFence(w, fence)
    case RenameLink(link, version) => MayLink(w, link, version)
    case RenameInstallation(release) => MayRecordInstallation(w, release)
    case SyncJournal => true
    case SyncFence => true
    case SyncLink(_) => true
    case SyncInstallation => true
    case StopEvent => true
    case StartEvent => w.services.Stopped? && MayStart(w.fence.seen)
    case Migrate => w.services.Live? && w.data.Intact?
    case Admit => w.services.Live? && !w.fence.seen.active
    case BusinessWrite(_) => Serving(w) && w.data.Intact?
    case StartBackup =>
      && w.services.Stopped? && w.fence.Holds(CLOSED) && w.backups == 0
      && BackUp in w.journal.kept.ops && Switch !in w.journal.seen.ops
    case TakeSnapshot =>
      && w.services.Stopped? && w.fence.Holds(CLOSED) && w.backups == 1
      && w.snapshot.None? && Switch !in w.journal.seen.ops
    case StartRestore =>
      && w.services.Stopped? && w.fence.Holds(CLOSED) && w.restores == 0
      && RestoreData in w.journal.kept.ops && w.journal.seen.decision.None?
    case FinishRestore => w.data.Torn? && w.snapshot.Some?
    case PowerLoss => true
  }

  function Lost<T(==)>(disk: Disk<T>): Disk<T> {
    Disk(disk.kept, disk.kept)
  }

  function Synced<T(==)>(disk: Disk<T>): Disk<T> {
    Disk(disk.seen, disk.seen)
  }

  /** The effect of each event. */
  function Apply(w: World, e: Event): World {
    match e
    case RenameJournal(record) => w.(journal := Disk(record, w.journal.kept))
    case SyncJournal => w.(journal := Synced(w.journal))
    case RenameFence(fence) => w.(fence := Disk(fence, w.fence.kept))
    case SyncFence => w.(fence := Synced(w.fence))
    case RenameLink(BackendLink, version) => w.(backend := Disk(version, w.backend.kept))
    case RenameLink(WebLink, version) => w.(web := Disk(version, w.web.kept))
    case RenameLink(UpdaterLink, version) => w.(updater := Disk(version, w.updater.kept))
    case SyncLink(BackendLink) => w.(backend := Synced(w.backend))
    case SyncLink(WebLink) => w.(web := Synced(w.web))
    case SyncLink(UpdaterLink) => w.(updater := Synced(w.updater))
    case RenameInstallation(release) => w.(installation := Disk(release, w.installation.kept))
    case SyncInstallation => w.(installation := Synced(w.installation))
    case StopEvent => w.(services := Stopped)
    case StartEvent => w.(services := Live(Linked(w), false))
    case Migrate => if w.data.Intact? && w.services.Live? then w.(data := w.data.(schema := w.services.release.backend)) else w
    case Admit => if w.services.Live? then w.(services := w.services.(serving := true)) else w
    case BusinessWrite(row) =>
      if w.data.Intact? then w.(data := w.data.(rows := w.data.rows + [row]), accepted := w.accepted + [row]) else w
    case StartBackup => w.(backups := w.backups + 1)
    case TakeSnapshot => w.(snapshot := Some(w.data))
    case StartRestore => w.(restores := w.restores + 1, data := Torn)
    case FinishRestore => if w.snapshot.Some? then w.(data := w.snapshot.value) else w
    case PowerLoss =>
      w.(journal := Lost(w.journal), fence := Lost(w.fence), backend := Lost(w.backend), web := Lost(w.web),
         updater := Lost(w.updater), installation := Lost(w.installation), services := Stopped)
  }

  lemma SavingKeepsInv(w: World, e: Event)
    requires Inv(w) && Allowed(w, e) && e.RenameJournal?
    ensures Inv(Apply(w, e))
  {
  }

  lemma FencingKeepsInv(w: World, e: Event)
    requires Inv(w) && Allowed(w, e) && e.RenameFence?
    ensures Inv(Apply(w, e))
  {
  }

  /** Links move only between switch and decision, and after a restore of data only to the original. */
  lemma LinkingKeepsTruth(w: World, e: Event, r: Record)
    requires Inv(w) && Allowed(w, e) && e.RenameLink? && (r == w.journal.seen || r == w.journal.kept)
    ensures Truthful(Apply(w, e), r)
  {
  }

  lemma LinkingLeavesTheRest(w: World, e: Event)
    requires e.RenameLink? && MayLink(w, e.link, e.version) && (w.services.Live? ==> w.services.release == Linked(w))
    ensures
      var w' := Apply(w, e);
      && (w.services.Live? ==> w.services.release == Linked(w'))
      && w' == w.(backend := w'.backend, web := w'.web, updater := w'.updater)
  {
  }

  lemma LinkingKeepsInv(w: World, e: Event)
    requires Inv(w) && Allowed(w, e) && e.RenameLink?
    ensures Inv(Apply(w, e))
  {
    hide Truthful, Follows, Apply, Linked;
    LinkingKeepsTruth(w, e, w.journal.seen);
    LinkingKeepsTruth(w, e, w.journal.kept);
    LinkingLeavesTheRest(w, e);
  }

  lemma RecordingInstallationKeepsInv(w: World, e: Event)
    requires Inv(w) && Allowed(w, e) && e.RenameInstallation?
    ensures Inv(Apply(w, e))
  {
  }

  lemma SyncingRecordsKeepsInv(w: World, e: Event)
    requires Inv(w) && (e.SyncJournal? || e.SyncFence?)
    ensures Inv(Apply(w, e))
  {
    if e.SyncJournal? {
      assert Truthful(Apply(w, e), w.journal.seen);
    }
  }

  lemma SyncingKeepsTruth(w: World, e: Event, r: Record)
    requires Truthful(w, r) && (e.SyncLink? || e.SyncInstallation?)
    ensures Truthful(Apply(w, e), r)
  {
  }

  /** Syncing a link or the installation record changes neither what is linked nor anything else. */
  lemma SyncingLeavesTheRest(w: World, e: Event)
    requires e.SyncLink? || e.SyncInstallation?
    ensures
      var w' := Apply(w, e);
      && Linked(w') == Linked(w)
      && w' == w.(backend := w'.backend, web := w'.web, updater := w'.updater, installation := w'.installation)
  {
  }

  lemma SyncingDeploymentKeepsInv(w: World, e: Event)
    requires Inv(w) && (e.SyncLink? || e.SyncInstallation?)
    ensures Inv(Apply(w, e))
  {
    hide Truthful, Follows, Apply, Linked;
    SyncingKeepsTruth(w, e, w.journal.seen);
    SyncingKeepsTruth(w, e, w.journal.kept);
    SyncingLeavesTheRest(w, e);
  }

  lemma ServicesKeepInv(w: World, e: Event)
    requires Inv(w) && Allowed(w, e)
    requires e.StopEvent? || e.StartEvent? || e.Admit?
    ensures Inv(Apply(w, e))
  {
  }

  lemma WritesKeepInv(w: World, e: Event)
    requires Inv(w) && Allowed(w, e) && (e.Migrate? || e.BusinessWrite?)
    ensures Inv(Apply(w, e))
  {
  }

  lemma BackupKeepsInv(w: World, e: Event)
    requires Inv(w) && Allowed(w, e)
    requires e.StartBackup? || e.TakeSnapshot? || e.StartRestore? || e.FinishRestore?
    ensures Inv(Apply(w, e))
  {
  }

  lemma PowerLossKeepsInv(w: World, e: Event)
    requires Inv(w) && e.PowerLoss?
    ensures Inv(Apply(w, e))
  {
  }

  lemma EventKeepsInv(w: World, e: Event)
    requires Inv(w) && Allowed(w, e)
    ensures Inv(Apply(w, e))
  {
    if e.RenameJournal? {
      SavingKeepsInv(w, e);
    } else if e.RenameFence? {
      FencingKeepsInv(w, e);
    } else if e.RenameLink? {
      LinkingKeepsInv(w, e);
    } else if e.RenameInstallation? {
      RecordingInstallationKeepsInv(w, e);
    } else if e.SyncJournal? || e.SyncFence? {
      SyncingRecordsKeepsInv(w, e);
    } else if e.SyncLink? || e.SyncInstallation? {
      SyncingDeploymentKeepsInv(w, e);
    } else if e.StartBackup? || e.TakeSnapshot? || e.StartRestore? || e.FinishRestore? {
      BackupKeepsInv(w, e);
    } else if e.Migrate? || e.BusinessWrite? {
      WritesKeepInv(w, e);
    } else if e.PowerLoss? {
      PowerLossKeepsInv(w, e);
    } else {
      ServicesKeepInv(w, e);
    }
  }
}
