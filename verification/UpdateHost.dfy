/** The machine the worker runs on: durable files, release links, services and business data, with
    every fault the worker has to survive.  Each method is one action of an adapter or one durable
    write; it may fail before, between or after its effects, or the process may die in it, and the
    rest of the machine goes on acting between any two effects. */
module UpdateHost {
  import opened UpdateJournal
  import opened UpdateProtocol
  import opened UpdateRuns

  /** How a call ends: it returns, throws, or never comes back because the process died. */
  datatype Outcome = Returned | JournalFailed | ActionFailed | Died {
    predicate IsFailure() {
      !Returned?
    }

    function PropagateFailure(): (o: Outcome)
      requires IsFailure()
    {
      this
    }
  }

  /** Background activity never changes what a reader of a file sees, and what is durable stays so. */
  predicate Undisturbed<T(==)>(before: Disk<T>, after: Disk<T>) {
    after.seen == before.seen && (before.kept == before.seen ==> after.kept == before.seen)
  }

  predicate MaySync<T(==)>(before: Disk<T>, after: Disk<T>) {
    after == before || after == Synced(before)
  }

  predicate LinksUndisturbed(w: World, w': World) {
    && Undisturbed(w.backend, w'.backend) && Undisturbed(w.web, w'.web) && Undisturbed(w.updater, w'.updater)
    && Undisturbed(w.installation, w'.installation)
  }

  predicate AtRest(w: World) {
    w.services.Stopped? && !MayStart(w.fence.seen)
  }

  /** What background activity may do to services and business data under the fence of `w`. */
  predicate ServicesUndisturbed(w: World, w': World) {
    && (AtRest(w) ==> w'.services.Stopped? && w'.data == w.data && w'.accepted == w.accepted)
    && (w.fence.seen.active && !Serving(w) ==> !Serving(w') && w'.accepted == w.accepted)
    && (w.data.Torn? <==> w'.data.Torn?)
  }

  predicate JobUndisturbed(w: World, w': World) {
    w'.plan == w.plan && w'.snapshot == w.snapshot && w'.backups == w.backups && w'.restores == w.restores
  }

  /** Everything the other actors of the machine may do between two effects of the worker. */
  predicate Background(w: World, w': World) {
    && JobUndisturbed(w, w')
    && MaySync(w.journal, w'.journal)
    && MaySync(w.fence, w'.fence)
    && LinksUndisturbed(w, w')
    && ServicesUndisturbed(w, w')
  }

  /** The one thing an action may change besides what happens in the background. */
  datatype Part = Nothing | Journal | Link(link: LinkName) | Installation | Links | Copies

  function Copied(w: World, w': World, part: Part): World {
    match part
    case Nothing => w
    case Journal => w.(journal := w'.journal)
    case Link(BackendLink) => w.(backend := w'.backend)
    case Link(WebLink) => w.(web := w'.web)
    case Link(UpdaterLink) => w.(updater := w'.updater)
    case Installation => w.(installation := w'.installation)
    case Links => w.(backend := w'.backend, web := w'.web, updater := w'.updater, installation := w'.installation)
    case Copies => w.(snapshot := w'.snapshot, backups := w'.backups, restores := w'.restores, data := w'.data)
  }

  /** Only `part` changed, apart from background activity. */
  predicate OnlyChanges(part: Part, w: World, w': World) {
    Background(Copied(w, w', part), w')
  }

  lemma BackgroundComposes(a: World, b: World, c: World)
    requires Background(a, b) && Background(b, c)
    ensures Background(a, c)
  {
  }

  lemma BackgroundChangesLess(part: Part, w: World, w': World)
    requires Background(w, w')
    ensures OnlyChanges(part, w, w')
  {
  }

  lemma OneLinkIsOneOfLinks(part: Part, w: World, w': World)
    requires part.Link? || part.Installation? || part.Nothing?
    requires OnlyChanges(part, w, w')
    ensures OnlyChanges(Links, w, w')
  {
  }

  lemma ChangesCompose(part: Part, a: World, b: World, c: World)
    requires OnlyChanges(part, a, b) && OnlyChanges(part, b, c)
    ensures OnlyChanges(part, a, c)
  {
    CopiesAlike(a, b, c, part);
    hide Background;
    BackgroundComposes(Copied(a, c, part), Copied(b, c, part), c);
  }

  lemma CopiesAlike(a: World, b: World, c: World, part: Part)
    requires Background(Copied(a, b, part), b)
    ensures Background(Copied(a, c, part), Copied(b, c, part))
  {
  }

  /** The events no one in the transaction controls: caches reaching the disk, services and their users. */
  predicate Uncontrolled(e: Event) {
    e.SyncJournal? || e.SyncFence? || e.SyncLink? || e.SyncInstallation? ||
    e.StopEvent? || e.StartEvent? || e.Migrate? || e.Admit? || e.BusinessWrite?
  }

  lemma UncontrolledIsBackground(w: World, e: Event)
    requires Allowed(w, e) && Uncontrolled(e)
    ensures Background(w, Apply(w, e))
  {
    hide MaySave, MaySetFence, MayLink, MayRecordInstallation;
    if e.SyncJournal? || e.SyncFence? || e.SyncLink? || e.SyncInstallation? {
      SyncIsBackground(w, e);
    } else {
      ServiceIsBackground(w, e);
    }
  }

  lemma SyncIsBackground(w: World, e: Event)
    requires e.SyncJournal? || e.SyncFence? || e.SyncLink? || e.SyncInstallation?
    ensures Background(w, Apply(w, e))
  {
  }

  lemma ServiceIsBackground(w: World, e: Event)
    requires Allowed(w, e) && (e.StopEvent? || e.StartEvent? || e.Migrate? || e.Admit? || e.BusinessWrite?)
    ensures Background(w, Apply(w, e))
  {
    hide MaySave, MaySetFence, MayLink, MayRecordInstallation;
  }

  /** A save stays justified while it is on its way to the disk. */
  lemma BackgroundKeepsSave(w: World, w': World, r: Record)
    requires Inv(w) && Inv(w') && Background(w, w') && MaySave(w, r)
    requires AtRest(w) || (IsDone(r.ops, RestoreData) ==> IsDone(w.journal.seen.ops, RestoreData))
    ensures MaySave(w', r)
  {
  }

  lemma BackgroundKeepsLinking(w: World, w': World, link: LinkName, version: Version)
    requires Inv(w) && Inv(w') && Background(w, w') && MayLink(w, link, version)
    requires AtRest(w) || link == UpdaterLink
    ensures MayLink(w', link, version)
  {
  }

  lemma BackgroundKeepsFencing(w: World, w': World, fence: Fence)
    requires Inv(w) && Inv(w') && Background(w, w') && MaySetFence(w, fence)
    ensures MaySetFence(w', fence)
  {
  }

  /** What a write of the fence leaves alone: the job, its journal and the links. */
  predicate OnlyFences(w: World, w': World) {
    JobUndisturbed(w, w') && MaySync(w.journal, w'.journal) && LinksUndisturbed(w, w')
  }

  lemma BackgroundOnlyFences(a: World, b: World, c: World)
    requires OnlyFences(a, b) && Background(b, c)
    ensures OnlyFences(a, c) && c.fence.seen == b.fence.seen
  {
  }

  lemma NothingFenced(w: World)
    ensures OnlyFences(w, w)
  {
  }

  lemma FencingOnlyFences(a: World, b: World, e: Event)
    requires OnlyFences(a, b) && (e.RenameFence? || e.SyncFence?)
    ensures OnlyFences(a, Apply(b, e))
  {
  }

  /** Which rename and which sync make up the durable write of a part of the machine. */
  predicate IsWrite(rename: Event, sync: Event, part: Part) {
    match part
    case Nothing => false
    case Links => false
    case Copies => false
    case Journal => rename.RenameJournal? && sync == SyncJournal
    case Link(link) => rename.RenameLink? && rename.link == link && sync == SyncLink(link)
    case Installation => rename.RenameInstallation? && sync == SyncInstallation
  }

  lemma RenameChangesOnly(w: World, w': World, rename: Event, sync: Event, part: Part)
    requires Background(w, w') && IsWrite(rename, sync, part)
    ensures OnlyChanges(part, w, Apply(w', rename))
  {
    hide Background;
    if part.Link? {
      LinkingOnlyLinks(w, w', rename);
    } else {
      RecordingOnlyRecords(w, w', rename, part);
    }
  }

  lemma LinkingOnlyLinks(w: World, w': World, rename: Event)
    requires Background(w, w') && rename.RenameLink?
    ensures OnlyChanges(Link(rename.link), w, Apply(w', rename))
  {
    LinkingLeavesServices(w, w', rename);
    LinkingLeavesLinks(w, w', rename);
    hide LinksUndisturbed, ServicesUndisturbed, JobUndisturbed, Apply, Copied;
  }

  lemma LinkingLeavesServices(w: World, w': World, rename: Event)
    requires ServicesUndisturbed(w, w') && JobUndisturbed(w, w') && rename.RenameLink?
    ensures
      var after := Apply(w', rename);
      var before := Copied(w, after, Link(rename.link));
      && ServicesUndisturbed(before, after) && JobUndisturbed(before, after)
      && before.journal == w.journal && before.fence == w.fence && after.journal == w'.journal && after.fence == w'.fence
  {
  }

  lemma LinkingLeavesLinks(w: World, w': World, rename: Event)
    requires LinksUndisturbed(w, w') && rename.RenameLink?
    ensures LinksUndisturbed(Copied(w, Apply(w', rename), Link(rename.link)), Apply(w', rename))
  {
  }

  lemma RecordingOnlyRecords(w: World, w': World, rename: Event, part: Part)
    requires Background(w, w') && IsWrite(rename, if part == Journal then SyncJournal else SyncInstallation, part) && !part.Link?
    ensures OnlyChanges(part, w, Apply(w', rename))
  {
  }

  lemma SyncCompletes(w: World, w': World, rename: Event, sync: Event, part: Part)
    requires Background(Apply(w, rename), w') && IsWrite(rename, sync, part)
    ensures Written(Apply(w', sync), rename)
  {
  }

  /** The file written by `rename` durably holds its new contents. */
  predicate Written(w: World, rename: Event) {
    match rename
    case RenameJournal(record) => w.journal.Holds(record)
    case RenameLink(link, version) => LinkHolds(w, link, version)
    case RenameInstallation(release) => w.installation.Holds(release)
    case _ => true
  }

  predicate LinkHolds(w: World, link: LinkName, version: Version) {
    match link
    case BackendLink => w.backend.Holds(version)
    case WebLink => w.web.Holds(version)
    case UpdaterLink => w.updater.Holds(version)
  }

  /** Where a fault can strike: around the rename of a file, or in any other effect. */
  datatype Point = Before(rename: Event) | After(rename: Event) | Elsewhere

  /** Job records are written at points of their own: their faults end the process's work. */
  predicate OfJournal(point: Point) {
    !point.Elsewhere? && point.rename.RenameJournal?
  }

  /** The faults one process meets: none, any and anywhere, always the same one, or a single one, at
      the effect with the given number, job records not counted. */
  datatype Faults = Never | Anywhere | Only(at: Point) | Once(k: nat)

  /** The fence is opened, but syncing its directory fails. */
  const REOPENING_FAILS := Only(After(RenameFence(OPEN)))

  /** What the worker had done for it, once it returned. */
  datatype Call =
    | Prepared | Stopped | BackedUp | Validated | Switched | Started | Verified(release: Release) | HelperUpdated
    | InstallationRecorded | DeploymentRestored | DataRestored | Fenced(fence: Fence)

  class Host {
    const plan: Plan
    const faults: Faults
    var effects: nat           // how many effects could have failed so far, job records not counted
    ghost const start: World
    ghost var run: seq<Event>  // every event since this process started
    ghost var log: seq<Call>   // every call that returned since then
    var w: World

    ghost predicate Valid()
      reads this`run, this`w
    {
      && Legal(start, run) && w == Play(start, run)
      && Inv(w) && start.plan == w.plan == plan
    }

    /** The single fault has struck since the process counted `before` effects. */
    predicate Struck(before: nat)
      reads this`effects
    {
      faults.Once? && before <= faults.k < effects
    }

    /** What fails without faults never does, and with a single fault just when that strikes. */
    predicate Accounted(before: nat, o: Outcome)
      reads this`effects
    {
      && before <= effects && (faults == Never ==> o.Returned?)
      && (faults.Once? ==> o == if Struck(before) then ActionFailed else Returned)
    }

    /** The same of anything but the reopening of the fence. */
    predicate Ran(before: nat, o: Outcome)
      reads this`effects
    {
      Accounted(before, o) && (faults == REOPENING_FAILS ==> o.Returned?)
    }

    /** Just these calls returned since `before`. */
    ghost predicate Called(before: seq<Call>, calls: seq<Call>)
      reads this`log
    {
      log == before + calls
    }

    predicate OneFaultAtMost() {
      faults == Never || faults.Once?
    }

    constructor (w: World, faults: Faults)
      requires Inv(w)
      ensures Valid() && this.w == w == start && run == [] && log == [] && this.faults == faults && effects == 0
    {
      this.plan := w.plan;
      this.faults, this.effects := faults, 0;
      this.start := w;
      this.run, this.log := [], [];
      this.w := w;
    }

    method Do(e: Event)
      requires Valid() && Allowed(w, e)
      modifies this`run, this`w
      ensures Valid() && w == Apply(old(w), e)
    {
      EventKeepsInv(w, e);
      EventProgresses(w, e);
      LegalAppend(start, run, e);
      run := run + [e];
      w := Apply(w, e);
    }

    /** Any number of things the worker does not control. */
    method Interfere()
      requires Valid()
      modifies this`run, this`w
      ensures Valid() && Background(old(w), w)
    {
      var steps: nat := *;
      while steps > 0
        invariant Valid() && Background(old(w), w)
      {
        var choice: nat, row: int := *, *;
        var e :=
          if choice == 0 then SyncJournal
          else if choice == 1 then SyncFence
          else if choice == 2 then SyncLink(BackendLink)
          else if choice == 3 then SyncLink(WebLink)
          else if choice == 4 then SyncLink(UpdaterLink)
          else if choice == 5 then SyncInstallation
          else if choice == 6 then StopEvent
          else if choice == 7 then StartEvent
          else if choice == 8 then Migrate
          else if choice == 9 then Admit
          else BusinessWrite(row);
        if Allowed(w, e) {
          ghost var before := w;
          Do(e);
          UncontrolledIsBackground(before, e);
          BackgroundComposes(old(w), before, w);
        }
        steps := steps - 1;
      }
    }

    /** The service manager starts what is enabled, once the fence lets it; unless anything may fail, the
        services are up by the time anyone looks. */
    method AwaitServices()
      requires Valid()
      modifies this`run, this`w
      ensures Valid() && Background(old(w), w)
      ensures faults != Anywhere && MayStart(old(w).fence.seen) ==> w.services.Live?
    {
      Interfere();
      ghost var before := w;
      if w.services.Stopped? && MayStart(w.fence.seen) && faults != Anywhere {
        Do(StartEvent);
        UncontrolledIsBackground(before, StartEvent);
        BackgroundComposes(old(w), before, w);
      }
    }

    /** The fate of the next effect of an action. */
    method Fate(point: Point) returns (o: Outcome)
      modifies this`effects
      ensures effects == old(effects) + if OfJournal(point) then 0 else 1
      ensures !o.JournalFailed?
      ensures faults == Never ==> o.Returned?
      ensures faults.Only? ==> o == if point == faults.at then ActionFailed else Returned
      ensures faults.Once? ==> o == if !OfJournal(point) && old(effects) == faults.k then ActionFailed else Returned
    {
      match faults {
        case Never => o := Returned;
        case Anywhere =>
          var fails: bool, dies: bool := *, *;
          o := if dies then Died else if fails then ActionFailed else Returned;
        case Only(at) => o := if point == at then ActionFailed else Returned;
        case Once(k) => o := if !OfJournal(point) && effects == k then ActionFailed else Returned;
      }
      if !OfJournal(point) {
        effects := effects + 1;
      }
    }

    /** Write a temporary file, rename it over the old one, sync the directory. */
    method AtomicWrite(rename: Event, sync: Event, part: Part, ghost before: World) returns (o: Outcome)
      requires Valid() && Background(before, w) && Allowed(w, rename) && IsWrite(rename, sync, part)
      modifies this`run, this`w, this`effects
      ensures Valid() && !o.JournalFailed?
      ensures Ran(old(effects), o) && (rename.RenameJournal? ==> effects == old(effects))
      ensures OnlyChanges(part, before, w)
      ensures o.Returned? ==> Written(w, rename)
    {
      hide Background, OnlyChanges, Inv, Written;
      BackgroundChangesLess(part, before, w);
      :- Fate(Before(rename));
      RenameChangesOnly(before, w, rename, sync, part);
      Do(rename);
      ghost var renamed := w;
      Interfere();
      BackgroundChangesLess(part, renamed, w);
      ChangesCompose(part, before, renamed, w);
      :- Fate(After(rename));
      ghost var unsynced := w;
      Do(sync);
      SyncCompletes(old(w), unsynced, rename, sync, part);
      UncontrolledIsBackground(unsynced, sync);
      BackgroundChangesLess(part, unsynced, w);
      ChangesCompose(part, before, unsynced, w);
      return Returned;
    }

    /** A durable write of the job record; every error of the write is the journal error. */
    method SaveJob(record: Record) returns (o: Outcome)
      requires Valid() && MaySave(w, record)
      requires AtRest(w) || (IsDone(record.ops, RestoreData) ==> IsDone(w.journal.seen.ops, RestoreData))
      modifies this`run, this`w, this`effects
      ensures Valid() && !o.ActionFailed?
      ensures Ran(old(effects), o)
      ensures o.Returned? ==> w.journal.Holds(record)
      ensures OnlyChanges(Journal, old(w), w)
    {
      Interfere();
      BackgroundKeepsSave(old(w), w, record);
      o := AtomicWrite(RenameJournal(record), SyncJournal, Journal, old(w));
      if o.ActionFailed? {
        o := JournalFailed;
      }
    }

    /** A durable write of the maintenance fence. */
    method WriteMaintenance(fence: Fence) returns (o: Outcome)
      requires Valid() && MaySetFence(w, fence)
      modifies this
      ensures Valid() && !o.JournalFailed?
      ensures Accounted(old(effects), o)
      ensures faults == REOPENING_FAILS ==> if fence == OPEN then o.ActionFailed? && w.fence.seen == OPEN else o.Returned?
      ensures o.Returned? ==> w.fence.Holds(fence)
      ensures OnlyFences(old(w), w)
      ensures log == if o.Returned? then old(log) + [Fenced(fence)] else old(log)
    {
      hide Inv, OnlyFences, MaySetFence;
      o := ReplaceFence(fence);
      if o.Returned? {
        log := log + [Fenced(fence)];
      }
    }

    /** Rename, then sync the directory. */
    method ReplaceFence(fence: Fence) returns (o: Outcome)
      requires Valid() && MaySetFence(w, fence)
      modifies this`run, this`w, this`effects
      ensures Valid() && !o.JournalFailed?
      ensures Accounted(old(effects), o)
      ensures faults == REOPENING_FAILS ==> if fence == OPEN then o.ActionFailed? && w.fence.seen == OPEN else o.Returned?
      ensures o.Returned? ==> w.fence.Holds(fence)
      ensures OnlyFences(old(w), w)
    {
      hide Inv, OnlyFences, Background;
      NothingFenced(w);
      Interfere();
      BackgroundKeepsFencing(old(w), w, fence);
      BackgroundOnlyFences(old(w), old(w), w);
      :- Fate(Before(RenameFence(fence)));
      FencingOnlyFences(old(w), w, RenameFence(fence));
      Do(RenameFence(fence));
      ghost var renamed := w;
      Interfere();
      BackgroundOnlyFences(old(w), renamed, w);
      :- Fate(After(RenameFence(fence)));
      FencingOnlyFences(old(w), w, SyncFence);
      Do(SyncFence);
      return Returned;
    }

    /** Swap one release link: rename, then sync its directory. */
    method SetLink(link: LinkName, version: Version) returns (o: Outcome)
      requires Valid() && MayLink(w, link, version)
      requires AtRest(w) || link == UpdaterLink
      modifies this`run, this`w, this`effects
      ensures Valid() && !o.JournalFailed?
      ensures Ran(old(effects), o)
      ensures OnlyChanges(Link(link), old(w), w)
      ensures o.Returned? ==> LinkHolds(w, link, version)
    {
      Interfere();
      BackgroundKeepsLinking(old(w), w, link, version);
      o := AtomicWrite(RenameLink(link, version), SyncLink(link), Link(link), old(w));
    }

    method WriteInstallation(release: Release) returns (o: Outcome)
      requires Valid() && MayRecordInstallation(w, release)
      modifies this`run, this`w, this`effects
      ensures Valid() && !o.JournalFailed?
      ensures Ran(old(effects), o)
      ensures OnlyChanges(Installation, old(w), w)
      ensures o.Returned? ==> w.installation.Holds(release)
    {
      Interfere();
      o := AtomicWrite(RenameInstallation(release), SyncInstallation, Installation, old(w));
    }
  }
}
