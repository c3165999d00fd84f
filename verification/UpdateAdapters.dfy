/** The deployment and backup adapters as the worker sees them, over the faulty machine. */
module UpdateAdapters {
  import opened UpdateJournal
  import opened UpdateProtocol
  import opened UpdateHost
  import opened Wrappers

  class LinuxDeployment {
    const host: Host

    constructor (host: Host)
      ensures this.host == host
    {
      this.host := host;
    }

    /** Download and check the target bundles; nothing the job relies on changes. */
    method Prepare() returns (o: Outcome)
      requires host.Valid()
      modifies host
      ensures host.Valid() && !o.JournalFailed?
      ensures host.Ran(old(host.effects), o)
      ensures Background(old(host.w), host.w)
      ensures host.log == if o.Returned? then old(host.log) + [Prepared] else old(host.log)
    {
      host.Interfere();
      o := host.Fate(Elsewhere);
      if o.Returned? {
        host.log := host.log + [Prepared];
      }
    }

    method StopApplications() returns (o: Outcome)
      requires host.Valid()
      modifies host
      ensures host.Valid() && !o.JournalFailed?
      ensures old(host.effects) <= host.effects && (!MayStart(old(host.w).fence.seen) ==> host.Ran(old(host.effects), o))
      ensures Background(old(host.w), host.w)
      ensures o.Returned? ==> host.w.services.Stopped?
      ensures host.log == if o.Returned? then old(host.log) + [Call.Stopped] else old(host.log)
    {
      hide Background, MayStart;
      o := StopUnits();
      if o.Returned? {
        host.log := host.log + [Call.Stopped];
      }
    }

    /** Stop what runs, and look whether it stayed down. */
    method StopUnits() returns (o: Outcome)
      requires host.Valid()
      modifies host`run, host`w, host`effects
      ensures host.Valid() && !o.JournalFailed?
      ensures old(host.effects) <= host.effects && (!MayStart(old(host.w).fence.seen) ==> host.Ran(old(host.effects), o))
      ensures Background(old(host.w), host.w)
      ensures o.Returned? ==> host.w.services.Stopped?
    {
      host.Interfere();
      :- host.Fate(Elsewhere);
      ghost var running := host.w;
      host.Do(StopEvent);
      UncontrolledIsBackground(running, StopEvent);
      BackgroundComposes(old(host.w), running, host.w);
      ghost var stopped := host.w;
      host.Interfere();
      BackgroundComposes(old(host.w), stopped, host.w);
      :- host.Fate(Elsewhere);
      if !host.w.services.Stopped? {
        return ActionFailed;
      }
      return Returned;
    }

    /** Started services wait by themselves until the fence lets them proceed. */
    method StartApplications() returns (o: Outcome)
      requires host.Valid()
      modifies host
      ensures host.Valid() && !o.JournalFailed?
      ensures host.Ran(old(host.effects), o)
      ensures Background(old(host.w), host.w)
      ensures host.log == if o.Returned? then old(host.log) + [Started] else old(host.log)
      ensures o.Returned? && MayStart(host.w.fence.seen) ==> host.w.services.Live?
    {
      host.Interfere();
      :- host.Fate(Elsewhere);
      ghost var before := host.w;
      if host.w.services.Stopped? && MayStart(host.w.fence.seen) {
        host.Do(StartEvent);
        UncontrolledIsBackground(before, StartEvent);
        BackgroundComposes(old(host.w), before, host.w);
      }
      o := host.Fate(Elsewhere);
      if o.Returned? {
        host.log := host.log + [Started];
      }
    }

    /** Succeeds only if the links and the running services are the expected release. */
    method Verify(expected: Release) returns (o: Outcome)
      requires host.Valid()
      modifies host
      ensures host.Valid() && !o.JournalFailed?
      ensures old(host.effects) <= host.effects
      ensures Linked(old(host.w)) == expected && MayStart(old(host.w).fence.seen) ==>
        (host.faults != Anywhere ==> host.Ran(old(host.effects), o))
      ensures Background(old(host.w), host.w)
      ensures o.Returned? ==> Linked(host.w) == expected && host.w.services == Live(expected, Serving(host.w))
      ensures host.log == if o.Returned? then old(host.log) + [Verified(expected)] else old(host.log)
    {
      host.AwaitServices();
      if Linked(host.w) != expected || host.w.services.Stopped? {
        return ActionFailed;
      }
      o := host.Fate(Elsewhere);
      if o.Returned? {
        host.log := host.log + [Verified(expected)];
      }
    }

    /** Point the links of the updated components at their target release. */
    method SwitchApplications(plan: Plan) returns (o: Outcome)
      requires host.Valid() && plan == host.plan
      requires AtRest(host.w) && Switch in host.w.journal.kept.ops && RestoreData !in host.w.journal.seen.ops
      requires host.w.journal.seen.decision.None? && Deployed(host.w, plan.original)
      modifies host
      ensures host.Valid() && !o.JournalFailed?
      ensures host.Ran(old(host.effects), o)
      ensures OnlyChanges(Links, old(host.w), host.w)
      ensures o.Returned? ==>
        && host.w.backend.Holds(plan.target.backend) && host.w.web.Holds(plan.target.web)
        && host.w.updater.Holds(plan.original.backend) && host.w.installation.Holds(plan.original)
      ensures host.log == if o.Returned? then old(host.log) + [Switched] else old(host.log)
    {
      if plan.target.backend != plan.original.backend {
        o := host.SetLink(BackendLink, plan.target.backend);
        OneLinkIsOneOfLinks(Link(BackendLink), old(host.w), host.w);
        :- o;
      }
      ghost var middle := host.w;
      if plan.target.web != plan.original.web {
        o := host.SetLink(WebLink, plan.target.web);
        OneLinkIsOneOfLinks(Link(WebLink), middle, host.w);
        ChangesCompose(Links, old(host.w), middle, host.w);
        :- o;
      }
      host.log := host.log + [Switched];
      return Returned;
    }

    /** Replace the updater itself, when the backend release changes, and check the new one answers. */
    method UpdateHelper(plan: Plan) returns (o: Outcome)
      requires host.Valid() && plan == host.plan
      requires Op.Helper in host.w.journal.kept.ops
      requires Switch in host.w.journal.kept.ops && RestoreData !in host.w.journal.seen.ops
      requires host.w.journal.seen.decision.None? && host.w.updater.Holds(plan.original.backend)
      modifies host
      ensures host.Valid() && !o.JournalFailed?
      ensures host.Ran(old(host.effects), o)
      ensures OnlyChanges(Link(UpdaterLink), old(host.w), host.w)
      ensures o.Returned? ==> host.w.updater.Holds(plan.target.backend)
      ensures host.log == if o.Returned? then old(host.log) + [HelperUpdated] else old(host.log)
    {
      if plan.target.backend != plan.original.backend {
        o := host.SetLink(UpdaterLink, plan.target.backend);
        :- o;
      }
      o := host.Fate(Elsewhere);
      if o.Returned? {
        host.log := host.log + [HelperUpdated];
      }
    }

    method Commit(plan: Plan) returns (o: Outcome)
      requires host.Valid() && plan == host.plan
      requires MayRecordInstallation(host.w, plan.target)
      modifies host
      ensures host.Valid() && !o.JournalFailed?
      ensures host.Ran(old(host.effects), o)
      ensures OnlyChanges(Installation, old(host.w), host.w)
      ensures o.Returned? ==> host.w.installation.Holds(plan.target)
      ensures host.log == if o.Returned? then old(host.log) + [InstallationRecorded] else old(host.log)
    {
      o := host.Fate(Elsewhere);
      if o.Returned? {
        o := host.WriteInstallation(plan.target);
        if o.Returned? {
          host.log := host.log + [InstallationRecorded];
        }
      }
    }

    /** Put every link and the installation record back. */
    method RestoreDeployment() returns (o: Outcome)
      requires host.Valid() && AtRest(host.w)
      requires Op.RestoreDeployment in host.w.journal.kept.ops
      requires Switch in host.w.journal.kept.ops && host.w.journal.seen.decision.None?
      modifies host
      ensures host.Valid() && !o.JournalFailed?
      ensures host.Ran(old(host.effects), o)
      ensures OnlyChanges(Links, old(host.w), host.w)
      ensures o.Returned? ==> Deployed(host.w, host.plan.original)
      ensures host.log == if o.Returned? then old(host.log) + [DeploymentRestored] else old(host.log)
    {
      var original := host.plan.original;
      o := host.SetLink(BackendLink, original.backend);
      OneLinkIsOneOfLinks(Link(BackendLink), old(host.w), host.w);
      :- o;
      ghost var first := host.w;
      o := host.SetLink(WebLink, original.web);
      OneLinkIsOneOfLinks(Link(WebLink), first, host.w);
      ChangesCompose(Links, old(host.w), first, host.w);
      :- o;
      ghost var second := host.w;
      o := RestoreHelper();
      ChangesCompose(Links, old(host.w), second, host.w);
      if o.Returned? {
        host.log := host.log + [DeploymentRestored];
      }
    }

    method RestoreHelper() returns (o: Outcome)
      requires host.Valid() && AtRest(host.w)
      requires Switch in host.w.journal.kept.ops && host.w.journal.seen.decision.None?
      modifies host`run, host`w, host`effects
      ensures host.Valid() && !o.JournalFailed?
      ensures host.Ran(old(host.effects), o)
      ensures OnlyChanges(Links, old(host.w), host.w)
      ensures Undisturbed(old(host.w).backend, host.w.backend) && Undisturbed(old(host.w).web, host.w.web)
      ensures o.Returned? ==> host.w.updater.Holds(host.plan.original.backend) && host.w.installation.Holds(host.plan.original)
    {
      o := host.SetLink(UpdaterLink, host.plan.original.backend);
      OneLinkIsOneOfLinks(Link(UpdaterLink), old(host.w), host.w);
      :- o;
      ghost var first := host.w;
      o := host.WriteInstallation(host.plan.original);
      OneLinkIsOneOfLinks(Installation, first, host.w);
      ChangesCompose(Links, old(host.w), first, host.w);
      :- o;
      o := host.Fate(Elsewhere);  // restart the updater and check that it answers
    }
  }

  predicate IsCopy(e: Event) {
    e.StartBackup? || e.TakeSnapshot? || e.StartRestore? || e.FinishRestore?
  }

  class BackupAdapter {
    const host: Host

    constructor (host: Host)
      ensures this.host == host
    {
      this.host := host;
    }

    /** One step of copying data, unless a fault comes first. */
    method Copy(e: Event, ghost before: World) returns (o: Outcome)
      requires host.Valid() && OnlyChanges(Copies, before, host.w) && Allowed(host.w, e) && IsCopy(e)
      modifies host`run, host`w, host`effects
      ensures host.Valid() && !o.JournalFailed?
      ensures host.Ran(old(host.effects), o)
      ensures OnlyChanges(Copies, before, host.w)
      ensures host.w == if o.Returned? then Apply(old(host.w), e) else old(host.w)
    {
      o := host.Fate(Elsewhere);
      if o.Returned? {
        host.Do(e);
      }
    }

    /** Take the job's only snapshot; the services must be stopped. */
    method Backup() returns (o: Outcome, snapshot: Data)
      requires host.Valid()
      requires AtRest(host.w) && host.w.fence.Holds(CLOSED) && host.w.backups == 0
      requires BackUp in host.w.journal.kept.ops && Switch !in host.w.journal.seen.ops
      modifies host
      ensures host.Valid() && !o.JournalFailed?
      ensures host.Ran(old(host.effects), o)
      ensures OnlyChanges(Copies, old(host.w), host.w) && host.w.restores == old(host.w.restores)
      ensures host.w.data == old(host.w.data)
      ensures o.Returned? ==> host.w.snapshot == Some(snapshot) && snapshot == host.w.data
      ensures host.log == if o.Returned? then old(host.log) + [BackedUp] else old(host.log)
    {
      snapshot := Torn;
      host.Interfere();
      BackgroundChangesLess(Copies, old(host.w), host.w);
      o := Copy(StartBackup, old(host.w));
      if o.Returned? {
        snapshot := host.w.data;
        o := Copy(TakeSnapshot, old(host.w));
        if o.Returned? {
          o := host.Fate(Elsewhere);
          if o.Returned? {
            host.log := host.log + [BackedUp];
          }
        }
      }
    }

    /** Check the snapshot's integrity; reads only. */
    method Validate() returns (o: Outcome)
      requires host.Valid()
      modifies host
      ensures host.Valid() && !o.JournalFailed?
      ensures host.Ran(old(host.effects), o)
      ensures Background(old(host.w), host.w)
      ensures host.log == if o.Returned? then old(host.log) + [Validated] else old(host.log)
    {
      host.Interfere();
      o := host.Fate(Elsewhere);
      if o.Returned? {
        host.log := host.log + [Validated];
      }
    }

    /** Replace the business data by the snapshot; interrupted, it leaves the data torn. */
    method Restore() returns (o: Outcome)
      requires host.Valid()
      requires AtRest(host.w) && host.w.fence.Holds(CLOSED) && host.w.restores == 0
      requires RestoreData in host.w.journal.kept.ops && host.w.journal.seen.decision.None?
      modifies host
      ensures host.Valid() && !o.JournalFailed?
      ensures host.Ran(old(host.effects), o)
      ensures OnlyChanges(Copies, old(host.w), host.w) && host.w.snapshot == old(host.w.snapshot)
      ensures o.Returned? ==> host.w.restores == 1 && Some(host.w.data) == host.w.snapshot
      ensures host.log == if o.Returned? then old(host.log) + [DataRestored] else old(host.log)
    {
      host.Interfere();
      BackgroundChangesLess(Copies, old(host.w), host.w);
      o := Copy(StartRestore, old(host.w));
      if o.Returned? {
        o := Copy(FinishRestore, old(host.w));
        if o.Returned? {
          o := host.Fate(Elsewhere);
          if o.Returned? {
            host.log := host.log + [DataRestored];
          }
        }
      }
    }
  }
}
