/** The control process as it runs: every request goes through the chain, and at every await other
    calls join, settle and begin, workers save their jobs, or the process dies. */
module UpdateControl {
  import opened UpdateJournal
  import opened UpdateAdmission
  import opened Wrappers

  predicate Concerns(e: Event, c: nat) {
    match e
    case Begin(d) => d == c
    case Read(d) => d == c
    case Fail(d) => d == c
    case Save(d, _) => d == c
    case Finish(d, _) => d == c
    case Leave(d) => d == c
    case _ => false
  }

  class Control {
    var jobs: seq<Job>
    var calls: seq<Call>
    /** The promise at the end of the chain. */
    var pending: Option<nat>
    ghost const start: State
    ghost var run: seq<Event>

    ghost function Now(): State
      reads this
    {
      State(jobs, calls, pending)
    }

    ghost predicate Valid()
      reads this
    {
      Inv(start) && Reaches(start, run, Now(), true) && Inv(Now())
    }

    /** A new process finds the job files its predecessors left. */
    constructor (jobs: seq<Job>)
      requires JobsOk(State(jobs, [], None))
      ensures Valid() && Now() == State(jobs, [], None)
    {
      this.jobs, calls, pending := jobs, [], None;
      start, run := State(jobs, [], None), [];
    }

    method Do(e: Event)
      requires Valid() && Allowed(Now(), e, true)
      modifies this
      ensures Valid() && Now() == Apply(old(Now()), e, true)
      ensures Extends(old(jobs), jobs)
    {
      hide Inv, Reaches;
      ghost var next := Apply(Now(), e, true);
      StepKeepsInv(Now(), e);
      ReachesAppend(start, run, Now(), e, true);
      run := run + [e];
      match e
      case Enter(operation) => calls, pending := calls + [Call(operation, pending, Waiting)], Some(|calls|);
      case Begin(c) => Move(c, Begun);
      case Read(c) => Move(c, Reading(jobs, calls[c].operation));
      case Fail(c) => Move(c, Settled(Unavailable));
      case Save(c, id) =>
        jobs := jobs + [NewJob(calls[c], id)];
        Move(c, Saved(id));
      case Finish(c, synced) =>
        Move(c, Settled(
          match calls[c].stage
          case Saved(id) => if synced then Accepted(id) else Unavailable
          case Chosen(id) => WorkerStarted(id)));
      case Leave(c) => Move(c, Settled(WorkerRunning(calls[c].stage.id)));
      case Advance(index, status) => jobs := jobs[index := jobs[index].(status := status)];
      case Die => calls, pending := [], None;
      assert Now() == next;
    }

    method Move(c: nat, stage: Stage)
      requires c < |calls|
      modifies this`calls
      ensures calls == old(calls)[c := old(calls)[c].(stage := stage)]
    {
      calls := calls[c := calls[c].(stage := stage)];
    }

    /** Join the chain: the new promise waits for the pending one and is pending itself. */
    method Serialized(operation: Operation) returns (c: nat)
      requires Valid()
      modifies this
      ensures Valid() && jobs == old(jobs) && pending == Some(c)
      ensures c == |old(calls)| && calls == old(calls) + [Call(operation, old(pending), Waiting)]
    {
      c := |calls|;
      Do(Enter(operation));
    }

    /** Whatever the others do while call `c` waits for something; the process may die if it is `mortal`. */
    method Await(c: nat, mortal: bool) returns (alive: bool)
      requires Valid() && IsCall(Now(), c)
      modifies this
      ensures Valid() && Extends(old(jobs), jobs)
      ensures if alive then IsCall(Now(), c) && calls[c] == old(calls)[c] && Stay(old(calls), calls) else Gone()
      ensures !mortal ==> alive
    {
      hide Inv, Reaches, Allowed, Apply, Extends, Stay;
      ExtendsItself(jobs);
      SettledStay(calls);
      var steps: nat := *;
      while steps > 0
        invariant Valid() && IsCall(Now(), c) && calls[c] == old(calls)[c] && Extends(old(jobs), jobs) && Stay(old(calls), calls)
      {
        var e: Event := *;
        if e != Die && !Concerns(e, c) && Allowed(State(jobs, calls, pending), e, true) {
          OthersLeave(Now(), e, c);
          SettledCallsStay(Now(), e, old(calls));
          ghost var before := jobs;
          Do(e);
          ExtendsIsTransitive(old(jobs), before, jobs);
        }
        steps := steps - 1;
      }
      alive := *;
      if !mortal {
        alive := true;
      }
      if !alive {
        ghost var before := jobs;
        Perish();
        ExtendsIsTransitive(old(jobs), before, jobs);
      }
    }

    /** Nothing is left of the process but the files. */
    ghost predicate Gone()
      reads this
    {
      calls == [] && pending == None
    }

    method Perish()
      requires Valid()
      modifies this
      ensures Valid() && Gone() && jobs == old(jobs)
    {
      hide Inv, Reaches, Extends;
      Do(Die);
    }

    /** Until the promise before it is settled, either way; the process may die first. */
    method AwaitTurn(c: nat, mortal: bool) returns (alive: bool)
      requires Valid() && IsCall(Now(), c) && calls[c].stage.Waiting?
      modifies this
      ensures Valid() && Extends(old(jobs), jobs)
      ensures if alive then IsCall(Now(), c) && calls[c] == old(calls)[c].(stage := Begun) else Gone()
      ensures !mortal && Released(old(Now()), old(calls[c].after)) ==> alive
    {
      hide Inv, Reaches, Extends;
      alive := Await(c, mortal);
      ghost var waited := jobs;
      if alive {
        if !Released(State(jobs, calls, pending), calls[c].after) {
          Perish();
          return false;
        }
        Do(Begin(c));
        ExtendsIsTransitive(old(jobs), waited, jobs);
      }
    }

    method FindDuplicate(key: nat) returns (found: Option<Job>)
      ensures found == JobWithKey(jobs, key)
    {
      var i := 0;
      while i < |jobs|
        invariant 0 <= i <= |jobs| && JobWithKey(jobs, key) == JobWithKey(jobs[i..], key)
      {
        if jobs[i].key == key {
          return Some(jobs[i]);
        }
        assert jobs[i..][1..] == jobs[i + 1..];
        i := i + 1;
      }
      return None;
    }

    method EveryTerminal() returns (all: bool)
      ensures all == AllTerminal(jobs)
    {
      var i := 0;
      while i < |jobs|
        invariant 0 <= i <= |jobs| && forall k | 0 <= k < i :: Terminal(jobs[k].status)
      {
        if !Terminal(jobs[i].status) {
          assert jobs[i] in jobs;
          return false;
        }
        i := i + 1;
      }
      return true;
    }

    /** The unfinished job if there is one, else the newest; several unfinished ones would be an error. */
    method Current() returns (found: Option<Job>, uncertain: bool)
      requires Valid()
      ensures !uncertain
      ensures found.None? <==> jobs == []
      ensures found.Some? ==> found.value in jobs
      ensures forall job | job in jobs && !Terminal(job.status) :: found == Some(job)
      ensures jobs != [] && AllTerminal(jobs) ==> found == Some(jobs[|jobs| - 1])
    {
      var active: seq<Job> := [];
      var i := 0;
      while i < |jobs|
        invariant 0 <= i <= |jobs|
        invariant forall job | job in active :: job in jobs && !Terminal(job.status)
        invariant forall k | 0 <= k < i && !Terminal(jobs[k].status) :: active == [jobs[k]]
        invariant (forall k | 0 <= k < i :: Terminal(jobs[k].status)) ==> active == []
      {
        if !Terminal(jobs[i].status) {
          active := [jobs[i]] + active;
        }
        i := i + 1;
      }
      uncertain := |active| > 1;
      found := if |active| > 0 then Some(active[0]) else if |jobs| > 0 then Some(jobs[|jobs| - 1]) else None;
    }

    /** A random identifier: no existing job has it. */
    method FreshId() returns (id: nat)
      ensures forall job | job in jobs :: job.id != id
    {
      id := 0;
      var i := 0;
      while i < |jobs|
        invariant 0 <= i <= |jobs| && forall k | 0 <= k < i :: jobs[k].id < id
      {
        if jobs[i].id >= id {
          id := jobs[i].id + 1;
        }
        i := i + 1;
      }
    }

    ghost predicate At(c: nat, operation: Operation, stage: Stage)
      reads this
    {
      IsCall(Now(), c) && calls[c].operation == operation && calls[c].stage == stage
    }

    /** Read the journal: the request is invalid, known, too early, or may be saved. */
    method Check(c: nat, request: Request, wellFormed: bool) returns (settled: Option<Response>)
      requires Valid() && At(c, Accepting(request, wellFormed), Begun)
      modifies this
      ensures Valid() && jobs == old(jobs)
      ensures !wellFormed ==> settled == Some(InvalidRequest)
      ensures wellFormed && Answer(jobs, request).Some? ==> settled == Answer(jobs, request)
      ensures wellFormed && Answer(jobs, request).None? ==> settled == if AllTerminal(jobs) then None else Some(JobActive)
      ensures settled.None? ==> At(c, Accepting(request, wellFormed), Checked)
      ensures settled.Some? ==> At(c, Accepting(request, wellFormed), Settled(settled.value))
    {
      hide Inv, Reaches, Extends;
      var duplicate := FindDuplicate(request.key);
      var idle := EveryTerminal();
      if !wellFormed {
        settled := Some(InvalidRequest);
      } else if duplicate.Some? {
        settled := Some(if duplicate.value.digest == request.digest then Accepted(duplicate.value.id) else Conflict);
      } else if !idle {
        settled := Some(JobActive);
      } else {
        settled := None;
      }
      Do(Read(c));
    }

    /** Plan and save what has passed the checks. */
    method Admit(c: nat, request: Request, planValid: bool, renamed: bool, synced: bool, mortal: bool) returns (r: Response)
      requires Valid() && At(c, Accepting(request, true), Checked)
      modifies this
      ensures Valid() && Extends(old(jobs), jobs)
      ensures r == Lost || r == Unavailable || r.Accepted?
      ensures r == Lost ==> mortal && Gone()
      ensures r != Lost ==> (r.Accepted? <==> planValid && renamed && synced)
      ensures r != Lost ==> At(c, Accepting(request, true), Settled(r))
    {
      hide Inv, Reaches, Extends, AllTerminal, JobWithKey, Stay;
      var alive := Await(c, mortal);
      ghost var planned := jobs;
      if !alive {
        return Lost;
      }
      var id := FreshId();
      if !planValid || !renamed {
        Do(Fail(c));
        ExtendsIsTransitive(old(jobs), planned, jobs);
        return Unavailable;
      }
      Do(Save(c, id));
      ghost var saved := jobs;
      ExtendsIsTransitive(old(jobs), planned, saved);
      alive := Await(c, mortal);
      ExtendsIsTransitive(old(jobs), saved, jobs);
      if !alive {
        return Lost;
      }
      ghost var visible := jobs;
      Do(Finish(c, synced));
      ExtendsIsTransitive(old(jobs), visible, jobs);
      return if synced then Accepted(id) else Unavailable;
    }

    /** No call before this one is still to be settled. */
    ghost predicate Idle()
      reads this
    {
      Released(Now(), pending)
    }

    /** Accept a request, or name the job that already carries it.  Any number of calls may be pending.  The
        journal may be `readable`, the plan may still be valid, and the new job file `renamed` and `synced`. */
    method Accept(
        request: Request, wellFormed: bool, readable: bool, planValid: bool, renamed: bool, synced: bool, mortal: bool)
      returns (r: Response)
      requires Valid()
      modifies this
      ensures Valid() && Extends(old(jobs), jobs)
      ensures r in {InvalidRequest, Conflict, JobActive, Unavailable, Lost} || r.Accepted?
      ensures !mortal && old(Idle()) ==> r != Lost
      ensures r == Lost ==> Gone()
      ensures r != Lost && !readable ==> r == Unavailable
      ensures r != Lost && readable ==> (r == InvalidRequest <==> !wellFormed)
      ensures r.Accepted? || r == Conflict ==> Answer(jobs, request) == Some(r)
      ensures r == JobActive ==> Answer(jobs, request).None? && !AllTerminal(jobs)
      ensures r == Unavailable ==> !(readable && planValid && renamed && synced)
      ensures wellFormed && readable && Answer(old(jobs), request).Some? && r != Lost ==>
        Some(r) == Answer(old(jobs), request)
      ensures r != Lost ==> At(|old(calls)|, Accepting(request, wellFormed), Settled(r))
    {
      hide Inv, Reaches, Extends, AllTerminal, JobWithKey, Stay;
      var c := Serialized(Accepting(request, wellFormed));
      CallsBeforeStay(old(Now()), Now());
      var alive := AwaitTurn(c, mortal);
      ghost var begun := jobs;
      if !alive {
        return Lost;
      }
      alive := Await(c, mortal);
      ExtendsIsTransitive(old(jobs), begun, jobs);
      ghost var found := jobs;
      StillAnswered(old(jobs), jobs, request);
      if !alive {
        return Lost;
      }
      if !readable {
        Do(Fail(c));
        ExtendsIsTransitive(old(jobs), found, jobs);
        return Unavailable;
      }
      var settled := Check(c, request, wellFormed);
      if settled.Some? {
        return settled.value;
      }
      r := Admit(c, request, planValid, renamed, synced, mortal);
      ExtendsIsTransitive(old(jobs), found, jobs);
      if r.Accepted? {
        SettledIsAnswered(Now(), c);
      }
    }

    /** Start the worker of the chosen job unless it is alive. */
    method Tend(c: nat, id: nat, workerAlive: bool, starts: bool) returns (r: Response)
      requires Valid() && At(c, Reconciling, Chosen(id))
      modifies this
      ensures Valid() && jobs == old(jobs)
      ensures r == if workerAlive then WorkerRunning(id) else if starts then WorkerStarted(id) else Unavailable
      ensures OthersTerminal(jobs, id)
      ensures At(c, Reconciling, Settled(r))
    {
      hide Inv, Reaches, Extends, OthersTerminal;
      ChosenIsAlone(Now(), c);
      if workerAlive {
        Do(Leave(c));
        return WorkerRunning(id);
      }
      if !starts {
        Do(Fail(c));
        return Unavailable;
      }
      Do(Finish(c, true));
      return WorkerStarted(id);
    }

    /** See to the worker of the unfinished job; the job is never in doubt, and the only one at work.  The
        worker may be alive, or the command that starts it may succeed. */
    method Reconcile(readable: bool, workerAlive: bool, starts: bool, mortal: bool) returns (r: Response)
      requires Valid()
      modifies this
      ensures Valid() && Extends(old(jobs), jobs)
      ensures r in {NothingToDo, Unavailable, Lost} || r.WorkerStarted? || r.WorkerRunning?
      ensures !mortal && old(Idle()) ==> r != Lost
      ensures r == Lost ==> Gone()
      ensures r != Lost && !readable ==> r == Unavailable
      ensures r == NothingToDo ==> forall job | job in jobs && !Terminal(job.status) :: job.status == RecoveryRequired
      ensures r == Unavailable && readable ==> !workerAlive && !starts
      ensures r.WorkerRunning? ==> workerAlive
      ensures r.WorkerStarted? ==> !workerAlive && starts
      ensures r.WorkerStarted? || r.WorkerRunning? ==> OthersTerminal(jobs, r.id) && exists job :: job in jobs && job.id == r.id
      ensures r != Lost ==> At(|old(calls)|, Reconciling, Settled(r))
    {
      hide Inv, Reaches, Extends, OthersTerminal, Unfinished, Stay;
      var c := Serialized(Reconciling);
      CallsBeforeStay(old(Now()), Now());
      var alive := AwaitTurn(c, mortal);
      ghost var begun := jobs;
      if !alive {
        return Lost;
      }
      alive := Await(c, mortal);
      ExtendsIsTransitive(old(jobs), begun, jobs);
      if !alive {
        return Lost;
      }
      ghost var found := jobs;
      if !readable {
        Do(Fail(c));
        ExtendsIsTransitive(old(jobs), found, jobs);
        return Unavailable;
      }
      var job, uncertain := Current();
      CurrentIsRead(Now(), job);
      Do(Read(c));
      if job.None? || Terminal(job.value.status) || job.value.status == RecoveryRequired {
        return NothingToDo;
      }
      alive := Await(c, mortal);
      ExtendsIsTransitive(old(jobs), found, jobs);
      if !alive {
        return Lost;
      }
      JobStaysThere(found, jobs, job.value);
      r := Tend(c, job.value.id, workerAlive, starts);
    }
  }

  /** What is settled stays so. */
  ghost predicate Stay(calls: seq<Call>, later: seq<Call>) {
    |calls| <= |later| && forall d | 0 <= d < |calls| && calls[d].stage.Settled? :: later[d] == calls[d]
  }

  lemma SettledStay(calls: seq<Call>)
    ensures Stay(calls, calls)
  {
  }

  lemma SettledCallsStay(s: State, e: Event, calls: seq<Call>)
    requires Allowed(s, e, true) && e != Die && Stay(calls, s.calls)
    ensures Stay(calls, Apply(s, e, true).calls)
  {
  }

  lemma CallsBeforeStay(s: State, s': State)
    requires |s.calls| < |s'.calls| && s'.calls[..|s.calls|] == s.calls
    ensures Released(s, s.pending) ==> Released(s', s.pending)
  {
  }

  lemma JobStaysThere(jobs: seq<Job>, later: seq<Job>, job: Job)
    requires Extends(jobs, later) && job in jobs
    ensures exists j :: j in later && j.id == job.id
  {
    var i :| 0 <= i < |jobs| && jobs[i] == job;
    assert later[i] in later;
  }

  lemma ExtendsItself(jobs: seq<Job>)
    ensures Extends(jobs, jobs)
  {
  }

  /** What does not concern a call leaves it where it is. */
  lemma OthersLeave(s: State, e: Event, c: nat)
    requires Allowed(s, e, true) && IsCall(s, c) && e != Die && !Concerns(e, c)
    ensures var s' := Apply(s, e, true); IsCall(s', c) && s'.calls[c] == s.calls[c]
  {
  }

  lemma StillAnswered(jobs: seq<Job>, later: seq<Job>, request: Request)
    requires Extends(jobs, later)
    ensures Answer(jobs, request).Some? ==> Answer(later, request) == Answer(jobs, request)
  {
    if Answer(jobs, request).Some? {
      AnswersStay(jobs, later, request);
    }
  }

  lemma SettledIsAnswered(s: State, c: nat)
    requires Inv(s) && IsCall(s, c) && s.calls[c].operation.Accepting? && s.calls[c].stage.Settled?
    requires s.calls[c].stage.response.Accepted?
    ensures Answer(s.jobs, s.calls[c].operation.request) == Some(s.calls[c].stage.response)
  {
    assert CallOk(s.jobs, s.calls[c]);
  }

  lemma ChosenIsAlone(s: State, c: nat)
    requires Inv(s) && IsCall(s, c) && s.calls[c].stage.Chosen?
    ensures OthersTerminal(s.jobs, s.calls[c].stage.id)
  {
    assert CallOk(s.jobs, s.calls[c]);
  }

  /** The loop over the job files finds what the specification reads. */
  lemma CurrentIsRead(s: State, found: Option<Job>)
    requires Inv(s) && (found.None? ==> s.jobs == []) && (found.Some? ==> found.value in s.jobs)
    requires forall job | job in s.jobs && !Terminal(job.status) :: found == Some(job)
    ensures
      Reading(s.jobs, Reconciling) ==
      if found.None? || Terminal(found.value.status) || found.value.status == RecoveryRequired then Settled(NothingToDo)
      else Chosen(found.value.id)
  {
    var active := Unfinished(s.jobs);
    UnfinishedIsFew(s.jobs);
    assert active != [] ==> active[0] in active;
  }
}
