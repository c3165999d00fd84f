/** Admission of update jobs as a state machine: any number of calls behind one promise chain, with
    workers, the recovery command and deaths of the control process in between. */
module UpdateAdmission {
  import opened UpdateJournal
  import opened UpdateProtocol
  import opened UpdateRuns
  import opened Wrappers

  datatype Job = Job(id: nat, key: nat, digest: nat, status: Status)

  datatype Request = Request(key: nat, digest: nat)

  datatype Response =
    | InvalidRequest | Conflict | JobActive | Unavailable | Accepted(id: nat)             // of an accept
    | OwnershipUncertain | NothingToDo | WorkerStarted(id: nat) | WorkerRunning(id: nat)  // of a reconcile
    | Lost                                                                                // the process died first

  datatype Operation = Accepting(request: Request, wellFormed: bool) | Reconciling

  /** Where an operation is between two awaits. */
  datatype Stage =
    | Waiting                      // for the operation called before it
    | Begun                        // its turn has come; nothing is read yet
    | Checked                      // the request is new and every job is finished; not saved yet
    | Saved(id: nat)               // the job file is visible
    | Chosen(id: nat)              // the unfinished job is found; its worker may have to be started
    | Settled(response: Response)  // resolved or rejected

  /** `after` is the promise that was pending when the operation was called. */
  datatype Call = Call(operation: Operation, after: Option<nat>, stage: Stage)

  /** The job files, oldest first; the calls of this process, in order; the end of the chain. */
  datatype State = State(jobs: seq<Job>, calls: seq<Call>, pending: Option<nat>)

  const EMPTY := State([], [], None)

  datatype Event =
    | Enter(operation: Operation)          // a new call joins the chain
    | Begin(call: nat)                     // the promise before it is settled
    | Read(call: nat)                      // the journal is read and checked
    | Fail(call: nat)                      // reading, planning or writing fails before its effect
    | Save(call: nat, id: nat)             // the new job file becomes visible
    | Finish(call: nat, synced: bool)      // the rest succeeds, or fails after its effect
    | Leave(call: nat)                     // the worker of the chosen job is at work already
    | Advance(index: nat, status: Status)  // a worker or the recovery command saves a status
    | Die                                  // the control process ends; the next one starts a new chain

  // ---- reading the journal ----

  function JobWithKey(jobs: seq<Job>, key: nat): (found: Option<Job>)
    ensures found.Some? ==> found.value in jobs && found.value.key == key
    ensures found.None? ==> forall job | job in jobs :: job.key != key
  {
    if jobs == [] then None
    else if jobs[0].key == key then Some(jobs[0])
    else JobWithKey(jobs[1..], key)
  }

  predicate AllTerminal(jobs: seq<Job>) {
    forall job | job in jobs :: Terminal(job.status)
  }

  function Unfinished(jobs: seq<Job>): (active: seq<Job>)
    ensures forall job :: job in active <==> job in jobs && !Terminal(job.status)
  {
    if jobs == [] then [] else Unfinished(jobs[1..]) + if Terminal(jobs[0].status) then [] else [jobs[0]]
  }

  /** The answer to a request is settled by the first job with its key. */
  function Answer(jobs: seq<Job>, request: Request): Option<Response> {
    match JobWithKey(jobs, request.key)
    case Some(job) => Some(if job.digest == request.digest then Accepted(job.id) else Conflict)
    case None => None
  }

  /** What an operation makes of the jobs it reads. */
  function Reading(jobs: seq<Job>, operation: Operation): Stage {
    match operation
    case Accepting(request, wellFormed) =>
      if !wellFormed then Settled(InvalidRequest)
      else if Answer(jobs, request).Some? then Settled(Answer(jobs, request).value)
      else if AllTerminal(jobs) then Checked else Settled(JobActive)
    case Reconciling =>
      var active := Unfinished(jobs);
      if |active| > 1 then Settled(OwnershipUncertain)
      else if active == [] || active[0].status == RecoveryRequired then Settled(NothingToDo)
      else Chosen(active[0].id)
  }

  // ---- steps ----

  predicate IsCall(s: State, c: nat) {
    c < |s.calls|
  }

  predicate Released(s: State, after: Option<nat>) {
    after.Some? ==> IsCall(s, after.value) && s.calls[after.value].stage.Settled?
  }

  /** `chained` is how the service works; without it every call would begin at once. */
  predicate Allowed(s: State, e: Event, chained: bool) {
    match e
    case Enter(_) => true
    case Begin(c) => IsCall(s, c) && s.calls[c].stage.Waiting? && (chained ==> Released(s, s.calls[c].after))
    case Read(c) => IsCall(s, c) && s.calls[c].stage.Begun?
    case Fail(c) => IsCall(s, c) && (s.calls[c].stage.Begun? || s.calls[c].stage.Checked? || s.calls[c].stage.Chosen?)
    case Save(c, id) =>
      && IsCall(s, c) && s.calls[c].stage.Checked? && s.calls[c].operation.Accepting?
      && forall job | job in s.jobs :: job.id != id
    case Finish(c, _) => IsCall(s, c) && (s.calls[c].stage.Saved? || s.calls[c].stage.Chosen?)
    case Leave(c) => IsCall(s, c) && s.calls[c].stage.Chosen?
    case Advance(index, status) => index < |s.jobs| && !Terminal(s.jobs[index].status) && status != Queued
    case Die => true
  }

  function Moved(s: State, c: nat, stage: Stage): State
    requires IsCall(s, c)
  {
    s.(calls := s.calls[c := s.calls[c].(stage := stage)])
  }

  function NewJob(call: Call, id: nat): Job
    requires call.operation.Accepting?
  {
    Job(id, call.operation.request.key, call.operation.request.digest, Queued)
  }

  function Apply(s: State, e: Event, chained: bool): State
    requires Allowed(s, e, chained)
  {
    match e
    case Enter(operation) => s.(calls := s.calls + [Call(operation, s.pending, Waiting)], pending := Some(|s.calls|))
    case Begin(c) => Moved(s, c, Begun)
    case Read(c) => Moved(s, c, Reading(s.jobs, s.calls[c].operation))
    case Fail(c) => Moved(s, c, Settled(Unavailable))
    case Save(c, id) => Moved(s, c, Saved(id)).(jobs := s.jobs + [NewJob(s.calls[c], id)])
    case Finish(c, synced) =>
      Moved(s, c, Settled(
        match s.calls[c].stage
        case Saved(id) => if synced then Accepted(id) else Unavailable
        case Chosen(id) => WorkerStarted(id)))
    case Leave(c) => Moved(s, c, Settled(WorkerRunning(s.calls[c].stage.id)))
    case Advance(index, status) => s.(jobs := s.jobs[index := s.jobs[index].(status := status)])
    case Die => State(s.jobs, [], None)
  }

  ghost predicate Reaches(s: State, run: seq<Event>, later: State, chained: bool)
    decreases |run|
  {
    if run == [] then s == later
    else Allowed(s, run[0], chained) && Reaches(Apply(s, run[0], chained), run[1..], later, chained)
  }

  // ---- the chain ----

  /** Neither waiting nor done. */
  predicate Inside(call: Call) {
    !call.stage.Waiting? && !call.stage.Settled?
  }

  ghost predicate OneInside(s: State) {
    forall c, d | 0 <= c < |s.calls| && 0 <= d < |s.calls| && Inside(s.calls[c]) && Inside(s.calls[d]) :: c == d
  }

  /** Each call waits for the one before it, and none has begun while an earlier one is not settled. */
  ghost predicate Chained(s: State) {
    && s.pending == (if s.calls == [] then None else Some(|s.calls| - 1))
    && (forall c | 0 <= c < |s.calls| :: s.calls[c].after == if c == 0 then None else Some(c - 1))
    && (forall c, d | 0 <= c < d < |s.calls| && !s.calls[d].stage.Waiting? :: s.calls[c].stage.Settled?)
  }

  lemma StepKeepsChain(s: State, e: Event)
    requires Chained(s) && Allowed(s, e, true)
    ensures Chained(Apply(s, e, true))
  {
  }

  lemma ChainAdmitsOne(s: State)
    requires Chained(s)
    ensures OneInside(s)
  {
  }

  /** Settled with or without success, a call lets the next one begin: the chain never blocks. */
  lemma ChainMovesOn(s: State, c: nat)
    requires Chained(s) && IsCall(s, c) && !s.calls[c].stage.Settled?
    ensures exists d :: 0 <= d <= c && (Inside(s.calls[d]) || Allowed(s, Begin(d), true))
  {
    var d := 0;
    while !(!s.calls[d].stage.Settled?)
      invariant 0 <= d <= c && forall b | 0 <= b < d :: s.calls[b].stage.Settled?
      decreases c - d
    {
      d := d + 1;
    }
    assert Inside(s.calls[d]) || Allowed(s, Begin(d), true);
  }

  // ---- the jobs ----

  /** Only the chosen job may be unfinished. */
  ghost predicate OthersTerminal(jobs: seq<Job>, id: nat) {
    forall job | job in jobs && job.id != id :: Terminal(job.status)
  }

  ghost predicate CallOk(jobs: seq<Job>, call: Call) {
    match call.stage
    case Checked =>
      && call.operation.Accepting? && call.operation.wellFormed
      && AllTerminal(jobs) && JobWithKey(jobs, call.operation.request.key).None?
    case Saved(id) => call.operation.Accepting? && Answer(jobs, call.operation.request) == Some(Accepted(id))
    case Chosen(id) => OthersTerminal(jobs, id)
    case Settled(response) =>
      && response != OwnershipUncertain
      && (response.Accepted? || response.Conflict? ==>
            call.operation.Accepting? && Answer(jobs, call.operation.request) == Some(response))
    case _ => true
  }

  /** At most one job is unfinished, keys and ids are unique, and what was read is still so. */
  ghost predicate JobsOk(s: State) {
    && (forall i, j | 0 <= i < j < |s.jobs| ::
          && s.jobs[i].key != s.jobs[j].key && s.jobs[i].id != s.jobs[j].id
          && (Terminal(s.jobs[i].status) || Terminal(s.jobs[j].status)))
    && (forall c | 0 <= c < |s.calls| :: CallOk(s.jobs, s.calls[c]))
  }

  /** What later steps keep of the job files: every job, its identity, and its end. */
  ghost predicate Extends(jobs: seq<Job>, later: seq<Job>) {
    && |jobs| <= |later|
    && forall i | 0 <= i < |jobs| ::
        && later[i].id == jobs[i].id && later[i].key == jobs[i].key && later[i].digest == jobs[i].digest
        && (Terminal(jobs[i].status) ==> later[i] == jobs[i])
  }

  /** A known key keeps its first job, so its answer, while jobs are only added and advanced. */
  lemma {:induction false} AnswersStay(jobs: seq<Job>, later: seq<Job>, request: Request)
    requires Extends(jobs, later) && Answer(jobs, request).Some?
    ensures Answer(later, request) == Answer(jobs, request)
    decreases |jobs|
  {
    if jobs[0].key != request.key {
      assert forall i | 0 <= i < |jobs[1..]| :: jobs[1..][i] == jobs[i + 1] && later[1..][i] == later[i + 1];
      AnswersStay(jobs[1..], later[1..], request);
    }
  }

  lemma {:induction false} UnfinishedIsFew(jobs: seq<Job>)
    requires forall i, j | 0 <= i < j < |jobs| :: Terminal(jobs[i].status) || Terminal(jobs[j].status)
    ensures |Unfinished(jobs)| <= 1
    decreases |jobs|
  {
    if jobs != [] {
      assert forall i | 0 <= i < |jobs[1..]| :: jobs[1..][i] == jobs[i + 1];
      UnfinishedIsFew(jobs[1..]);
      var rest := Unfinished(jobs[1..]);
      assert rest != [] ==> rest[0] in rest;
    }
  }

  /** What is read of sound jobs holds of them. */
  lemma ReadingIsOk(s: State, call: Call)
    requires JobsOk(s) && call.stage.Begun?
    ensures CallOk(s.jobs, call.(stage := Reading(s.jobs, call.operation)))
  {
    if call.operation.Reconciling? {
      ReconcilingIsOk(s.jobs, call);
    } else {
      hide JobsOk, JobWithKey, AllTerminal;
    }
  }

  lemma ReconcilingIsOk(jobs: seq<Job>, call: Call)
    requires call.operation.Reconciling?
    requires forall i, j | 0 <= i < j < |jobs| :: Terminal(jobs[i].status) || Terminal(jobs[j].status)
    ensures CallOk(jobs, call.(stage := Reading(jobs, call.operation)))
  {
    UnfinishedIsFew(jobs);
    var active := Unfinished(jobs);
    if |active| == 1 {
      forall job | job in jobs && job.id != active[0].id ensures Terminal(job.status) {
        assert !Terminal(job.status) ==> job in active;
      }
    }
  }

  lemma MoveKeepsJobs(s: State, c: nat, stage: Stage)
    requires JobsOk(s) && IsCall(s, c) && CallOk(s.jobs, s.calls[c].(stage := stage))
    ensures JobsOk(Moved(s, c, stage))
  {
  }

  lemma AdvanceKeepsCall(s: State, index: nat, status: Status, call: Call)
    requires JobsOk(s) && Allowed(s, Advance(index, status), false) && CallOk(s.jobs, call)
    ensures CallOk(Apply(s, Advance(index, status), false).jobs, call)
  {
    var later := Apply(s, Advance(index, status), false).jobs;
    assert s.jobs[index] in s.jobs;
    assert Extends(s.jobs, later);
    if call.operation.Accepting? && Answer(s.jobs, call.operation.request).Some? {
      AnswersStay(s.jobs, later, call.operation.request);
    }
    if call.stage.Chosen? {
      forall job | job in later && job.id != call.stage.id ensures Terminal(job.status) {
        var i :| 0 <= i < |later| && later[i] == job;
        assert s.jobs[i] in s.jobs;
      }
    }
  }

  lemma AdvanceKeepsJobs(s: State, index: nat, status: Status)
    requires JobsOk(s) && Allowed(s, Advance(index, status), false)
    ensures JobsOk(Apply(s, Advance(index, status), false))
  {
    forall c | 0 <= c < |s.calls| ensures CallOk(Apply(s, Advance(index, status), false).jobs, s.calls[c]) {
      AdvanceKeepsCall(s, index, status, s.calls[c]);
    }
    hide CallOk;
  }

  lemma SaveKeepsJobs(s: State, c: nat, id: nat)
    requires JobsOk(s) && OneInside(s) && Allowed(s, Save(c, id), false)
    ensures JobsOk(Apply(s, Save(c, id), false))
  {
  }

  /** All the jobs need of the chain is that one operation at a time is past its turn. */
  lemma ExclusionKeepsJobs(s: State, e: Event)
    requires JobsOk(s) && OneInside(s) && Allowed(s, e, false)
    ensures JobsOk(Apply(s, e, false)) && Extends(s.jobs, Apply(s, e, false).jobs)
  {
    match e
    case Enter(_) =>
    case Begin(c) => MoveKeepsJobs(s, c, Begun);
    case Read(c) =>
      ReadingIsOk(s, s.calls[c]);
      MoveKeepsJobs(s, c, Reading(s.jobs, s.calls[c].operation));
    case Fail(c) => MoveKeepsJobs(s, c, Settled(Unavailable));
    case Save(c, id) => SaveKeepsJobs(s, c, id);
    case Finish(c, synced) =>
      assert CallOk(s.jobs, s.calls[c]);
      MoveKeepsJobs(s, c, Apply(s, e, false).calls[c].stage);
    case Leave(c) => MoveKeepsJobs(s, c, Settled(WorkerRunning(s.calls[c].stage.id)));
    case Advance(index, status) => AdvanceKeepsJobs(s, index, status);
    case Die =>
  }

  // ---- every run ----

  ghost predicate Inv(s: State) {
    Chained(s) && JobsOk(s)
  }

  lemma StepKeepsInv(s: State, e: Event)
    requires Inv(s) && Allowed(s, e, true)
    ensures Inv(Apply(s, e, true)) && Extends(s.jobs, Apply(s, e, true).jobs)
  {
    hide JobsOk, Chained, OneInside, Extends;
    StepKeepsChain(s, e);
    ChainAdmitsOne(s);
    ExclusionKeepsJobs(s, e);
  }

  lemma ExtendsIsTransitive(a: seq<Job>, b: seq<Job>, c: seq<Job>)
    requires Extends(a, b) && Extends(b, c)
    ensures Extends(a, c)
  {
  }

  /** Whatever is called, fails, dies and is advanced in between. */
  lemma {:induction false} RunKeepsInv(s: State, run: seq<Event>, later: State)
    requires Inv(s) && Reaches(s, run, later, true)
    ensures Inv(later) && Extends(s.jobs, later.jobs)
    decreases |run|
  {
    hide Inv;
    if run != [] {
      var next := Apply(s, run[0], true);
      StepKeepsInv(s, run[0]);
      RunKeepsInv(next, run[1..], later);
      ExtendsIsTransitive(s.jobs, next.jobs, later.jobs);
    }
  }

  /** From an empty store, at any time: one operation past its turn, one unfinished job, one job a key. */
  lemma OneJobAtATime(run: seq<Event>, now: State)
    requires Reaches(EMPTY, run, now, true)
    ensures OneInside(now)
    ensures forall a, b | a in now.jobs && b in now.jobs ::
      && (!Terminal(a.status) && !Terminal(b.status) ==> a == b)
      && (a.key == b.key || a.id == b.id ==> a == b)
    ensures forall call | call in now.calls :: call.stage != Settled(OwnershipUncertain)
    ensures forall call | call in now.calls && call.stage.Checked? :: AllTerminal(now.jobs)
  {
    RunKeepsInv(EMPTY, run, now);
    ChainAdmitsOne(now);
    SoundJobs(now);
  }

  lemma SoundJobs(now: State)
    requires JobsOk(now)
    ensures forall a, b | a in now.jobs && b in now.jobs ::
      && (!Terminal(a.status) && !Terminal(b.status) ==> a == b)
      && (a.key == b.key || a.id == b.id ==> a == b)
    ensures forall call | call in now.calls :: CallOk(now.jobs, call)
  {
  }

  /** Repeating a request, at any later time, names the same job or the same conflict. */
  lemma RepeatedRequestGetsTheSameAnswer(s: State, run: seq<Event>, later: State, request: Request)
    requires Inv(s) && Reaches(s, run, later, true) && Answer(s.jobs, request).Some?
    ensures Answer(later.jobs, request) == Answer(s.jobs, request)
  {
    RunKeepsInv(s, run, later);
    AnswersStay(s.jobs, later.jobs, request);
  }

  /** The worker chosen by a reconcile is the only one that may still have work. */
  lemma ReconcileChoosesTheOnlyJob(run: seq<Event>, now: State, c: nat)
    requires Reaches(EMPTY, run, now, true) && IsCall(now, c) && now.calls[c].stage.Chosen?
    ensures forall job | job in now.jobs && !Terminal(job.status) :: job.id == now.calls[c].stage.id
  {
    RunKeepsInv(EMPTY, run, now);
    assert CallOk(now.jobs, now.calls[c]);
  }

  // ---- without the chain ----

  /** Two accepts at once: both see every job finished before either saves. */
  function Race(a: Operation, b: Operation): seq<Event> {
    [Enter(a), Enter(b), Begin(0), Begin(1), Read(0), Read(1), Save(0, 0), Save(1, 1)]
  }

  function Entered(a: Request, b: Request, first: Stage, second: Stage): seq<Call> {
    [Call(Accepting(a, true), None, first), Call(Accepting(b, true), Some(0), second)]
  }

  lemma BothBegin(a: Request, b: Request)
    ensures
      var run := Race(Accepting(a, true), Accepting(b, true));
      Reaches(EMPTY, run[..4], State([], Entered(a, b, Begun, Begun), Some(1)), false)
  {
    var run := Race(Accepting(a, true), Accepting(b, true));
    var alone := State([], [Call(Accepting(a, true), None, Waiting)], Some(0));
    RaceStep(run, 0, EMPTY, alone);
    RaceStep(run, 1, alone, State([], Entered(a, b, Waiting, Waiting), Some(1)));
    RaceStep(run, 2, State([], Entered(a, b, Waiting, Waiting), Some(1)), State([], Entered(a, b, Begun, Waiting), Some(1)));
    RaceStep(run, 3, State([], Entered(a, b, Begun, Waiting), Some(1)), State([], Entered(a, b, Begun, Begun), Some(1)));
  }

  lemma BothCheck(a: Request, b: Request)
    ensures
      var run := Race(Accepting(a, true), Accepting(b, true));
      Reaches(EMPTY, run[..6], State([], Entered(a, b, Checked, Checked), Some(1)), false)
  {
    hide Reaches;
    var run := Race(Accepting(a, true), Accepting(b, true));
    BothBegin(a, b);
    RaceStep(run, 4, State([], Entered(a, b, Begun, Begun), Some(1)), State([], Entered(a, b, Checked, Begun), Some(1)));
    RaceStep(run, 5, State([], Entered(a, b, Checked, Begun), Some(1)), State([], Entered(a, b, Checked, Checked), Some(1)));
  }

  /** Without the chain the same steps leave two unfinished jobs. */
  lemma WithoutTheChainTwoJobsRun(a: Request, b: Request) returns (now: State)
    ensures Reaches(EMPTY, Race(Accepting(a, true), Accepting(b, true)), now, false)
    ensures now.jobs == [Job(0, a.key, a.digest, Queued), Job(1, b.key, b.digest, Queued)] && !OneInside(now)
  {
    hide Reaches;
    var run := Race(Accepting(a, true), Accepting(b, true));
    var first, second := Job(0, a.key, a.digest, Queued), Job(1, b.key, b.digest, Queued);
    BothCheck(a, b);
    var one := State([first], Entered(a, b, Saved(0), Checked), Some(1));
    now := State([first, second], Entered(a, b, Saved(0), Saved(1)), Some(1));
    assert [first] + [second] == [first, second];
    RaceStep(run, 6, State([], Entered(a, b, Checked, Checked), Some(1)), one);
    RaceStep(run, 7, one, now);
    assert run[..8] == run && Inside(now.calls[0]) && Inside(now.calls[1]);
  }

  lemma RaceStep(run: seq<Event>, i: nat, s: State, s': State)
    requires i < |run| && Reaches(EMPTY, run[..i], s, false)
    requires Allowed(s, run[i], false) && s' == Apply(s, run[i], false)
    ensures Reaches(EMPTY, run[..i + 1], s', false)
  {
    ReachesAppend(EMPTY, run[..i], s, run[i], false);
    assert run[..i + 1] == run[..i] + [run[i]];
  }

  lemma {:induction false} ReachesAppend(s: State, run: seq<Event>, later: State, e: Event, chained: bool)
    requires Reaches(s, run, later, chained) && Allowed(later, e, chained)
    ensures Reaches(s, run + [e], Apply(later, e, chained), chained)
    decreases |run|
  {
    hide Allowed, Apply;
    if run == [] {
      assert run + [e] == [e] && [e][1..] == [];
    } else {
      assert (run + [e])[1..] == run[1..] + [e];
      ReachesAppend(Apply(s, run[0], chained), run[1..], later, e, chained);
    }
  }

  // ---- the workers ----

  /** What workers and recovery commands make of a job's visible status is an advance: by the update
      transaction itself, whatever fails in it, and as long as the machine keeps its power. */
  lemma WorkersAdvance(w: World, run: seq<UpdateProtocol.Event>, more: seq<UpdateProtocol.Event>, s: State, index: nat)
    requires Initial(w) && Legal(w, run + more) && PowerLoss !in more && index < |s.jobs|
    requires s.jobs[index].status == Play(w, run).journal.seen.status
    ensures Legal(w, run)
    ensures
      var status := Play(w, run + more).journal.seen.status;
      status != s.jobs[index].status ==> Allowed(s, Advance(index, status), true)
  {
    VisibleTerminalIsAbsorbing(w, run, more);
  }
}
