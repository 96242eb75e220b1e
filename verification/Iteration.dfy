/**
 dispatcher/poll/loop.go: the body of runIteration with its early returns, and what an iteration that
 nobody disturbs does to the protocol's state.
 */
module Iteration {
  import opened Common
  import opened Sizing
  import opened ShellWords
  import opened WorkerCommand
  import opened WorkerExec
  import opened DispatchProtocol

  datatype CreateFailure = MemoryLimitHit(error: string) | OtherFailure(error: string)

  /** What the outside answers in one iteration, as far as it is asked. */
  datatype Answers = Answers(
    sessionError: Option<string>, count: Result<int>, item: Result<Job>, createFailure: Option<CreateFailure>)

  const MEMORY_LIMIT_ERROR := "CF memory limit hit, will retry job later"

  /** What an iteration comes to. */
  datatype Outcome =
    | Nothing(skipped: Option<string>)
    | Launches(job: Job, req: TaskRequest)
    | Abandons(job: Job, error: string)
    | Fails(job: Job, error: string)

  /** What becomes of a job that the loop was given. */
  function Fate(w: World, job: Job, failure: Option<CreateFailure>): Outcome {
    match Prepare(w, job)
    case Failure(e) => Abandons(job, e)
    case Success(req) =>
      match failure
      case None => Launches(job, req)
      case Some(MemoryLimitHit(_)) => Abandons(job, MEMORY_LIMIT_ERROR)
      case Some(OtherFailure(e)) => Fails(job, e)
  }

  function OutcomeOf(w: World, a: Answers): Outcome {
    if a.sessionError.Some? then Nothing(a.sessionError)
    else if a.count.Failure? then Nothing(Some(a.count.error))
    else if a.count.value >= w.limit then Nothing(None)
    else if a.item.Failure? then Nothing(Some(a.item.error))
    else if a.item.value.content == "" then Nothing(None)
    else Fate(w, a.item.value, a.createFailure)
  }

  function ErrorOf(o: Outcome): Option<string> {
    match o
    case Nothing(e) => e
    case Launches(_, _) => None
    case Abandons(_, e) => Some(e)
    case Fails(_, e) => Some(e)
  }

  /** The protocol steps of the iteration up to the point where a job is in its hands. */
  function StepsToJob(w: World, a: Answers): seq<LoopStep> {
    if a.sessionError.Some? then [SessionError]
    else if a.count.Failure? then [GotSession, CountError]
    else if a.count.value >= w.limit then [GotSession, Counted]
    else if a.item.Failure? then [GotSession, Counted, FetchError]
    else if a.item.value.content == "" then [GotSession, Counted, FetchedNothing]
    else [GotSession, Counted, FetchedJob(a.item.value)]
  }

  /** The steps that dispose of the job. */
  function StepsFor(w: World, o: Outcome): seq<LoopStep> {
    match o
    case Nothing(_) => []
    case Launches(_, _) => [Prepared, Created]
    case Abandons(job, _) => if Prepare(w, job).Failure? then [Prepared] else [Prepared, MemoryLimit(false)]
    case Fails(_, _) => [Prepared, CreateError(false), ReportFail]
  }

  function StepsWithJob(w: World, a: Answers): seq<LoopStep> { StepsFor(w, OutcomeOf(w, a)) }

  /** What Cloud Foundry is asked to create. */
  function RequestsFor(w: World, o: Outcome): seq<TaskRequest> {
    if o.Nothing? || Prepare(w, o.job).Failure? then [] else [Prepare(w, o.job).value]
  }

  /** What Piazza is told. */
  function ReportsFor(w: World, pzAddr: string, o: Outcome): seq<StatusPost> {
    if o.Fails? then [StatusPost(TaskAddress(pzAddr, w.loop.svcID, o.job.id), StatusFail, None)] else []
  }

  /** A dispatcher loop, with what it has asked Cloud Foundry and Piazza to do so far. */
  class PollingLoop {
    const w: World
    var requested: seq<TaskRequest>
    const pz: Piazza
    const pzAddr: string
    ghost var steps: seq<LoopStep>

    constructor (w: World, pz: Piazza, pzAddr: string)
      ensures this.w == w && this.pz == pz && this.pzAddr == pzAddr
      ensures requested == [] && steps == []
    {
      this.w, this.pz, this.pzAddr := w, pz, pzAddr;
      requested, steps := [], [];
    }

    /** The part of an iteration that has a job: prepare its task, request it, report that it failed. */
    method Dispatch(job: Job, failure: Option<CreateFailure>) returns (err: Option<string>)
      modifies this`requested, this`steps, pz`posts
      ensures steps == old(steps) + StepsFor(w, Fate(w, job, failure))
      ensures err == ErrorOf(Fate(w, job, failure))
      ensures requested == old(requested) + RequestsFor(w, Fate(w, job, failure))
      ensures pz.posts == old(pz.posts) + ReportsFor(w, pzAddr, Fate(w, job, failure))
      ensures Prepare(w, job).Success? && failure.Some? && failure.value.OtherFailure? ==>
                pz.posts == old(pz.posts)
                            + [StatusPost(pzAddr + "/service/" + w.loop.svcID + "/task/" + job.id, StatusFail, None)]
      ensures !(Prepare(w, job).Success? && failure.Some? && failure.value.OtherFailure?) ==> pz.posts == old(pz.posts)
      ensures Prepare(w, job).Failure? ==> requested == old(requested) && err == Some(Prepare(w, job).error)
      ensures Prepare(w, job).Success? ==>
                && requested == old(requested) + [Prepare(w, job).value]
                && (failure.None? ==> err == None)
                && (failure.Some? && failure.value.MemoryLimitHit? ==>
                      err == Some("CF memory limit hit, will retry job later"))
                && (failure.Some? && failure.value.OtherFailure? ==> err == Some(failure.value.error))
    {
      var prepared := BuildRequest(job);
      steps := steps + [Prepared];
      if prepared.Failure? {
        return Some(prepared.error);
      }
      requested := requested + [prepared.value];
      if failure.Some? {
        if failure.value.MemoryLimitHit? {
          steps := steps + [MemoryLimit(false)];
          return Some(MEMORY_LIMIT_ERROR);
        }
        steps := steps + [CreateError(false)];
        var _ := pz.SendExecResultNoData(pzAddr, w.loop.svcID, job.id, StatusFail, None);
        steps := steps + [ReportFail];
        return Some(failure.value.error);
      }
      steps := steps + [Created];
      return None;
    }

    /** Decode the body, print the command, compute the limits. */
    method BuildRequest(job: Job) returns (r: Result<TaskRequest>)
      ensures r == Prepare(w, job)
      ensures w.decode(job.content).None? ==> r == Failure("Error decoding job input body")
      ensures w.decode(job.content).Some? && LacksPairs(w.decode(job.content).value) ==>
                r == Failure("Number of input file names and URLs did not match")
      ensures w.decode(job.content).Some? && !LacksPairs(w.decode(job.content).value) ==>
                && var input := w.decode(job.content).value;
                && var t := EstimateMB(input.inExtFiles, w.head);
                && r.Success? && r.value.name == job.id && r.value.dropletGUID == w.vcapID
                && r.value.command == Print(JobWords(w.loop, input, job.id))
                && (t <= 0 ==> r.value.diskMB == w.defaultDiskMB && r.value.memoryMB == w.defaultMemoryMB)
                && (t > 0 ==> r.value.diskMB == 4096 + 2 * t && r.value.memoryMB == w.defaultMemoryMB + 5 * t)
    {
      var jobInput := w.decode(job.content);
      if jobInput.None? {
        return Failure(DECODE_ERROR);
      }
      var workerCommand := BuildWorkerCommand(w.loop, jobInput.value, job.id);
      if workerCommand.Failure? {
        return Failure(workerCommand.error);
      }
      var diskMB, memoryMB := CalculateDiskAndMemoryLimits(
        jobInput.value.inExtFiles, w.head, w.defaultDiskMB, w.defaultMemoryMB);
      return Success(TaskRequest(workerCommand.value, job.id, w.vcapID, diskMB, memoryMB));
    }

    /** The iteration gets as far as a job. */
    static predicate HasJob(w: World, a: Answers) {
      && a.sessionError.None? && a.count.Success? && a.count.value < w.limit
      && a.item.Success? && a.item.value.content != ""
    }

    method RunIteration(a: Answers) returns (err: Option<string>)
      modifies this`requested, this`steps, pz`posts
      ensures steps == old(steps) + StepsToJob(w, a) + StepsWithJob(w, a)
      ensures err == ErrorOf(OutcomeOf(w, a))
      ensures requested == old(requested) + RequestsFor(w, OutcomeOf(w, a))
      ensures pz.posts == old(pz.posts) + ReportsFor(w, pzAddr, OutcomeOf(w, a))
      ensures !HasJob(w, a) ==>
                && requested == old(requested) && pz.posts == old(pz.posts)
                && (a.sessionError.Some? ==> err == a.sessionError)
                && (a.sessionError.None? && a.count.Failure? ==> err == Some(a.count.error))
                && (a.sessionError.None? && a.count.Success? && a.count.value >= w.limit ==> err == None)
                && (a.sessionError.None? && a.count.Success? && a.count.value < w.limit ==>
                      err == if a.item.Failure? then Some(a.item.error) else None)
      ensures HasJob(w, a) && a.createFailure == None && Prepare(w, a.item.value).Success? ==>
                && err == None && pz.posts == old(pz.posts)
                && requested == old(requested) + [Prepare(w, a.item.value).value]
      ensures HasJob(w, a) && (Prepare(w, a.item.value).Failure? || a.createFailure.Some?) ==> err.Some?
    {
      if a.sessionError.Some? {
        steps := steps + [SessionError];
        return a.sessionError;
      }
      steps := steps + [GotSession];
      if a.count.Failure? {
        steps := steps + [CountError];
        return Some(a.count.error);
      }
      steps := steps + [Counted];
      if a.count.value >= w.limit {
        return None;
      }
      if a.item.Failure? {
        steps := steps + [FetchError];
        return Some(a.item.error);
      }
      if a.item.value.content == "" {
        steps := steps + [FetchedNothing];
        return None;
      }
      steps := steps + [FetchedJob(a.item.value)];
      err := Dispatch(a.item.value, a.createFailure);
    }
  }

  /** The names and the URLs of the inputs are not as many. */
  predicate LacksPairs(input: JobInput) { |input.inExtFiles| != |input.inExtNames| }

  /** The request for a job, field by field. */
  lemma RequestFields(w: World, job: Job, input: JobInput)
    requires w.decode(job.content) == Some(input) && !LacksPairs(input)
    ensures Prepare(w, job).Success?
    ensures
      var req, t := Prepare(w, job).value, EstimateMB(input.inExtFiles, w.head);
      && req.name == job.id && req.dropletGUID == w.vcapID && req.command == Print(JobWords(w.loop, input, job.id))
      && (t <= 0 ==> req.diskMB == w.defaultDiskMB && req.memoryMB == w.defaultMemoryMB)
      && (t > 0 ==> req.diskMB == 4096 + 2 * t && req.memoryMB == w.defaultMemoryMB + 5 * t)
  {
  }

  /** Only a body that does not decode, or inputs without pairs, keep a request from being made. */
  lemma RequestRefused(w: World, job: Job)
    ensures w.decode(job.content).None? ==> Prepare(w, job) == Failure("Error decoding job input body")
    ensures w.decode(job.content).Some? && LacksPairs(w.decode(job.content).value) ==>
              Prepare(w, job) == Failure("Number of input file names and URLs did not match")
  {
  }

  /**
   What a request asks for, against the true size of the job's files: at most 2 MB of disk and 5 MB of memory
   too little for every file but one, never too much; and less disk than the default of 6142 MB exactly for
   estimates below 1023 MB.
   */
  lemma RequestTracksTrueSize(w: World, job: Job, input: JobInput)
    requires w.decode(job.content) == Some(input) && !LacksPairs(input)
    requires input.inExtFiles != [] && AllSized(input.inExtFiles, w.head) && EstimateMB(input.inExtFiles, w.head) > 0
    requires forall i :: 0 <= i < |input.inExtFiles| ==> Bytes(input.inExtFiles[i], w.head) >= 0
    ensures Prepare(w, job).Success?
    ensures
      var req, trueMB := Prepare(w, job).value, TotalBytes(input.inExtFiles, w.head) / 1000000;
      && 0 <= 4096 + 2 * trueMB - req.diskMB <= 2 * (|input.inExtFiles| - 1)
      && 0 <= w.defaultMemoryMB + 5 * trueMB - req.memoryMB <= 5 * (|input.inExtFiles| - 1)
      && req.memoryMB >= w.defaultMemoryMB + 5
      && (req.diskMB >= 6142 <==> EstimateMB(input.inExtFiles, w.head) >= 1023)
  {
    RequestFields(w, job, input);
    EstimateErrorBound(input.inExtFiles, w.head);
  }

  // ---- an undisturbed iteration is one transaction ----

  function Tagged(l: nat, steps: seq<LoopStep>): seq<Action> {
    seq(|steps|, i requires 0 <= i < |steps| => Loop(l, steps[i]))
  }

  /** The state after an iteration of this outcome: its loop is idle again and the job is in one place. */
  ghost function Settled(w: World, s: State, o: Outcome): State {
    match o
    case Nothing(_) => s
    case Launches(job, req) =>
      s.(fetched := s.fetched + multiset{job}, tasks := s.tasks + [NewTask(w, Requesting(job, req), true)])
    case Abandons(job, _) => s.(fetched := s.fetched + multiset{job}, abandoned := s.abandoned + multiset{job})
    case Fails(job, _) =>
      s.(fetched := s.fetched + multiset{job}, failed := s.failed + multiset{job},
         posts := s.posts + [Post(job, job.id, StatusFail)])
  }

  lemma OneStep(w: World, s: State, l: nat, steps: seq<LoopStep>, step: LoopStep)
    requires Legal(w, s, Tagged(l, steps)) && Enabled(w, After(w, s, Tagged(l, steps)), Loop(l, step))
    ensures Legal(w, s, Tagged(l, steps + [step]))
    ensures After(w, s, Tagged(l, steps + [step])) == ApplyLoop(w, After(w, s, Tagged(l, steps)), l, step)
  {
    Extend(w, s, Tagged(l, steps), Loop(l, step));
    assert Tagged(l, steps) + [Loop(l, step)] == Tagged(l, steps + [step]);
  }

  /** The state in which the loop holds the job it was given, if it was given one. */
  ghost function JobInHand(w: World, s: State, l: nat, a: Answers): State
    requires l < |s.loops|
  {
    if OutcomeOf(w, a).Nothing? then s
    else s.(loops := s.loops[l := Holding(a.item.value)], fetched := s.fetched + multiset{a.item.value})
  }

  lemma {:induction false} StepsToJobRun(w: World, s: State, l: nat, a: Answers)
    requires l < |s.loops| && s.loops[l].Idle?
    requires a.count.Success? ==> a.count.value == Visible(w, s)
    requires AskPiazza(a).FetchedJob? ==> w.offers(a.item.value)
    ensures Legal(w, s, Tagged(l, StepsToJob(w, a)))
    ensures After(w, s, Tagged(l, StepsToJob(w, a))) == JobInHand(w, s, l, a)
  {
    assert Tagged(l, []) == [];
    SessionStep(w, s, l);
    if a.sessionError.Some? {
      OneStep(w, s, l, [], SessionError);
      assert [] + [SessionError] == StepsToJob(w, a);
    } else {
      OneStep(w, s, l, [], GotSession);
      assert [] + [GotSession] == [GotSession];
      CountRun(w, s, l, a);
    }
  }

  lemma {:induction false} CountRun(w: World, s: State, l: nat, a: Answers)
    requires l < |s.loops| && s.loops[l].Idle? && a.sessionError.None?
    requires a.count.Success? ==> a.count.value == Visible(w, s)
    requires AskPiazza(a).FetchedJob? ==> w.offers(a.item.value)
    requires Legal(w, s, Tagged(l, [GotSession]))
    requires After(w, s, Tagged(l, [GotSession])) == s.(loops := s.loops[l := HaveSession])
    ensures Legal(w, s, Tagged(l, StepsToJob(w, a)))
    ensures After(w, s, Tagged(l, StepsToJob(w, a))) == JobInHand(w, s, l, a)
  {
    var s1 := s.(loops := s.loops[l := HaveSession]);
    assert Visible(w, s1) == Visible(w, s);
    CountStep(w, s1, l);
    assert s1.loops[l := Idle] == s.loops;
    assert s1.loops[l := UnderCap] == s.loops[l := UnderCap];
    if a.count.Failure? {
      OneStep(w, s, l, [GotSession], CountError);
      assert [GotSession] + [CountError] == StepsToJob(w, a);
    } else {
      OneStep(w, s, l, [GotSession], Counted);
      assert [GotSession] + [Counted] == [GotSession, Counted];
      if a.count.value < w.limit {
        FetchRun(w, s, s.(loops := s.loops[l := UnderCap]), l, a);
      }
    }
  }

  /** The step by which the loop learns what Piazza has for it. */
  function AskPiazza(a: Answers): LoopStep {
    if a.item.Failure? then FetchError
    else if a.item.value.content == "" then FetchedNothing
    else FetchedJob(a.item.value)
  }

  lemma AskPiazzaStep(w: World, s: State, l: nat, a: Answers)
    requires l < |s.loops| && s.loops[l].UnderCap?
    requires AskPiazza(a).FetchedJob? ==> w.offers(a.item.value)
    ensures Enabled(w, s, Loop(l, AskPiazza(a)))
    ensures ApplyLoop(w, s, l, AskPiazza(a))
         == if AskPiazza(a).FetchedJob?
            then s.(loops := s.loops[l := Holding(a.item.value)], fetched := s.fetched + multiset{a.item.value})
            else s.(loops := s.loops[l := Idle])
  {
    NoJobStep(w, s, l);
    if AskPiazza(a).FetchedJob? { FetchStep(w, s, l, a.item.value); }
  }

  /** Under the cap, an iteration comes to nothing exactly when Piazza has no job. */
  lemma UnderCapSteps(w: World, s: State, l: nat, a: Answers)
    requires l < |s.loops| && s.loops[l].Idle?
    requires a.sessionError.None? && a.count.Success? && a.count.value < w.limit
    ensures StepsToJob(w, a) == [GotSession, Counted, AskPiazza(a)]
    ensures JobInHand(w, s, l, a)
         == if AskPiazza(a).FetchedJob?
            then s.(loops := s.loops[l := Holding(a.item.value)], fetched := s.fetched + multiset{a.item.value})
            else s
  {
  }

  lemma {:induction false} FetchRun(w: World, s: State, s2: State, l: nat, a: Answers)
    requires l < |s.loops| && s.loops[l].Idle?
    requires a.sessionError.None? && a.count.Success? && a.count.value < w.limit
    requires AskPiazza(a).FetchedJob? ==> w.offers(a.item.value)
    requires Legal(w, s, Tagged(l, [GotSession, Counted])) && s2 == After(w, s, Tagged(l, [GotSession, Counted]))
    requires s2 == s.(loops := s.loops[l := UnderCap])
    ensures Legal(w, s, Tagged(l, StepsToJob(w, a)))
    ensures After(w, s, Tagged(l, StepsToJob(w, a))) == JobInHand(w, s, l, a)
  {
    UnderCapSteps(w, s, l, a);
    AskPiazzaStep(w, s2, l, a);
    AskedRun(w, s, s2, l, AskPiazza(a));
    BackFromCap(s, s2, l, a);
  }

  /** One more step behind the check. */
  lemma {:induction false} AskedRun(w: World, s: State, s2: State, l: nat, last: LoopStep)
    requires Legal(w, s, Tagged(l, [GotSession, Counted])) && s2 == After(w, s, Tagged(l, [GotSession, Counted]))
    requires Enabled(w, s2, Loop(l, last))
    ensures Legal(w, s, Tagged(l, [GotSession, Counted, last]))
    ensures After(w, s, Tagged(l, [GotSession, Counted, last])) == ApplyLoop(w, s2, l, last)
  {
    assert [GotSession, Counted] + [last] == [GotSession, Counted, last];
    OneStep(w, s, l, [GotSession, Counted], last);
  }

  /** What the loop does next undoes its passing of the check. */
  lemma BackFromCap(s: State, s2: State, l: nat, a: Answers)
    requires l < |s.loops| && s.loops[l].Idle? && s2 == s.(loops := s.loops[l := UnderCap])
    ensures s2.(loops := s2.loops[l := Idle]) == s
    ensures a.item.Success? ==> s2.loops[l := Holding(a.item.value)] == s.loops[l := Holding(a.item.value)]
  {
    assert s2.loops[l := Idle] == s.loops;
  }

  /** The steps after the answer to the creation request. */
  function CreateSteps(failure: Option<CreateFailure>): seq<LoopStep> {
    match failure
    case None => [Created]
    case Some(MemoryLimitHit(_)) => [MemoryLimit(false)]
    case Some(OtherFailure(_)) => [CreateError(false), ReportFail]
  }

  ghost function CreateResult(w: World, s: State, job: Job, req: TaskRequest, failure: Option<CreateFailure>): State {
    match failure
    case None => s.(tasks := s.tasks + [NewTask(w, Requesting(job, req), true)])
    case Some(MemoryLimitHit(_)) => s.(abandoned := s.abandoned + multiset{job})
    case Some(OtherFailure(_)) =>
      s.(failed := s.failed + multiset{job}, posts := s.posts + [Post(job, job.id, StatusFail)])
  }

  lemma CreateStepsRun(w: World, s: State, l: nat, job: Job, req: TaskRequest, failure: Option<CreateFailure>)
    requires l < |s.loops| && s.loops[l] == Requesting(job, req)
    ensures Legal(w, s, Tagged(l, CreateSteps(failure)))
    ensures After(w, s, Tagged(l, CreateSteps(failure)))
         == CreateResult(w, s.(loops := s.loops[l := Idle]), job, req, failure)
  {
    var r0: seq<LoopStep> := [];
    assert Tagged(l, r0) == [];
    match failure {
      case None =>
        CreateStep(w, s, l, job, req);
        OneStep(w, s, l, r0, Created);
        assert r0 + [Created] == [Created];
      case Some(MemoryLimitHit(_)) =>
        MemoryLimitStep(w, s, l, job, req);
        OneStep(w, s, l, r0, MemoryLimit(false));
        assert r0 + [MemoryLimit(false)] == [MemoryLimit(false)];
      case Some(OtherFailure(_)) =>
        var s1 := s.(loops := s.loops[l := Failing(job)]);
        CreateErrorStep(w, s, l, job, req, false);
        assert s.tasks + Leftover(w, job, req, false) == s.tasks;
        ReportStep(w, s1, l, job);
        TwoSteps(w, s, Loop(l, CreateError(false)), s1, Loop(l, ReportFail));
        assert Tagged(l, [CreateError(false), ReportFail]) == [Loop(l, CreateError(false)), Loop(l, ReportFail)];
        assert s1.loops[l := Idle] == s.loops[l := Idle];
    }
  }

  lemma TaggedConcat(l: nat, a: seq<LoopStep>, b: seq<LoopStep>)
    ensures Tagged(l, a + b) == Tagged(l, a) + Tagged(l, b)
  {
  }

  /** The state after the job has been disposed of. */
  ghost function Disposed(w: World, s: State, l: nat, a: Answers): State
    requires l < |s.loops|
  {
    Settled(w, s.(loops := s.loops[l := Idle]), OutcomeOf(w, a)).(fetched := s.fetched)
  }

  lemma {:induction false} StepsWithJobRun(w: World, s: State, l: nat, a: Answers)
    requires l < |s.loops| && !OutcomeOf(w, a).Nothing? && s.loops[l] == Holding(a.item.value)
    ensures Legal(w, s, Tagged(l, StepsWithJob(w, a)))
    ensures After(w, s, Tagged(l, StepsWithJob(w, a))) == Disposed(w, s, l, a)
  {
    PrepareStep(w, s, l, a.item.value);
    assert Tagged(l, []) == [];
    OneStep(w, s, l, [], Prepared);
    assert [] + [Prepared] == [Prepared];
    if Prepare(w, a.item.value).Success? {
      CreationRun(w, s, l, a);
    } else {
      PreparationFails(w, s, l, a);
    }
  }

  lemma PreparationFails(w: World, s: State, l: nat, a: Answers)
    requires l < |s.loops| && !OutcomeOf(w, a).Nothing? && Prepare(w, a.item.value).Failure?
    ensures StepsWithJob(w, a) == [Prepared]
    ensures Disposed(w, s, l, a)
         == s.(loops := s.loops[l := Idle], abandoned := s.abandoned + multiset{a.item.value})
  {
  }

  lemma {:induction false} CreationRun(w: World, s: State, l: nat, a: Answers)
    requires l < |s.loops| && !OutcomeOf(w, a).Nothing? && Prepare(w, a.item.value).Success?
    requires Legal(w, s, Tagged(l, [Prepared]))
    requires After(w, s, Tagged(l, [Prepared]))
          == s.(loops := s.loops[l := Requesting(a.item.value, Prepare(w, a.item.value).value)])
    ensures Legal(w, s, Tagged(l, StepsWithJob(w, a)))
    ensures After(w, s, Tagged(l, StepsWithJob(w, a))) == Disposed(w, s, l, a)
  {
    var job, req := a.item.value, Prepare(w, a.item.value).value;
    var s1 := s.(loops := s.loops[l := Requesting(job, req)]);
    CreateStepsRun(w, s1, l, job, req, a.createFailure);
    RunsCompose(w, s, Tagged(l, [Prepared]), Tagged(l, CreateSteps(a.createFailure)));
    TaggedConcat(l, [Prepared], CreateSteps(a.createFailure));
    assert s1.loops[l := Idle] == s.loops[l := Idle];
    OutcomeIsFate(w, a);
    CreationSettles(w, s.(loops := s.loops[l := Idle]), job, a.createFailure);
  }

  /** A job in hand has its fate for its outcome. */
  lemma OutcomeIsFate(w: World, a: Answers)
    requires !OutcomeOf(w, a).Nothing?
    ensures OutcomeOf(w, a) == Fate(w, a.item.value, a.createFailure)
    ensures StepsWithJob(w, a) == StepsFor(w, Fate(w, a.item.value, a.createFailure))
  {
  }

  /** What becomes of the creation request decides the fate. */
  lemma CreationSettles(w: World, s: State, job: Job, failure: Option<CreateFailure>)
    requires Prepare(w, job).Success?
    ensures StepsFor(w, Fate(w, job, failure)) == [Prepared] + CreateSteps(failure)
    ensures CreateResult(w, s, job, Prepare(w, job).value, failure)
         == Settled(w, s, Fate(w, job, failure)).(fetched := s.fetched)
  {
  }

  /**
   The steps an iteration takes, with a true count and a job that may be handed out, are a legal run of the
   protocol in which the loop ends idle, and the whole amounts to one change of state: nothing, a launch, an
   abandonment or a reported failure of the fetched job.
   */
  lemma {:induction false} IterationIsATransaction(w: World, s: State, l: nat, a: Answers)
    requires l < |s.loops| && s.loops[l].Idle?
    requires a.count.Success? ==> a.count.value == Visible(w, s)
    requires AskPiazza(a).FetchedJob? ==> w.offers(a.item.value)
    ensures
      var run := Tagged(l, StepsToJob(w, a) + StepsWithJob(w, a));
      Legal(w, s, run) && After(w, s, run) == Settled(w, s, OutcomeOf(w, a))
  {
    var r1, r2 := StepsToJob(w, a), StepsWithJob(w, a);
    StepsToJobRun(w, s, l, a);
    TaggedConcat(l, r1, r2);
    var s1 := After(w, s, Tagged(l, r1));
    if OutcomeOf(w, a).Nothing? {
      assert r1 + r2 == r1;
    } else {
      StepsWithJobRun(w, s1, l, a);
      RunsCompose(w, s, Tagged(l, r1), Tagged(l, r2));
      HandedOver(w, s, s1, l, a);
    }
  }

  lemma HandedOver(w: World, s: State, s1: State, l: nat, a: Answers)
    requires l < |s.loops| && s.loops[l].Idle? && !OutcomeOf(w, a).Nothing?
    requires s1 == s.(loops := s.loops[l := Holding(a.item.value)], fetched := s.fetched + multiset{a.item.value})
    ensures Disposed(w, s1, l, a) == Settled(w, s, OutcomeOf(w, a))
  {
    assert s1.loops[l := Idle] == s.loops;
  }

  /** What the dispatcher tells Piazza is what the protocol's run reports: the same job ID and status, no data. */
  lemma {:induction false} ReportsMatchProtocol(w: World, s: State, l: nat, a: Answers, pzAddr: string)
    requires l < |s.loops| && s.loops[l].Idle?
    requires a.count.Success? ==> a.count.value == Visible(w, s)
    requires AskPiazza(a).FetchedJob? ==> w.offers(a.item.value)
    ensures Legal(w, s, Tagged(l, StepsToJob(w, a) + StepsWithJob(w, a)))
    ensures
      var told, posts := ReportsFor(w, pzAddr, OutcomeOf(w, a)),
                         After(w, s, Tagged(l, StepsToJob(w, a) + StepsWithJob(w, a))).posts;
      && |posts| == |s.posts| + |told| && posts[..|s.posts|] == s.posts
      && forall i :: 0 <= i < |told| ==>
           && told[i].status == posts[|s.posts| + i].status && told[i].dataID == None
           && told[i].address == pzAddr + "/service/" + w.loop.svcID + "/task/" + posts[|s.posts| + i].jobID
  {
    IterationIsATransaction(w, s, l, a);
    SettledReports(w, s, OutcomeOf(w, a), pzAddr);
  }

  lemma SettledReports(w: World, s: State, o: Outcome, pzAddr: string)
    ensures
      var told, posts := ReportsFor(w, pzAddr, o), Settled(w, s, o).posts;
      && |posts| == |s.posts| + |told| && posts[..|s.posts|] == s.posts
      && forall i :: 0 <= i < |told| ==>
           && told[i].status == posts[|s.posts| + i].status && told[i].dataID == None
           && told[i].address == pzAddr + "/service/" + w.loop.svcID + "/task/" + posts[|s.posts| + i].jobID
  {
  }
}
