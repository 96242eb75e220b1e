/**
 dispatcher/poll/loop.go, runIteration: any number of dispatcher loops sharing one Cloud Foundry app,
 as a transition system. The atomic points of an iteration (get a session, count tasks, fetch a job,
 prepare its task, create the task, report a failure) interleave with each other and with the life of
 the tasks, in which a worker reads its command and may report a status. A command that is not contained
 (it is not read as words, or the job's own command is not just arguments of the service's program) may
 start anything: from its task any number of reports may come, under any job ID.
 */
module DispatchProtocol {
  import opened Common
  import opened Sizing
  import opened WorkerConfig
  import opened WorkerCmd
  import opened WorkerCommand
  import opened CommandRoundTrip
  import opened CommandEffects
  import opened WorkerExec

  /** A non-empty work item as Piazza hands it out. */
  datatype Job = Job(id: string, content: string)

  datatype TaskRequest = TaskRequest(
    command: string, name: string, dropletGUID: string, diskMB: int, memoryMB: int)

  /**
   What is fixed for a run: the cap, the app, which jobs Piazza may hand out, how job bodies decode, what S3
   answers, three facts about Cloud Foundry (whether a created task counts as running at once, whether an
   error from task creation means that there is no task, and how many tasks a page of its list holds), the
   two commands in the service's configuration file, and whether patterns in commands match no file in the
   tasks.
   */
  datatype World = World(
    limit: int, vcapID: string, loop: LoopConfig, offers: Job -> bool,
    decode: string -> Option<JobInput>, head: string -> HeadReply,
    defaultDiskMB: int, defaultMemoryMB: int,
    createdIsRunning: bool, errorMeansNoTask: bool, page: nat,
    configFile: (string, string), unmatched: bool)

  /** Piazza may hand out the job, as a work item with a body. */
  predicate HandsOut(w: World, job: Job) { job.content != "" && w.offers(job) }

  const DECODE_ERROR := "Error decoding job input body"

  /** parseJobInput, buildWorkerCommand and calculateDiskAndMemoryLimits together. */
  function Prepare(w: World, job: Job): Result<TaskRequest> {
    match w.decode(job.content)
    case None => Failure(DECODE_ERROR)
    case Some(input) =>
      match CommandFor(w.loop, input, job.id)
      case Failure(e) => Failure(e)
      case Success(command) =>
        var size := EstimateMB(input.inExtFiles, w.head);
        Success(TaskRequest(
                  command, job.id, w.vcapID, DiskMB(size, w.defaultDiskMB), MemoryMB(size, w.defaultMemoryMB)))
  }

  datatype LoopPc =
    | Idle | HaveSession | UnderCap
    | Holding(job: Job) | Requesting(job: Job, req: TaskRequest) | Failing(job: Job)

  datatype Phase = Pending | Running | Reported | Gone(reported: bool)

  /** A task that exists or existed; confirmed if its creation was answered without error. */
  datatype Task = Task(job: Job, req: TaskRequest, phase: Phase, confirmed: bool)

  /** A status report: the job it is about, and the job ID and status it carries. */
  datatype Post = Post(job: Job, jobID: string, status: Status)

  /**
   others counts running tasks of the app that these loops did not create; strays counts, for each job, the
   reports from its tasks that no worker of its command line accounts for.
   */
  datatype State = State(
    loops: seq<LoopPc>, tasks: seq<Task>, others: nat,
    fetched: multiset<Job>, failed: multiset<Job>, abandoned: multiset<Job>, strays: multiset<Job>, posts: seq<Post>)

  function Init(n: nat, others: nat): State {
    State(seq(n, i => Idle), [], others, multiset{}, multiset{}, multiset{}, multiset{}, [])
  }

  datatype LoopStep =
    | SessionError | GotSession | CountError | Counted
    | FetchError | FetchedNothing | FetchedJob(job: Job)
    | Prepared | Created | MemoryLimit(taskExists: bool) | CreateError(taskExists: bool) | ReportFail

  datatype Action =
    | Loop(l: nat, step: LoopStep)
    | TaskStarts(t: nat)
    | WorkerReports(t: nat, env: Environment, exec: ExecWorld)
    | StrayReports(t: nat, jobID: string, status: Status)
    | TaskExits(t: nat)
    | OtherExits

  predicate IsRunning(t: Task) { t.phase.Running? || t.phase.Reported? }

  function CountRunning(tasks: seq<Task>): nat {
    if tasks == [] then 0
    else CountRunning(tasks[..|tasks| - 1]) + if IsRunning(tasks[|tasks| - 1]) then 1 else 0
  }

  function RunningTasks(s: State): nat { CountRunning(s.tasks) + s.others }

  /** CountTasksForApp: only tasks in the running state are counted, and only those on the first page. */
  function Visible(w: World, s: State): nat {
    if RunningTasks(s) <= w.page then RunningTasks(s) else w.page
  }

  /** The service as its workers find it, if they look where the dispatcher tells them to. */
  function ServiceOf(w: World): Service { Service(w.loop.configPath, w.configFile.0) }

  /** The configuration file of the service reads as what it holds. */
  predicate FindsService(w: World, cfg: Config, env: Environment) {
    cfg.configPath == w.loop.configPath ==> env.configFile == Success(w.configFile)
  }

  /** The configuration the worker of a task starts with, if it starts. */
  function WorkerConfigOf(w: World, t: Task, env: Environment): Result<Config> {
    ReadBack(t.req.command, env, w.unmatched)
  }

  /** The reports of a task's worker, as reports about the task's job. */
  function Carried(job: Job, jobID: string, reports: seq<StatusPost>): seq<Post> {
    seq(|reports|, i requires 0 <= i < |reports| => Post(job, jobID, reports[i].status))
  }

  ghost predicate LoopEnabled(w: World, pc: LoopPc, step: LoopStep) {
    match step
    case SessionError => pc.Idle?
    case GotSession => pc.Idle?
    case CountError => pc.HaveSession?
    case Counted => pc.HaveSession?
    case FetchError => pc.UnderCap?
    case FetchedNothing => pc.UnderCap?
    case FetchedJob(job) => pc.UnderCap? && HandsOut(w, job)
    case Prepared => pc.Holding?
    case Created => pc.Requesting?
    case MemoryLimit(taskExists) => pc.Requesting? && (taskExists ==> !w.errorMeansNoTask)
    case CreateError(taskExists) => pc.Requesting? && (taskExists ==> !w.errorMeansNoTask)
    case ReportFail => pc.Failing?
  }

  ghost predicate Enabled(w: World, s: State, a: Action) {
    match a
    case Loop(l, step) => l < |s.loops| && LoopEnabled(w, s.loops[l], step)
    case TaskStarts(t) => t < |s.tasks| && s.tasks[t].phase.Pending?
    case WorkerReports(t, env, exec) =>
      && t < |s.tasks| && s.tasks[t].phase.Running?
      && WorkerConfigOf(w, s.tasks[t], env).Success?
      && FindsService(w, WorkerConfigOf(w, s.tasks[t], env).value, env)
      && ExecPosts(WorkerConfigOf(w, s.tasks[t], env).value, exec) != []
    case StrayReports(t, _, _) =>
      t < |s.tasks| && IsRunning(s.tasks[t]) && !Contained(s.tasks[t].req.command, ServiceOf(w), w.unmatched)
    case TaskExits(t) => t < |s.tasks| && !s.tasks[t].phase.Gone?
    case OtherExits => s.others > 0
  }

  function NewTask(w: World, pc: LoopPc, confirmed: bool): Task
    requires pc.Requesting?
  {
    Task(pc.job, pc.req, if w.createdIsRunning then Running else Pending, confirmed)
  }

  /** The loop's program counter after the step, given how many tasks are visible. */
  function NextPc(w: World, pc: LoopPc, step: LoopStep, visible: nat): LoopPc {
    match step
    case GotSession => HaveSession
    case Counted => if visible >= w.limit then Idle else UnderCap
    case FetchedJob(job) => Holding(job)
    case Prepared =>
      if pc.Holding? && Prepare(w, pc.job).Success? then Requesting(pc.job, Prepare(w, pc.job).value) else Idle
    case CreateError(_) => if pc.Requesting? then Failing(pc.job) else Idle
    case _ => Idle
  }

  /** The tasks a step creates. */
  ghost function NewTasks(w: World, pc: LoopPc, step: LoopStep): seq<Task>
    requires LoopEnabled(w, pc, step)
  {
    match step
    case Created => [NewTask(w, pc, true)]
    case MemoryLimit(true) => [NewTask(w, pc, false)]
    case CreateError(true) => [NewTask(w, pc, false)]
    case _ => []
  }

  ghost function ApplyLoop(w: World, s: State, l: nat, step: LoopStep): State
    requires l < |s.loops| && LoopEnabled(w, s.loops[l], step)
  {
    var pc := s.loops[l];
    State(
      s.loops[l := NextPc(w, pc, step, Visible(w, s))],
      s.tasks + NewTasks(w, pc, step),
      s.others,
      if step.FetchedJob? then s.fetched + multiset{step.job} else s.fetched,
      if step.ReportFail? then s.failed + multiset{pc.job} else s.failed,
      if step.MemoryLimit? || (step.Prepared? && Prepare(w, pc.job).Failure?) then s.abandoned + multiset{pc.job}
      else s.abandoned,
      s.strays,
      if step.ReportFail? then s.posts + [Post(pc.job, pc.job.id, StatusFail)] else s.posts)
  }

  function SetPhase(s: State, t: nat, phase: Phase): State
    requires t < |s.tasks|
  {
    s.(tasks := s.tasks[t := s.tasks[t].(phase := phase)])
  }

  ghost function Apply(w: World, s: State, a: Action): State
    requires Enabled(w, s, a)
  {
    match a
    case Loop(l, step) => ApplyLoop(w, s, l, step)
    case TaskStarts(t) => SetPhase(s, t, Running)
    case WorkerReports(t, env, exec) =>
      var cfg := WorkerConfigOf(w, s.tasks[t], env).value;
      SetPhase(s, t, Reported).(posts := s.posts + Carried(s.tasks[t].job, cfg.jobID, ExecPosts(cfg, exec)))
    case StrayReports(t, jobID, status) =>
      var job := s.tasks[t].job;
      s.(strays := s.strays + multiset{job}, posts := s.posts + [Post(job, jobID, status)])
    case TaskExits(t) => SetPhase(s, t, Gone(s.tasks[t].phase.Reported?))
    case OtherExits => s.(others := s.others - 1)
  }

  ghost predicate Legal(w: World, s: State, run: seq<Action>)
    decreases |run|
  {
    run == [] || (Enabled(w, s, run[0]) && Legal(w, Apply(w, s, run[0]), run[1..]))
  }

  ghost function After(w: World, s: State, run: seq<Action>): State
    requires Legal(w, s, run)
    decreases |run|
  {
    if run == [] then s else After(w, Apply(w, s, run[0]), run[1..])
  }

  lemma {:induction false} RunsCompose(w: World, s: State, a: seq<Action>, b: seq<Action>)
    requires Legal(w, s, a) && Legal(w, After(w, s, a), b)
    ensures Legal(w, s, a + b) && After(w, s, a + b) == After(w, After(w, s, a), b)
    decreases |a|
  {
    if a == [] {
      assert a + b == b;
    } else {
      assert (a + b)[1..] == a[1..] + b;
      RunsCompose(w, Apply(w, s, a[0]), a[1..], b);
    }
  }

  lemma Extend(w: World, s: State, run: seq<Action>, a: Action)
    requires Legal(w, s, run) && Enabled(w, After(w, s, run), a)
    ensures Legal(w, s, run + [a]) && After(w, s, run + [a]) == Apply(w, After(w, s, run), a)
  {
    assert [a][1..] == [];
    assert Legal(w, Apply(w, After(w, s, run), a), []);
    RunsCompose(w, s, run, [a]);
  }

  lemma TwoSteps(w: World, s: State, a: Action, s1: State, b: Action)
    requires Enabled(w, s, a) && s1 == Apply(w, s, a) && Enabled(w, s1, b)
    ensures Legal(w, s, [a, b]) && After(w, s, [a, b]) == Apply(w, s1, b)
  {
    Extend(w, s, [], a);
    assert [] + [a] == [a];
    Extend(w, s, [a], b);
  }

  lemma ThreeSteps(w: World, s: State, a: Action, s1: State, b: Action, s2: State, c: Action)
    requires Enabled(w, s, a) && s1 == Apply(w, s, a)
    requires Enabled(w, s1, b) && s2 == Apply(w, s1, b) && Enabled(w, s2, c)
    ensures Legal(w, s, [a, b, c]) && After(w, s, [a, b, c]) == Apply(w, s2, c)
  {
    TwoSteps(w, s, a, s1, b);
    Extend(w, s, [a, b], c);
    assert [a, b] + [c] == [a, b, c];
  }

  // ---- what each step of a loop changes ----

  /** A step that creates no task leaves the tasks as they are. */
  lemma QuietStep(w: World, s: State, l: nat, step: LoopStep)
    requires l < |s.loops| && LoopEnabled(w, s.loops[l], step) && NewTasks(w, s.loops[l], step) == []
    ensures ApplyLoop(w, s, l, step).tasks == s.tasks
    ensures Visible(w, ApplyLoop(w, s, l, step)) == Visible(w, s)
  {
  }

  lemma SessionStep(w: World, s: State, l: nat)
    requires l < |s.loops| && s.loops[l].Idle?
    ensures ApplyLoop(w, s, l, GotSession) == s.(loops := s.loops[l := HaveSession])
    ensures ApplyLoop(w, s, l, SessionError) == s
  {
    QuietStep(w, s, l, GotSession);
    QuietStep(w, s, l, SessionError);
    assert s.loops[l := Idle] == s.loops;
  }

  lemma CountStep(w: World, s: State, l: nat)
    requires l < |s.loops| && s.loops[l].HaveSession?
    ensures ApplyLoop(w, s, l, CountError) == s.(loops := s.loops[l := Idle])
    ensures ApplyLoop(w, s, l, Counted)
         == s.(loops := s.loops[l := if Visible(w, s) >= w.limit then Idle else UnderCap])
  {
    QuietStep(w, s, l, CountError);
    QuietStep(w, s, l, Counted);
  }

  lemma FetchStep(w: World, s: State, l: nat, job: Job)
    requires l < |s.loops| && s.loops[l].UnderCap? && HandsOut(w, job)
    ensures ApplyLoop(w, s, l, FetchedJob(job))
         == s.(loops := s.loops[l := Holding(job)], fetched := s.fetched + multiset{job})
  {
    QuietStep(w, s, l, FetchedJob(job));
  }

  lemma NoJobStep(w: World, s: State, l: nat)
    requires l < |s.loops| && s.loops[l].UnderCap?
    ensures ApplyLoop(w, s, l, FetchError) == s.(loops := s.loops[l := Idle])
    ensures ApplyLoop(w, s, l, FetchedNothing) == s.(loops := s.loops[l := Idle])
  {
    QuietStep(w, s, l, FetchError);
    QuietStep(w, s, l, FetchedNothing);
  }

  lemma PrepareStep(w: World, s: State, l: nat, job: Job)
    requires l < |s.loops| && s.loops[l] == Holding(job)
    ensures Prepare(w, job).Success? ==>
              ApplyLoop(w, s, l, Prepared) == s.(loops := s.loops[l := Requesting(job, Prepare(w, job).value)])
    ensures Prepare(w, job).Failure? ==>
              ApplyLoop(w, s, l, Prepared) ==
              s.(loops := s.loops[l := Idle], abandoned := s.abandoned + multiset{job})
  {
    QuietStep(w, s, l, Prepared);
  }

  lemma CreateStep(w: World, s: State, l: nat, job: Job, req: TaskRequest)
    requires l < |s.loops| && s.loops[l] == Requesting(job, req)
    ensures ApplyLoop(w, s, l, Created)
         == s.(loops := s.loops[l := Idle], tasks := s.tasks + [NewTask(w, Requesting(job, req), true)])
  {
  }

  /** The task that exists in spite of an error, if it does. */
  function Leftover(w: World, job: Job, req: TaskRequest, taskExists: bool): seq<Task> {
    if taskExists then [NewTask(w, Requesting(job, req), false)] else []
  }

  lemma CreateErrorStep(w: World, s: State, l: nat, job: Job, req: TaskRequest, taskExists: bool)
    requires l < |s.loops| && s.loops[l] == Requesting(job, req) && (taskExists ==> !w.errorMeansNoTask)
    ensures ApplyLoop(w, s, l, CreateError(taskExists))
         == s.(loops := s.loops[l := Failing(job)], tasks := s.tasks + Leftover(w, job, req, taskExists))
  {
  }

  lemma MemoryLimitStep(w: World, s: State, l: nat, job: Job, req: TaskRequest)
    requires l < |s.loops| && s.loops[l] == Requesting(job, req)
    ensures ApplyLoop(w, s, l, MemoryLimit(false))
         == s.(loops := s.loops[l := Idle], abandoned := s.abandoned + multiset{job})
  {
    QuietStep(w, s, l, MemoryLimit(false));
  }

  lemma ReportStep(w: World, s: State, l: nat, job: Job)
    requires l < |s.loops| && s.loops[l] == Failing(job)
    ensures ApplyLoop(w, s, l, ReportFail)
         == s.(loops := s.loops[l := Idle], failed := s.failed + multiset{job},
               posts := s.posts + [Post(job, job.id, StatusFail)])
  {
    QuietStep(w, s, l, ReportFail);
  }

  // ---- sums over loops and tasks ----

  predicate PastCap(pc: LoopPc) { pc.UnderCap? || pc.Holding? || pc.Requesting? }

  function CountPast(loops: seq<LoopPc>): nat {
    if loops == [] then 0
    else CountPast(loops[..|loops| - 1]) + if PastCap(loops[|loops| - 1]) then 1 else 0
  }

  lemma {:induction false} CountPastUpdate(loops: seq<LoopPc>, l: nat, pc: LoopPc)
    requires l < |loops|
    ensures CountPast(loops[l := pc])
         == CountPast(loops) - (if PastCap(loops[l]) then 1 else 0) + (if PastCap(pc) then 1 else 0)
    ensures CountPast(loops) <= |loops|
  {
    var n := |loops| - 1;
    if l < n {
      assert loops[l := pc][..n] == loops[..n][l := pc];
      CountPastUpdate(loops[..n], l, pc);
    } else {
      assert loops[l := pc][..n] == loops[..n];
      if n > 0 { CountPastUpdate(loops[..n], 0, Idle); }
    }
  }

  lemma {:induction false} CountPastBound(loops: seq<LoopPc>)
    ensures CountPast(loops) <= |loops|
  {
    if loops != [] { CountPastBound(loops[..|loops| - 1]); }
  }

  lemma {:induction false} CountRunningUpdate(tasks: seq<Task>, t: nat, task: Task)
    requires t < |tasks|
    ensures CountRunning(tasks[t := task])
         == CountRunning(tasks) - (if IsRunning(tasks[t]) then 1 else 0) + (if IsRunning(task) then 1 else 0)
  {
    var n := |tasks| - 1;
    if t < n {
      assert tasks[t := task][..n] == tasks[..n][t := task];
      CountRunningUpdate(tasks[..n], t, task);
    } else {
      assert tasks[t := task][..n] == tasks[..n];
    }
  }

  lemma CountRunningAppend(tasks: seq<Task>, task: Task)
    ensures CountRunning(tasks + [task]) == CountRunning(tasks) + if IsRunning(task) then 1 else 0
  {
    assert (tasks + [task])[..|tasks|] == tasks;
  }

  /** Whether a loop has the job in its hands. */
  predicate Holds(pc: LoopPc, job: Job) {
    (pc.Holding? || pc.Requesting? || pc.Failing?) && pc.job == job
  }

  /** How many loops have the job in their hands. */
  function Held(loops: seq<LoopPc>, job: Job): nat {
    if loops == [] then 0
    else Held(loops[..|loops| - 1], job) + if Holds(loops[|loops| - 1], job) then 1 else 0
  }

  lemma {:induction false} HeldUpdate(loops: seq<LoopPc>, l: nat, pc: LoopPc, job: Job)
    requires l < |loops|
    ensures Held(loops[l := pc], job)
         == Held(loops, job) - (if Holds(loops[l], job) then 1 else 0) + (if Holds(pc, job) then 1 else 0)
  {
    var n := |loops| - 1;
    if l < n {
      assert loops[l := pc][..n] == loops[..n][l := pc];
      HeldUpdate(loops[..n], l, pc, job);
    } else {
      assert loops[l := pc][..n] == loops[..n];
    }
  }

  predicate LaunchOf(t: Task, job: Job) { t.confirmed && t.job == job }

  predicate ReportOf(t: Task, job: Job) { (t.phase.Reported? || t.phase == Gone(true)) && t.job == job }

  /** How many tasks were created for the job, one for each creation answered without error. */
  function Launched(tasks: seq<Task>, job: Job): nat {
    if tasks == [] then 0
    else Launched(tasks[..|tasks| - 1], job) + if LaunchOf(tasks[|tasks| - 1], job) then 1 else 0
  }

  /** How many workers have reported on the job. */
  function WorkerReported(tasks: seq<Task>, job: Job): nat {
    if tasks == [] then 0
    else WorkerReported(tasks[..|tasks| - 1], job) + if ReportOf(tasks[|tasks| - 1], job) then 1 else 0
  }

  lemma {:induction false} TasksUpdate(tasks: seq<Task>, t: nat, task: Task, job: Job)
    requires t < |tasks|
    ensures Launched(tasks[t := task], job)
         == Launched(tasks, job) - (if LaunchOf(tasks[t], job) then 1 else 0) + (if LaunchOf(task, job) then 1 else 0)
    ensures WorkerReported(tasks[t := task], job)
         == WorkerReported(tasks, job) - (if ReportOf(tasks[t], job) then 1 else 0)
            + (if ReportOf(task, job) then 1 else 0)
  {
    var n := |tasks| - 1;
    if t < n {
      assert tasks[t := task][..n] == tasks[..n][t := task];
      TasksUpdate(tasks[..n], t, task, job);
    } else {
      assert tasks[t := task][..n] == tasks[..n];
    }
  }

  lemma TasksAppend(tasks: seq<Task>, task: Task, job: Job)
    ensures Launched(tasks + [task], job) == Launched(tasks, job) + if LaunchOf(task, job) then 1 else 0
    ensures WorkerReported(tasks + [task], job) == WorkerReported(tasks, job) + if ReportOf(task, job) then 1 else 0
  {
    assert (tasks + [task])[..|tasks|] == tasks;
  }

  /** How many status reports are about the job. */
  function Posted(posts: seq<Post>, job: Job): nat {
    if posts == [] then 0
    else Posted(posts[..|posts| - 1], job) + if posts[|posts| - 1].job == job then 1 else 0
  }

  lemma PostedAppend(posts: seq<Post>, p: Post, job: Job)
    ensures Posted(posts + [p], job) == Posted(posts, job) + if p.job == job then 1 else 0
  {
    assert (posts + [p])[..|posts|] == posts;
  }
}
