/** What every run of the dispatcher protocol keeps: the task cap, the jobs, the status reports. */
module DispatchSafety {
  import opened Common
  import opened WorkerConfig
  import opened WorkerCmd
  import opened WorkerCommand
  import opened ShellWords
  import opened CommandRoundTrip
  import opened CommandEffects
  import opened WorkerExec
  import opened DispatchProtocol

  // ---- the cap ----

  function CountLive(tasks: seq<Task>): nat {
    if tasks == [] then 0
    else CountLive(tasks[..|tasks| - 1]) + if tasks[|tasks| - 1].phase.Gone? then 0 else 1
  }

  /** All tasks of the app that exist, counted by Cloud Foundry or not. */
  function Live(s: State): nat { CountLive(s.tasks) + s.others }

  ghost predicate NonePending(tasks: seq<Task>) {
    forall t :: 0 <= t < |tasks| ==> !tasks[t].phase.Pending?
  }

  lemma {:induction false} LiveIsRunning(tasks: seq<Task>)
    requires NonePending(tasks)
    ensures CountLive(tasks) == CountRunning(tasks)
  {
    if tasks != [] {
      LiveIsRunning(tasks[..|tasks| - 1]);
    }
  }

  /** Existing tasks, and loops that may still create one, stay within the bound. */
  ghost predicate WithinBound(s: State, bound: int) { Live(s) + CountPast(s.loops) <= bound }

  /** If this action lets a loop pass the check, the count saw every task there is: none pending, none off the page. */
  ghost predicate SeesAll(w: World, s: State, a: Action) {
    a.Loop? && a.step.Counted? && Visible(w, s) < w.limit ==>
      NonePending(s.tasks) && RunningTasks(s) <= w.page
  }

  ghost predicate CountsSeeAll(w: World, s: State, run: seq<Action>)
    requires Legal(w, s, run)
    decreases |run|
  {
    run == [] || (SeesAll(w, s, run[0]) && CountsSeeAll(w, Apply(w, s, run[0]), run[1..]))
  }

  lemma {:induction false} CountLiveUpdate(tasks: seq<Task>, t: nat, task: Task)
    requires t < |tasks|
    ensures CountLive(tasks[t := task])
         == CountLive(tasks) - (if tasks[t].phase.Gone? then 0 else 1) + (if task.phase.Gone? then 0 else 1)
  {
    var n := |tasks| - 1;
    if t < n {
      assert tasks[t := task][..n] == tasks[..n][t := task];
      CountLiveUpdate(tasks[..n], t, task);
    } else {
      assert tasks[t := task][..n] == tasks[..n];
    }
  }

  lemma CountLiveAppend(tasks: seq<Task>, task: Task)
    ensures CountLive(tasks + [task]) == CountLive(tasks) + if task.phase.Gone? then 0 else 1
  {
    assert (tasks + [task])[..|tasks|] == tasks;
  }

  lemma AddedTaskIsLive(w: World, pc: LoopPc, step: LoopStep, tasks: seq<Task>)
    requires LoopEnabled(w, pc, step)
    ensures CountLive(tasks + NewTasks(w, pc, step)) == CountLive(tasks) + |NewTasks(w, pc, step)|
  {
    var more := NewTasks(w, pc, step);
    if more == [] {
      assert tasks + more == tasks;
    } else {
      assert more == [more[0]];
      CountLiveAppend(tasks, more[0]);
    }
  }

  lemma LoopStepBound(w: World, s: State, l: nat, step: LoopStep, bound: int)
    requires l < |s.loops| && LoopEnabled(w, s.loops[l], step) && SeesAll(w, s, Loop(l, step))
    requires WithinBound(s, bound) && w.limit - 1 + |s.loops| <= bound
    ensures WithinBound(ApplyLoop(w, s, l, step), bound)
  {
    var pc := s.loops[l];
    var next := NextPc(w, pc, step, Visible(w, s));
    AddedTaskIsLive(w, pc, step, s.tasks);
    CountPastUpdate(s.loops, l, next);
    CountPastBound(s.loops[l := next]);
    if step.Counted? && Visible(w, s) < w.limit { LiveIsRunning(s.tasks); }
  }

  lemma StepBound(w: World, s: State, a: Action, bound: int)
    requires Enabled(w, s, a) && SeesAll(w, s, a)
    requires WithinBound(s, bound) && w.limit - 1 + |s.loops| <= bound
    ensures WithinBound(Apply(w, s, a), bound) && |Apply(w, s, a).loops| == |s.loops|
  {
    match a {
      case Loop(l, step) => LoopStepBound(w, s, l, step, bound);
      case OtherExits =>
      case StrayReports(_, _, _) =>
      case TaskStarts(t) => CountLiveUpdate(s.tasks, t, s.tasks[t].(phase := Running));
      case WorkerReports(t, _, _) => CountLiveUpdate(s.tasks, t, s.tasks[t].(phase := Reported));
      case TaskExits(t) => CountLiveUpdate(s.tasks, t, s.tasks[t].(phase := Gone(s.tasks[t].phase.Reported?)));
    }
  }

  lemma {:induction false} RunBound(w: World, s: State, run: seq<Action>, bound: int)
    requires Legal(w, s, run) && CountsSeeAll(w, s, run)
    requires WithinBound(s, bound) && w.limit - 1 + |s.loops| <= bound
    ensures WithinBound(After(w, s, run), bound)
    decreases |run|
  {
    if run != [] {
      StepBound(w, s, run[0], bound);
      RunBound(w, Apply(w, s, run[0]), run[1..], bound);
    }
  }

  lemma {:induction false} NonePast(loops: seq<LoopPc>)
    requires forall l :: 0 <= l < |loops| ==> loops[l].Idle?
    ensures CountPast(loops) == 0
  {
    if loops != [] { NonePast(loops[..|loops| - 1]); }
  }

  function Max(a: int, b: int): int { if a >= b then a else b }

  /**
   The cap, for any number of loops, any limit and any interleaving: in every run in which each count that lets
   a loop pass saw all tasks, the app never has more than limit - 1 + n tasks, unless it started with more, and
   then no more than that.
   */
  lemma {:induction false} TaskCap(w: World, n: nat, others: nat, run: seq<Action>)
    requires Legal(w, Init(n, others), run) && CountsSeeAll(w, Init(n, others), run)
    ensures
      var s := After(w, Init(n, others), run);
      Live(s) + CountPast(s.loops) <= Max(others, w.limit - 1 + n)
  {
    NonePast(Init(n, others).loops);
    RunBound(w, Init(n, others), run, Max(others, w.limit - 1 + n));
  }

  /** One loop alone never exceeds its limit. */
  lemma {:induction false} SingleLoopCap(w: World, run: seq<Action>)
    requires w.limit >= 0 && Legal(w, Init(1, 0), run) && CountsSeeAll(w, Init(1, 0), run)
    ensures Live(After(w, Init(1, 0), run)) <= w.limit
  {
    TaskCap(w, 1, 0, run);
  }

  lemma StepKeepsNonePending(w: World, s: State, a: Action)
    requires w.createdIsRunning && Enabled(w, s, a) && NonePending(s.tasks)
    ensures NonePending(Apply(w, s, a).tasks)
  {
    match a {
      case Loop(l, step) =>
        assert forall t :: 0 <= t < |NewTasks(w, s.loops[l], step)| ==>
                 !NewTasks(w, s.loops[l], step)[t].phase.Pending?;
      case _ =>
    }
  }

  /** Where created tasks count at once, and the limit fits in a page, every count that lets a loop pass sees all. */
  lemma {:induction false} CreatedRunningSeesAll(w: World, s: State, run: seq<Action>)
    requires w.createdIsRunning && w.limit <= w.page && NonePending(s.tasks) && Legal(w, s, run)
    ensures CountsSeeAll(w, s, run)
    decreases |run|
  {
    if run != [] {
      StepKeepsNonePending(w, s, run[0]);
      CreatedRunningSeesAll(w, Apply(w, s, run[0]), run[1..]);
    }
  }

  // ---- runs that reach the bound, or pass it ----

  function CheckCap(l: nat): seq<Action> { [Loop(l, GotSession), Loop(l, Counted)] }

  function Launch(l: nat, job: Job): seq<Action> {
    [Loop(l, FetchedJob(job)), Loop(l, Prepared), Loop(l, Created)]
  }

  lemma CheckCapRuns(w: World, s: State, l: nat)
    requires l < |s.loops| && s.loops[l].Idle? && Visible(w, s) < w.limit
    ensures Legal(w, s, CheckCap(l)) && After(w, s, CheckCap(l)) == s.(loops := s.loops[l := UnderCap])
  {
    var s1 := s.(loops := s.loops[l := HaveSession]);
    SessionStep(w, s, l);
    CountStep(w, s1, l);
    TwoSteps(w, s, Loop(l, GotSession), s1, Loop(l, Counted));
    assert s1.loops[l := UnderCap] == s.loops[l := UnderCap];
  }

  /** The task that launching this job creates. */
  function LaunchedTask(w: World, job: Job): Task
    requires Prepare(w, job).Success?
  {
    NewTask(w, Requesting(job, Prepare(w, job).value), true)
  }

  lemma LaunchRuns(w: World, s: State, l: nat, job: Job)
    requires l < |s.loops| && s.loops[l].UnderCap?
    requires HandsOut(w, job) && Prepare(w, job).Success?
    ensures Legal(w, s, Launch(l, job))
    ensures After(w, s, Launch(l, job))
         == s.(loops := s.loops[l := Idle], tasks := s.tasks + [LaunchedTask(w, job)],
               fetched := s.fetched + multiset{job})
  {
    var req := Prepare(w, job).value;
    var s1 := s.(loops := s.loops[l := Holding(job)], fetched := s.fetched + multiset{job});
    var s2 := s1.(loops := s1.loops[l := Requesting(job, req)]);
    FetchStep(w, s, l, job);
    PrepareStep(w, s1, l, job);
    CreateStep(w, s2, l, job, req);
    ThreeSteps(w, s, Loop(l, FetchedJob(job)), s1, Loop(l, Prepared), s2, Loop(l, Created));
    assert s2.loops[l := Idle] == s.loops[l := Idle];
  }

  lemma RunsMeet(w: World, s: State, a: seq<Action>, s1: State, b: seq<Action>, s2: State)
    requires Legal(w, s, a) && After(w, s, a) == s1
    requires Legal(w, s1, b) && After(w, s1, b) == s2
    ensures Legal(w, s, a + b) && After(w, s, a + b) == s2
  {
    RunsCompose(w, s, a, b);
  }

  lemma LaunchFromCap(w: World, s: State, l: nat, job: Job)
    requires l < |s.loops| && s.loops[l].Idle?
    requires HandsOut(w, job) && Prepare(w, job).Success?
    ensures Legal(w, s.(loops := s.loops[l := UnderCap]), Launch(l, job))
    ensures After(w, s.(loops := s.loops[l := UnderCap]), Launch(l, job))
         == s.(tasks := s.tasks + [LaunchedTask(w, job)], fetched := s.fetched + multiset{job})
  {
    var s1 := s.(loops := s.loops[l := UnderCap]);
    LaunchRuns(w, s1, l, job);
    assert s1.loops[l := Idle] == s.loops;
  }

  /** An undisturbed check and launch add one task. */
  lemma RoundLaunches(w: World, s: State, l: nat, job: Job)
    requires l < |s.loops| && s.loops[l].Idle? && Visible(w, s) < w.limit
    requires HandsOut(w, job) && Prepare(w, job).Success?
    ensures Legal(w, s, CheckCap(l) + Launch(l, job))
    ensures After(w, s, CheckCap(l) + Launch(l, job))
         == s.(tasks := s.tasks + [LaunchedTask(w, job)], fetched := s.fetched + multiset{job})
  {
    var s1 := s.(loops := s.loops[l := UnderCap]);
    CheckCapRuns(w, s, l);
    LaunchFromCap(w, s, l, job);
    RunsMeet(w, s, CheckCap(l), s1, Launch(l, job), After(w, s1, Launch(l, job)));
  }

  lemma RoundRuns(w: World, s: State, l: nat, job: Job)
    requires l < |s.loops| && s.loops[l].Idle? && Visible(w, s) < w.limit
    requires HandsOut(w, job) && Prepare(w, job).Success?
    ensures Legal(w, s, CheckCap(l) + Launch(l, job))
    ensures
      var t := After(w, s, CheckCap(l) + Launch(l, job));
      && t.loops == s.loops && Live(t) == Live(s) + 1
      && RunningTasks(t) == RunningTasks(s) + if w.createdIsRunning then 1 else 0
  {
    RoundLaunches(w, s, l, job);
    CountLiveAppend(s.tasks, LaunchedTask(w, job));
    CountRunningAppend(s.tasks, LaunchedTask(w, job));
  }

  /** The count stays below the limit whatever is created: it reads one page, or misses what is created. */
  predicate CountEscapes(w: World, s: State) {
    w.page < w.limit || (!w.createdIsRunning && Visible(w, s) < w.limit)
  }

  /** Loop 0 launches k tasks, as long as the count it sees stays below the limit. */
  lemma {:induction false} ManyRounds(w: World, s: State, k: nat, job: Job) returns (run: seq<Action>)
    requires |s.loops| > 0 && s.loops[0].Idle?
    requires HandsOut(w, job) && Prepare(w, job).Success?
    requires CountEscapes(w, s) || RunningTasks(s) + k <= w.limit
    ensures Legal(w, s, run)
    ensures
      var t := After(w, s, run);
      && t.loops == s.loops && Live(t) == Live(s) + k
      && RunningTasks(t) == RunningTasks(s) + if w.createdIsRunning then k else 0
    decreases k
  {
    if k == 0 {
      run := [];
    } else {
      RoundRuns(w, s, 0, job);
      var s1 := After(w, s, CheckCap(0) + Launch(0, job));
      if k == 1 {
        run := CheckCap(0) + Launch(0, job);
      } else {
        var rest := ManyRounds(w, s1, k - 1, job);
        RunsCompose(w, s, CheckCap(0) + Launch(0, job), rest);
        run := CheckCap(0) + Launch(0, job) + rest;
      }
    }
  }

  /** Loops k, k+1, ... all pass the check before any of them creates a task. */
  lemma {:induction false} AllPass(w: World, s: State, k: nat) returns (run: seq<Action>)
    requires k <= |s.loops| && Visible(w, s) < w.limit
    requires forall l :: k <= l < |s.loops| ==> s.loops[l].Idle?
    requires forall l :: 0 <= l < k ==> s.loops[l].UnderCap?
    ensures Legal(w, s, run)
    ensures
      var t := After(w, s, run);
      t == s.(loops := t.loops) && |t.loops| == |s.loops| && forall l :: 0 <= l < |t.loops| ==> t.loops[l].UnderCap?
    decreases |s.loops| - k
  {
    if k == |s.loops| {
      run := [];
    } else {
      CheckCapRuns(w, s, k);
      var s1 := After(w, s, CheckCap(k));
      var rest := AllPass(w, s1, k + 1);
      RunsCompose(w, s, CheckCap(k), rest);
      run := CheckCap(k) + rest;
    }
  }

  lemma {:induction false} AllLaunch(w: World, s: State, k: nat, job: Job) returns (run: seq<Action>)
    requires k <= |s.loops| && HandsOut(w, job) && Prepare(w, job).Success?
    requires forall l :: k <= l < |s.loops| ==> s.loops[l].UnderCap?
    ensures Legal(w, s, run) && Live(After(w, s, run)) == Live(s) + |s.loops| - k
    decreases |s.loops| - k
  {
    if k == |s.loops| {
      run := [];
    } else {
      LaunchRuns(w, s, k, job);
      var s1 := After(w, s, Launch(k, job));
      CountLiveAppend(s.tasks, LaunchedTask(w, job));
      var rest := AllLaunch(w, s1, k + 1, job);
      RunsCompose(w, s, Launch(k, job), rest);
      run := Launch(k, job) + rest;
    }
  }

  /** The cap of TaskCap is reached: n loops that check together overshoot the limit by n - 1. */
  lemma {:induction false} TaskCapIsTight(w: World, n: nat, job: Job) returns (run: seq<Action>)
    requires w.createdIsRunning && w.limit >= 1 && n >= 1
    requires HandsOut(w, job) && Prepare(w, job).Success?
    ensures Legal(w, Init(n, 0), run) && Live(After(w, Init(n, 0), run)) == w.limit - 1 + n
  {
    var s0 := Init(n, 0);
    var r1 := ManyRounds(w, s0, w.limit - 1, job);
    var s1 := After(w, s0, r1);
    var r2 := AllPass(w, s1, 0);
    var s2 := After(w, s1, r2);
    var r3 := AllLaunch(w, s2, 0, job);
    RunsCompose(w, s1, r2, r3);
    RunsCompose(w, s0, r1, r2 + r3);
    run := r1 + (r2 + r3);
  }

  /** Were created tasks not counted at once, one loop could create any number of them. */
  lemma {:induction false} PendingTasksEscapeTheCap(w: World, n: nat, m: nat, job: Job) returns (run: seq<Action>)
    requires !w.createdIsRunning && w.limit >= 1 && n >= 1
    requires HandsOut(w, job) && Prepare(w, job).Success?
    ensures Legal(w, Init(n, 0), run) && Live(After(w, Init(n, 0), run)) == m
  {
    run := ManyRounds(w, Init(n, 0), m, job);
  }

  /** Were the limit larger than a page, one loop could create any number, though every task runs at once. */
  lemma {:induction false} LargeLimitIsNoCap(w: World, n: nat, m: nat, job: Job) returns (run: seq<Action>)
    requires w.page < w.limit && n >= 1
    requires HandsOut(w, job) && Prepare(w, job).Success?
    ensures Legal(w, Init(n, 0), run) && Live(After(w, Init(n, 0), run)) == m
  {
    run := ManyRounds(w, Init(n, 0), m, job);
  }

  ghost predicate CapHolds(w: World, n: nat) {
    forall run :: Legal(w, Init(n, 0), run) ==> Live(After(w, Init(n, 0), run)) <= w.limit - 1 + n
  }

  /** The cap holds over all runs exactly when created tasks count at once and the limit fits in a page. */
  lemma {:induction false} CapHoldsExactly(w: World, n: nat, job: Job)
    requires w.limit >= 1 && n >= 1
    requires HandsOut(w, job) && Prepare(w, job).Success?
    ensures CapHolds(w, n) <==> w.createdIsRunning && w.limit <= w.page
  {
    if w.createdIsRunning && w.limit <= w.page {
      forall run | Legal(w, Init(n, 0), run)
        ensures Live(After(w, Init(n, 0), run)) <= w.limit - 1 + n
      {
        CreatedRunningSeesAll(w, Init(n, 0), run);
        TaskCap(w, n, 0, run);
      }
    } else if w.createdIsRunning {
      var run := LargeLimitIsNoCap(w, n, w.limit + n, job);
    } else {
      var run := PendingTasksEscapeTheCap(w, n, w.limit + n, job);
    }
  }

  // ---- conservation of jobs and reports ----

  /** Where the fetches of a job have gone. */
  ghost predicate FetchesBalanced(s: State, job: Job) {
    s.fetched[job] == Launched(s.tasks, job) + s.failed[job] + s.abandoned[job] + Held(s.loops, job)
  }

  /** What the reports about a job come from. */
  ghost predicate PostsBalanced(s: State, job: Job) {
    Posted(s.posts, job) == s.failed[job] + WorkerReported(s.tasks, job) + s.strays[job]
  }

  ghost predicate Balanced(s: State, job: Job) { FetchesBalanced(s, job) && PostsBalanced(s, job) }

  lemma NewTasksCounted(w: World, s: State, l: nat, step: LoopStep, job: Job)
    requires l < |s.loops| && LoopEnabled(w, s.loops[l], step)
    ensures
      var tasks := s.tasks + NewTasks(w, s.loops[l], step);
      && Launched(tasks, job) == Launched(s.tasks, job) + (if step.Created? && s.loops[l].job == job then 1 else 0)
      && WorkerReported(tasks, job) == WorkerReported(s.tasks, job)
  {
    var more := NewTasks(w, s.loops[l], step);
    if more == [] {
      assert s.tasks + more == s.tasks;
    } else {
      assert more == [more[0]];
      TasksAppend(s.tasks, more[0], job);
    }
  }

  lemma LoopStepFetches(w: World, s: State, l: nat, step: LoopStep, job: Job)
    requires FetchesBalanced(s, job) && l < |s.loops| && LoopEnabled(w, s.loops[l], step)
    ensures FetchesBalanced(ApplyLoop(w, s, l, step), job)
  {
    HeldUpdate(s.loops, l, NextPc(w, s.loops[l], step, Visible(w, s)), job);
    NewTasksCounted(w, s, l, step, job);
  }

  lemma LoopStepPosts(w: World, s: State, l: nat, step: LoopStep, job: Job)
    requires PostsBalanced(s, job) && l < |s.loops| && LoopEnabled(w, s.loops[l], step)
    ensures PostsBalanced(ApplyLoop(w, s, l, step), job)
  {
    var pc := s.loops[l];
    NewTasksCounted(w, s, l, step, job);
    if step.ReportFail? { PostedAppend(s.posts, Post(pc.job, pc.job.id, StatusFail), job); }
  }

  /** A worker makes one report. */
  lemma OnePost(w: World, s: State, t: nat, env: Environment, exec: ExecWorld, job: Job)
    requires Enabled(w, s, WorkerReports(t, env, exec))
    ensures Posted(Apply(w, s, WorkerReports(t, env, exec)).posts, job)
         == Posted(s.posts, job) + if s.tasks[t].job == job then 1 else 0
  {
    var cfg := WorkerConfigOf(w, s.tasks[t], env).value;
    FinalStatus(cfg, exec);
    var more := Carried(s.tasks[t].job, cfg.jobID, ExecPosts(cfg, exec));
    assert more == [more[0]];
    PostedAppend(s.posts, more[0], job);
  }

  lemma StepBalanced(w: World, s: State, a: Action, job: Job)
    requires Balanced(s, job) && Enabled(w, s, a)
    ensures Balanced(Apply(w, s, a), job)
  {
    match a {
      case Loop(l, step) =>
        LoopStepFetches(w, s, l, step, job);
        LoopStepPosts(w, s, l, step, job);
      case OtherExits =>
      case StrayReports(t, jobID, status) => PostedAppend(s.posts, Post(s.tasks[t].job, jobID, status), job);
      case TaskStarts(t) => TasksUpdate(s.tasks, t, s.tasks[t].(phase := Running), job);
      case WorkerReports(t, env, exec) =>
        TasksUpdate(s.tasks, t, s.tasks[t].(phase := Reported), job);
        OnePost(w, s, t, env, exec, job);
      case TaskExits(t) =>
        TasksUpdate(s.tasks, t, s.tasks[t].(phase := Gone(s.tasks[t].phase.Reported?)), job);
    }
  }

  lemma {:induction false} RunBalanced(w: World, s: State, run: seq<Action>, job: Job)
    requires Balanced(s, job) && Legal(w, s, run)
    ensures Balanced(After(w, s, run), job)
    decreases |run|
  {
    if run != [] {
      StepBalanced(w, s, run[0], job);
      RunBalanced(w, Apply(w, s, run[0]), run[1..], job);
    }
  }

  lemma {:induction false} NoneHeld(loops: seq<LoopPc>, job: Job)
    requires forall l :: 0 <= l < |loops| ==> loops[l].Idle?
    ensures Held(loops, job) == 0
  {
    if loops != [] { NoneHeld(loops[..|loops| - 1], job); }
  }

  lemma {:induction false} HeldBound(loops: seq<LoopPc>, job: Job)
    ensures Held(loops, job) <= |loops|
  {
    if loops != [] { HeldBound(loops[..|loops| - 1], job); }
  }

  /**
   Conservation: in every run, every fetch of a job is a task created, a reported failure, an abandonment
   without a report, or in the hands of one of the loops; and nothing else is ever launched or reported.
   */
  lemma {:induction false} JobsAreConserved(w: World, n: nat, others: nat, run: seq<Action>, job: Job)
    requires Legal(w, Init(n, others), run)
    ensures
      var s := After(w, Init(n, others), run);
      && s.fetched[job] == Launched(s.tasks, job) + s.failed[job] + s.abandoned[job] + Held(s.loops, job)
      && Held(s.loops, job) <= |s.loops|
      && Launched(s.tasks, job) <= s.fetched[job]
      && Posted(s.posts, job) == s.failed[job] + WorkerReported(s.tasks, job) + s.strays[job]
  {
    NoneHeld(Init(n, others).loops, job);
    RunBalanced(w, Init(n, others), run, job);
    HeldBound(After(w, Init(n, others), run).loops, job);
  }

  /** A job in a loop's hands has a body, and a request is what the job prepares to. */
  ghost predicate PcFromJob(w: World, pc: LoopPc) {
    && (pc.Holding? || pc.Requesting? || pc.Failing? ==> HandsOut(w, pc.job))
    && (pc.Requesting? ==> Prepare(w, pc.job) == Success(pc.req))
  }

  /** So it is with a task; and an error leaves no task where it means there is none. */
  ghost predicate TaskFromJob(w: World, t: Task) {
    && HandsOut(w, t.job) && Prepare(w, t.job) == Success(t.req)
    && (w.errorMeansNoTask ==> t.confirmed)
  }

  /** The line printed for the job can do more than start its worker. */
  ghost predicate Strays(w: World, job: Job) {
    HandsOut(w, job) && Prepare(w, job).Success? && !Contained(Prepare(w, job).value.command, ServiceOf(w), w.unmatched)
  }

  ghost predicate FromJobs(w: World, s: State) {
    && (forall l :: 0 <= l < |s.loops| ==> PcFromJob(w, s.loops[l]))
    && (forall t :: 0 <= t < |s.tasks| ==> TaskFromJob(w, s.tasks[t]))
    && (forall job: Job :: s.strays[job] > 0 ==> Strays(w, job))
  }

  lemma LoopStepFromJobs(w: World, s: State, l: nat, step: LoopStep)
    requires FromJobs(w, s) && l < |s.loops| && LoopEnabled(w, s.loops[l], step)
    ensures FromJobs(w, ApplyLoop(w, s, l, step))
  {
    var pc := s.loops[l];
    assert PcFromJob(w, pc);
    assert PcFromJob(w, NextPc(w, pc, step, Visible(w, s)));
    assert forall t :: 0 <= t < |NewTasks(w, pc, step)| ==> TaskFromJob(w, NewTasks(w, pc, step)[t]);
  }

  lemma PhaseKeepsFromJobs(w: World, s: State, t: nat, phase: Phase)
    requires FromJobs(w, s) && t < |s.tasks|
    ensures FromJobs(w, SetPhase(s, t, phase))
  {
    assert TaskFromJob(w, s.tasks[t]);
  }

  lemma StrayFromJobs(w: World, s: State, t: nat, jobID: string, status: Status)
    requires FromJobs(w, s) && Enabled(w, s, StrayReports(t, jobID, status))
    ensures FromJobs(w, Apply(w, s, StrayReports(t, jobID, status)))
  {
    assert TaskFromJob(w, s.tasks[t]);
    assert Strays(w, s.tasks[t].job);
  }

  lemma StepFromJobs(w: World, s: State, a: Action)
    requires FromJobs(w, s) && Enabled(w, s, a)
    ensures FromJobs(w, Apply(w, s, a))
  {
    match a {
      case Loop(l, step) => LoopStepFromJobs(w, s, l, step);
      case OtherExits =>
      case StrayReports(t, jobID, status) => StrayFromJobs(w, s, t, jobID, status);
      case TaskStarts(t) => PhaseKeepsFromJobs(w, s, t, Running);
      case WorkerReports(t, _, _) => PhaseKeepsFromJobs(w, s, t, Reported);
      case TaskExits(t) => PhaseKeepsFromJobs(w, s, t, Gone(s.tasks[t].phase.Reported?));
    }
  }

  lemma {:induction false} RunFromJobs(w: World, s: State, run: seq<Action>)
    requires FromJobs(w, s) && Legal(w, s, run)
    ensures FromJobs(w, After(w, s, run))
    decreases |run|
  {
    if run != [] {
      StepFromJobs(w, s, run[0]);
      RunFromJobs(w, Apply(w, s, run[0]), run[1..]);
    }
  }

  // ---- at most one report ----

  lemma {:induction false} ReportsNeedLaunches(tasks: seq<Task>, job: Job)
    requires forall t :: 0 <= t < |tasks| ==> tasks[t].confirmed
    ensures WorkerReported(tasks, job) <= Launched(tasks, job)
  {
    if tasks != [] { ReportsNeedLaunches(tasks[..|tasks| - 1], job); }
  }

  /**
   If an error means that there is no task, no job whose line is contained is reported on more often than it
   was fetched.
   */
  lemma {:induction false} AtMostOneReportPerFetch(w: World, n: nat, others: nat, run: seq<Action>, job: Job)
    requires w.errorMeansNoTask && Legal(w, Init(n, others), run) && !Strays(w, job)
    ensures
      var s := After(w, Init(n, others), run);
      && Posted(s.posts, job) <= s.fetched[job]
      && (s.fetched[job] <= 1 && s.failed[job] > 0 ==> WorkerReported(s.tasks, job) == 0)
      && (s.abandoned[job] == s.fetched[job] ==> Posted(s.posts, job) == 0)
  {
    JobsAreConserved(w, n, others, run, job);
    RunFromJobs(w, Init(n, others), run);
    ReportsNeedLaunches(After(w, Init(n, others), run).tasks, job);
  }

  /** Fetch a job and be told that its task could not be created, although it was. */
  function FailedCreate(job: Job): seq<Action> {
    [Loop(0, FetchedJob(job)), Loop(0, Prepared), Loop(0, CreateError(true))]
  }

  lemma FailedCreateRuns(w: World, s: State, job: Job)
    requires !w.errorMeansNoTask && s.loops == [UnderCap] && s.tasks == []
    requires HandsOut(w, job) && Prepare(w, job).Success?
    ensures Legal(w, s, FailedCreate(job))
    ensures
      After(w, s, FailedCreate(job))
   == s.(loops := [Failing(job)], tasks := [LaunchedTask(w, job).(confirmed := false)],
         fetched := s.fetched + multiset{job})
  {
    var req := Prepare(w, job).value;
    var s1 := s.(loops := s.loops[0 := Holding(job)], fetched := s.fetched + multiset{job});
    var s2 := s1.(loops := s1.loops[0 := Requesting(job, req)]);
    FetchStep(w, s, 0, job);
    PrepareStep(w, s1, 0, job);
    CreateErrorStep(w, s2, 0, job, req, true);
    assert s2.tasks + Leftover(w, job, req, true) == [LaunchedTask(w, job).(confirmed := false)];
    assert s2.loops[0 := Failing(job)] == [Failing(job)];
    ThreeSteps(w, s, Loop(0, FetchedJob(job)), s1, Loop(0, Prepared), s2, Loop(0, CreateError(true)));
  }

  /** In this environment a worker starts from the job's line, and this outside world lets it report. */
  ghost predicate Reportable(w: World, job: Job, env: Environment, exec: ExecWorld) {
    && HandsOut(w, job) && Prepare(w, job).Success?
    && ReadBack(Prepare(w, job).value.command, env, w.unmatched).Success?
    && FindsService(w, ReadBack(Prepare(w, job).value.command, env, w.unmatched).value, env)
    && ExecPosts(ReadBack(Prepare(w, job).value.command, env, w.unmatched).value, exec) != []
  }

  /** The job ID under which that worker reports. */
  ghost function ReportedID(w: World, job: Job, env: Environment): string
    requires Prepare(w, job).Success? && ReadBack(Prepare(w, job).value.command, env, w.unmatched).Success?
  {
    ReadBack(Prepare(w, job).value.command, env, w.unmatched).value.jobID
  }

  /** The task that was created last runs, whether or not it did at once. */
  lemma TaskRuns(w: World, s: State, task: Task) returns (run: seq<Action>)
    requires s.tasks != [] && s.tasks[|s.tasks| - 1] == task
    requires task.phase == if w.createdIsRunning then Running else Pending
    ensures Legal(w, s, run)
    ensures After(w, s, run) == s.(tasks := s.tasks[..|s.tasks| - 1] + [task.(phase := Running)])
  {
    run := [];
    var k := |s.tasks| - 1;
    assert s.tasks[k := task.(phase := Running)] == s.tasks[..k] + [task.(phase := Running)];
    if !w.createdIsRunning {
      Extend(w, s, [], TaskStarts(k));
      run := [] + [TaskStarts(k)];
    }
  }

  /** What a worker's report is carried as. */
  lemma CarriedReport(job: Job, cfg: Config, exec: ExecWorld) returns (status: Status)
    requires ExecPosts(cfg, exec) != []
    ensures Carried(job, cfg.jobID, ExecPosts(cfg, exec)) == [Post(job, cfg.jobID, status)]
  {
    FinalStatus(cfg, exec);
    status := ExecPosts(cfg, exec)[0].status;
  }

  /** A running task's worker reports. */
  lemma WorkerReportRuns(w: World, s: State, t: nat, job: Job, env: Environment, exec: ExecWorld)
    returns (status: Status)
    requires Reportable(w, job, env, exec)
    requires t < |s.tasks| && s.tasks[t].phase.Running?
    requires s.tasks[t].job == job && s.tasks[t].req == Prepare(w, job).value
    ensures Enabled(w, s, WorkerReports(t, env, exec))
    ensures Apply(w, s, WorkerReports(t, env, exec))
         == SetPhase(s, t, Reported).(posts := s.posts + [Post(job, ReportedID(w, job, env), status)])
  {
    status := CarriedReport(job, ReadBack(Prepare(w, job).value.command, env, w.unmatched).value, exec);
  }

  /** The leftover task runs and reports, and so does the dispatcher. */
  lemma BothReport(w: World, s: State, job: Job, env: Environment, exec: ExecWorld) returns (run: seq<Action>)
    requires Reportable(w, job, env, exec)
    requires s.loops == [Failing(job)] && s.tasks == [LaunchedTask(w, job).(confirmed := false)] && s.posts == []
    ensures Legal(w, s, run)
    ensures
      var t := After(w, s, run);
      && t.fetched == s.fetched && |t.posts| == 2 && t.posts[0].job == t.posts[1].job == job
      && t.posts[0].jobID == ReportedID(w, job, env) && t.posts[1].jobID == job.id
  {
    var run0 := TaskRuns(w, s, s.tasks[0]);
    var s5 := After(w, s, run0);
    var _ := WorkerReportRuns(w, s5, 0, job, env, exec);
    var a6, a7 := WorkerReports(0, env, exec), Loop(0, ReportFail);
    var s6 := Apply(w, s5, a6);
    ReportStep(w, s6, 0, job);
    TwoSteps(w, s5, a6, s6, a7);
    RunsCompose(w, s, run0, [a6, a7]);
    run := run0 + [a6, a7];
  }

  lemma TwoPosts(posts: seq<Post>, job: Job)
    requires |posts| == 2 && posts[0].job == posts[1].job == job
    ensures Posted(posts, job) == 2
  {
    assert posts == [posts[0]] + [posts[1]] && [posts[0]] == [] + [posts[0]];
    PostedAppend([], posts[0], job);
    PostedAppend([posts[0]], posts[1], job);
  }

  lemma {:induction false} FailedCreateFromStart(w: World, job: Job) returns (run: seq<Action>)
    requires !w.errorMeansNoTask && w.limit >= 1 && HandsOut(w, job) && Prepare(w, job).Success?
    ensures Legal(w, Init(1, 0), run)
    ensures
      After(w, Init(1, 0), run)
   == Init(1, 0).(loops := [Failing(job)], tasks := [LaunchedTask(w, job).(confirmed := false)],
                  fetched := multiset{job})
  {
    var s1 := Init(1, 0).(loops := [UnderCap]);
    CheckCapRuns(w, Init(1, 0), 0);
    assert Init(1, 0).loops[0 := UnderCap] == [UnderCap];
    FailedCreateRuns(w, s1, job);
    run := CheckCap(0) + FailedCreate(job);
    RunsMeet(w, Init(1, 0), CheckCap(0), s1, FailedCreate(job), After(w, s1, FailedCreate(job)));
  }

  /** If a task may exist in spite of an error, one fetch can lead to two reports. */
  lemma {:induction false} LeftoverTaskReportsTwice(w: World, job: Job, env: Environment, exec: ExecWorld)
    returns (run: seq<Action>)
    requires !w.errorMeansNoTask && w.limit >= 1 && Reportable(w, job, env, exec)
    ensures Legal(w, Init(1, 0), run)
    ensures
      var t := After(w, Init(1, 0), run);
      && t.fetched == multiset{job} && Posted(t.posts, job) == 2
      && |t.posts| == 2 && t.posts[0].jobID == ReportedID(w, job, env) && t.posts[1].jobID == job.id
  {
    var first := FailedCreateFromStart(w, job);
    var s2 := After(w, Init(1, 0), first);
    var rest := BothReport(w, s2, job, env, exec);
    RunsCompose(w, Init(1, 0), first, rest);
    run := first + rest;
    TwoPosts(After(w, Init(1, 0), run).posts, job);
  }

  /** Loop 0 takes a job and its task runs. */
  lemma {:induction false} JobStarts(w: World, s: State, job: Job) returns (run: seq<Action>)
    requires |s.loops| > 0 && s.loops[0].Idle? && Visible(w, s) < w.limit
    requires HandsOut(w, job) && Prepare(w, job).Success?
    ensures Legal(w, s, run)
    ensures After(w, s, run)
         == s.(tasks := s.tasks + [LaunchedTask(w, job).(phase := Running)], fetched := s.fetched + multiset{job})
  {
    RoundLaunches(w, s, 0, job);
    var s1 := After(w, s, CheckCap(0) + Launch(0, job));
    var start := TaskRuns(w, s1, LaunchedTask(w, job));
    assert s1.tasks[..|s.tasks|] == s.tasks;
    RunsCompose(w, s, CheckCap(0) + Launch(0, job), start);
    run := CheckCap(0) + Launch(0, job) + start;
  }

  /** A dispatcher's first job, and its task running. */
  lemma {:induction false} FirstJobStarts(w: World, job: Job) returns (run: seq<Action>)
    requires w.limit >= 1 && HandsOut(w, job) && Prepare(w, job).Success?
    ensures Legal(w, Init(1, 0), run)
    ensures After(w, Init(1, 0), run)
         == Init(1, 0).(tasks := [LaunchedTask(w, job).(phase := Running)], fetched := multiset{job})
  {
    run := JobStarts(w, Init(1, 0), job);
    assert [] + [LaunchedTask(w, job).(phase := Running)] == [LaunchedTask(w, job).(phase := Running)];
  }

  /** From the running task of a line that is not contained, any two reports can come. */
  lemma StraysRun(w: World, s: State, p: Post, q: Post) returns (run: seq<Action>)
    requires |s.tasks| > 0 && s.tasks[0].phase.Running? && p.job == q.job == s.tasks[0].job && s.posts == []
    requires !Contained(s.tasks[0].req.command, ServiceOf(w), w.unmatched)
    ensures Legal(w, s, run)
    ensures After(w, s, run).posts == [p, q] && After(w, s, run).fetched == s.fetched
  {
    var a, b := StrayReports(0, p.jobID, p.status), StrayReports(0, q.jobID, q.status);
    run := [a, b];
    TwoSteps(w, s, a, Apply(w, s, a), b);
    assert s.posts + [p] + [q] == [p, q];
  }

  /** A line that is not contained can bring any two reports after one fetch. */
  lemma {:induction false} StrayLineReportsTwice(w: World, job: Job, p: Post, q: Post) returns (run: seq<Action>)
    requires w.limit >= 1 && Strays(w, job) && p.job == q.job == job
    ensures Legal(w, Init(1, 0), run)
    ensures After(w, Init(1, 0), run).fetched == multiset{job} && After(w, Init(1, 0), run).posts == [p, q]
  {
    var start := FirstJobStarts(w, job);
    var s1 := After(w, Init(1, 0), start);
    var rest := StraysRun(w, s1, p, q);
    RunsMeet(w, Init(1, 0), start, s1, rest, After(w, s1, rest));
    run := start + rest;
  }

  ghost predicate OneReportPerFetch(w: World) {
    forall run, job: Job :: Legal(w, Init(1, 0), run) ==>
      Posted(After(w, Init(1, 0), run).posts, job) <= After(w, Init(1, 0), run).fetched[job]
  }

  /** The line of every job that may be handed out is contained. */
  ghost predicate NoJobStrays(w: World) {
    forall job: Job :: !Strays(w, job)
  }

  /**
   Over all runs, one report per fetch holds exactly when an error means that there is no task and the line of
   every job that may be handed out is contained.
   */
  lemma {:induction false} OneReportPerFetchIff(w: World, job: Job, env: Environment, exec: ExecWorld)
    requires w.limit >= 1 && Reportable(w, job, env, exec)
    ensures OneReportPerFetch(w) <==> w.errorMeansNoTask && NoJobStrays(w)
  {
    if w.errorMeansNoTask && NoJobStrays(w) {
      forall run, j: Job | Legal(w, Init(1, 0), run)
        ensures Posted(After(w, Init(1, 0), run).posts, j) <= After(w, Init(1, 0), run).fetched[j]
      {
        AtMostOneReportPerFetch(w, 1, 0, run, j);
      }
    }
    if OneReportPerFetch(w) {
      if !w.errorMeansNoTask {
        var run := LeftoverTaskReportsTwice(w, job, env, exec);
        assert false;
      }
      forall j: Job
        ensures !Strays(w, j)
      {
        if Strays(w, j) {
          var p := Post(j, j.id, StatusSuccess);
          var run := StrayLineReportsTwice(w, j, p, p);
          TwoPosts(After(w, Init(1, 0), run).posts, j);
          assert false;
        }
      }
    }
  }

  /** A worker that starts from this text, and what it reports. */
  datatype WorkerStart = WorkerStart(text: string, env: Environment, exec: ExecWorld)

  ghost predicate Starts(w: World, start: WorkerStart) {
    && ReadBack(start.text, start.env, w.unmatched).Success?
    && ExecPosts(ReadBack(start.text, start.env, w.unmatched).value, start.exec) != []
  }

  /** The report of that worker, about the job whose task it runs in. */
  ghost function ReportOfStart(w: World, job: Job, start: WorkerStart): Post
    requires Starts(w, start)
  {
    var cfg := ReadBack(start.text, start.env, w.unmatched).value;
    Post(job, cfg.jobID, ExecPosts(cfg, start.exec)[0].status)
  }

  /** What a worker's step adds to the reports: those its Exec makes, under the ID it was started with. */
  lemma WorkerReportsAreExecs(w: World, s: State, t: nat, env: Environment, exec: ExecWorld)
    requires Enabled(w, s, WorkerReports(t, env, exec))
    ensures
      var cfg := ReadBack(s.tasks[t].req.command, env, w.unmatched).value;
      var posts, made := Apply(w, s, WorkerReports(t, env, exec)).posts, ExecPosts(cfg, exec);
      && |posts| == |s.posts| + |made| && posts[..|s.posts|] == s.posts
      && forall i :: 0 <= i < |made| ==>
           && posts[|s.posts| + i].job == s.tasks[t].job && posts[|s.posts| + i].status == made[i].status
           && made[i].address == cfg.piazzaBaseURL + "/service/" + cfg.piazzaServiceID + "/task/"
                                 + posts[|s.posts| + i].jobID
  {
    var cfg := ReadBack(s.tasks[t].req.command, env, w.unmatched).value;
    CarriedFields(s.tasks[t].job, cfg, exec);
  }

  lemma CarriedFields(job: Job, cfg: Config, exec: ExecWorld)
    ensures
      var made, posts := ExecPosts(cfg, exec), Carried(job, cfg.jobID, ExecPosts(cfg, exec));
      && |posts| == |made|
      && forall i :: 0 <= i < |made| ==>
           && posts[i].job == job && posts[i].status == made[i].status && posts[i].jobID == cfg.jobID
           && made[i].address == cfg.piazzaBaseURL + "/service/" + cfg.piazzaServiceID + "/task/" + cfg.jobID
  {
  }

  /** A line of two worker commands with a semicolon between them brings the reports of both workers. */
  lemma {:induction false} TwoCommandsReport(w: World, job: Job, a: WorkerStart, b: WorkerStart)
    returns (run: seq<Action>)
    requires w.limit >= 1 && HandsOut(w, job) && Prepare(w, job).Success?
    requires Prepare(w, job).value.command == a.text + ";" + b.text && Starts(w, a) && Starts(w, b)
    ensures Legal(w, Init(1, 0), run)
    ensures After(w, Init(1, 0), run).fetched == multiset{job}
    ensures After(w, Init(1, 0), run).posts == [ReportOfStart(w, job, a), ReportOfStart(w, job, b)]
  {
    LexStops(a.text, ';', b.text, Between, w.unmatched);
    run := StrayLineReportsTwice(w, job, ReportOfStart(w, job, a), ReportOfStart(w, job, b));
  }

  /** An output that goes on, behind a semicolon, with a worker command: one fetch, no error, two reports. */
  lemma {:induction false} SemicolonReportsTwice(
      w: World, input: JobInput, v: string, job: Job, env: Environment, exec: ExecWorld) returns (run: seq<Action>)
    requires w.limit >= 1 && HandsOut(w, job)
    requires forall cfg: Config :: ExecPosts(cfg, exec) != []
    requires |input.inExtFiles| == |input.inExtNames| && input.outGeoJs == [v]
    requires w.decode(job.content) == Some(input.(outGeoJs := [v + (";" + Print(HiddenWords(job.id)))]))
    requires SafeJob(w.loop, input, job.id, w.unmatched) && Ready(w.loop, input, env)
    requires PlainWord(job.id, w.unmatched)
    ensures Legal(w, Init(1, 0), run)
    ensures
      var t := After(w, Init(1, 0), run);
      && t.fetched == multiset{job} && |t.posts| == 2 && Posted(t.posts, job) == 2
      && t.posts[0].jobID == t.posts[1].jobID == job.id
  {
    SemicolonStartsTwoWorkers(w.loop, input, v, job.id, env, w.unmatched);
    var a := WorkerStart(Print(JobWords(w.loop, input, job.id)), env, exec);
    var b := WorkerStart(Print(HiddenWords(job.id)), env, exec);
    run := TwoCommandsReport(w, job, a, b);
    TwoPosts(After(w, Init(1, 0), run).posts, job);
  }

  /**
   A service that names no program: a job's command that is itself a worker command brings the report of
   that worker and then the report of the worker that ran it.
   */
  lemma {:induction false} NestedWorkerReports(w: World, job: Job, outer: WorkerStart, inner: WorkerStart)
    returns (run: seq<Action>)
    requires w.limit >= 1 && HandsOut(w, job) && Prepare(w, job).Success?
    requires outer.text == Prepare(w, job).value.command && Starts(w, outer) && Starts(w, inner)
    requires FindsService(w, ReadBack(outer.text, outer.env, w.unmatched).value, outer.env)
    requires ReadBack(outer.text, outer.env, w.unmatched).value.configPath == w.loop.configPath
    requires IsIdle(ReadBack(outer.text, outer.env, w.unmatched).value.cliCmd)
    requires inner.text == FullCommand(ReadBack(outer.text, outer.env, w.unmatched).value)
    ensures Legal(w, Init(1, 0), run)
    ensures After(w, Init(1, 0), run).fetched == multiset{job}
    ensures After(w, Init(1, 0), run).posts == [ReportOfStart(w, job, inner), ReportOfStart(w, job, outer)]
  {
    StartedFromFlags(outer.text, outer.env, w.unmatched);
    FullCommandText(ReadBack(outer.text, outer.env, w.unmatched).value);
    BlankServiceRunsJob(w.configFile.0, StartFlags(outer.text, w.unmatched).value.cliExtra, w.unmatched);
    run := StrayLineReportsTwice(w, job, ReportOfStart(w, job, inner), ReportOfStart(w, job, outer));
  }

  /** So a job whose command is a worker command for any ID: that ID and the job's own are reported after one fetch. */
  lemma {:induction false} CommandReportsTwice(
      w: World, input: JobInput, job: Job, other: string, env: Environment, exec: ExecWorld)
    returns (run: seq<Action>)
    requires w.limit >= 1 && HandsOut(w, job) && w.decode(job.content) == Some(input)
    requires forall cfg: Config :: ExecPosts(cfg, exec) != []
    requires |input.inExtFiles| == |input.inExtNames| && input.command == Print(HiddenWords(other))
    requires SafeJob(w.loop, input, job.id, w.unmatched) && Ready(w.loop, input, env)
    requires PlainWord(other, w.unmatched) && Furnished(env) && env.configFile == Success(w.configFile)
    requires forall i :: 0 <= i < |w.configFile.0| ==> IsBlank(w.configFile.0[i])
    ensures Legal(w, Init(1, 0), run)
    ensures
      var t := After(w, Init(1, 0), run);
      t.fetched == multiset{job} && |t.posts| == 2 && t.posts[0].jobID == other && t.posts[1].jobID == job.id
  {
    CommandIsWorker(w.loop, input, job.id, other, w.configFile.0, env, w.unmatched);
    var outer := WorkerStart(Print(JobWords(w.loop, input, job.id)), env, exec);
    var cfg := ReadBack(outer.text, env, w.unmatched).value;
    FullCommandText(cfg);
    var inner := WorkerStart(FullCommand(cfg), env, exec);
    run := NestedWorkerReports(w, job, outer, inner);
  }
}
