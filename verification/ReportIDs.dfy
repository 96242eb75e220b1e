/**
 Under which job ID reports arrive. Each worker takes its job ID from the command line that was printed for
 it; whether that is the ID of its own job can be read off the line, and decides whether some ID is ever
 reported twice.
 */
module ReportIDs {
  import opened Common
  import opened ShellWords
  import opened WorkerConfig
  import opened WorkerCmd
  import opened WorkerCommand
  import opened CommandRoundTrip
  import opened CommandEffects
  import OutputIngest
  import PiazzaJobs
  import Sizing
  import opened WorkerExec
  import opened DispatchProtocol
  import opened DispatchSafety

  /** If a task can be created for the job, its line starts nothing but a worker that takes the job's own ID. */
  ghost predicate KeepsOwnID(w: World, job: Job) {
    HandsOut(w, job) && Prepare(w, job).Success? ==>
      KeepsID(Prepare(w, job).value.command, job.id, ServiceOf(w), w.unmatched)
  }

  ghost predicate FetchedKeepIDs(w: World, s: State) {
    forall job: Job :: s.fetched[job] > 0 ==> KeepsOwnID(w, job)
  }

  ghost predicate OwnIDs(s: State) {
    forall p :: 0 <= p < |s.posts| ==> s.posts[p].jobID == s.posts[p].job.id
  }

  lemma {:induction false} ConfirmedIsLaunched(tasks: seq<Task>, t: nat)
    requires t < |tasks| && tasks[t].confirmed
    ensures Launched(tasks, tasks[t].job) > 0
  {
    if t < |tasks| - 1 { ConfirmedIsLaunched(tasks[..|tasks| - 1], t); }
  }

  /** Every task is the task of a job that was fetched. */
  lemma TaskWasFetched(w: World, s: State, t: nat)
    requires w.errorMeansNoTask && FromJobs(w, s) && t < |s.tasks| && FetchesBalanced(s, s.tasks[t].job)
    ensures TaskFromJob(w, s.tasks[t]) && s.fetched[s.tasks[t].job] > 0
  {
    assert TaskFromJob(w, s.tasks[t]);
    ConfirmedIsLaunched(s.tasks, t);
  }

  /** A line that keeps its job's ID is contained. */
  lemma KeptIsContained(w: World, job: Job)
    requires KeepsOwnID(w, job)
    ensures !Strays(w, job)
  {
  }

  /** The worker of a task starts under the ID of the task's job. */
  lemma WorkerHasOwnID(w: World, s: State, t: nat, env: Environment)
    requires w.errorMeansNoTask && FromJobs(w, s) && FetchedKeepIDs(w, s)
    requires t < |s.tasks| && FetchesBalanced(s, s.tasks[t].job)
    requires WorkerConfigOf(w, s.tasks[t], env).Success?
    ensures WorkerConfigOf(w, s.tasks[t], env).value.jobID == s.tasks[t].job.id
  {
    TaskWasFetched(w, s, t);
    assert KeepsOwnID(w, s.tasks[t].job);
    StartedFromFlags(s.tasks[t].req.command, env, w.unmatched);
  }

  lemma StepOwnIDs(w: World, s: State, a: Action)
    requires w.errorMeansNoTask && Enabled(w, s, a)
    requires FromJobs(w, s) && OwnIDs(s) && FetchedKeepIDs(w, s)
    requires forall job: Job :: Balanced(s, job)
    ensures OwnIDs(Apply(w, s, a))
  {
    match a {
      case WorkerReports(t, env, _) =>
        assert Balanced(s, s.tasks[t].job);
        WorkerHasOwnID(w, s, t, env);
      case StrayReports(t, _, _) =>
        assert Balanced(s, s.tasks[t].job);
        TaskWasFetched(w, s, t);
        KeptIsContained(w, s.tasks[t].job);
        assert false;
      case _ =>
    }
  }

  lemma {:induction false} FetchedGrows(w: World, s: State, run: seq<Action>)
    requires Legal(w, s, run)
    ensures forall job: Job :: s.fetched[job] <= After(w, s, run).fetched[job]
    decreases |run|
  {
    if run != [] { FetchedGrows(w, Apply(w, s, run[0]), run[1..]); }
  }

  /** If the lines of all fetched jobs keep their IDs, every report carries the ID of its own job. */
  lemma {:induction false} RunOwnIDs(w: World, s: State, run: seq<Action>)
    requires w.errorMeansNoTask && Legal(w, s, run)
    requires FromJobs(w, s) && OwnIDs(s) && FetchedKeepIDs(w, After(w, s, run))
    requires forall job: Job :: Balanced(s, job)
    ensures OwnIDs(After(w, s, run))
    decreases |run|
  {
    if run != [] {
      var t := Apply(w, s, run[0]);
      FetchedGrows(w, s, run);
      StepOwnIDs(w, s, run[0]);
      StepFromJobs(w, s, run[0]);
      forall job: Job ensures Balanced(t, job) { StepBalanced(w, s, run[0], job); }
      RunOwnIDs(w, t, run[1..]);
    }
  }

  /** Piazza hands out no job ID twice. */
  ghost predicate HandedOutOnce(s: State) {
    && (forall job: Job :: s.fetched[job] <= 1)
    && (forall a: Job, b: Job :: s.fetched[a] > 0 && s.fetched[b] > 0 && a.id == b.id ==> a == b)
  }

  ghost predicate DistinctIDs(posts: seq<Post>) {
    forall i, k :: 0 <= i < k < |posts| ==> posts[i].jobID != posts[k].jobID
  }

  lemma {:induction false} PostedTwice(posts: seq<Post>, i: nat, k: nat)
    requires i <= k < |posts| && posts[i].job == posts[k].job
    ensures Posted(posts, posts[k].job) >= if i < k then 2 else 1
    decreases |posts|
  {
    var n := |posts| - 1;
    if k < n {
      PostedTwice(posts[..n], i, k);
    } else if i < k {
      PostedTwice(posts[..n], i, i);
    }
  }

  /** A job is reported only if it was fetched. */
  lemma ReportedWasFetched(w: World, s: State, job: Job)
    requires w.errorMeansNoTask && FromJobs(w, s) && Balanced(s, job)
    requires s.strays[job] > 0 ==> s.fetched[job] > 0
    requires Posted(s.posts, job) > 0
    ensures s.fetched[job] > 0
  {
    forall t | 0 <= t < |s.tasks|
      ensures s.tasks[t].confirmed
    {
      assert TaskFromJob(w, s.tasks[t]);
    }
    ReportsNeedLaunches(s.tasks, job);
  }

  /** If the lines of the jobs keep their IDs, a report about a job is the only one, if the job was fetched once. */
  lemma {:induction false} ReportedAtMostOnce(w: World, n: nat, others: nat, run: seq<Action>, i: nat)
    requires w.errorMeansNoTask && Legal(w, Init(n, others), run)
    requires FetchedKeepIDs(w, After(w, Init(n, others), run))
    requires i < |After(w, Init(n, others), run).posts|
    ensures
      var s := After(w, Init(n, others), run);
      0 < Posted(s.posts, s.posts[i].job) <= s.fetched[s.posts[i].job]
  {
    var s0 := Init(n, others);
    var s := After(w, s0, run);
    var job := s.posts[i].job;
    PostedTwice(s.posts, i, i);
    NoneHeld(s0.loops, job);
    RunFromJobs(w, s0, run);
    RunBalanced(w, s0, run, job);
    StraysAreFetched(w, s0, run, job);
    ReportedWasFetched(w, s, job);
    KeptIsContained(w, job);
    AtMostOneReportPerFetch(w, n, others, run, job);
  }

  /** Reports from beside a worker come from tasks of jobs that were fetched. */
  lemma {:induction false} StraysAreFetched(w: World, s: State, run: seq<Action>, job: Job)
    requires w.errorMeansNoTask && Legal(w, s, run) && FromJobs(w, s)
    requires s.strays[job] > 0 ==> s.fetched[job] > 0
    requires Balanced(s, job)
    ensures After(w, s, run).strays[job] > 0 ==> After(w, s, run).fetched[job] > 0
    decreases |run|
  {
    if run != [] {
      if run[0].StrayReports? && s.tasks[run[0].t].job == job {
        TaskWasFetched(w, s, run[0].t);
      }
      StepFromJobs(w, s, run[0]);
      StepBalanced(w, s, run[0], job);
      StraysAreFetched(w, Apply(w, s, run[0]), run[1..], job);
    }
  }

  /**
   End to end: if Piazza hands out each job ID once and the lines of the jobs keep their IDs, no job ID ever
   receives two status reports, from whichever of dispatcher and worker.
   */
  lemma {:induction false} NoJobIDIsReportedTwice(w: World, n: nat, others: nat, run: seq<Action>)
    requires w.errorMeansNoTask && Legal(w, Init(n, others), run)
    requires HandedOutOnce(After(w, Init(n, others), run)) && FetchedKeepIDs(w, After(w, Init(n, others), run))
    ensures DistinctIDs(After(w, Init(n, others), run).posts)
  {
    var s0 := Init(n, others);
    var s := After(w, s0, run);
    forall job: Job ensures Balanced(s0, job) { NoneHeld(s0.loops, job); }
    RunOwnIDs(w, s0, run);
    forall i, k | 0 <= i < k < |s.posts|
      ensures s.posts[i].jobID != s.posts[k].jobID
    {
      ReportedAtMostOnce(w, n, others, run, i);
      ReportedAtMostOnce(w, n, others, run, k);
      if s.posts[i].job == s.posts[k].job {
        PostedTwice(s.posts, i, k);
        assert false;
      }
    }
  }

  // ---- the converse ----

  /** An outside world in which every worker reports. */
  const REPORTING_WORLD := ExecWorld(
    _ => Completed(None), _ => CmdOutput("", "", None), _ => CmdOutput("", "", None),
    (_, _) => Completed(OutputIngest.MultiIngestOutput(map[], [], None)), _ => "",
    PiazzaJobs.IngestWorld(Some(""), None, None, "", _ => PiazzaJobs.RequestFailed("")), None)

  lemma StartsAndReports(w: World, job: Job)
    requires HandsOut(w, job) && Prepare(w, job).Success?
    requires StartFlags(Prepare(w, job).value.command, w.unmatched).Some?
    ensures Reportable(w, job, FullEnvironment(w.configFile), REPORTING_WORLD)
    ensures ReportedID(w, job, FullEnvironment(w.configFile))
         == StartFlags(Prepare(w, job).value.command, w.unmatched).value.jobID
  {
    var f := StartFlags(Prepare(w, job).value.command, w.unmatched).value;
    assert Accepted(f, FullEnvironment(w.configFile));
    var cfg := ReadBack(Prepare(w, job).value.command, FullEnvironment(w.configFile), w.unmatched).value;
    FinalStatus(cfg, REPORTING_WORLD);
  }

  /** The worker of the task that runs last reports, and the task ends. */
  lemma ReportAndExit(w: World, s: State, before: seq<Task>, task: Task) returns (run: seq<Action>)
    requires s.tasks == before + [task] && task.phase.Running?
    requires Reportable(w, task.job, FullEnvironment(w.configFile), REPORTING_WORLD)
    requires task.req == Prepare(w, task.job).value
    ensures Legal(w, s, run)
    ensures
      var t := After(w, s, run);
      && t.loops == s.loops && t.others == s.others && t.fetched == s.fetched
      && t.tasks == before + [task.(phase := Gone(true))]
      && |t.posts| == |s.posts| + 1 && t.posts[..|s.posts|] == s.posts
      && t.posts[|s.posts|].jobID == ReportedID(w, task.job, FullEnvironment(w.configFile))
  {
    var k := |before|;
    var status := WorkerReportRuns(w, s, k, task.job, FullEnvironment(w.configFile), REPORTING_WORLD);
    var a, b := WorkerReports(k, FullEnvironment(w.configFile), REPORTING_WORLD), TaskExits(k);
    var s1 := Apply(w, s, a);
    run := [a, b];
    TwoSteps(w, s, a, s1, b);
    assert (before + [task])[k := task.(phase := Gone(true))] == before + [task.(phase := Gone(true))];
  }

  /** Loop 0 takes a job, its worker reports and its task ends. */
  lemma {:induction false} JobIsReported(w: World, s: State, job: Job) returns (run: seq<Action>)
    requires |s.loops| > 0 && s.loops[0].Idle? && Visible(w, s) == 0 && w.limit >= 1
    requires Reportable(w, job, FullEnvironment(w.configFile), REPORTING_WORLD)
    ensures Legal(w, s, run)
    ensures
      var t := After(w, s, run);
      && t.loops == s.loops && Visible(w, t) == 0 && t.fetched == s.fetched + multiset{job}
      && |t.posts| == |s.posts| + 1 && t.posts[..|s.posts|] == s.posts
      && t.posts[|s.posts|].jobID == ReportedID(w, job, FullEnvironment(w.configFile))
  {
    var start := JobStarts(w, s, job);
    var task := LaunchedTask(w, job).(phase := Running);
    var rest := ReportAndExit(w, After(w, s, start), s.tasks, task);
    RunsCompose(w, s, start, rest);
    run := start + rest;
    CountRunningAppend(s.tasks, task.(phase := Gone(true)));
  }

  /** A run that adds one report, continued by another that does. */
  lemma {:induction false} TwoReports(w: World, s: State, first: seq<Action>, second: seq<Action>)
    requires s.posts == [] && Legal(w, s, first) && Legal(w, After(w, s, first), second)
    requires |After(w, s, first).posts| == 1
    requires |After(w, After(w, s, first), second).posts| == 2
    requires After(w, After(w, s, first), second).posts[..1] == After(w, s, first).posts
    ensures Legal(w, s, first + second)
    ensures After(w, s, first + second) == After(w, After(w, s, first), second)
    ensures After(w, s, first + second).posts[0] == After(w, s, first).posts[0]
  {
    RunsCompose(w, s, first, second);
    assert After(w, s, first + second).posts[0] == After(w, s, first + second).posts[..1][0];
  }

  lemma {:induction false} BothJobsReported(w: World, a: Job, b: Job) returns (run: seq<Action>)
    requires w.limit >= 1
    requires Reportable(w, a, FullEnvironment(w.configFile), REPORTING_WORLD)
    requires Reportable(w, b, FullEnvironment(w.configFile), REPORTING_WORLD)
    ensures Legal(w, Init(1, 0), run)
    ensures
      var t := After(w, Init(1, 0), run);
      && t.fetched == multiset{} + multiset{a} + multiset{b} && |t.posts| == 2
      && t.posts[0].jobID == ReportedID(w, a, FullEnvironment(w.configFile))
      && t.posts[1].jobID == ReportedID(w, b, FullEnvironment(w.configFile))
  {
    var first := JobIsReported(w, Init(1, 0), a);
    var second := JobIsReported(w, After(w, Init(1, 0), first), b);
    TwoReports(w, Init(1, 0), first, second);
    run := first + second;
  }

  /** Nothing in the fields that the dispatcher puts between quotes ends the quotes. */
  ghost predicate QuotedSafely(w: World, job: Job) {
    w.decode(job.content).Some? ==> HeadSafe(w.loop, w.decode(job.content).value, job.id)
  }

  /** Piazza hands out jobs with safe quoted fields only, and any body under any ID that is safe itself. */
  ghost predicate OffersSafely(w: World) {
    && (forall job: Job :: HandsOut(w, job) ==> QuotedSafely(w, job))
    && (forall job: Job, id: string :: w.offers(job) && NoQuote(id) ==> w.offers(job.(id := id)))
  }

  /** The job whose ID the worker of this job takes, given the same body, reports under it as well. */
  lemma OtherJobSameID(w: World, job: Job) returns (other: Job)
    requires HandsOut(w, job) && Prepare(w, job).Success? && OffersSafely(w)
    requires StartFlags(Prepare(w, job).value.command, w.unmatched).Some?
    requires StartFlags(Prepare(w, job).value.command, w.unmatched).value.jobID != job.id
    ensures other == Job(StartFlags(Prepare(w, job).value.command, w.unmatched).value.jobID, job.content)
    ensures HandsOut(w, other) && Prepare(w, other).Success?
    ensures StartFlags(Prepare(w, other).value.command, w.unmatched)
         == StartFlags(Prepare(w, job).value.command, w.unmatched)
  {
    StartIDQuoteFree(Prepare(w, job).value.command, w.unmatched);
    other := job.(id := StartFlags(Prepare(w, job).value.command, w.unmatched).value.jobID);
    SameBodySameFlags(w.loop, w.decode(job.content).value, job.id, w.unmatched);
  }

  /** Two jobs, each handed out once, and two reports under one ID. */
  ghost predicate OneIDTwice(w: World, run: seq<Action>) {
    && Legal(w, Init(1, 0), run)
    && var s := After(w, Init(1, 0), run);
    && HandedOutOnce(s) && |s.posts| == 2 && s.posts[0].jobID == s.posts[1].jobID
  }

  lemma TwoJobsFetched(w: World, s: State, a: Job, b: Job)
    requires s.fetched == multiset{} + multiset{a} + multiset{b} && a.id != b.id
    ensures HandedOutOnce(s)
  {
  }

  /** A job whose line gives its worker another ID: that ID is reported twice once its own job comes. */
  lemma {:induction false} OverriddenIDReportedTwice(w: World, job: Job) returns (run: seq<Action>)
    requires w.limit >= 1 && HandsOut(w, job) && Prepare(w, job).Success? && OffersSafely(w)
    requires StartFlags(Prepare(w, job).value.command, w.unmatched).Some?
    requires StartFlags(Prepare(w, job).value.command, w.unmatched).value.jobID != job.id
    ensures OneIDTwice(w, run)
    ensures After(w, Init(1, 0), run).posts[0].jobID
         == StartFlags(Prepare(w, job).value.command, w.unmatched).value.jobID
  {
    var other := OtherJobSameID(w, job);
    StartsAndReports(w, job);
    StartsAndReports(w, other);
    run := BothJobsReported(w, job, other);
    TwoJobsFetched(w, After(w, Init(1, 0), run), job, other);
  }

  /** A job whose line does not keep its ID can bring two reports under one ID. */
  lemma {:induction false} LostIDReportedTwice(w: World, job: Job) returns (run: seq<Action>)
    requires w.limit >= 1 && OffersSafely(w) && !KeepsOwnID(w, job)
    ensures OneIDTwice(w, run)
  {
    if Strays(w, job) {
      var p := Post(job, job.id, StatusSuccess);
      run := StrayLineReportsTwice(w, job, p, p);
    } else {
      run := OverriddenIDReportedTwice(w, job);
    }
  }

  /** Over all runs in which each job is handed out once, no ID is reported twice. */
  ghost predicate IDsReportedOnce(w: World) {
    forall run :: Legal(w, Init(1, 0), run) && HandedOutOnce(After(w, Init(1, 0), run)) ==>
      DistinctIDs(After(w, Init(1, 0), run).posts)
  }

  ghost predicate AllKeepIDs(w: World) {
    forall job: Job :: KeepsOwnID(w, job)
  }

  /**
   For any set of bodies whose quoted fields are safe, under any safe IDs: that holds exactly when an error
   means that there is no task and the line of every job that Piazza may hand out keeps its ID.
   */
  lemma {:induction false} IDsReportedOnceIff(w: World, job: Job, env: Environment, exec: ExecWorld)
    requires w.limit >= 1 && Reportable(w, job, env, exec) && OffersSafely(w)
    ensures IDsReportedOnce(w) <==> w.errorMeansNoTask && AllKeepIDs(w)
  {
    if w.errorMeansNoTask && AllKeepIDs(w) {
      forall run | Legal(w, Init(1, 0), run) && HandedOutOnce(After(w, Init(1, 0), run))
        ensures DistinctIDs(After(w, Init(1, 0), run).posts)
      {
        NoJobIDIsReportedTwice(w, 1, 0, run);
      }
    }
    if IDsReportedOnce(w) {
      forall j: Job
        ensures KeepsOwnID(w, j)
      {
        if !KeepsOwnID(w, j) {
          var run := LostIDReportedTwice(w, j);
          assert false;
        }
      }
      if !w.errorMeansNoTask {
        var run := LeftoverTaskReportsTwice(w, job, env, exec);
        assert KeepsOwnID(w, job);
        StartedFromFlags(Prepare(w, job).value.command, env, w.unmatched);
        assert HandedOutOnce(After(w, Init(1, 0), run));
        assert false;
      }
    }
  }

  /** One output with a blank in its name is enough: the other ID is reported by both jobs' workers. */
  lemma {:induction false} BlankInOutputStealsID(
      w: World, input: JobInput, v: string, job: Job, other: string) returns (run: seq<Action>)
    requires w.limit >= 1 && HandsOut(w, job) && OffersSafely(w) && other != job.id
    requires |input.inExtFiles| == |input.inExtNames| && input.outGeoJs == [v]
    requires w.decode(job.content) == Some(input.(outGeoJs := [v + (" --jobID " + other)]))
    requires SafeJob(w.loop, input, job.id, w.unmatched) && PlainWord(other, w.unmatched)
    requires w.loop.configPath != "" && w.loop.svcID != ""
    ensures OneIDTwice(w, run) && After(w, Init(1, 0), run).posts[0].jobID == other
  {
    OverriddenIDIsNotKept(w.loop, input, v, job.id, other, w.unmatched);
    run := OverriddenIDReportedTwice(w, job);
  }

  // ---- the simple guard ----

  /** Quoted fields without quotes, plain values, and a command that is arguments of the service's program. */
  predicate IsPlain(w: World, input: JobInput, jobID: string)
    requires |input.inExtFiles| == |input.inExtNames|
  {
    && HeadSafe(w.loop, input, jobID) && RunsAlone(w.configFile.0, input.command, w.unmatched)
    && forall i :: 0 <= i < |JobFlags(input)| ==> PlainWord(JobFlags(input)[i].1, w.unmatched)
  }

  ghost predicate OffersPlainly(w: World) {
    forall job: Job ::
      HandsOut(w, job) && w.decode(job.content).Some?
      && |w.decode(job.content).value.inExtFiles| == |w.decode(job.content).value.inExtNames|
      ==> IsPlain(w, w.decode(job.content).value, job.id)
  }

  /** Where Piazza hands out plain jobs only, no line strays and every line keeps its job's ID. */
  lemma PlainJobsAreSafe(w: World)
    requires OffersPlainly(w)
    ensures NoJobStrays(w) && AllKeepIDs(w)
  {
    forall job: Job
      ensures KeepsOwnID(w, job) && !Strays(w, job)
    {
      if HandsOut(w, job) && Prepare(w, job).Success? {
        PlainJobKeepsID(w.loop, w.decode(job.content).value, job.id, ServiceOf(w), w.unmatched);
      }
    }
  }

  const PLAIN_INPUT := JobInput("", "u", [], [], ["o"])

  /** A world in which the conditions of the equivalences are met and both of their sides hold. */
  function PlainWorld(): World {
    World(1, "", LoopConfig("c", "s"), (job: Job) => NoQuote(job.id), _ => Some(PLAIN_INPUT), _ => Sizing.RequestFailed,
          0, 0, true, true, 50, ("algorithm", "version"), false)
  }

  lemma PlainWorldIsSafe(job: Job)
    requires HandsOut(PlainWorld(), job)
    ensures OffersSafely(PlainWorld()) && OffersPlainly(PlainWorld())
    ensures Reportable(PlainWorld(), job, FullEnvironment(PlainWorld().configFile), REPORTING_WORLD)
    ensures OneReportPerFetch(PlainWorld()) && IDsReportedOnce(PlainWorld())
  {
    var w := PlainWorld();
    var env := FullEnvironment(w.configFile);
    LettersArePlain("o", false);
    AlgorithmIsAProgram();
    assert OffersPlainly(w);
    SafeJobIsRecovered(w.loop, PLAIN_INPUT, job.id, env, false);
    StartedFromFlags(Prepare(w, job).value.command, env, false);
    StartsAndReports(w, job);
    PlainJobsAreSafe(w);
    OneReportPerFetchIff(w, job, env, REPORTING_WORLD);
    IDsReportedOnceIff(w, job, env, REPORTING_WORLD);
  }

  lemma AlgorithmIsAProgram()
    ensures NamesProgram("algorithm", false)
  {
    LettersArePlain("algorithm", false);
    WordsOfPrint([Bare("algorithm")], false);
    assert Print([Bare("algorithm")]) == "algorithm";
    assert '=' !in Texts([Bare("algorithm")])[0];
  }
}
