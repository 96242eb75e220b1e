/**
 The worker as a whole: downloads under any schedule, commands, ingestion under any schedule, and the
 one status report that Piazza gets in the end.
 */
module EndToEnd {
  import opened Common
  import opened WorkerConfig
  import opened OutputIngest
  import opened PiazzaJobs
  import opened WorkerExec
  import F = FetchInputs
  import G = IngestFanout

  /**
   One run of a worker: what the outside does in it, and the schedules its goroutines happened to take.
   looks are the outputs as they are statted; replies are what IngestFile returns for the calls.
   */
  datatype WorkerRun = WorkerRun(
    cfg: Config, exec: ExecWorld,
    sources: seq<F.Source>, downloads: seq<F.Action>,
    looks: seq<Output>, replies: seq<G.Reply>, ingestion: seq<G.Action>)

  function IngestJob(r: WorkerRun): Job {
    Job(r.cfg.piazzaServiceID, FullCommand(r.cfg), TrimSpace(Version(r.cfg, r.exec).stdout))
  }

  function Fanout(r: WorkerRun): G.World {
    G.World(CallsFor(IngestJob(r), r.looks), r.replies, StatErrors(r.looks))
  }

  /** What is asked to be ingested for an output that is there, in terms of the configuration and the answers. */
  lemma CallOfRun(r: WorkerRun, i: nat)
    requires i < |r.looks| && r.looks[i].present
    ensures |CallsFor(IngestJob(r), r.looks[..i])| < |Fanout(r).calls|
    ensures
      var call := Fanout(r).calls[|CallsFor(IngestJob(r), r.looks[..i])|];
      && call.filePath == r.looks[i].filePath && call.serviceID == r.cfg.piazzaServiceID
      && call.algVersion == TrimSpace(r.exec.runVersion(r.cfg.versionCmd).stdout)
      && call.attMap == map["algoName" := r.cfg.piazzaServiceID,
                            "algoVersion" := TrimSpace(r.exec.runVersion(r.cfg.versionCmd).stdout),
                            "algoCmd" := r.cfg.cliCmd + " " + r.cfg.cliCommandExtra,
                            "algoProcTime" := r.looks[i].procTime]
  {
    CallOf(IngestJob(r), r.looks, i);
    FullCommandText(r.cfg);
  }

  /** The downloads ran to their end, and the fetch stage got their result. */
  ghost predicate DownloadsRan(r: WorkerRun) {
    && |r.sources| == |r.cfg.inputs|
    && F.ValidWorld(r.sources)
    && F.Legal(r.sources, F.INIT, r.downloads)
    && F.After(r.sources, F.INIT, r.downloads).main.Returned?
    && Fetched(r.cfg, r.exec) == Completed(F.After(r.sources, F.INIT, r.downloads).main.result)
  }

  /** The ingestion ran to its end, and the ingest stage got its output. */
  ghost predicate IngestionRan(r: WorkerRun) {
    && |r.looks| == |r.cfg.outputs|
    && (forall i :: 0 <= i < |r.looks| ==> r.looks[i].filePath == r.cfg.outputs[i])
    && G.ValidWorld(Fanout(r))
    && G.Legal(Fanout(r), G.Init(Fanout(r)), r.ingestion)
    && G.After(Fanout(r), G.Init(Fanout(r)), r.ingestion).main.Finished?
    && Files(r.cfg, r.exec) == Completed(G.After(Fanout(r), G.Init(Fanout(r)), r.ingestion).acc)
  }

  ghost predicate AllDownloaded(r: WorkerRun)
    requires F.ValidWorld(r.sources)
  {
    forall k :: 0 <= k < |r.sources| ==> F.Downloads(r.sources[k])
  }

  ghost predicate AllAnsweredWell(r: WorkerRun, procs: seq<G.Proc>) {
    forall k :: 0 <= k < |r.replies| && k < |procs| ==>
      procs[k].verdict == Some(G.Ingested) && r.replies[k].error.None?
  }

  ghost predicate NoErrorIn(results: seq<SingleIngestOutput>) {
    forall k :: 0 <= k < |results| ==> results[k].error.None?
  }

  /** Every output was there, and every ingestion answered in time and without error. */
  ghost predicate AllIngested(r: WorkerRun)
    requires IngestionRan(r)
  {
    && (forall i :: 0 <= i < |r.looks| ==> r.looks[i].present)
    && AllAnsweredWell(r, G.After(Fanout(r), G.Init(Fanout(r)), r.ingestion).procs)
  }

  lemma {:induction false} NoStatErrors(looks: seq<Output>)
    ensures StatErrors(looks) == [] <==> forall i :: 0 <= i < |looks| ==> looks[i].present
  {
    if looks != [] {
      var init := looks[..|looks| - 1];
      NoStatErrors(init);
      assert forall i :: 0 <= i < |init| ==> init[i] == looks[i];
    }
  }

  lemma {:induction false} NoResultErrors(results: seq<SingleIngestOutput>)
    ensures ErrorsOf(results) == [] <==> forall k :: 0 <= k < |results| ==> results[k].error.None?
  {
    if results != [] {
      var init := results[..|results| - 1];
      NoResultErrors(init);
      assert forall k :: 0 <= k < |init| ==> init[k] == results[k];
    }
  }

  /** The results the drain received, in call order. */
  ghost function ResultsOf(r: WorkerRun): seq<SingleIngestOutput>
    requires IngestionRan(r)
  {
    Flatten(G.Channels(G.After(Fanout(r), G.Init(Fanout(r)), r.ingestion)))
  }

  /** The stage's output is the sequential drain of one result per call. */
  lemma IngestStageDrains(r: WorkerRun)
    requires IngestionRan(r)
    ensures Files(r.cfg, r.exec) == Completed(Drained(StatErrors(r.looks), ResultsOf(r)))
    ensures |ResultsOf(r)| == |r.replies| == |CallsFor(IngestJob(r), r.looks)|
    ensures G.Decided(Fanout(r), G.After(Fanout(r), G.Init(Fanout(r)), r.ingestion))
    ensures ResultsOf(r)
         == G.Results(Fanout(r), G.Verdicts(Fanout(r), G.After(Fanout(r), G.Init(Fanout(r)), r.ingestion)))
  {
    G.EveryScheduleRefinesDrain(Fanout(r), r.ingestion);
    G.FinishedResults(Fanout(r), r.ingestion);
  }

  lemma ResultOfCall(w: G.World, verdicts: seq<G.Verdict>, k: nat)
    requires G.ValidWorld(w) && |verdicts| == |w.calls| && k < |verdicts|
    ensures G.Results(w, verdicts)[k].filePath == w.calls[k].filePath
    ensures G.Results(w, verdicts)[k].error.None? <==> verdicts[k] == G.Ingested && w.replies[k].error.None?
  {
  }

  lemma IngestStagePaths(r: WorkerRun)
    requires IngestionRan(r)
    ensures |ResultsOf(r)| == |CallsFor(IngestJob(r), r.looks)|
    ensures forall k :: 0 <= k < |ResultsOf(r)| ==>
              ResultsOf(r)[k].filePath == CallsFor(IngestJob(r), r.looks)[k].filePath
  {
    IngestStageDrains(r);
    var verdicts := G.Verdicts(Fanout(r), G.After(Fanout(r), G.Init(Fanout(r)), r.ingestion));
    forall k | 0 <= k < |verdicts|
      ensures ResultsOf(r)[k].filePath == CallsFor(IngestJob(r), r.looks)[k].filePath
    {
      ResultOfCall(Fanout(r), verdicts, k);
    }
  }

  lemma DrainedErrors(asmErrors: seq<string>, results: seq<SingleIngestOutput>)
    ensures Drained(asmErrors, results).combinedError.Some? <==> Drained(asmErrors, results).errors != []
    ensures Drained(asmErrors, results).errors == [] <==>
              asmErrors == [] && NoErrorIn(results)
  {
    NoResultErrors(results);
    assert |asmErrors + ErrorsOf(results)| == |asmErrors| + |ErrorsOf(results)|;
  }

  lemma ResultsAnsweredWell(r: WorkerRun, w: G.World, s: G.State)
    requires w == Fanout(r) && G.ValidWorld(w) && G.Decided(w, s)
    ensures NoErrorIn(G.Results(w, G.Verdicts(w, s))) <==> AllAnsweredWell(r, s.procs)
  {
    var results := G.Results(w, G.Verdicts(w, s));
    forall k | 0 <= k < |results|
      ensures results[k].error.None? <==> s.procs[k].verdict == Some(G.Ingested) && r.replies[k].error.None?
    {
      ResultOfCall(w, G.Verdicts(w, s), k);
    }
  }

  /** The ingest stage fails exactly when it has errors, and it has none exactly when everything was ingested. */
  lemma IngestStageErrors(r: WorkerRun)
    requires IngestionRan(r)
    ensures Files(r.cfg, r.exec).value.combinedError.Some? <==> Files(r.cfg, r.exec).value.errors != []
    ensures Files(r.cfg, r.exec).value.errors == [] <==> AllIngested(r)
  {
    IngestStageDrains(r);
    NoStatErrors(r.looks);
    DrainedErrors(StatErrors(r.looks), ResultsOf(r));
    ResultsAnsweredWell(r, Fanout(r), G.After(Fanout(r), G.Init(Fanout(r)), r.ingestion));
  }

  /**
   The status Piazza gets, for every schedule of downloads and ingestions and every outside world in which
   the worker does not crash while ingesting the body of its report: Success exactly if every download,
   both commands and every output succeeded and the body was ingested; Error exactly if something failed
   and the body was ingested; Fail exactly if it was not. A data ID comes with the first two.
   */
  lemma StatusEndToEnd(r: WorkerRun)
    requires DownloadsRan(r)
    requires CommandsSucceed(r.cfg, r.exec) ==> IngestionRan(r)
    requires !IngestOutcome(r.exec.report).IngestCrashed?
    ensures |ExecPosts(r.cfg, r.exec)| == 1
    ensures
      var post, body := ExecPosts(r.cfg, r.exec)[0], IngestOutcome(r.exec.report);
      var allDone := && AllDownloaded(r) && Version(r.cfg, r.exec).error.None? && Algorithm(r.cfg, r.exec).error.None?
                     && (CommandsSucceed(r.cfg, r.exec) ==> AllIngested(r));
      && (post.status == StatusSuccess <==> allDone && body.Ingested?)
      && (post.status == StatusError <==> !allDone && body.Ingested?)
      && (post.status == StatusFail <==> !body.Ingested?)
      && (post.dataID.Some? <==> body.Ingested?)
  {
    F.FetchedIffAllSucceed(r.sources, r.downloads);
    if CommandsSucceed(r.cfg, r.exec) {
      IngestStageErrors(r);
    }
    FinalStatus(r.cfg, r.exec);
  }

  ghost predicate LastOfItsName(outputs: seq<string>, i: nat)
    requires i < |outputs|
  {
    forall j :: i < j < |outputs| ==> outputs[j] != outputs[i]
  }

  /**
   Output coverage: results and stat errors are as many as the outputs, data IDs never more than the
   successes, and each path has the data ID that was answered for the last of its calls that succeeded; and a
   job reported without errors has exactly its outputs as keys of OutFiles, each with the answer to its last call.
   */
  lemma OutputCoverage(r: WorkerRun)
    requires IngestionRan(r)
    ensures |StatErrors(r.looks)| + |ResultsOf(r)| == |r.cfg.outputs|
    ensures |Files(r.cfg, r.exec).value.dataIDs| <= |SuccessesOf(ResultsOf(r))| <= |ResultsOf(r)|
    ensures
      var w, s := Fanout(r), G.After(Fanout(r), G.Init(Fanout(r)), r.ingestion);
      forall k :: 0 <= k < |r.replies| && |s.procs| == |w.calls| && G.LastForItsPath(w, s, k) ==>
        Lookup(Files(r.cfg, r.exec).value.dataIDs, w.calls[k].filePath) == Some(r.replies[k].dataID)
    ensures AllIngested(r) ==> Files(r.cfg, r.exec).value.dataIDs.Keys == set f | f in r.cfg.outputs
    ensures AllStagesSucceed(r.cfg, r.exec) ==>
              ExecOutput(r.cfg, r.exec).outFiles.Keys == set f | f in r.cfg.outputs
    ensures AllStagesSucceed(r.cfg, r.exec) ==> |r.replies| == |r.cfg.outputs|
    ensures AllStagesSucceed(r.cfg, r.exec) ==>
              forall i :: 0 <= i < |r.cfg.outputs| && i < |r.replies| && LastOfItsName(r.cfg.outputs, i) ==>
                Lookup(ExecOutput(r.cfg, r.exec).outFiles, r.cfg.outputs[i]) == Some(r.replies[i].dataID)
  {
    IngestStageErrors(r);
    IngestStageDrains(r);
    IngestStagePaths(r);
    CallPaths(IngestJob(r), r.looks);
    var results := ResultsOf(r);
    ResultsAreShared(results);
    WrittenKeys(SuccessesOf(results));
    G.OutputOfEverySchedule(Fanout(r), r.ingestion);
    if AllIngested(r) {
      PairKeys(results, CallsFor(IngestJob(r), r.looks));
      LookPaths(r.looks, r.cfg.outputs);
      AnswersToOutputs(r);
    }
  }

  /** When everything was ingested, the last call for an output's path has the output's data ID. */
  lemma AnswersToOutputs(r: WorkerRun)
    requires IngestionRan(r) && AllIngested(r)
    ensures |r.replies| == |r.cfg.outputs|
    ensures forall i :: 0 <= i < |r.cfg.outputs| && LastOfItsName(r.cfg.outputs, i) ==>
              Lookup(Files(r.cfg, r.exec).value.dataIDs, r.cfg.outputs[i]) == Some(r.replies[i].dataID)
  {
    var w := Fanout(r);
    var s := G.After(w, G.Init(w), r.ingestion);
    AllPresent(IngestJob(r), r.looks);
    G.OutputOfEverySchedule(w, r.ingestion);
    forall i | 0 <= i < |r.cfg.outputs| && LastOfItsName(r.cfg.outputs, i)
      ensures Lookup(s.acc.dataIDs, r.cfg.outputs[i]) == Some(r.replies[i].dataID)
    {
      assert w.calls[i].filePath == r.cfg.outputs[i];
      assert G.Succeeded(w, s, i);
      forall j | i < j < |w.calls|
        ensures w.calls[j].filePath != w.calls[i].filePath
      {
        assert w.calls[j].filePath == r.cfg.outputs[j];
      }
      assert G.LastForItsPath(w, s, i);
    }
  }

  lemma PairKeys(results: seq<SingleIngestOutput>, calls: seq<IngestorCall>)
    requires |results| == |calls| && forall k :: 0 <= k < |calls| ==> results[k].filePath == calls[k].filePath
    ensures (set kv | kv in Pairs(results) :: kv.0) == set c | c in calls :: c.filePath
  {
    forall c | c in calls
      ensures c.filePath in set kv | kv in Pairs(results) :: kv.0
    {
      var k :| 0 <= k < |calls| && calls[k] == c;
      assert Pairs(results)[k] in Pairs(results);
    }
    forall kv | kv in Pairs(results)
      ensures kv.0 in set c | c in calls :: c.filePath
    {
      var k :| 0 <= k < |results| && Pairs(results)[k] == kv;
      assert calls[k] in calls;
    }
  }

  lemma LookPaths(looks: seq<Output>, outputs: seq<string>)
    requires |looks| == |outputs| && forall i :: 0 <= i < |looks| ==> looks[i].filePath == outputs[i]
    requires forall i :: 0 <= i < |looks| ==> looks[i].present
    ensures (set o | o in looks && o.present :: o.filePath) == set f | f in outputs
  {
    forall f | f in outputs
      ensures f in set o | o in looks && o.present :: o.filePath
    {
      var i :| 0 <= i < |outputs| && outputs[i] == f;
      assert looks[i] in looks;
    }
  }
}
