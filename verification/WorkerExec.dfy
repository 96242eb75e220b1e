/**
 worker/workerexec and pzsvc/execresult.go: the worker's stages, the record they fill in, and the one
 status report that ends them.
 */
module WorkerExec {
  import opened Common
  import opened WorkerConfig
  import opened OutputIngest
  import opened PiazzaJobs

  datatype Status = StatusSuccess | StatusError | StatusFail

  /** One status report to Piazza; the data ID is the optional result. */
  datatype StatusPost = StatusPost(address: string, status: Status, dataID: Option<string>)

  /** The value of a workerOutputData. */
  datatype WorkerOutput = WorkerOutput(
    inFiles: map<string, string>, outFiles: map<string, string>,
    progStdOut: string, progStdErr: string, errors: seq<string>, httpStatus: int)

  function TaskAddress(pzAddr: string, svcID: string, jobID: string): string {
    pzAddr + "/service/" + svcID + "/task/" + jobID
  }

  /** The report that follows an attempt to ingest its body; none if the worker crashed on the way. */
  function Reports(address: string, status: Status, body: Ingestion): seq<StatusPost> {
    match body
    case Ingested(dataID) => [StatusPost(address, status, Some(dataID))]
    case NotIngested(_) => [StatusPost(address, StatusFail, None)]
    case IngestCrashed => []
  }

  /** The report's body goes up as text, under a name of its own. */
  method IngestBody(resultData: string, w: IngestWorld) returns (r: Ingestion, sent: seq<IngestRequest>)
    ensures r == IngestOutcome(w)
    ensures |sent| == if w.marshalError.None? then 1 else 0
    ensures sent != [] ==>
              sent[0] == IngestRequest("/data", "Output", "text", "", "text uploaded by pzsvc-taskworker.", map[],
                                       "application/text", resultData, None)
  {
    r, sent := Ingest("Output", "text", "pzsvc-taskworker", "", Some(resultData), map[], w);
    assert "text"[0] != "raster"[0] && "text"[0] != "geojson"[0];
    assert "text" + " uploaded by " + "pzsvc-taskworker" + "." == "text uploaded by pzsvc-taskworker.";
  }

  /** Piazza as the worker sees it: what it was asked to ingest and which statuses it was sent. */
  class Piazza {
    var ingests: seq<IngestRequest>
    var posts: seq<StatusPost>

    constructor ()
      ensures ingests == [] && posts == []
    {
      ingests, posts := [], [];
    }

    method SendExecResultNoData(pzAddr: string, svcID: string, jobID: string, status: Status, postError: Option<string>)
      returns (err: Option<string>)
      modifies this`posts
      ensures posts == old(posts) + [StatusPost(pzAddr + "/service/" + svcID + "/task/" + jobID, status, None)]
      ensures err == postError
    {
      posts := posts + [StatusPost(pzAddr + "/service/" + svcID + "/task/" + jobID, status, None)];
      return postError;
    }

    /** Ingests the body first; the status asked for is reported only if that worked. */
    method SendExecResultData(pzAddr: string, svcID: string, jobID: string, status: Status,
                              resultData: string, w: IngestWorld, postError: Option<string>)
      returns (crashed: bool, err: Option<string>)
      modifies this
      ensures crashed <==> IngestOutcome(w).IngestCrashed?
      ensures posts == old(posts) + Reports(TaskAddress(pzAddr, svcID, jobID), status, IngestOutcome(w))
      ensures
        var address := pzAddr + "/service/" + svcID + "/task/" + jobID;
        match IngestOutcome(w)
        case Ingested(dataID) => posts == old(posts) + [StatusPost(address, status, Some(dataID))]
        case NotIngested(_) => posts == old(posts) + [StatusPost(address, StatusFail, None)]
        case IngestCrashed => posts == old(posts)
      ensures |ingests| == |old(ingests)| + if w.marshalError.None? then 1 else 0
      ensures |ingests| > |old(ingests)| ==>
                && ingests[..|old(ingests)|] == old(ingests)
                && ingests[|old(ingests)|]
                   == IngestRequest("/data", "Output", "text", "", "text uploaded by pzsvc-taskworker.", map[],
                                    "application/text", resultData, None)
      ensures !crashed ==> err == postError
    {
      var outAddr := pzAddr + "/service/" + svcID + "/task/" + jobID;
      var outStatus, outResult := status, None;
      var r, sent := IngestBody(resultData, w);
      ingests := ingests + sent;
      match r {
        case IngestCrashed => return true, None;
        case NotIngested(_) => outStatus := StatusFail;
        case Ingested(dataID) => outResult := Some(dataID);
      }
      posts := posts + [StatusPost(outAddr, outStatus, outResult)];
      return false, postError;
    }
  }

  class WorkerOutputData {
    var inFiles: map<string, string>
    var outFiles: map<string, string>
    var progStdOut: string
    var progStdErr: string
    var errors: seq<string>
    var httpStatus: int

    constructor ()
      ensures Value() == WorkerOutput(map[], map[], "", "", [], 200)
    {
      inFiles, outFiles, progStdOut, progStdErr, errors, httpStatus := map[], map[], "", "", [], 200;
    }

    function Value(): WorkerOutput
      reads this
    {
      WorkerOutput(inFiles, outFiles, progStdOut, progStdErr, errors, httpStatus)
    }

    method AddErrors(errs: seq<string>)
      modifies this`errors
      ensures errors == old(errors) + errs
    {
      for i := 0 to |errs|
        invariant errors == old(errors) + errs[..i]
      {
        errors := errors + [errs[i]];
      }
      assert errs[..|errs|] == errs;
    }
  }

  /** What comes of calling a stage: a value, or a crash of the whole worker in one of its goroutines. */
  datatype Stage<+T> = Completed(value: T) | Panicked

  datatype CmdOutput = CmdOutput(stdout: string, stderr: string, error: Option<string>)

  /** Everything the stages get from outside, each stage by what it is asked. */
  datatype ExecWorld = ExecWorld(
    fetch: seq<InputSource> -> Stage<Option<string>>,
    runVersion: string -> CmdOutput,
    runAlgorithm: string -> CmdOutput,
    outputFiles: (string, string) -> Stage<MultiIngestOutput>,
    marshal: WorkerOutput -> string,
    report: IngestWorld,
    postError: Option<string>)

  /** unicode.IsSpace */
  predicate IsSpace(c: char) {
    || c == ' ' || '\t' <= c <= '\r' || c == '\U{85}' || c == '\U{A0}'
    || c == '\U{1680}' || '\U{2000}' <= c <= '\U{200A}'
    || c == '\U{2028}' || c == '\U{2029}' || c == '\U{202F}' || c == '\U{205F}' || c == '\U{3000}'
  }

  /** s is t with space around it, t being s[i..j]. */
  ghost predicate Around(s: string, t: string, i: nat, j: nat) {
    i <= j <= |s| && t == s[i..j] && forall k :: 0 <= k < i || j <= k < |s| ==> IsSpace(s[k])
  }

  lemma AroundInFront(s: string, t: string, i: nat, j: nat)
    requires s != "" && IsSpace(s[0]) && Around(s[1..], t, i, j)
    ensures Around(s, t, i + 1, j + 1)
  {
    assert s[1..][i..j] == s[i + 1..j + 1];
    assert forall k :: 0 < k < |s| ==> s[k] == s[1..][k - 1];
  }

  lemma AroundBehind(s: string, t: string, i: nat, j: nat)
    requires s != "" && IsSpace(s[|s| - 1]) && Around(s[..|s| - 1], t, i, j)
    ensures Around(s, t, i, j)
  {
    assert s[..|s| - 1][i..j] == s[i..j];
    assert forall k :: 0 <= k < |s| - 1 ==> s[k] == s[..|s| - 1][k];
  }

  /** Only space is trimmed, and all of it at both ends. */
  lemma {:induction false} TrimSpaceTrims(s: string) returns (i: nat, j: nat)
    ensures Around(s, TrimSpace(s), i, j)
    ensures TrimSpace(s) == "" || (!IsSpace(TrimSpace(s)[0]) && !IsSpace(TrimSpace(s)[|TrimSpace(s)| - 1]))
    decreases |s|
  {
    if s == "" || (!IsSpace(s[0]) && !IsSpace(s[|s| - 1])) {
      i, j := 0, |s|;
      assert s[i..j] == s;
    } else if IsSpace(s[0]) {
      i, j := TrimSpaceTrims(s[1..]);
      AroundInFront(s, TrimSpace(s[1..]), i, j);
      i, j := i + 1, j + 1;
    } else {
      i, j := TrimSpaceTrims(s[..|s| - 1]);
      AroundBehind(s, TrimSpace(s[..|s| - 1]), i, j);
    }
  }

  /** White space by code point: the six ASCII ones, and those that Unicode adds. */
  lemma SpacesExactly(c: char)
    ensures IsSpace(c) <==>
              || c as int in {9, 10, 11, 12, 13, 32, 0x85, 0xA0, 0x1680}
              || 0x2000 <= c as int <= 0x200A
              || c as int in {0x2028, 0x2029, 0x202F, 0x205F, 0x3000}
  {
  }

  /** strings.TrimSpace */
  function TrimSpace(s: string): string
    decreases |s|
  {
    if s == "" then s
    else if IsSpace(s[0]) then TrimSpace(s[1..])
    else if IsSpace(s[|s| - 1]) then TrimSpace(s[..|s| - 1])
    else s
  }

  /** OutputToPiazza: the status follows from whether errors were recorded. */
  method OutputToPiazza(pz: Piazza, cfg: Config, outData: WorkerOutputData, w: ExecWorld)
    returns (crashed: bool, err: Option<string>)
    modifies pz
    ensures crashed <==> IngestOutcome(w.report).IngestCrashed?
    ensures pz.posts == old(pz.posts) + Reports(
              TaskAddress(cfg.piazzaBaseURL, cfg.piazzaServiceID, cfg.jobID),
              if outData.errors == [] then StatusSuccess else StatusError, IngestOutcome(w.report))
    ensures |pz.ingests| > |old(pz.ingests)| ==> pz.ingests[|old(pz.ingests)|].content == w.marshal(outData.Value())
    ensures !crashed ==> err == w.postError
  {
    var serializedOutData := w.marshal(outData.Value());
    var jobStatus: Status;
    if |outData.errors| == 0 {
      jobStatus := StatusSuccess;
    } else {
      jobStatus := StatusError;
    }
    crashed, err := pz.SendExecResultData(
      cfg.piazzaBaseURL, cfg.piazzaServiceID, cfg.jobID, jobStatus, serializedOutData, w.report, w.postError);
  }

  // ---- what Exec amounts to ----

  function FullCommand(cfg: Config): string { Join([cfg.cliCmd, cfg.cliCommandExtra], " ") }

  function Fetched(cfg: Config, w: ExecWorld): Stage<Option<string>> { w.fetch(cfg.inputs) }

  function Version(cfg: Config, w: ExecWorld): CmdOutput { w.runVersion(cfg.versionCmd) }

  function Algorithm(cfg: Config, w: ExecWorld): CmdOutput { w.runAlgorithm(FullCommand(cfg)) }

  function Files(cfg: Config, w: ExecWorld): Stage<MultiIngestOutput> {
    w.outputFiles(FullCommand(cfg), TrimSpace(Version(cfg, w).stdout))
  }

  predicate FetchFails(cfg: Config, w: ExecWorld) { Fetched(cfg, w).Completed? && Fetched(cfg, w).value.Some? }

  predicate CommandsSucceed(cfg: Config, w: ExecWorld) {
    Fetched(cfg, w) == Completed(None) && Version(cfg, w).error.None? && Algorithm(cfg, w).error.None?
  }

  predicate IngestFails(cfg: Config, w: ExecWorld) {
    Files(cfg, w).Completed? && Files(cfg, w).value.combinedError.Some?
  }

  predicate AllStagesSucceed(cfg: Config, w: ExecWorld) {
    CommandsSucceed(cfg, w) && Files(cfg, w).Completed? && Files(cfg, w).value.combinedError.None?
  }

  /** A goroutine of the fetch stage or, if it is reached, of the ingest stage takes the worker down. */
  predicate Panics(cfg: Config, w: ExecWorld) {
    Fetched(cfg, w).Panicked? || (CommandsSucceed(cfg, w) && Files(cfg, w).Panicked?)
  }

  /** The errors of the first stage that fails. */
  function StageErrors(cfg: Config, w: ExecWorld): seq<string> {
    if FetchFails(cfg, w) then [Fetched(cfg, w).value.value]
    else if Version(cfg, w).error.Some? then [Version(cfg, w).error.value]
    else if Algorithm(cfg, w).error.Some? then [Algorithm(cfg, w).error.value]
    else if IngestFails(cfg, w) then Files(cfg, w).value.errors
    else []
  }

  /** The record that is reported. */
  function ExecOutput(cfg: Config, w: ExecWorld): WorkerOutput {
    WorkerOutput(
      if FetchFails(cfg, w) then map[] else Writes(SourcePairs(cfg.inputs)),
      if AllStagesSucceed(cfg, w) then Files(cfg, w).value.dataIDs else map[],
      if !FetchFails(cfg, w) && Version(cfg, w).error.None? then Algorithm(cfg, w).stdout else "",
      if FetchFails(cfg, w) then ""
      else if Version(cfg, w).error.Some? then Version(cfg, w).stderr else Algorithm(cfg, w).stderr,
      StageErrors(cfg, w),
      if AllStagesSucceed(cfg, w) then 200 else 500)
  }

  function ExecPosts(cfg: Config, w: ExecWorld): seq<StatusPost> {
    if Panics(cfg, w) then []
    else
      Reports(TaskAddress(cfg.piazzaBaseURL, cfg.piazzaServiceID, cfg.jobID),
              if StageErrors(cfg, w) == [] then StatusSuccess else StatusError, IngestOutcome(w.report))
  }

  /** Exec: the stages in order, each failure ending in the one report. */
  method Exec(pz: Piazza, cfg: Config, w: ExecWorld) returns (crashed: bool, err: Option<string>)
    modifies pz
    ensures pz.posts == old(pz.posts) + ExecPosts(cfg, w)
    ensures |pz.ingests| > |old(pz.ingests)| ==> pz.ingests[|old(pz.ingests)|].content == w.marshal(ExecOutput(cfg, w))
    ensures crashed <==> Panics(cfg, w) || IngestOutcome(w.report).IngestCrashed?
    ensures Panics(cfg, w) ==> pz.ingests == old(pz.ingests)
    ensures !crashed ==> err == w.postError
  {
    var outData := new WorkerOutputData();
    var fetched := w.fetch(cfg.inputs);
    if fetched.Panicked? {
      return true, None;
    }
    if fetched.value.Some? {
      outData.AddErrors([fetched.value.value]);
      outData.httpStatus := 500;
      assert outData.Value() == ExecOutput(cfg, w);
      crashed, err := OutputToPiazza(pz, cfg, outData, w);
      return;
    }
    outData.inFiles := InputsAsMap(cfg.inputs);
    var versionCmdOutput := w.runVersion(cfg.versionCmd);
    if versionCmdOutput.error.Some? {
      outData.AddErrors([versionCmdOutput.error.value]);
      outData.httpStatus := 500;
      outData.progStdErr := versionCmdOutput.stderr;
      assert outData.Value() == ExecOutput(cfg, w);
      crashed, err := OutputToPiazza(pz, cfg, outData, w);
      return;
    }
    var version := TrimSpace(versionCmdOutput.stdout);
    var fullCommand := Join([cfg.cliCmd, cfg.cliCommandExtra], " ");
    var algCmdOutput := w.runAlgorithm(fullCommand);
    outData.progStdOut := algCmdOutput.stdout;
    outData.progStdErr := algCmdOutput.stderr;
    if algCmdOutput.error.Some? {
      outData.AddErrors([algCmdOutput.error.value]);
      outData.httpStatus := 500;
      assert outData.Value() == ExecOutput(cfg, w);
      crashed, err := OutputToPiazza(pz, cfg, outData, w);
      return;
    }
    var ingested := w.outputFiles(fullCommand, version);
    if ingested.Panicked? {
      return true, None;
    }
    var ingestOutput := ingested.value;
    if ingestOutput.combinedError.Some? {
      outData.AddErrors(ingestOutput.errors);
      outData.httpStatus := 500;
      assert outData.Value() == ExecOutput(cfg, w);
      crashed, err := OutputToPiazza(pz, cfg, outData, w);
      return;
    }
    outData.outFiles := ingestOutput.dataIDs;
    assert outData.Value() == ExecOutput(cfg, w);
    crashed, err := OutputToPiazza(pz, cfg, outData, w);
  }

  /** The algorithm's command line: the service's command, a blank, and the job's. */
  lemma FullCommandText(cfg: Config)
    ensures FullCommand(cfg) == cfg.cliCmd + " " + cfg.cliCommandExtra
  {
    assert [cfg.cliCmd, cfg.cliCommandExtra][1..] == [cfg.cliCommandExtra];
    assert Join([cfg.cliCommandExtra], " ") == cfg.cliCommandExtra;
  }

  /** Two outside worlds that answer alike what this worker asks. */
  ghost predicate AnswerAlike(cfg: Config, v: ExecWorld, w: ExecWorld) {
    var command := cfg.cliCmd + " " + cfg.cliCommandExtra;
    && v.fetch(cfg.inputs) == w.fetch(cfg.inputs)
    && v.runVersion(cfg.versionCmd) == w.runVersion(cfg.versionCmd)
    && v.runAlgorithm(command) == w.runAlgorithm(command)
    && (var version := TrimSpace(w.runVersion(cfg.versionCmd).stdout);
        v.outputFiles(command, version) == w.outputFiles(command, version))
    && v.report == w.report
  }

  /** Exec depends on no other answers: it runs this command, and tells the ingest stage about it. */
  lemma AskedForNothingElse(cfg: Config, v: ExecWorld, w: ExecWorld)
    requires AnswerAlike(cfg, v, w)
    ensures ExecPosts(cfg, v) == ExecPosts(cfg, w) && ExecOutput(cfg, v) == ExecOutput(cfg, w)
    ensures Panics(cfg, v) == Panics(cfg, w)
  {
    FullCommandText(cfg);
  }

  /** The record for every way the stages can go, in terms of what the outside answers. */
  lemma RecordOfStages(cfg: Config, w: ExecWorld)
    ensures
      var version, algorithm := w.runVersion(cfg.versionCmd), w.runAlgorithm(cfg.cliCmd + " " + cfg.cliCommandExtra);
      var files := w.outputFiles(cfg.cliCmd + " " + cfg.cliCommandExtra, TrimSpace(version.stdout));
      var inFiles := Writes(SourcePairs(cfg.inputs));
      var record := ExecOutput(cfg, w);
      match w.fetch(cfg.inputs)
      case Panicked => true
      case Completed(Some(e)) => record == WorkerOutput(map[], map[], "", "", [e], 500)
      case Completed(None) =>
        if version.error.Some? then
          record == WorkerOutput(inFiles, map[], "", version.stderr, [version.error.value], 500)
        else if algorithm.error.Some? then
          record == WorkerOutput(inFiles, map[], algorithm.stdout, algorithm.stderr, [algorithm.error.value], 500)
        else if files.Panicked? then true
        else if files.value.combinedError.Some? then
          record == WorkerOutput(inFiles, map[], algorithm.stdout, algorithm.stderr, files.value.errors, 500)
        else
          record == WorkerOutput(inFiles, files.value.dataIDs, algorithm.stdout, algorithm.stderr, [], 200)
  {
    FullCommandText(cfg);
  }

  /** The report for every way the body's ingestion can go, unless a stage takes the worker down. */
  lemma ReportOfBody(cfg: Config, w: ExecWorld)
    requires !Panics(cfg, w)
    ensures
      var address := cfg.piazzaBaseURL + "/service/" + cfg.piazzaServiceID + "/task/" + cfg.jobID;
      var asked := if ExecOutput(cfg, w).errors == [] then StatusSuccess else StatusError;
      match IngestOutcome(w.report)
      case Ingested(dataID) => ExecPosts(cfg, w) == [StatusPost(address, asked, Some(dataID))]
      case NotIngested(_) => ExecPosts(cfg, w) == [StatusPost(address, StatusFail, None)]
      case IngestCrashed => ExecPosts(cfg, w) == []
  {
  }

  // ---- the status ----

  /** The output of the ingest stage says that it failed without saying why. */
  predicate FailsSilently(cfg: Config, w: ExecWorld) {
    CommandsSucceed(cfg, w) && IngestFails(cfg, w) && Files(cfg, w).value.errors == []
  }

  /** The one report says what happened: see the four cases. */
  predicate ReportIsTrue(cfg: Config, w: ExecWorld) {
    && |ExecPosts(cfg, w)| == 1
    && var post := ExecPosts(cfg, w)[0];
    && (post.status == StatusSuccess <==> AllStagesSucceed(cfg, w) && IngestOutcome(w.report).Ingested?)
    && (post.status == StatusError <==> !AllStagesSucceed(cfg, w) && IngestOutcome(w.report).Ingested?)
    && (post.status == StatusFail <==> IngestOutcome(w.report).NotIngested?)
    && (post.dataID.Some? <==> IngestOutcome(w.report).Ingested?)
  }

  /**
   For every configuration and every outside world: exactly one true report is sent unless a stage takes the
   worker down or the worker crashes while ingesting the report's body (then none is), or the ingest stage
   fails silently and the body is ingested (then Success is reported for a failed job).
   */
  lemma FinalStatus(cfg: Config, w: ExecWorld)
    ensures ReportIsTrue(cfg, w) <==>
              && !Panics(cfg, w) && !IngestOutcome(w.report).IngestCrashed?
              && !(FailsSilently(cfg, w) && IngestOutcome(w.report).Ingested?)
    ensures |ExecPosts(cfg, w)| <= 1
    ensures ExecPosts(cfg, w) == [] <==> Panics(cfg, w) || IngestOutcome(w.report).IngestCrashed?
  {
  }

  /** The reported record carries errors, status 500 and no output files exactly when a stage failed. */
  lemma ReportedRecord(cfg: Config, w: ExecWorld)
    requires !Panics(cfg, w)
    requires Files(cfg, w).Completed? ==>
               (Files(cfg, w).value.combinedError.Some? <==> Files(cfg, w).value.errors != [])
    ensures
      var out := ExecOutput(cfg, w);
      && (out.errors == [] <==> AllStagesSucceed(cfg, w))
      && (out.httpStatus == 200 <==> AllStagesSucceed(cfg, w))
      && (out.outFiles != map[] ==> AllStagesSucceed(cfg, w))
      && (AllStagesSucceed(cfg, w) ==> out.outFiles == Files(cfg, w).value.dataIDs)
  {
  }
}
