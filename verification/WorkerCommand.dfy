/**
 dispatcher/poll/loop.go: buildWorkerCommand, and the trip of a job through the shell and the
 worker's flags: printed by the dispatcher, cut by the shell, read by the worker.
 */
module WorkerCommand {
  import opened Common
  import opened ShellWords
  import opened WorkerConfig
  import opened WorkerCmd

  /** The parts of pzsvc.InpStruct the dispatcher uses. */
  datatype JobInput = JobInput(
    command: string,
    userID: string,
    inExtFiles: seq<string>,
    inExtNames: seq<string>,
    outGeoJs: seq<string>)

  /** The parts of Loop that end up in a command. */
  datatype LoopConfig = LoopConfig(configPath: string, svcID: string)

  function HeadWords(l: LoopConfig, job: JobInput, jobID: string): seq<ShellWord> {
    [Bare("worker"),
     Bare("--cliExtra"), Quoted(job.command),
     Bare("--userID"), Quoted(job.userID),
     Bare("--config"), Quoted(l.configPath),
     Bare("--serviceID"), Quoted(l.svcID),
     Bare("--jobID"), Quoted(jobID)]
  }

  /** Bare flags, each followed by its bare value. */
  function FlagWords(flags: seq<(string, string)>): seq<ShellWord> {
    if flags == [] then []
    else [Bare(flags[0].0), Bare(flags[0].1)] + FlagWords(flags[1..])
  }

  function InputPairs(job: JobInput): seq<string>
    requires |job.inExtFiles| == |job.inExtNames|
  {
    seq(|job.inExtNames|, i requires 0 <= i < |job.inExtNames| => job.inExtNames[i] + ":" + job.inExtFiles[i])
  }

  function Flagged(flag: string, values: seq<string>): seq<(string, string)> {
    seq(|values|, i requires 0 <= i < |values| => (flag, values[i]))
  }

  function JobFlags(job: JobInput): seq<(string, string)>
    requires |job.inExtFiles| == |job.inExtNames|
  {
    Flagged("-i", InputPairs(job)) + Flagged("-o", job.outGeoJs)
  }

  /** The words the dispatcher means the worker to be started with. */
  function JobWords(l: LoopConfig, job: JobInput, jobID: string): seq<ShellWord>
    requires |job.inExtFiles| == |job.inExtNames|
  {
    HeadWords(l, job, jobID) + FlagWords(JobFlags(job))
  }

  const MISMATCH_ERROR := "Number of input file names and URLs did not match"

  function CommandFor(l: LoopConfig, job: JobInput, jobID: string): Result<string> {
    if |job.inExtFiles| != |job.inExtNames| then Failure(MISMATCH_ERROR)
    else Success(Print(JobWords(l, job, jobID)))
  }

  /** A command is printed exactly for jobs with as many names as URLs. */
  lemma CommandExactly(l: LoopConfig, job: JobInput, jobID: string)
    ensures CommandFor(l, job, jobID)
         == if |job.inExtFiles| == |job.inExtNames| then Success(Print(JobWords(l, job, jobID)))
            else Failure("Number of input file names and URLs did not match")
  {
  }

  /** One ` %s '%s'` of the format the command starts with. */
  function QuotedFlag(flag: string, value: string): string {
    " " + flag + " '" + value + "'"
  }

  /** The string built piece by piece is the printed form of the job's words. */
  method BuildWorkerCommand(l: LoopConfig, job: JobInput, jobID: string) returns (r: Result<string>)
    ensures r == CommandFor(l, job, jobID)
  {
    var workerCommand := "worker"
      + QuotedFlag("--cliExtra", job.command) + QuotedFlag("--userID", job.userID)
      + QuotedFlag("--config", l.configPath) + QuotedFlag("--serviceID", l.svcID)
      + QuotedFlag("--jobID", jobID);
    if |job.inExtFiles| != |job.inExtNames| {
      return Failure(MISMATCH_ERROR);
    }
    ghost var head := HeadWords(l, job, jobID);
    HeadIsPrinted(l, job, jobID);
    ghost var pairs := Flagged("-i", InputPairs(job));
    ghost var outs := Flagged("-o", job.outGeoJs);
    var commandParts := [workerCommand];
    for i := 0 to |job.inExtNames|
      invariant commandParts == [workerCommand] + Rendered(FlagWords(pairs[..i]))
    {
      var inputPair := job.inExtNames[i] + ":" + job.inExtFiles[i];
      FlagWordsSnoc(pairs[..i], pairs[i]);
      assert pairs[..i + 1] == pairs[..i] + [pairs[i]];
      commandParts := commandParts + ["-i", inputPair];
    }
    assert pairs[..|job.inExtNames|] == pairs && pairs + outs[..0] == pairs;
    for i := 0 to |job.outGeoJs|
      invariant commandParts == [workerCommand] + Rendered(FlagWords(pairs + outs[..i]))
    {
      FlagWordsSnoc(pairs + outs[..i], outs[i]);
      assert pairs + outs[..i + 1] == pairs + outs[..i] + [outs[i]];
      commandParts := commandParts + ["-o", job.outGeoJs[i]];
    }
    assert outs[..|job.outGeoJs|] == outs;
    PrintBehind(head, FlagWords(pairs + outs));
    return Success(Join(commandParts, " "));
  }

  lemma {:induction false} FlagWordsSnoc(flags: seq<(string, string)>, f: (string, string))
    ensures FlagWords(flags + [f]) == FlagWords(flags) + [Bare(f.0), Bare(f.1)]
    ensures Rendered(FlagWords(flags + [f])) == Rendered(FlagWords(flags)) + [f.0, f.1]
  {
    if flags == [] {
      assert flags + [f] == [f];
      assert FlagWords([f]) == [Bare(f.0), Bare(f.1)] + FlagWords([]);
    } else {
      assert (flags + [f])[1..] == flags[1..] + [f];
      FlagWordsSnoc(flags[1..], f);
    }
  }

  /** A printed head followed by more rendered words is the print of the whole. */
  lemma PrintBehind(head: seq<ShellWord>, tail: seq<ShellWord>)
    requires head != []
    ensures Join([Print(head)] + Rendered(tail), " ") == Print(head + tail)
  {
    assert Rendered(head + tail) == Rendered(head) + Rendered(tail);
    if tail == [] {
      assert [Print(head)] + Rendered(tail) == [Print(head)];
      assert head + tail == head;
    } else {
      JoinAppend([Print(head)], Rendered(tail), " ");
      JoinAppend(Rendered(head), Rendered(tail), " ");
    }
  }

  lemma PrintFlag(flag: string, value: string, ws: seq<ShellWord>)
    requires ws != []
    ensures Print(ws + [Bare(flag), Quoted(value)]) == Print(ws) + QuotedFlag(flag, value)
  {
    var two := [Bare(flag), Quoted(value)];
    assert Rendered(ws + two) == Rendered(ws) + Rendered(two);
    JoinAppend(Rendered(ws), Rendered(two), " ");
    assert Rendered(two) == [flag, "'" + value + "'"];
    assert Join([flag, "'" + value + "'"], " ") == flag + " " + ("'" + value + "'") by {
      assert [flag, "'" + value + "'"][1..] == ["'" + value + "'"];
    }
  }

  lemma HeadIsPrinted(l: LoopConfig, job: JobInput, jobID: string)
    ensures Print(HeadWords(l, job, jobID))
         == "worker" + QuotedFlag("--cliExtra", job.command) + QuotedFlag("--userID", job.userID)
            + QuotedFlag("--config", l.configPath) + QuotedFlag("--serviceID", l.svcID)
            + QuotedFlag("--jobID", jobID)
  {
    var w0 := [Bare("worker")];
    var w1 := w0 + [Bare("--cliExtra"), Quoted(job.command)];
    var w2 := w1 + [Bare("--userID"), Quoted(job.userID)];
    var w3 := w2 + [Bare("--config"), Quoted(l.configPath)];
    var w4 := w3 + [Bare("--serviceID"), Quoted(l.svcID)];
    PrintFlag("--cliExtra", job.command, w0);
    PrintFlag("--userID", job.userID, w1);
    PrintFlag("--config", l.configPath, w2);
    PrintFlag("--serviceID", l.svcID, w3);
    PrintFlag("--jobID", jobID, w4);
    assert Rendered(w0) == ["worker"];
    assert HeadWords(l, job, jobID) == w4 + [Bare("--jobID"), Quoted(jobID)];
  }

  /** One input or output after the other, each behind its flag. */
  function FlagText(flag: string, values: seq<string>): string {
    if values == [] then "" else " " + flag + " " + values[0] + FlagText(flag, values[1..])
  }

  lemma PairPrinted(ws: seq<ShellWord>, flag: string, value: string)
    requires ws != []
    ensures Print(ws + [Bare(flag), Bare(value)]) == Print(ws) + (" " + flag + " " + value)
  {
    var two := [Bare(flag), Bare(value)];
    assert Rendered(ws + two) == Rendered(ws) + Rendered(two);
    JoinAppend(Rendered(ws), Rendered(two), " ");
    assert Rendered(two) == [flag, value] && [flag, value][1..] == [value];
    assert Print(ws) + " " + (flag + " " + value) == Print(ws) + (" " + flag + " " + value);
  }

  lemma {:induction false} FlagsPrinted(ws: seq<ShellWord>, flag: string, values: seq<string>)
    requires ws != []
    ensures Print(ws + FlagWords(Flagged(flag, values))) == Print(ws) + FlagText(flag, values)
    decreases |values|
  {
    if values == [] {
      assert ws + FlagWords(Flagged(flag, values)) == ws;
    } else {
      var two := [Bare(flag), Bare(values[0])];
      assert Flagged(flag, values)[1..] == Flagged(flag, values[1..]);
      assert ws + FlagWords(Flagged(flag, values)) == ws + two + FlagWords(Flagged(flag, values[1..]));
      PairPrinted(ws, flag, values[0]);
      FlagsPrinted(ws + two, flag, values[1..]);
      var pair, rest := " " + flag + " " + values[0], FlagText(flag, values[1..]);
      assert Print(ws) + pair + rest == Print(ws) + (pair + rest);
    }
  }

  lemma {:induction false} FlagWordsConcat(a: seq<(string, string)>, b: seq<(string, string)>)
    ensures FlagWords(a + b) == FlagWords(a) + FlagWords(b)
  {
    if a == [] {
      assert a + b == b;
    } else {
      assert (a + b)[0] == a[0] && (a + b)[1..] == a[1..] + b;
      FlagWordsConcat(a[1..], b);
    }
  }

  lemma BothFlagsPrinted(head: seq<ShellWord>, pairs: seq<string>, outputs: seq<string>)
    requires head != []
    ensures Print(head + FlagWords(Flagged("-i", pairs) + Flagged("-o", outputs)))
         == Print(head) + FlagText("-i", pairs) + FlagText("-o", outputs)
  {
    var ins, outs := FlagWords(Flagged("-i", pairs)), FlagWords(Flagged("-o", outputs));
    FlagWordsConcat(Flagged("-i", pairs), Flagged("-o", outputs));
    assert head + (ins + outs) == head + ins + outs;
    FlagsPrinted(head, "-i", pairs);
    FlagsPrinted(head + ins, "-o", outputs);
  }

  /** The whole command: the quoted fields, then the inputs as name:URL, then the outputs. */
  lemma CommandText(l: LoopConfig, job: JobInput, jobID: string, pairs: seq<string>)
    requires |job.inExtFiles| == |job.inExtNames| == |pairs|
    requires forall i :: 0 <= i < |pairs| ==> pairs[i] == job.inExtNames[i] + ":" + job.inExtFiles[i]
    ensures Print(JobWords(l, job, jobID))
         == "worker" + QuotedFlag("--cliExtra", job.command) + QuotedFlag("--userID", job.userID)
            + QuotedFlag("--config", l.configPath) + QuotedFlag("--serviceID", l.svcID) + QuotedFlag("--jobID", jobID)
            + FlagText("-i", pairs) + FlagText("-o", job.outGeoJs)
  {
    assert pairs == InputPairs(job);
    BothFlagsPrinted(HeadWords(l, job, jobID), pairs, job.outGeoJs);
    HeadIsPrinted(l, job, jobID);
  }

  lemma QuotedFlagText(flag: string, value: string)
    ensures QuotedFlag(flag, value) == " " + flag + " '" + value + "'"
  {
  }
}
