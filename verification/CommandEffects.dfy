/**
 What a printed command can make happen: whether a worker starts, under which job ID it reports, and
 whether anything besides that worker is started, by the line itself or by the job's command, which the
 worker hands to a shell of its own (worker/workerexec/command_runner.go).
 */
module CommandEffects {
  import opened Common
  import opened ShellWords
  import opened WorkerConfig
  import opened WorkerCmd
  import opened WorkerCommand
  import opened CommandRoundTrip

  /** The part of the worker's demands that depends on its flags alone. */
  predicate CanStart(f: Flags) {
    f.config != "" && f.serviceID != "" && f.outputs != [] && ParseSources(f.inputs).Success?
  }

  /** An environment in which nothing is missing, with this configuration file. */
  function FullEnvironment(configFile: (string, string)): Environment {
    Environment(Success(configFile), "address", "key")
  }

  /** It can be met exactly by the flags that some environment lets start. */
  lemma CanStartSomewhere(f: Flags)
    ensures CanStart(f) <==> exists env :: Accepted(f, env)
  {
    if CanStart(f) {
      assert Accepted(f, FullEnvironment(("algorithm", "version")));
    }
  }

  /** The flags of the worker that the line starts, if it is read and a worker can start from it. */
  function StartFlags(line: string, unmatched: bool): Option<Flags> {
    match Words(line, unmatched)
    case None => None
    case Some(ws) =>
      if ws == [] then None
      else
        match ReadFlags(ws[1..])
        case None => None
        case Some(f) => if CanStart(f) then Some(f) else None
  }

  /** A worker that starts, starts from these flags. */
  lemma StartedFromFlags(line: string, env: Environment, unmatched: bool)
    requires ReadBack(line, env, unmatched).Success?
    ensures StartFlags(line, unmatched).Some?
    ensures ReadBack(line, env, unmatched).value.jobID == StartFlags(line, unmatched).value.jobID
    ensures ReadBack(line, env, unmatched).value.cliCommandExtra == StartFlags(line, unmatched).value.cliExtra
  {
  }

  /** Where the service's configuration file is, and the command in it that goes in front of every job's command. */
  datatype Service = Service(configPath: string, cliCmd: string)

  /**
   The service's command is read as words, and one of them is no assignment: it names a program, and what
   stands behind it is arguments (section 2.9.1).
   */
  predicate NamesProgram(cliCmd: string, unmatched: bool) {
    match Words(cliCmd, unmatched)
    case None => false
    case Some(ws) => exists i :: 0 <= i < |ws| && '=' !in ws[i]
  }

  /** The shell that runs both commands as one line runs the service's program, or nothing at all. */
  predicate RunsAlone(cliCmd: string, cliExtra: string, unmatched: bool) {
    (NamesProgram(cliCmd, unmatched) && OneCommand(cliExtra)) || (IsIdle(cliCmd) && IsIdle(cliExtra))
  }

  /**
   The line starts one worker and nothing else: the shell reads it as words, and the worker, with the service's
   own configuration, runs nothing but the service's program.
   */
  predicate Contained(line: string, svc: Service, unmatched: bool) {
    && Words(line, unmatched).Some?
    && (StartFlags(line, unmatched).Some? ==>
          && StartFlags(line, unmatched).value.config == svc.configPath
          && RunsAlone(svc.cliCmd, StartFlags(line, unmatched).value.cliExtra, unmatched))
  }

  /** Besides, whatever worker it starts reports under this job ID. */
  predicate KeepsID(line: string, jobID: string, svc: Service, unmatched: bool) {
    && Contained(line, svc, unmatched)
    && (StartFlags(line, unmatched).Some? ==> StartFlags(line, unmatched).value.jobID == jobID)
  }

  /** Text of blanks alone is never read as words. */
  lemma {:induction false} IdleIsNoWords(s: string, unmatched: bool)
    requires IsIdle(s)
    ensures Words(s, unmatched).None? || Words(s, unmatched) == Some([])
  {
    if s != "" {
      assert IsBlank(s[0]) || s[0] == '\n';
      IdleIsNoWords(s[1..], unmatched);
    }
  }

  /** Behind blanks, a command is read as it would be by itself. */
  lemma {:induction false} WordsBehindBlanks(blanks: string, s: string, unmatched: bool)
    requires forall i :: 0 <= i < |blanks| ==> IsBlank(blanks[i])
    ensures Words(blanks + s, unmatched) == Words(s, unmatched)
  {
    if blanks == "" {
      assert blanks + s == s;
    } else {
      assert IsBlank(blanks[0]) && (blanks + s)[1..] == blanks[1..] + s;
      WordsBehindBlanks(blanks[1..], s, unmatched);
    }
  }

  /**
   Quoted fields without quotes, plain values and a command that is arguments of the service's program are
   enough; colons do no harm.
   */
  lemma PlainJobKeepsID(l: LoopConfig, job: JobInput, jobID: string, svc: Service, unmatched: bool)
    requires |job.inExtFiles| == |job.inExtNames|
    requires HeadSafe(l, job, jobID) && svc.configPath == l.configPath
    requires RunsAlone(svc.cliCmd, job.command, unmatched)
    requires forall i :: 0 <= i < |JobFlags(job)| ==> PlainWord(JobFlags(job)[i].1, unmatched)
    ensures KeepsID(Print(JobWords(l, job, jobID)), jobID, svc, unmatched)
  {
    ReadPlainJob(l, job, jobID, unmatched);
    JobAsFlagsFields(l, job, jobID);
  }

  // ---- the job ID under which a worker reports ----

  predicate SameButJobID(f: Flags, g: Flags) { g == f.(jobID := g.jobID) }

  lemma SetFlagSameButJobID(f: Flags, g: Flags, name: string, v: string)
    requires SameButJobID(f, g)
    ensures SetFlag(f, name, v).Some? <==> SetFlag(g, name, v).Some?
    ensures SetFlag(f, name, v).Some? ==>
              && var f', g' := SetFlag(f, name, v).value, SetFlag(g, name, v).value;
              && SameButJobID(f', g')
              && (f'.jobID == g'.jobID || (f'.jobID == f.jobID && g'.jobID == g.jobID))
  {
  }

  /** Reading flags either leaves the job ID given before or replaces it by one that does not depend on it. */
  lemma {:induction false} ParseSameButJobID(args: seq<string>, f: Flags, g: Flags)
    requires SameButJobID(f, g)
    ensures ParseFlags(args, f).Some? <==> ParseFlags(args, g).Some?
    ensures ParseFlags(args, f).Some? ==>
              && var f', g' := ParseFlags(args, f).value, ParseFlags(args, g).value;
              && SameButJobID(f', g')
              && (f'.jobID == g'.jobID || (f'.jobID == f.jobID && g'.jobID == g.jobID))
    decreases |args|
  {
    if args != [] && Classify(args[0]).FlagArg? {
      var flag := Classify(args[0]);
      if flag.inlineValue.Some? {
        var v := flag.inlineValue.value;
        SetFlagSameButJobID(f, g, flag.name, v);
        if SetFlag(f, flag.name, v).Some? {
          ParseSameButJobID(args[1..], SetFlag(f, flag.name, v).value, SetFlag(g, flag.name, v).value);
        }
      } else if |args| >= 2 {
        SetFlagSameButJobID(f, g, flag.name, args[1]);
        if SetFlag(f, flag.name, args[1]).Some? {
          ParseSameButJobID(args[2..], SetFlag(f, flag.name, args[1]).value, SetFlag(g, flag.name, args[1]).value);
        }
      }
    }
  }

  /** What the flags behind a safe head are read as. */
  lemma StartBehindHead(l: LoopConfig, job: JobInput, jobID: string, unmatched: bool) returns (ts: seq<string>)
    requires |job.inExtFiles| == |job.inExtNames| && HeadSafe(l, job, jobID)
    requires StartFlags(Print(JobWords(l, job, jobID)), unmatched).Some?
    ensures Words(Print(FlagWords(JobFlags(job))), unmatched) == Some(ts)
    ensures ParseFlags(ts, HeadFlags(l, job, jobID)).Some?
    ensures ParseFlags(ts, HeadFlags(l, job, jobID)).value
         == StartFlags(Print(JobWords(l, job, jobID)), unmatched).value
  {
    WordsBehindHead(l, job, jobID, unmatched);
    ts := Words(Print(FlagWords(JobFlags(job))), unmatched).value;
    ReadHead(l, job, jobID, ts);
  }

  /** No job ID that comes out of a line holds a quote. */
  lemma StartIDQuoteFree(line: string, unmatched: bool)
    requires StartFlags(line, unmatched).Some?
    ensures NoQuote(StartFlags(line, unmatched).value.jobID)
  {
    var ws := Words(line, unmatched).value;
    LexRemovesQuotes(line, Between, unmatched);
    forall i | 0 <= i < |ws[1..]|
      ensures '\'' !in ws[1..][i]
    {
      assert ws[1..][i] in ws;
    }
    ParseFlagsWithout(ws[1..], NO_FLAGS, '\'');
  }

  /** If a job's line gives its worker another job's ID, so does that other job's line, given the same body. */
  lemma SameBodySameFlags(l: LoopConfig, job: JobInput, jobID: string, unmatched: bool)
    requires |job.inExtFiles| == |job.inExtNames| && HeadSafe(l, job, jobID)
    requires StartFlags(Print(JobWords(l, job, jobID)), unmatched).Some?
    requires StartFlags(Print(JobWords(l, job, jobID)), unmatched).value.jobID != jobID
    ensures
      var other := StartFlags(Print(JobWords(l, job, jobID)), unmatched).value.jobID;
      && HeadSafe(l, job, other)
      && StartFlags(Print(JobWords(l, job, other)), unmatched) == StartFlags(Print(JobWords(l, job, jobID)), unmatched)
  {
    var f := StartFlags(Print(JobWords(l, job, jobID)), unmatched).value;
    var ts := StartBehindHead(l, job, jobID, unmatched);
    StartIDQuoteFree(Print(JobWords(l, job, jobID)), unmatched);
    ParseSameButJobID(ts, HeadFlags(l, job, jobID), HeadFlags(l, job, f.jobID));
    assert ParseFlags(ts, HeadFlags(l, job, f.jobID)) == Some(f);
    WordsBehindHead(l, job, f.jobID, unmatched);
    ReadHead(l, job, f.jobID, ts);
  }

  // ---- lines that do more than they should ----

  /** A value behind the last word of a print is appended to the line. */
  lemma PrintLonger(ws: seq<ShellWord>, v: string, more: string)
    ensures Print(ws + [Bare(v + more)]) == Print(ws + [Bare(v)]) + more
  {
    var r := Rendered(ws);
    assert Rendered(ws + [Bare(v)]) == r + [v] && Rendered(ws + [Bare(v + more)]) == r + [v + more];
    if ws == [] {
      assert r + [v] == [v] && r + [v + more] == [v + more];
    } else {
      JoinAppend(r, [v], " ");
      JoinAppend(r, [v + more], " ");
      assert Join(r, " ") + " " + (v + more) == Join(r, " ") + " " + v + more;
    }
  }

  /** The job with one output, as it is printed. */
  lemma OneOutputPrinted(l: LoopConfig, job: JobInput, jobID: string, v: string)
    requires |job.inExtFiles| == |job.inExtNames| && job.outGeoJs == [v]
    ensures JobWords(l, job, jobID)
         == HeadWords(l, job, jobID) + FlagWords(Flagged("-i", InputPairs(job))) + [Bare("-o")] + [Bare(v)]
  {
    var ins := Flagged("-i", InputPairs(job));
    assert Flagged("-o", [v]) == [("-o", v)];
    FlagWordsSnoc(ins, ("-o", v));
  }

  lemma LongerOutput(l: LoopConfig, job: JobInput, jobID: string, v: string, more: string)
    requires |job.inExtFiles| == |job.inExtNames| && job.outGeoJs == [v]
    ensures Print(JobWords(l, job.(outGeoJs := [v + more]), jobID)) == Print(JobWords(l, job, jobID)) + more
  {
    var job' := job.(outGeoJs := [v + more]);
    OneOutputPrinted(l, job, jobID, v);
    OneOutputPrinted(l, job', jobID, v + more);
    assert InputPairs(job') == InputPairs(job);
    PrintLonger(HeadWords(l, job, jobID) + FlagWords(Flagged("-i", InputPairs(job))) + [Bare("-o")], v, more);
  }

  /** A whole worker command, short enough to hide in an output's name. */
  function HiddenWords(jobID: string): seq<ShellWord> {
    [Bare("worker"), Bare("--" + "config"), Bare("c"), Bare("--" + "serviceID"), Bare("s"),
     Bare("--" + "jobID"), Bare(jobID), Bare("-o"), Bare("o")]
  }

  lemma HiddenTexts(jobID: string)
    ensures Texts(HiddenWords(jobID))[1..]
         == ["--" + "config", "c"] + (["--" + "serviceID", "s"] + (["--" + "jobID", jobID] + ["-o", "o"]))
  {
  }

  function HiddenFlags(jobID: string): Flags {
    NO_FLAGS.(config := "c", serviceID := "s", jobID := jobID, outputs := ["o"], outputForms := {"o"})
  }

  lemma HiddenFlagsRead(jobID: string)
    ensures ReadFlags(Texts(HiddenWords(jobID))[1..]) == Some(HiddenFlags(jobID))
  {
    var f := NO_FLAGS.(config := "c", serviceID := "s", jobID := jobID);
    HiddenTexts(jobID);
    ReadConfigAndIDs(LoopConfig("c", "s"), jobID, ["-o", "o"], NO_FLAGS);
    HiddenOutputRead(f);
    assert f.(outputs := [] + ["o"], outputForms := {} + {"o"}) == HiddenFlags(jobID);
    assert ParseFlags(Texts(HiddenWords(jobID))[1..], NO_FLAGS) == Some(HiddenFlags(jobID));
    AtMostOne({}, "i");
    AtMostOne({"o"}, "o");
  }

  lemma HiddenOutputRead(f: Flags)
    ensures ParseFlags(["-o", "o"], f) == Some(f.(outputs := f.outputs + ["o"], outputForms := f.outputForms + {"o"}))
  {
    ReadShortFlag("-o", "o", [], f);
    assert ["-o", "o"] + [] == ["-o", "o"];
    assert "-i"[1] != "-o"[1];
  }

  /** What the worker finds outside its flags is all there. */
  predicate Furnished(env: Environment) { env.configFile.Success? && env.pzAddr != "" && env.apiKey != "" }

  lemma HiddenWorkerStarts(jobID: string, env: Environment, unmatched: bool)
    requires PlainWord(jobID, unmatched) && Furnished(env)
    ensures ReadBack(Print(HiddenWords(jobID)), env, unmatched).Success?
    ensures ReadBack(Print(HiddenWords(jobID)), env, unmatched).value.jobID == jobID
  {
    var ws := HiddenWords(jobID);
    LettersArePlain("worker", unmatched);
    LettersArePlain("--" + "config", unmatched);
    LettersArePlain("c", unmatched);
    LettersArePlain("--" + "serviceID", unmatched);
    LettersArePlain("s", unmatched);
    LettersArePlain("--" + "jobID", unmatched);
    LettersArePlain("-o", unmatched);
    LettersArePlain("o", unmatched);
    WordsOfPrint(ws, unmatched);
    HiddenFlagsRead(jobID);
    assert Accepted(HiddenFlags(jobID), env);
  }

  /**
   An output whose name goes on, behind a semicolon, with a worker command for the same job: the line falls
   into two commands, and each of them starts a worker that reports under this job ID.
   */
  lemma SemicolonStartsTwoWorkers(
      l: LoopConfig, job: JobInput, v: string, jobID: string, env: Environment, unmatched: bool)
    requires |job.inExtFiles| == |job.inExtNames| && job.outGeoJs == [v]
    requires SafeJob(l, job, jobID, unmatched) && Ready(l, job, env) && PlainWord(jobID, unmatched)
    ensures
      var first, second := Print(JobWords(l, job, jobID)), Print(HiddenWords(jobID));
      var line := Print(JobWords(l, job.(outGeoJs := [v + (";" + second)]), jobID));
      && line == first + ";" + second
      && ReadBack(first, env, unmatched).Success? && ReadBack(first, env, unmatched).value.jobID == jobID
      && ReadBack(second, env, unmatched).Success? && ReadBack(second, env, unmatched).value.jobID == jobID
      && forall svc :: !Contained(line, svc, unmatched)
  {
    var first, second := Print(JobWords(l, job, jobID)), Print(HiddenWords(jobID));
    LongerOutput(l, job, jobID, v, ";" + second);
    assert first + (";" + second) == first + ";" + second;
    SafeJobIsRecovered(l, job, jobID, env, unmatched);
    HiddenWorkerStarts(jobID, env, unmatched);
    LexStops(first, ';', second, Between, unmatched);
  }

  /** No command that goes on, behind complete words, with a further command is one command. */
  lemma FurtherCommandInCommand(args: string, tail: string, unmatched: bool)
    requires Words(args, unmatched).Some? && StartsAnother(tail)
    ensures !OneCommand(args + tail)
  {
    FurtherCommandFound(args, tail, Between, unmatched);
  }

  /** The same in the job's command, which the worker's own shell cuts: it is not one command. */
  lemma HiddenInCommand(jobID: string)
    ensures !OneCommand(";" + Print(HiddenWords(jobID)))
  {
    var second := Print(HiddenWords(jobID));
    PrintCons(Bare("worker"), HiddenWords(jobID)[1..]);
    assert [Bare("worker")] + HiddenWords(jobID)[1..] == HiddenWords(jobID);
    assert second[0] == 'w';
    assert (";" + second)[1..] == second;
  }

  /** A safe job from which a worker can start is contained exactly if its command does not run by itself. */
  lemma SafeJobContained(
      l: LoopConfig, job: JobInput, jobID: string, env: Environment, svc: Service, unmatched: bool)
    requires |job.inExtFiles| == |job.inExtNames|
    requires SafeJob(l, job, jobID, unmatched) && Ready(l, job, env) && svc.configPath == l.configPath
    ensures Contained(Print(JobWords(l, job, jobID)), svc, unmatched) <==> RunsAlone(svc.cliCmd, job.command, unmatched)
  {
    FlagValuesPlain(job, unmatched);
    ReadPlainJob(l, job, jobID, unmatched);
    JobAsFlagsFields(l, job, jobID);
    PrintedSourcesParse(job.inExtNames, job.inExtFiles, InputPairs(job));
  }

  /** Neither blanks nor assignments alone name a program; any other word does. */
  lemma ProgramsExactly(cliCmd: string, unmatched: bool)
    requires Words(cliCmd, unmatched).Some?
    ensures NamesProgram(cliCmd, unmatched) <==>
              !(forall i :: 0 <= i < |Words(cliCmd, unmatched).value| ==> '=' in Words(cliCmd, unmatched).value[i])
  {
  }

  /** If the service names no program, the job's command is the program; if that is read as words, it runs. */
  lemma BlankServiceRunsJob(cliCmd: string, cliExtra: string, unmatched: bool)
    requires IsIdle(cliCmd)
    requires Words(cliCmd + " " + cliExtra, unmatched).Some? && Words(cliCmd + " " + cliExtra, unmatched).value != []
    ensures !RunsAlone(cliCmd, cliExtra, unmatched)
  {
    IdleIsNoWords(cliCmd, unmatched);
    if IsIdle(cliExtra) {
      IdleIsNoWords(cliCmd + " " + cliExtra, unmatched);
      assert false;
    }
  }

  /** Behind any service command, a further command in the job's command does not run alone. */
  lemma FurtherCommandRuns(cliCmd: string, args: string, tail: string, unmatched: bool)
    requires Words(args, unmatched).Some? && StartsAnother(tail)
    ensures !RunsAlone(cliCmd, args + tail, unmatched)
  {
    FurtherCommandInCommand(args, tail, unmatched);
    if IsIdle(args + tail) {
      assert forall i :: 0 <= i < |tail| ==> (args + tail)[|args| + i] == tail[i];
      IdleStartsNothing(tail);
      assert false;
    }
  }

  /** A line that gives its worker another configuration file is not contained, whatever the service. */
  lemma OtherConfigurationStrays(line: string, svc: Service, unmatched: bool)
    requires StartFlags(line, unmatched).Some? && StartFlags(line, unmatched).value.config != svc.configPath
    ensures !Contained(line, svc, unmatched)
  {
  }

  /** A job whose command is a worker command, of a service without one: the worker starts a second worker. */
  lemma CommandIsWorker(
      l: LoopConfig, job: JobInput, jobID: string, other: string, cliCmd: string, env: Environment, unmatched: bool)
    requires |job.inExtFiles| == |job.inExtNames| && job.command == Print(HiddenWords(other))
    requires SafeJob(l, job, jobID, unmatched) && Ready(l, job, env)
    requires PlainWord(other, unmatched) && Furnished(env)
    requires forall i :: 0 <= i < |cliCmd| ==> IsBlank(cliCmd[i])
    ensures ReadBack(Print(JobWords(l, job, jobID)), env, unmatched).Success?
    ensures ReadBack(Print(JobWords(l, job, jobID)), env, unmatched).value.jobID == jobID
    ensures ReadBack(Print(JobWords(l, job, jobID)), env, unmatched).value.cliCommandExtra == job.command
    ensures ReadBack(Print(JobWords(l, job, jobID)), env, unmatched).value.configPath == l.configPath
    ensures ReadBack(Print(JobWords(l, job, jobID)), env, unmatched).value.cliCmd == env.configFile.value.0
    ensures ReadBack(cliCmd + " " + job.command, env, unmatched).Success?
    ensures ReadBack(cliCmd + " " + job.command, env, unmatched).value.jobID == other
  {
    SafeJobIsRecovered(l, job, jobID, env, unmatched);
    HiddenWorkerStarts(other, env, unmatched);
    WordsBehindBlanks(cliCmd + " ", job.command, unmatched);
  }

  lemma LongerLine(l: LoopConfig, job: JobInput, v: string, jobID: string, other: string)
    requires |job.inExtFiles| == |job.inExtNames| && job.outGeoJs == [v]
    ensures Print(JobWords(l, job.(outGeoJs := [v + (" --jobID " + other)]), jobID))
         == Print(JobWords(l, job, jobID) + [Bare("--" + "jobID"), Bare(other)])
  {
    var ws, two := JobWords(l, job, jobID), [Bare("--" + "jobID"), Bare(other)];
    LongerOutput(l, job, jobID, v, " --jobID " + other);
    assert Rendered(ws + two) == Rendered(ws) + Rendered(two);
    JoinAppend(Rendered(ws), Rendered(two), " ");
    assert "--" + "jobID" == "--jobID";
    assert Rendered(two) == ["--jobID", other];
    assert Join(["--jobID", other], " ") == "--jobID" + " " + other by {
      assert ["--jobID", other][1..] == [other];
    }
    assert Print(ws) + " " + ("--jobID" + " " + other) == Print(ws) + (" --jobID " + other);
  }

  lemma SafeFlagWords(l: LoopConfig, job: JobInput, jobID: string, unmatched: bool)
    requires |job.inExtFiles| == |job.inExtNames| && SafeJob(l, job, jobID, unmatched)
    ensures forall i :: 0 <= i < |FlagWords(JobFlags(job))| ==> WellPrinted(FlagWords(JobFlags(job))[i], unmatched)
  {
    FlagValuesPlain(job, unmatched);
    JobFlagValues(job);
    FlagWordsWellPrinted(JobFlags(job), unmatched);
  }

  /** How the shell cuts the longer line. */
  lemma LongerLineWords(l: LoopConfig, job: JobInput, jobID: string, other: string, unmatched: bool)
    requires |job.inExtFiles| == |job.inExtNames|
    requires SafeJob(l, job, jobID, unmatched) && PlainWord(other, unmatched)
    ensures Words(Print(JobWords(l, job, jobID) + [Bare("--" + "jobID"), Bare(other)]), unmatched)
         == Some(Texts(HeadWords(l, job, jobID)) + (Texts(FlagWords(JobFlags(job))) + ["--" + "jobID", other]))
  {
    var flags, two := FlagWords(JobFlags(job)), [Bare("--" + "jobID"), Bare(other)];
    var head := HeadWords(l, job, jobID);
    SafeFlagWords(l, job, jobID, unmatched);
    HeadWellPrinted(l, job, jobID, unmatched);
    LettersArePlain("--" + "jobID", unmatched);
    assert head + flags + two == head + (flags + two);
    LexPrinted(head, flags + two, unmatched);
    WordsOfPrint(flags + two, unmatched);
    assert Texts(flags + two) == Texts(flags) + ["--" + "jobID", other];
  }

  /** An output whose name goes on, behind a blank, with a job ID: the worker takes that ID for its own. */
  lemma OutputOverridesID(l: LoopConfig, job: JobInput, v: string, jobID: string, other: string, unmatched: bool)
    requires |job.inExtFiles| == |job.inExtNames| && job.outGeoJs == [v]
    requires SafeJob(l, job, jobID, unmatched) && PlainWord(other, unmatched)
    ensures
      var line := Print(JobWords(l, job.(outGeoJs := [v + (" --jobID " + other)]), jobID));
      && Words(line, unmatched).Some? && Words(line, unmatched).value != []
      && ReadFlags(Words(line, unmatched).value[1..]) == Some(JobAsFlags(l, job, jobID).(jobID := other))
  {
    var flags, rest := JobFlags(job), ["--" + "jobID", other];
    LongerLine(l, job, v, jobID, other);
    LongerLineWords(l, job, jobID, other, unmatched);
    JobFlagValues(job);
    ReadHead(l, job, jobID, Texts(FlagWords(flags)) + rest);
    ReadShortFlags(flags, rest, HeadFlags(l, job, jobID));
    OverrideRead(JobAsFlags(l, job, jobID), other);
    AfterFlagsRest(HeadFlags(l, job, jobID), flags);
    AtMostOne(JobAsFlags(l, job, jobID).inputForms, "i");
    AtMostOne(JobAsFlags(l, job, jobID).outputForms, "o");
  }

  lemma OverrideRead(f: Flags, other: string)
    ensures ParseFlags(["--" + "jobID", other], f) == Some(f.(jobID := other))
  {
    HeadFlagsSet(f, other);
    ReadLongFlag("jobID", other, [], f);
    assert ["--" + "jobID", other] + [] == ["--" + "jobID", other];
  }

  /** So a safe job is one such output away from being reported under another job's ID. */
  lemma OverriddenIDIsNotKept(l: LoopConfig, job: JobInput, v: string, jobID: string, other: string, unmatched: bool)
    requires |job.inExtFiles| == |job.inExtNames| && job.outGeoJs == [v]
    requires SafeJob(l, job, jobID, unmatched) && PlainWord(other, unmatched)
    requires l.configPath != "" && l.svcID != ""
    ensures
      var line := Print(JobWords(l, job.(outGeoJs := [v + (" --jobID " + other)]), jobID));
      && StartFlags(line, unmatched).Some? && StartFlags(line, unmatched).value.jobID == other
      && (other != jobID ==> forall svc :: !KeepsID(line, jobID, svc, unmatched))
  {
    OutputOverridesID(l, job, v, jobID, other, unmatched);
    JobAsFlagsFields(l, job, jobID);
    PrintedSourcesParse(job.inExtNames, job.inExtFiles, InputPairs(job));
  }
}
