/**
 From the dispatcher's job to the worker's configuration: exactly which jobs survive the trip
 through the printed command, the shell and the worker's flags.
 */
module CommandRoundTrip {
  import opened Common
  import opened ShellWords
  import opened WorkerConfig
  import opened WorkerCmd
  import opened WorkerCommand

  /**
   The worker's configuration when the shell is given this line; unmatched says that no pattern in it matches
   a file, without which a line with patterns is not certain to be read as it is.
   */
  function ReadBack(line: string, env: Environment, unmatched: bool): Result<Config> {
    match Words(line, unmatched)
    case None => Failure("the shell does not read plain words")
    case Some(ws) =>
      if ws == [] then Failure("no command")
      else
        match ReadFlags(ws[1..])
        case None => Failure("incorrect usage")
        case Some(f) =>
          if Accepted(f, env) then Success(AcceptedConfig(f, env)) else Failure(FirstComplaint(f, env))
  }

  function ZipInputs(job: JobInput): seq<InputSource>
    requires |job.inExtFiles| == |job.inExtNames|
  {
    seq(|job.inExtNames|,
        i requires 0 <= i < |job.inExtNames| => InputSource(job.inExtNames[i], job.inExtFiles[i]))
  }

  /** The worker starts with exactly the job the dispatcher was given. */
  predicate Recovers(l: LoopConfig, job: JobInput, jobID: string, env: Environment, unmatched: bool)
    requires |job.inExtFiles| == |job.inExtNames|
  {
    match ReadBack(Print(JobWords(l, job, jobID)), env, unmatched)
    case Failure(_) => false
    case Success(cfg) =>
      && cfg.configPath == l.configPath
      && cfg.piazzaServiceID == l.svcID
      && cfg.cliCommandExtra == job.command
      && cfg.userID == job.userID
      && cfg.jobID == jobID
      && cfg.inputs == ZipInputs(job)
      && cfg.outputs == job.outGeoJs
  }

  /** Nothing in the fields that are printed between quotes ends the quotes. */
  predicate HeadSafe(l: LoopConfig, job: JobInput, jobID: string) {
    && NoQuote(job.command) && NoQuote(job.userID) && NoQuote(jobID)
    && NoQuote(l.configPath) && NoQuote(l.svcID)
  }

  /** Nothing in the job is changed by the shell or cut in the wrong place. */
  predicate SafeJob(l: LoopConfig, job: JobInput, jobID: string, unmatched: bool)
    requires |job.inExtFiles| == |job.inExtNames|
  {
    && HeadSafe(l, job, jobID)
    && (forall i :: 0 <= i < |job.inExtNames| ==> ':' !in job.inExtNames[i])
    && (forall i :: 0 <= i < |job.inExtNames| ==> PlainWord(job.inExtNames[i] + ":" + job.inExtFiles[i], unmatched))
    && (forall i :: 0 <= i < |job.outGeoJs| ==> PlainWord(job.outGeoJs[i], unmatched))
  }

  /** The worker's own demands on its configuration. */
  predicate Ready(l: LoopConfig, job: JobInput, env: Environment) {
    && l.configPath != "" && l.svcID != ""
    && env.configFile.Success? && env.pzAddr != "" && env.apiKey != ""
    && job.outGeoJs != []
  }

  // ---- reading the head of the command ----

  lemma ClassifyLong(name: string)
    requires name != "" && '=' !in name && name[0] != '-'
    ensures Classify("--" + name) == FlagArg(name, None)
  {
    var a := "--" + name;
    assert a[2..] == name && a[2] == name[0];
    assert a != "--";
    assert '=' !in name[1..];
  }

  lemma ReadLongFlag(name: string, v: string, rest: seq<string>, f: Flags)
    requires name != "" && '=' !in name && name[0] != '-'
    ensures ParseFlags(["--" + name, v] + rest, f)
         == if SetFlag(f, name, v).None? then None else ParseFlags(rest, SetFlag(f, name, v).value)
  {
    ClassifyLong(name);
    var args := ["--" + name, v] + rest;
    assert args[1] == v && args[2..] == rest;
  }

  function HeadFlags(l: LoopConfig, job: JobInput, jobID: string): Flags {
    NO_FLAGS.(cliExtra := job.command, userID := job.userID, config := l.configPath,
             serviceID := l.svcID, jobID := jobID)
  }

  /** What each flag of the head sets. */
  lemma HeadFlagsSet(f: Flags, v: string)
    ensures SetFlag(f, "cliExtra", v) == Some(f.(cliExtra := v))
    ensures SetFlag(f, "userID", v) == Some(f.(userID := v))
    ensures SetFlag(f, "config", v) == Some(f.(config := v))
    ensures SetFlag(f, "serviceID", v) == Some(f.(serviceID := v))
    ensures SetFlag(f, "jobID", v) == Some(f.(jobID := v))
  {
  }

  lemma ReadHead(l: LoopConfig, job: JobInput, jobID: string, rest: seq<string>)
    ensures ParseFlags((Texts(HeadWords(l, job, jobID)) + rest)[1..], NO_FLAGS)
         == ParseFlags(rest, HeadFlags(l, job, jobID))
  {
    var r2 := ["--" + "config", l.configPath] + (["--" + "serviceID", l.svcID] + (["--" + "jobID", jobID] + rest));
    HeadTexts(l, job, jobID);
    assert (Texts(HeadWords(l, job, jobID)) + rest)[1..]
        == ["--" + "cliExtra", job.command] + (["--" + "userID", job.userID] + r2);
    ReadCommandAndUser(job, r2);
    ReadConfigAndIDs(l, jobID, rest, NO_FLAGS.(cliExtra := job.command, userID := job.userID));
  }

  lemma ReadCommandAndUser(job: JobInput, rest: seq<string>)
    ensures ParseFlags(["--" + "cliExtra", job.command] + (["--" + "userID", job.userID] + rest), NO_FLAGS)
         == ParseFlags(rest, NO_FLAGS.(cliExtra := job.command, userID := job.userID))
  {
    var f := NO_FLAGS.(cliExtra := job.command);
    HeadFlagsSet(NO_FLAGS, job.command);
    HeadFlagsSet(f, job.userID);
    ReadLongFlag("cliExtra", job.command, ["--" + "userID", job.userID] + rest, NO_FLAGS);
    ReadLongFlag("userID", job.userID, rest, f);
  }

  lemma ReadConfigAndIDs(l: LoopConfig, jobID: string, rest: seq<string>, f: Flags)
    ensures ParseFlags(["--" + "config", l.configPath]
                       + (["--" + "serviceID", l.svcID] + (["--" + "jobID", jobID] + rest)), f)
         == ParseFlags(rest, f.(config := l.configPath, serviceID := l.svcID, jobID := jobID))
  {
    var r4 := ["--" + "jobID", jobID] + rest;
    var r3 := ["--" + "serviceID", l.svcID] + r4;
    var f2 := f.(config := l.configPath);
    var f3 := f2.(serviceID := l.svcID);
    HeadFlagsSet(f, l.configPath);
    HeadFlagsSet(f2, l.svcID);
    HeadFlagsSet(f3, jobID);
    ReadLongFlag("config", l.configPath, r3, f);
    ReadLongFlag("serviceID", l.svcID, r4, f2);
    ReadLongFlag("jobID", jobID, rest, f3);
  }

  lemma HeadTexts(l: LoopConfig, job: JobInput, jobID: string)
    ensures Texts(HeadWords(l, job, jobID))
         == ["worker", "--" + "cliExtra", job.command, "--" + "userID", job.userID, "--" + "config", l.configPath,
             "--" + "serviceID", l.svcID, "--" + "jobID", jobID]
  {
    assert "--cliExtra" == "--" + "cliExtra";
    assert "--userID" == "--" + "userID";
    assert "--config" == "--" + "config";
    assert "--serviceID" == "--" + "serviceID";
    assert "--jobID" == "--" + "jobID";
  }

  // ---- reading the flags that follow ----

  /** Flags as this dispatcher prints them after the head. */
  ghost predicate ShortFlags(flags: seq<(string, string)>) {
    forall i :: 0 <= i < |flags| ==> flags[i].0 == "-i" || flags[i].0 == "-o"
  }

  /** The values given under one flag, in order. */
  function ValuesOf(flags: seq<(string, string)>, flag: string): seq<string> {
    if flags == [] then []
    else (if flags[0].0 == flag then [flags[0].1] else []) + ValuesOf(flags[1..], flag)
  }

  /** The slices after reading these flags one by one. */
  function AfterFlags(f: Flags, flags: seq<(string, string)>): Flags
    decreases |flags|
  {
    if flags == [] then f else AfterFlags(AfterFlag(f, flags[0]), flags[1..])
  }

  function AfterFlag(f: Flags, flag: (string, string)): Flags {
    if flag.0 == "-i" then f.(inputs := f.inputs + [flag.1], inputForms := f.inputForms + {"i"})
    else f.(outputs := f.outputs + [flag.1], outputForms := f.outputForms + {"o"})
  }

  lemma ReadShortFlag(flag: string, v: string, rest: seq<string>, f: Flags)
    requires flag == "-i" || flag == "-o"
    ensures ParseFlags([flag, v] + rest, f) == ParseFlags(rest, AfterFlag(f, (flag, v)))
    ensures ParseFlags([flag], f) == None
  {
    assert flag[1..][1..] == "";
    assert Classify("-i") == FlagArg("i", None) by { assert "-i"[1..] == "i"; }
    assert Classify("-o") == FlagArg("o", None) by { assert "-o"[1..] == "o"; }
    var args := [flag, v] + rest;
    assert args[1] == v && args[2..] == rest;
  }

  lemma TextsOfFlags(flags: seq<(string, string)>)
    requires flags != []
    ensures Texts(FlagWords(flags)) == [flags[0].0, flags[0].1] + Texts(FlagWords(flags[1..]))
  {
  }

  lemma {:induction false} ReadShortFlags(flags: seq<(string, string)>, rest: seq<string>, f: Flags)
    requires ShortFlags(flags)
    ensures ParseFlags(Texts(FlagWords(flags)) + rest, f) == ParseFlags(rest, AfterFlags(f, flags))
    decreases |flags|
  {
    if flags == [] {
      assert Texts(FlagWords(flags)) + rest == rest;
    } else {
      var more := Texts(FlagWords(flags[1..])) + rest;
      TextsOfFlags(flags);
      assert Texts(FlagWords(flags)) + rest == [flags[0].0, flags[0].1] + more;
      ReadShortFlag(flags[0].0, flags[0].1, more, f);
      ReadShortFlags(flags[1..], rest, AfterFlag(f, (flags[0].0, flags[0].1)));
    }
  }

  /** Short flags add to the two slices and touch nothing else. */
  ghost predicate OnlySlicesDiffer(f: Flags, g: Flags) {
    && g == f.(inputs := g.inputs, outputs := g.outputs, inputForms := g.inputForms, outputForms := g.outputForms)
    && (f.inputForms <= {"i"} ==> g.inputForms <= {"i"})
    && (f.outputForms <= {"o"} ==> g.outputForms <= {"o"})
  }

  lemma {:induction false} AfterFlagsRest(f: Flags, flags: seq<(string, string)>)
    ensures OnlySlicesDiffer(f, AfterFlags(f, flags))
    decreases |flags|
  {
    if flags != [] {
      assert OnlySlicesDiffer(f, AfterFlag(f, flags[0]));
      AfterFlagsRest(AfterFlag(f, flags[0]), flags[1..]);
    }
  }

  lemma {:induction false} AfterFlagsValues(f: Flags, flags: seq<(string, string)>)
    requires ShortFlags(flags)
    ensures AfterFlags(f, flags).inputs == f.inputs + ValuesOf(flags, "-i")
    ensures AfterFlags(f, flags).outputs == f.outputs + ValuesOf(flags, "-o")
    decreases |flags|
  {
    if flags == [] {
      assert f.inputs + [] == f.inputs && f.outputs + [] == f.outputs;
    } else {
      ValuesBehindFirst(flags, f);
      AfterFlagsValues(AfterFlag(f, flags[0]), flags[1..]);
    }
  }

  lemma {:induction false} ValuesOfConcat(a: seq<(string, string)>, b: seq<(string, string)>, flag: string)
    ensures ValuesOf(a + b, flag) == ValuesOf(a, flag) + ValuesOf(b, flag)
  {
    if a == [] {
      assert a + b == b;
    } else {
      assert (a + b)[0] == a[0] && (a + b)[1..] == a[1..] + b;
      ValuesOfConcat(a[1..], b, flag);
      Assoc(if a[0].0 == flag then [a[0].1] else [], ValuesOf(a[1..], flag), ValuesOf(b, flag));
    }
  }

  lemma {:induction false} ValuesOfFlagged(flag: string, values: seq<string>, wanted: string)
    ensures ValuesOf(Flagged(flag, values), wanted) == if flag == wanted then values else []
  {
    var flags := Flagged(flag, values);
    if values != [] {
      var tail := values[1..];
      assert flags[0] == (flag, values[0]) && flags[1..] == Flagged(flag, tail);
      ValuesOfFlagged(flag, tail, wanted);
      if flag == wanted {
        assert ValuesOf(flags, wanted) == [values[0]] + tail == values;
      } else {
        assert ValuesOf(flags, wanted) == [] + ValuesOf(flags[1..], wanted) == [];
      }
    }
  }

  lemma JobFlagValues(job: JobInput)
    requires |job.inExtFiles| == |job.inExtNames|
    ensures ShortFlags(JobFlags(job))
    ensures ValuesOf(JobFlags(job), "-i") == InputPairs(job)
    ensures ValuesOf(JobFlags(job), "-o") == job.outGeoJs
  {
    var ins, outs := Flagged("-i", InputPairs(job)), Flagged("-o", job.outGeoJs);
    ValuesOfConcat(ins, outs, "-i");
    ValuesOfConcat(ins, outs, "-o");
    ValuesOfFlagged("-i", InputPairs(job), "-i");
    ValuesOfFlagged("-i", InputPairs(job), "-o");
    ValuesOfFlagged("-o", job.outGeoJs, "-i");
    ValuesOfFlagged("-o", job.outGeoJs, "-o");
    assert "-i" != "-o";
  }

  /** The printed flags are read, and come out with the values they were given. */
  ghost predicate ReadsBack(line: string, flags: seq<(string, string)>, f: Flags, unmatched: bool) {
    && Words(line, unmatched).Some?
    && ParseFlags(Words(line, unmatched).value, f).Some?
    && var g := ParseFlags(Words(line, unmatched).value, f).value;
    && g.inputs == f.inputs + ValuesOf(flags, "-i")
    && g.outputs == f.outputs + ValuesOf(flags, "-o")
  }

  /** Flags printed bare are read back as given only if every value is a plain word. */
  lemma {:induction false} FlagsForced(flags: seq<(string, string)>, f: Flags, unmatched: bool)
    requires ShortFlags(flags)
    requires forall i :: 0 <= i < |flags| ==> NoQuote(flags[i].1)
    requires ReadsBack(Print(FlagWords(flags)), flags, f, unmatched)
    ensures forall i :: 0 <= i < |flags| ==> PlainWord(flags[i].1, unmatched)
    decreases |flags|
  {
    if flags != [] {
      FirstForced(flags, f, unmatched);
      ValuesBehindFirst(flags, f);
      var tail := flags[1..];
      assert forall i :: 0 <= i < |tail| ==> tail[i] == flags[i + 1];
      FlagsForced(tail, AfterFlag(f, flags[0]), unmatched);
      forall i | 0 <= i < |flags|
        ensures PlainWord(flags[i].1, unmatched)
      {
        if i > 0 { assert flags[i] == tail[i - 1]; }
      }
    }
  }

  lemma ValuesBehindFirst(flags: seq<(string, string)>, f: Flags)
    requires flags != [] && ShortFlags(flags)
    ensures AfterFlag(f, flags[0]).inputs + ValuesOf(flags[1..], "-i") == f.inputs + ValuesOf(flags, "-i")
    ensures AfterFlag(f, flags[0]).outputs + ValuesOf(flags[1..], "-o") == f.outputs + ValuesOf(flags, "-o")
  {
    assert "-i"[1] != "-o"[1];
    Assoc(f.inputs, if flags[0].0 == "-i" then [flags[0].1] else [], ValuesOf(flags[1..], "-i"));
    Assoc(f.outputs, if flags[0].0 == "-o" then [flags[0].1] else [], ValuesOf(flags[1..], "-o"));
    assert f.inputs + [] == f.inputs && f.outputs + [] == f.outputs;
  }

  lemma Assoc(a: seq<string>, b: seq<string>, c: seq<string>)
    ensures a + b + c == a + (b + c)
  {
  }

  /** Behind a short flag the shell cuts a word, and the flag takes it. */
  lemma FlagTakesWord(flag: string, ts: seq<string>, f: Flags)
    requires flag == "-i" || flag == "-o"
    requires ParseFlags([flag] + ts, f).Some?
    ensures ts != [] && ParseFlags([flag] + ts, f) == ParseFlags(ts[1..], AfterFlag(f, (flag, ts[0])))
  {
    ReadShortFlag(flag, "", [], f);
    assert ts == [] ==> [flag] + ts == [flag];
    assert [flag] + ts == [flag, ts[0]] + ts[1..];
    ReadShortFlag(flag, ts[0], ts[1..], f);
  }

  /** The first flag is a word by itself, whatever the shell makes of the rest. */
  lemma {:induction false} FirstFlagCut(flags: seq<(string, string)>, unmatched: bool)
    requires flags != [] && ShortFlags(flags)
    ensures Words(Print(FlagWords(flags)), unmatched)
         == Prepend([flags[0].0], Words(Print([Bare(flags[0].1)] + FlagWords(flags[1..])), unmatched))
  {
    var ws := [Bare(flags[0].1)] + FlagWords(flags[1..]);
    FlagIsPlain(flags[0].0, unmatched);
    LexCons(Bare(flags[0].0), ws, unmatched);
    assert FlagWords(flags) == [Bare(flags[0].0)] + ws;
  }

  /** The line behind the first flag, cut into words: the first of them is what the flag gets. */
  lemma FirstWordForced(flags: seq<(string, string)>, f: Flags, unmatched: bool) returns (ts: seq<string>)
    requires flags != [] && ShortFlags(flags)
    requires ReadsBack(Print(FlagWords(flags)), flags, f, unmatched)
    ensures Words(Print([Bare(flags[0].1)] + FlagWords(flags[1..])), unmatched) == Some(ts)
    ensures ts != [] && ts[0] == flags[0].1
    ensures ParseFlags(Words(Print(FlagWords(flags)), unmatched).value, f)
         == ParseFlags(ts[1..], AfterFlag(f, flags[0]))
  {
    var (flag, v) := flags[0];
    var ws := [Bare(v)] + FlagWords(flags[1..]);
    FirstFlagCut(flags, unmatched);
    ts := Words(Print(ws), unmatched).value;
    FlagTakesWord(flag, ts, f);
    ParseFlagsAppends(ts[1..], AfterFlag(f, (flag, ts[0])));
    FirstValueForced(flags, f, ts);
  }

  /** The first value is the first word the shell cuts behind its flag, hence plain. */
  lemma FirstForced(flags: seq<(string, string)>, f: Flags, unmatched: bool)
    requires flags != [] && ShortFlags(flags)
    requires forall i :: 0 <= i < |flags| ==> NoQuote(flags[i].1)
    requires ReadsBack(Print(FlagWords(flags)), flags, f, unmatched)
    ensures PlainWord(flags[0].1, unmatched)
    ensures Words(Print(FlagWords(flags[1..])), unmatched).Some?
    ensures ParseFlags(Words(Print(FlagWords(flags)), unmatched).value, f)
         == ParseFlags(Words(Print(FlagWords(flags[1..])), unmatched).value, AfterFlag(f, flags[0]))
  {
    var v, tail := flags[0].1, FlagWords(flags[1..]);
    var ts := FirstWordForced(flags, f, unmatched);
    PrintQuoteFree(flags, unmatched);
    LexOfQuoteFree(Print([Bare(v)] + tail), Between, unmatched);
    assert ts[0] in ts;
    LexCons(Bare(v), tail, unmatched);
    assert ([v] + Words(Print(tail), unmatched).value)[1..] == Words(Print(tail), unmatched).value;
  }

  lemma FirstValueForced(flags: seq<(string, string)>, f: Flags, ts: seq<string>)
    requires flags != [] && ShortFlags(flags) && ts != []
    requires
      var f' := AfterFlag(f, (flags[0].0, ts[0]));
      && ParseFlags(ts[1..], f').Some?
      && var g := ParseFlags(ts[1..], f').value;
      && f'.inputs <= g.inputs && f'.outputs <= g.outputs
      && g.inputs == f.inputs + ValuesOf(flags, "-i") && g.outputs == f.outputs + ValuesOf(flags, "-o")
    ensures ts[0] == flags[0].1
  {
    var f' := AfterFlag(f, (flags[0].0, ts[0]));
    var g := ParseFlags(ts[1..], f').value;
    if flags[0].0 == "-i" {
      assert g.inputs[|f.inputs|] == f'.inputs[|f.inputs|] == ts[0];
      assert ValuesOf(flags, "-i")[0] == flags[0].1;
    } else {
      assert g.outputs[|f.outputs|] == f'.outputs[|f.outputs|] == ts[0];
      assert ValuesOf(flags, "-o")[0] == flags[0].1;
    }
  }

  lemma FlagIsPlain(flag: string, unmatched: bool)
    requires flag == "-i" || flag == "-o"
    ensures PlainWord(flag, unmatched)
  {
  }

  lemma {:induction false} JoinQuoteFree(parts: seq<string>)
    requires forall i :: 0 <= i < |parts| ==> NoQuote(parts[i])
    ensures NoQuote(Join(parts, " "))
  {
    if |parts| > 1 {
      JoinQuoteFree(parts[1..]);
      assert NoQuote(parts[0]);
    }
  }

  lemma {:induction false} FlagWordsQuoteFree(flags: seq<(string, string)>, unmatched: bool)
    requires ShortFlags(flags)
    requires forall i :: 0 <= i < |flags| ==> NoQuote(flags[i].1)
    ensures forall i :: 0 <= i < |FlagWords(flags)| ==> NoQuote(Render(FlagWords(flags)[i]))
  {
    if flags != [] {
      FlagIsPlain(flags[0].0, unmatched);
      FlagWordsQuoteFree(flags[1..], unmatched);
      assert flags[0].0 == "-i" || flags[0].0 == "-o";
    }
  }

  /** The rest of the line, from the first value on, holds no quote. */
  lemma PrintQuoteFree(flags: seq<(string, string)>, unmatched: bool)
    requires flags != [] && ShortFlags(flags)
    requires forall i :: 0 <= i < |flags| ==> NoQuote(flags[i].1)
    ensures NoQuote(Print([Bare(flags[0].1)] + FlagWords(flags[1..])))
  {
    FlagWordsQuoteFree(flags[1..], unmatched);
    JoinQuoteFree(Rendered([Bare(flags[0].1)] + FlagWords(flags[1..])));
  }

  // ---- the whole trip ----

  /** What the worker's flags hold once a safely printed job has been read. */
  function JobAsFlags(l: LoopConfig, job: JobInput, jobID: string): Flags
    requires |job.inExtFiles| == |job.inExtNames|
  {
    AfterFlags(HeadFlags(l, job, jobID), JobFlags(job))
  }

  lemma HeadWellPrinted(l: LoopConfig, job: JobInput, jobID: string, unmatched: bool)
    requires HeadSafe(l, job, jobID)
    ensures forall i :: 0 <= i < |HeadWords(l, job, jobID)| ==> WellPrinted(HeadWords(l, job, jobID)[i], unmatched)
  {
    LettersArePlain("worker", unmatched);
    LettersArePlain("--cliExtra", unmatched);
    LettersArePlain("--userID", unmatched);
    LettersArePlain("--config", unmatched);
    LettersArePlain("--serviceID", unmatched);
    LettersArePlain("--jobID", unmatched);
  }

  predicate DashOrLetter(c: char) { c == '-' || 'a' <= c <= 'z' || 'A' <= c <= 'Z' }

  lemma LettersArePlain(s: string, unmatched: bool)
    requires s != "" && forall i :: 0 <= i < |s| ==> DashOrLetter(s[i])
    ensures PlainWord(s, unmatched)
  {
    forall i | 0 <= i < |s|
      ensures PlainChar(s[i], unmatched)
    {
      assert DashOrLetter(s[i]);
    }
    assert DashOrLetter(s[0]);
  }

  lemma {:induction false} FlagWordsWellPrinted(flags: seq<(string, string)>, unmatched: bool)
    requires ShortFlags(flags)
    requires forall i :: 0 <= i < |flags| ==> PlainWord(flags[i].1, unmatched)
    ensures forall i :: 0 <= i < |FlagWords(flags)| ==> WellPrinted(FlagWords(flags)[i], unmatched)
  {
    if flags != [] {
      FlagIsPlain(flags[0].0, unmatched);
      FlagWordsWellPrinted(flags[1..], unmatched);
    }
  }

  /** Behind a safe head, the shell's words are the head's texts and then whatever the rest reads as. */
  lemma WordsBehindHead(l: LoopConfig, job: JobInput, jobID: string, unmatched: bool)
    requires |job.inExtFiles| == |job.inExtNames|
    requires HeadSafe(l, job, jobID)
    ensures Words(Print(JobWords(l, job, jobID)), unmatched)
         == Prepend(Texts(HeadWords(l, job, jobID)), Words(Print(FlagWords(JobFlags(job))), unmatched))
  {
    HeadWellPrinted(l, job, jobID, unmatched);
    LexPrinted(HeadWords(l, job, jobID), FlagWords(JobFlags(job)), unmatched);
  }

  lemma ReadPlainJob(l: LoopConfig, job: JobInput, jobID: string, unmatched: bool)
    requires |job.inExtFiles| == |job.inExtNames|
    requires HeadSafe(l, job, jobID)
    requires forall i :: 0 <= i < |JobFlags(job)| ==> PlainWord(JobFlags(job)[i].1, unmatched)
    ensures Words(Print(JobWords(l, job, jobID)), unmatched).Some?
    ensures Words(Print(JobWords(l, job, jobID)), unmatched).value != []
    ensures ReadFlags(Words(Print(JobWords(l, job, jobID)), unmatched).value[1..]) == Some(JobAsFlags(l, job, jobID))
  {
    JobFlagValues(job);
    FlagWordsWellPrinted(JobFlags(job), unmatched);
    WordsOfPrint(FlagWords(JobFlags(job)), unmatched);
    WordsBehindHead(l, job, jobID, unmatched);
    ReadHead(l, job, jobID, Texts(FlagWords(JobFlags(job))));
    ReadShortFlags(JobFlags(job), [], HeadFlags(l, job, jobID));
    assert Texts(FlagWords(JobFlags(job))) + [] == Texts(FlagWords(JobFlags(job)));
    AfterFlagsRest(HeadFlags(l, job, jobID), JobFlags(job));
    AtMostOne(JobAsFlags(l, job, jobID).inputForms, "i");
    AtMostOne(JobAsFlags(l, job, jobID).outputForms, "o");
  }

  lemma AtMostOne(s: set<string>, x: string)
    requires s <= {x}
    ensures |s| <= 1
  {
    if x in s { assert s == {x}; } else { assert s == {}; }
  }

  lemma JobAsFlagsFields(l: LoopConfig, job: JobInput, jobID: string)
    requires |job.inExtFiles| == |job.inExtNames|
    ensures
      var f := JobAsFlags(l, job, jobID);
      && f.config == l.configPath && f.serviceID == l.svcID && f.cliExtra == job.command
      && f.userID == job.userID && f.jobID == jobID && f.piazzaBaseURL == "" && f.piazzaAPIKey == ""
      && f.inputs == InputPairs(job) && f.outputs == job.outGeoJs
  {
    JobFlagValues(job);
    AfterFlagsValues(HeadFlags(l, job, jobID), JobFlags(job));
    AfterFlagsRest(HeadFlags(l, job, jobID), JobFlags(job));
    assert [] + InputPairs(job) == InputPairs(job) && [] + job.outGeoJs == job.outGeoJs;
  }

  /** All values behind short flags are plain words exactly when all pairs and all outputs are. */
  lemma FlagValuesPlain(job: JobInput, unmatched: bool)
    requires |job.inExtFiles| == |job.inExtNames|
    ensures (forall i :: 0 <= i < |JobFlags(job)| ==> PlainWord(JobFlags(job)[i].1, unmatched)) <==> (
              && (forall i :: 0 <= i < |job.inExtNames| ==>
                    PlainWord(job.inExtNames[i] + ":" + job.inExtFiles[i], unmatched))
              && (forall i :: 0 <= i < |job.outGeoJs| ==> PlainWord(job.outGeoJs[i], unmatched)))
  {
    var flags, n := JobFlags(job), |job.inExtNames|;
    if forall i :: 0 <= i < |flags| ==> PlainWord(flags[i].1, unmatched) {
      forall i | 0 <= i < n
        ensures PlainWord(job.inExtNames[i] + ":" + job.inExtFiles[i], unmatched)
      {
        assert flags[i].1 == InputPairs(job)[i];
      }
      forall i | 0 <= i < |job.outGeoJs|
        ensures PlainWord(job.outGeoJs[i], unmatched)
      {
        assert flags[n + i].1 == job.outGeoJs[i];
      }
    }
    if && (forall i :: 0 <= i < n ==> PlainWord(job.inExtNames[i] + ":" + job.inExtFiles[i], unmatched))
       && (forall i :: 0 <= i < |job.outGeoJs| ==> PlainWord(job.outGeoJs[i], unmatched)) {
      forall i | 0 <= i < |flags|
        ensures PlainWord(flags[i].1, unmatched)
      {
        if i < n {
          assert flags[i].1 == job.inExtNames[i] + ":" + job.inExtFiles[i];
        } else {
          assert flags[i].1 == job.outGeoJs[i - n];
        }
      }
    }
  }

  /** Every safe job reaches a ready worker unchanged. */
  lemma SafeJobIsRecovered(l: LoopConfig, job: JobInput, jobID: string, env: Environment, unmatched: bool)
    requires |job.inExtFiles| == |job.inExtNames|
    requires SafeJob(l, job, jobID, unmatched) && Ready(l, job, env)
    ensures Recovers(l, job, jobID, env, unmatched)
  {
    FlagValuesPlain(job, unmatched);
    ReadPlainJob(l, job, jobID, unmatched);
    JobAsFlagsFields(l, job, jobID);
    PrintedSourcesParse(job.inExtNames, job.inExtFiles, InputPairs(job));
  }

  /** A worker that starts on a safe job has exactly that job. */
  lemma StartedOnSafeJob(l: LoopConfig, job: JobInput, jobID: string, env: Environment, unmatched: bool)
    requires |job.inExtFiles| == |job.inExtNames|
    requires SafeJob(l, job, jobID, unmatched)
    requires ReadBack(Print(JobWords(l, job, jobID)), env, unmatched).Success?
    ensures Recovers(l, job, jobID, env, unmatched)
  {
    FlagValuesPlain(job, unmatched);
    ReadPlainJob(l, job, jobID, unmatched);
    JobAsFlagsFields(l, job, jobID);
    PrintedSourcesParse(job.inExtNames, job.inExtFiles, InputPairs(job));
  }

  /** A job without GeoJSON outputs never gets a worker that starts: the worker insists on an output. */
  lemma NoOutputsNeverStarts(l: LoopConfig, job: JobInput, jobID: string, env: Environment, unmatched: bool)
    requires |job.inExtFiles| == |job.inExtNames|
    requires SafeJob(l, job, jobID, unmatched) && job.outGeoJs == []
    ensures ReadBack(Print(JobWords(l, job, jobID)), env, unmatched).Failure?
  {
    if ReadBack(Print(JobWords(l, job, jobID)), env, unmatched).Success? {
      StartedOnSafeJob(l, job, jobID, env, unmatched);
      RecoveredIsSafe(l, job, jobID, env, unmatched);
      assert false;
    }
  }

  /** What the flags of a recovered job hold. */
  lemma RecoveredFlags(l: LoopConfig, job: JobInput, jobID: string, env: Environment, unmatched: bool)
    returns (f: Flags)
    requires |job.inExtFiles| == |job.inExtNames|
    requires Recovers(l, job, jobID, env, unmatched)
    ensures
      var ws := Words(Print(JobWords(l, job, jobID)), unmatched);
      && ws.Some? && ws.value != [] && ParseFlags(ws.value[1..], NO_FLAGS) == Some(f)
    ensures Without(f, '\'') && Accepted(f, env)
    ensures f.cliExtra == job.command && f.userID == job.userID && f.jobID == jobID
    ensures f.config == l.configPath && f.serviceID == l.svcID && f.outputs == job.outGeoJs
    ensures ParseSources(f.inputs).value == ZipInputs(job)
  {
    var ws := Words(Print(JobWords(l, job, jobID)), unmatched).value;
    f := ReadFlags(ws[1..]).value;
    LexRemovesQuotes(Print(JobWords(l, job, jobID)), Between, unmatched);
    forall i | 0 <= i < |ws[1..]|
      ensures '\'' !in ws[1..][i]
    {
      assert ws[1..][i] in ws;
    }
    ParseFlagsWithout(ws[1..], NO_FLAGS, '\'');
  }

  /** Inputs that parse to the job's pairs are the job's pairs, printed. */
  lemma ZippedInputs(job: JobInput, sources: seq<string>)
    requires |job.inExtFiles| == |job.inExtNames|
    requires ParseSources(sources) == Success(ZipInputs(job))
    ensures sources == InputPairs(job)
    ensures forall i :: 0 <= i < |job.inExtNames| ==> ':' !in job.inExtNames[i]
  {
    var zip := ZipInputs(job);
    ParsedSourcesRebuild(sources);
    forall i | 0 <= i < |job.inExtNames|
      ensures sources[i] == InputPairs(job)[i] && ':' !in job.inExtNames[i]
    {
      assert zip[i].fileName + ":" + zip[i].url == sources[i] && ':' !in zip[i].fileName;
    }
  }

  lemma ValuesQuoteFree(job: JobInput, f: Flags)
    requires |job.inExtFiles| == |job.inExtNames|
    requires Without(f, '\'') && f.inputs == InputPairs(job) && f.outputs == job.outGeoJs
    ensures forall i :: 0 <= i < |JobFlags(job)| ==> NoQuote(JobFlags(job)[i].1)
  {
    forall i | 0 <= i < |JobFlags(job)|
      ensures NoQuote(JobFlags(job)[i].1)
    {
      var n := |job.inExtNames|;
      if i < n {
        assert JobFlags(job)[i].1 == f.inputs[i];
      } else {
        assert JobFlags(job)[i].1 == f.outputs[i - n];
      }
    }
  }

  /** Only quote-free fields can come back: the shell removes every quote it is given. */
  lemma RecoveredIsQuoteFree(l: LoopConfig, job: JobInput, jobID: string, env: Environment, unmatched: bool)
    requires |job.inExtFiles| == |job.inExtNames|
    requires Recovers(l, job, jobID, env, unmatched)
    ensures HeadSafe(l, job, jobID)
    ensures forall i :: 0 <= i < |job.inExtNames| ==> ':' !in job.inExtNames[i]
    ensures forall i :: 0 <= i < |JobFlags(job)| ==> NoQuote(JobFlags(job)[i].1)
    ensures
      var ws := Words(Print(JobWords(l, job, jobID)), unmatched).value;
      && ws != []
      && ParseFlags(ws[1..], NO_FLAGS).Some?
      && ParseFlags(ws[1..], NO_FLAGS).value.inputs == InputPairs(job)
      && ParseFlags(ws[1..], NO_FLAGS).value.outputs == job.outGeoJs
  {
    var f := RecoveredFlags(l, job, jobID, env, unmatched);
    ZippedInputs(job, f.inputs);
    ValuesQuoteFree(job, f);
  }

  lemma RecoveredIsSafe(l: LoopConfig, job: JobInput, jobID: string, env: Environment, unmatched: bool)
    requires |job.inExtFiles| == |job.inExtNames|
    requires Recovers(l, job, jobID, env, unmatched)
    ensures SafeJob(l, job, jobID, unmatched) && Ready(l, job, env)
  {
    RecoveredIsQuoteFree(l, job, jobID, env, unmatched);
    WordsBehindHead(l, job, jobID, unmatched);
    var flags, f0 := JobFlags(job), HeadFlags(l, job, jobID);
    var ts := Words(Print(FlagWords(flags)), unmatched).value;
    ReadHead(l, job, jobID, ts);
    JobFlagValues(job);
    assert [] + InputPairs(job) == InputPairs(job) && [] + job.outGeoJs == job.outGeoJs;
    assert ReadsBack(Print(FlagWords(flags)), flags, f0, unmatched);
    FlagsForced(flags, f0, unmatched);
    FlagValuesPlain(job, unmatched);
    ReadPlainJob(l, job, jobID, unmatched);
    JobAsFlagsFields(l, job, jobID);
  }

  /**
   The worker is started with exactly the dispatcher's job if and only if the job is safe and the
   worker's own demands are met.
   */
  lemma RoundTripExactly(l: LoopConfig, job: JobInput, jobID: string, env: Environment, unmatched: bool)
    requires |job.inExtFiles| == |job.inExtNames|
    ensures Recovers(l, job, jobID, env, unmatched) <==> SafeJob(l, job, jobID, unmatched) && Ready(l, job, env)
  {
    if Recovers(l, job, jobID, env, unmatched) {
      RecoveredIsSafe(l, job, jobID, env, unmatched);
    }
    if SafeJob(l, job, jobID, unmatched) && Ready(l, job, env) {
      SafeJobIsRecovered(l, job, jobID, env, unmatched);
    }
  }

  /** A URL with a query of two parameters is enough to lose the job: the shell sees an operator. */
  lemma QueryURLIsLost(l: LoopConfig, jobID: string, env: Environment, unmatched: bool)
    ensures !Recovers(l, JobInput("", "", ["http://h/f?a=1&b=2"], ["f"], ["o"]), jobID, env, unmatched)
  {
    var job := JobInput("", "", ["http://h/f?a=1&b=2"], ["f"], ["o"]);
    RoundTripExactly(l, job, jobID, env, unmatched);
    var pair := job.inExtNames[0] + ":" + job.inExtFiles[0];
    assert pair[16] == '&';
    assert !PlainChar(pair[16], unmatched);
  }

  lemma ShortQueryIsPlain(unmatched: bool)
    ensures PlainWord("f:h?a", unmatched) <==> unmatched
  {
    var pair := "f:h?a";
    assert pair[3] == '?';
    assert !IsSpecial('f') && !IsSpecial(':') && !IsSpecial('h') && !IsSpecial('?') && !IsSpecial('a');
    assert pair[0] == 'f' && pair[1] == ':' && pair[2] == 'h' && pair[4] == 'a' && |pair| == 5;
    assert PlainChar(pair[3], unmatched) <==> unmatched;
  }

  /** With one parameter the URL is a pattern: it survives exactly where that matches no file. */
  lemma QueryURLIsAPattern(l: LoopConfig, jobID: string, env: Environment, unmatched: bool)
    requires NoQuote(jobID) && NoQuote(l.configPath) && NoQuote(l.svcID)
    requires Ready(l, JobInput("", "", ["h?a"], ["f"], ["o"]), env)
    ensures Recovers(l, JobInput("", "", ["h?a"], ["f"], ["o"]), jobID, env, unmatched) <==> unmatched
  {
    var job := JobInput("", "", ["h?a"], ["f"], ["o"]);
    RoundTripExactly(l, job, jobID, env, unmatched);
    ShortQueryIsPlain(unmatched);
    assert job.inExtNames[0] + ":" + job.inExtFiles[0] == "f:h?a";
    LettersArePlain("o", unmatched);
  }
}
