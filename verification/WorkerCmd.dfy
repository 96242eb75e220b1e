/**
 worker/cmd.go: the worker's flags and runCmd. The flag reader follows the package the worker uses
 (one or two dashes, `-name value` or `-name=value`, repeatable slice flags, two spellings of one
 flag refused, help and version requests never reach runCmd).
 */
module WorkerCmd {
  import opened Common
  import opened WorkerConfig

  datatype Flags = Flags(
    config: string,
    cliExtra: string,
    piazzaBaseURL: string,
    piazzaAPIKey: string,
    userID: string,
    serviceID: string,
    jobID: string,
    inputs: seq<string>,
    outputs: seq<string>,
    inputForms: set<string>,
    outputForms: set<string>)

  const NO_FLAGS := Flags("", "", "", "", "", "", "", [], [], {}, {})

  /** How the flag reader takes one argument. */
  datatype Arg = NotFlag | Terminator | BadSyntax | FlagArg(name: string, inlineValue: Option<string>)

  function Classify(a: string): Arg {
    if |a| < 2 || a[0] != '-' then NotFlag
    else if a == "--" then Terminator
    else
      var body := if a[1] == '-' then a[2..] else a[1..];
      if body[0] == '-' || body[0] == '=' then BadSyntax
      else
        var eq := 1 + IndexOf(body[1..], '=');
        if eq == |body| then FlagArg(body, None)
        else FlagArg(body[..eq], Some(body[eq + 1..]))
  }

  /** Setting a flag by name; None for a name that is not declared (or asks for help or version). */
  function SetFlag(f: Flags, name: string, v: string): Option<Flags> {
    if name == "config" then Some(f.(config := v))
    else if name == "cliExtra" then Some(f.(cliExtra := v))
    else if name == "piazzaBaseURL" then Some(f.(piazzaBaseURL := v))
    else if name == "piazzaAPIKey" then Some(f.(piazzaAPIKey := v))
    else if name == "userID" then Some(f.(userID := v))
    else if name == "serviceID" then Some(f.(serviceID := v))
    else if name == "jobID" then Some(f.(jobID := v))
    else if name == "input" || name == "i" then
      Some(f.(inputs := f.inputs + [v], inputForms := f.inputForms + {name}))
    else if name == "output" || name == "o" then
      Some(f.(outputs := f.outputs + [v], outputForms := f.outputForms + {name}))
    else None
  }

  /** Every flag sets its own field, in both spellings of those that have two; the slices grow at their ends. */
  lemma FlagsByName(f: Flags, v: string)
    ensures SetFlag(f, "config", v) == Some(f.(config := v))
    ensures SetFlag(f, "cliExtra", v) == Some(f.(cliExtra := v))
    ensures SetFlag(f, "piazzaBaseURL", v) == Some(f.(piazzaBaseURL := v))
    ensures SetFlag(f, "piazzaAPIKey", v) == Some(f.(piazzaAPIKey := v))
    ensures SetFlag(f, "userID", v) == Some(f.(userID := v))
    ensures SetFlag(f, "serviceID", v) == Some(f.(serviceID := v))
    ensures SetFlag(f, "jobID", v) == Some(f.(jobID := v))
    ensures forall name | name == "input" || name == "i" :: SetFlag(f, name, v).Some?
              && SetFlag(f, name, v).value == f.(inputs := f.inputs + [v], inputForms := f.inputForms + {name})
    ensures forall name | name == "output" || name == "o" :: SetFlag(f, name, v).Some?
              && SetFlag(f, name, v).value == f.(outputs := f.outputs + [v], outputForms := f.outputForms + {name})
  {
  }

  /** Left-over arguments are ignored, unless they name the help command. */
  function Positional(rest: seq<string>, f: Flags): Option<Flags> {
    if rest != [] && (rest[0] == "help" || rest[0] == "h") then None else Some(f)
  }

  function ParseFlags(args: seq<string>, f: Flags): Option<Flags>
    decreases |args|
  {
    if args == [] then Some(f)
    else
      match Classify(args[0])
      case NotFlag => Positional(args, f)
      case Terminator => Positional(args[1..], f)
      case BadSyntax => None
      case FlagArg(name, Some(v)) =>
        (match SetFlag(f, name, v)
         case None => None
         case Some(g) => ParseFlags(args[1..], g))
      case FlagArg(name, None) =>
        if |args| < 2 then None
        else
          match SetFlag(f, name, args[1])
          case None => None
          case Some(g) => ParseFlags(args[2..], g)
  }

  /** Reading the arguments after the program's name. */
  function ReadFlags(args: seq<string>): Option<Flags> {
    match ParseFlags(args, NO_FLAGS)
    case None => None
    case Some(f) => if |f.inputForms| > 1 || |f.outputForms| > 1 then None else Some(f)
  }

  /** A list of arguments is read exactly if it parses and no flag with two spellings is given in both. */
  lemma ReadExactly(args: seq<string>)
    ensures ReadFlags(args).Some? <==>
              && ParseFlags(args, NO_FLAGS).Some?
              && |ParseFlags(args, NO_FLAGS).value.inputForms| <= 1
              && |ParseFlags(args, NO_FLAGS).value.outputForms| <= 1
    ensures ReadFlags(args).Some? ==> ReadFlags(args) == ParseFlags(args, NO_FLAGS)
  {
  }

  /** An argument that is no flag ends the reading, and only help's two names make the reader give up. */
  lemma LeftOverArguments(rest: seq<string>, f: Flags)
    requires rest != [] && Classify(rest[0]).NotFlag?
    ensures rest[0] == "help" || rest[0] == "h" ==> ParseFlags(rest, f) == None
    ensures rest[0] != "help" && rest[0] != "h" ==> ParseFlags(rest, f) == Some(f)
  {
  }

  /** What the worker finds outside its flags: the config file and two environment variables. */
  datatype Environment = Environment(
    configFile: Result<(string, string)>,
    pzAddr: string,
    apiKey: string)

  function BaseURL(f: Flags, env: Environment): string {
    if f.piazzaBaseURL == "" then env.pzAddr else f.piazzaBaseURL
  }

  function APIKey(f: Flags, env: Environment): string {
    if f.piazzaAPIKey == "" then env.apiKey else f.piazzaAPIKey
  }

  /** The reason why the input flags cannot be read, or all of them read, in order. */
  function ParseSources(sources: seq<string>): Result<seq<InputSource>> {
    if sources == [] then Success([])
    else
      var init := ParseSources(sources[..|sources| - 1]);
      if init.Failure? then init
      else
        match ParseInputSource(sources[|sources| - 1])
        case Failure(e) => Failure(e)
        case Success(src) => Success(init.value + [src])
  }

  predicate Accepted(f: Flags, env: Environment) {
    && f.config != ""
    && env.configFile.Success?
    && f.serviceID != ""
    && BaseURL(f, env) != ""
    && APIKey(f, env) != ""
    && f.outputs != []
    && ParseSources(f.inputs).Success?
  }

  function AcceptedConfig(f: Flags, env: Environment): Config
    requires Accepted(f, env)
  {
    Config(f.config, BaseURL(f, env), APIKey(f, env), f.serviceID, f.cliExtra, f.userID, f.jobID,
           ParseSources(f.inputs).value, f.outputs, env.configFile.value.0, env.configFile.value.1)
  }

  /** The first check that fails decides what is reported. */
  function FirstComplaint(f: Flags, env: Environment): string
    requires !Accepted(f, env)
  {
    if f.config == "" then "pzsvc-exec config file is required"
    else if env.configFile.Failure? then env.configFile.error
    else if f.serviceID == "" then "Service ID is required"
    else if BaseURL(f, env) == "" then "Piazza base URL is required"
    else if APIKey(f, env) == "" then "Piazza API key is required"
    else if f.outputs == [] then "1 or more output files are required"
    else ParseSources(f.inputs).error
  }

  /** runCmd up to the point where the worker starts. */
  method RunCmd(f: Flags, env: Environment) returns (r: Result<Config>)
    ensures r.Success? <==> Accepted(f, env)
    ensures r.Success? ==> r.value == AcceptedConfig(f, env)
    ensures r.Failure? ==> r.error == FirstComplaint(f, env)
    ensures r.Success? ==>
              && r.value.configPath == f.config && r.value.piazzaServiceID == f.serviceID
              && r.value.piazzaBaseURL == (if f.piazzaBaseURL != "" then f.piazzaBaseURL else env.pzAddr)
              && r.value.piazzaAPIKey == (if f.piazzaAPIKey != "" then f.piazzaAPIKey else env.apiKey)
              && r.value.cliCommandExtra == f.cliExtra && r.value.userID == f.userID && r.value.jobID == f.jobID
              && r.value.outputs == f.outputs
              && r.value.cliCmd == env.configFile.value.0 && r.value.versionCmd == env.configFile.value.1
  {
    var baseURL, apiKey := f.piazzaBaseURL, f.piazzaAPIKey;
    if f.config == "" { return Failure("pzsvc-exec config file is required"); }
    if env.configFile.Failure? { return Failure(env.configFile.error); }
    if f.serviceID == "" { return Failure("Service ID is required"); }
    if baseURL == "" { baseURL := env.pzAddr; }
    if baseURL == "" { return Failure("Piazza base URL is required"); }
    if apiKey == "" { apiKey := env.apiKey; }
    if apiKey == "" { return Failure("Piazza API key is required"); }
    if |f.outputs| == 0 { return Failure("1 or more output files are required"); }
    var inputs: seq<InputSource> := [];
    for i := 0 to |f.inputs|
      invariant ParseSources(f.inputs[..i]) == Success(inputs)
    {
      assert f.inputs[..i + 1][..i] == f.inputs[..i];
      var inFile := ParseInputSource(f.inputs[i]);
      if inFile.Failure? {
        ParseSourcesFails(f.inputs, i + 1);
        return Failure(inFile.error);
      }
      inputs := inputs + [inFile.value];
    }
    assert f.inputs[..|f.inputs|] == f.inputs;
    r := Success(Config(f.config, baseURL, apiKey, f.serviceID, f.cliExtra, f.userID, f.jobID,
                        inputs, f.outputs, env.configFile.value.0, env.configFile.value.1));
  }

  /** The complaints in the order in which the demands are made, each of them if the ones before it are met. */
  lemma ComplaintsInOrder(f: Flags, env: Environment)
    requires !Accepted(f, env)
    ensures
      var hasURL, hasKey := f.piazzaBaseURL != "" || env.pzAddr != "", f.piazzaAPIKey != "" || env.apiKey != "";
      var complaint := FirstComplaint(f, env);
      && (f.config == "" ==> complaint == "pzsvc-exec config file is required")
      && (f.config != "" && env.configFile.Failure? ==> complaint == env.configFile.error)
      && (f.config != "" && env.configFile.Success? ==>
            && (f.serviceID == "" ==> complaint == "Service ID is required")
            && (f.serviceID != "" && !hasURL ==> complaint == "Piazza base URL is required")
            && (f.serviceID != "" && hasURL && !hasKey ==> complaint == "Piazza API key is required")
            && (f.serviceID != "" && hasURL && hasKey && f.outputs == [] ==>
                  complaint == "1 or more output files are required")
            && (f.serviceID != "" && hasURL && hasKey && f.outputs != [] ==>
                  ParseSources(f.inputs) == Failure(complaint)))
  {
  }

  /** A source that cannot be read decides the result, whatever follows it. */
  lemma {:induction false} ParseSourcesFails(sources: seq<string>, k: nat)
    requires k <= |sources| && ParseSources(sources[..k]).Failure?
    ensures ParseSources(sources) == ParseSources(sources[..k])
    decreases |sources|
  {
    if k < |sources| {
      var init := sources[..|sources| - 1];
      assert init[..k] == sources[..k];
      ParseSourcesFails(init, k);
    } else {
      assert sources[..k] == sources;
    }
  }

  /** Sources that are read are rebuilt, one by one, by joining name and URL. */
  lemma {:induction false} ParsedSourcesRebuild(sources: seq<string>)
    ensures ParseSources(sources).Success? ==>
              && var ps := ParseSources(sources).value;
              && |ps| == |sources|
              && (forall i :: 0 <= i < |ps| ==> ps[i].fileName + ":" + ps[i].url == sources[i])
              && (forall i :: 0 <= i < |ps| ==> ':' !in ps[i].fileName)
  {
    if sources != [] {
      ParsedSourcesRebuild(sources[..|sources| - 1]);
      ParsedSourceRebuilds(sources[|sources| - 1]);
    }
  }

  lemma {:induction false} PrintedSourcesParse(names: seq<string>, urls: seq<string>, sources: seq<string>)
    requires |names| == |urls| == |sources|
    requires forall i :: 0 <= i < |names| ==> sources[i] == names[i] + ":" + urls[i] && ':' !in names[i]
    ensures ParseSources(sources)
         == Success(seq(|names|, i requires 0 <= i < |names| => InputSource(names[i], urls[i])))
  {
    var zip := seq(|names|, i requires 0 <= i < |names| => InputSource(names[i], urls[i]));
    if names == [] {
      assert zip == [];
    } else {
      var n := |names| - 1;
      PrintedSourcesParse(names[..n], urls[..n], sources[..n]);
      PrintedSourceParses(names[n], urls[n]);
      assert zip == zip[..n] + [zip[n]];
      assert zip[..n] == seq(n, i requires 0 <= i < n => InputSource(names[..n][i], urls[..n][i]));
    }
  }

  // ---- the flag reader ----

  lemma SetFlagAppends(f: Flags, name: string, v: string)
    ensures SetFlag(f, name, v).Some? ==>
              f.inputs <= SetFlag(f, name, v).value.inputs && f.outputs <= SetFlag(f, name, v).value.outputs
  {
  }

  /** Reading never takes back a value already read into a slice flag. */
  lemma {:induction false} ParseFlagsAppends(args: seq<string>, f: Flags)
    ensures ParseFlags(args, f).Some? ==>
              f.inputs <= ParseFlags(args, f).value.inputs && f.outputs <= ParseFlags(args, f).value.outputs
    decreases |args|
  {
    if args != [] && Classify(args[0]).FlagArg? {
      var flag := Classify(args[0]);
      if flag.inlineValue.Some? {
        SetFlagAppends(f, flag.name, flag.inlineValue.value);
        var next := SetFlag(f, flag.name, flag.inlineValue.value);
        if next.Some? { ParseFlagsAppends(args[1..], next.value); }
      } else if |args| >= 2 {
        SetFlagAppends(f, flag.name, args[1]);
        var next := SetFlag(f, flag.name, args[1]);
        if next.Some? { ParseFlagsAppends(args[2..], next.value); }
      }
    }
  }

  /** None of the flags' values holds the character c. */
  ghost predicate Without(f: Flags, c: char) {
    && c !in f.config && c !in f.cliExtra && c !in f.piazzaBaseURL && c !in f.piazzaAPIKey
    && c !in f.userID && c !in f.serviceID && c !in f.jobID
    && (forall v :: v in f.inputs ==> c !in v)
    && (forall v :: v in f.outputs ==> c !in v)
  }

  lemma SetFlagWithout(f: Flags, name: string, v: string, c: char)
    requires Without(f, c) && c !in v
    ensures SetFlag(f, name, v).Some? ==> Without(SetFlag(f, name, v).value, c)
  {
  }

  lemma InlineWithout(a: string, c: char)
    requires c !in a
    ensures Classify(a).FlagArg? && Classify(a).inlineValue.Some? ==> c !in Classify(a).inlineValue.value
  {
  }

  /** The flag reader invents no characters. */
  lemma {:induction false} ParseFlagsWithout(args: seq<string>, f: Flags, c: char)
    requires Without(f, c)
    requires forall i :: 0 <= i < |args| ==> c !in args[i]
    ensures ParseFlags(args, f).Some? ==> Without(ParseFlags(args, f).value, c)
    decreases |args|
  {
    if args != [] && Classify(args[0]).FlagArg? {
      InlineWithout(args[0], c);
      var flag := Classify(args[0]);
      if flag.inlineValue.Some? {
        var v := flag.inlineValue.value;
        SetFlagWithout(f, flag.name, v, c);
        if SetFlag(f, flag.name, v).Some? {
          ParseFlagsWithout(args[1..], SetFlag(f, flag.name, v).value, c);
        }
      } else if |args| >= 2 {
        SetFlagWithout(f, flag.name, args[1], c);
        if SetFlag(f, flag.name, args[1]).Some? {
          ParseFlagsWithout(args[2..], SetFlag(f, flag.name, args[1]).value, c);
        }
      }
    }
  }
}
