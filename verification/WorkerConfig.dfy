/** worker/config/config.go: the worker's configuration record and its input sources. */
module WorkerConfig {
  import opened Common

  datatype InputSource = InputSource(fileName: string, url: string)

  /** The fields of WorkerConfig that the flags decide; configPath is the file PzSEConfig is read from. */
  datatype Config = Config(
    configPath: string,
    piazzaBaseURL: string,
    piazzaAPIKey: string,
    piazzaServiceID: string,
    cliCommandExtra: string,
    userID: string,
    jobID: string,
    inputs: seq<InputSource>,
    outputs: seq<string>,
    cliCmd: string,
    versionCmd: string)

  /** Position of the first c in s, or |s|. */
  function IndexOf(s: string, c: char): (i: nat)
    ensures i <= |s|
    ensures c !in s[..i]
    ensures i < |s| ==> s[i] == c
  {
    if s == "" || s[0] == c then 0
    else
      var i := 1 + IndexOf(s[1..], c);
      assert s[..i] == [s[0]] + s[1..][..i - 1];
      i
  }

  lemma {:induction false} IndexOfAt(s: string, c: char, k: nat)
    requires k < |s| && s[k] == c
    ensures IndexOf(s, c) <= k
  {
    if s[0] != c {
      IndexOfAt(s[1..], c, k - 1);
    }
  }

  function ParseInputSource(source: string): Result<InputSource> {
    var i := IndexOf(source, ':');
    if i == |source| then Failure("Invalid input source string: " + source)
    else Success(InputSource(source[..i], source[i + 1..]))
  }

  /** Whatever is accepted is rebuilt exactly by joining with ':'; only colon-free strings are rejected. */
  lemma ParsedSourceRebuilds(source: string)
    ensures ParseInputSource(source).Success? <==> ':' in source
    ensures ParseInputSource(source).Failure? ==>
              ParseInputSource(source) == Failure("Invalid input source string: " + source)
    ensures ParseInputSource(source).Success? ==>
              && var p := ParseInputSource(source).value;
              && p.fileName + ":" + p.url == source
              && ':' !in p.fileName
  {
    var i := IndexOf(source, ':');
    if i == |source| {
      assert source[..i] == source;
    } else {
      assert source[..i] + ":" + source[i + 1..] == source;
    }
  }

  /** A printed pair is read back as that pair exactly when its name holds no colon. */
  lemma PrintedSourceParses(name: string, url: string)
    ensures ParseInputSource(name + ":" + url) == Success(InputSource(name, url)) <==> ':' !in name
  {
    var s := name + ":" + url;
    var i := IndexOf(s, ':');
    assert s[|name|] == ':';
    IndexOfAt(s, ':', |name|);
    if i < |name| {
      assert s[i] == name[i];
      assert |s[..i]| != |name|;
    } else {
      assert s[..i] == name && s[i + 1..] == url;
    }
  }

  function SourcePairs(inputs: seq<InputSource>): seq<(string, string)> {
    seq(|inputs|, i requires 0 <= i < |inputs| => (inputs[i].fileName, inputs[i].url))
  }

  /** InputsAsMap: later inputs of the same name overwrite earlier ones. */
  method InputsAsMap(inputs: seq<InputSource>) returns (converted: map<string, string>)
    ensures converted == Writes(SourcePairs(inputs))
    ensures converted.Keys == set s | s in inputs :: s.fileName
    ensures forall i :: 0 <= i < |inputs| && LastWriteAt(SourcePairs(inputs), i) ==>
              inputs[i].fileName in converted && converted[inputs[i].fileName] == inputs[i].url
  {
    converted := map[];
    var kvs := SourcePairs(inputs);
    for i := 0 to |inputs|
      invariant converted == Writes(kvs[..i])
    {
      converted := converted[inputs[i].fileName := inputs[i].url];
      assert kvs[..i + 1][..i] == kvs[..i];
    }
    assert kvs[..|inputs|] == kvs;
    WrittenKeys(kvs);
    forall i | 0 <= i < |inputs| && LastWriteAt(kvs, i)
      ensures inputs[i].fileName in converted && converted[inputs[i].fileName] == inputs[i].url
    {
      LastWriteWins(kvs, i);
    }
    forall s | s in inputs
      ensures s.fileName in converted
    {
      var i :| 0 <= i < |inputs| && inputs[i] == s;
      assert kvs[i] in kvs;
    }
  }
}
