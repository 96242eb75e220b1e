/**
 worker/ingest/ingest.go and the file-type switch of ingest_async.go: assembling the ingest calls
 and collecting what their channels deliver.
 */
module OutputIngest {
  import opened Common

  datatype SingleIngestOutput = SingleIngestOutput(filePath: string, dataID: string, error: Option<string>)

  datatype MultiIngestOutput = MultiIngestOutput(
    dataIDs: map<string, string>,
    errors: seq<string>,
    combinedError: Option<string>)

  datatype IngestorCall = IngestorCall(
    filePath: string, fileType: string, serviceID: string, algVersion: string, attMap: map<string, string>)

  // ---- file types ----

  /**
   unicode.ToLower, as far as it leads to ASCII: besides the capitals only the dotted capital I and the
   Kelvin sign have lower-case letters there. A character whose lower case is not ASCII is left as it is.
   */
  function LowerChar(c: char): char {
    if 'A' <= c <= 'Z' then c - 'A' + 'a'
    else if c == '\U{0130}' then 'i'
    else if c == '\U{212A}' then 'k'
    else c
  }

  function ToLower(s: string): (r: string)
    ensures |r| == |s|
  {
    seq(|s|, i requires 0 <= i < |s| => LowerChar(s[i]))
  }

  /** Capitals become the small letters at the same place in the alphabet; nothing else that is ASCII changes. */
  lemma LowerCase(i: nat, c: char)
    requires i < 26
    ensures LowerChar("ABCDEFGHIJKLMNOPQRSTUVWXYZ"[i]) == "abcdefghijklmnopqrstuvwxyz"[i]
    ensures c < 'A' || 'Z' < c < '\U{80}' ==> LowerChar(c) == c
  {
  }

  /** The suffix of path[..] from the last dot before position i, unless a slash comes first. */
  function ExtBefore(path: string, i: nat): string
    requires i <= |path|
  {
    if i == 0 || path[i - 1] == '/' then ""
    else if path[i - 1] == '.' then path[i - 1..]
    else ExtBefore(path, i - 1)
  }

  function Ext(path: string): string { ExtBefore(path, |path|) }

  function DetectPiazzaFileType(fileName: string): string {
    var ext := Ext(ToLower(fileName));
    if ext == ".geojson" then "geojson"
    else if ext == ".tiff" || ext == ".geotiff" then "raster"
    else "text"
  }

  predicate HasSuffix(s: string, suffix: string) {
    |suffix| <= |s| && s[|s| - |suffix|..] == suffix
  }

  lemma {:induction false} ExtBeforeIsSuffix(path: string, suffix: string, i: nat)
    requires |suffix| > 0 && suffix[0] == '.' && '.' !in suffix[1..] && '/' !in suffix
    requires |path| - |suffix| < i <= |path| && HasSuffix(path, suffix)
    ensures ExtBefore(path, i) == suffix
  {
    var start := |path| - |suffix|;
    assert path[i - 1] == suffix[i - 1 - start];
    if i - 1 > start {
      assert path[i - 1] == suffix[1..][i - 2 - start];
      ExtBeforeIsSuffix(path, suffix, i - 1);
    }
  }

  lemma {:induction false} ExtBeforeEnds(path: string, i: nat)
    requires i <= |path|
    ensures HasSuffix(path, ExtBefore(path, i))
  {
    if i > 0 && path[i - 1] != '/' && path[i - 1] != '.' {
      ExtBeforeEnds(path, i - 1);
    }
  }

  lemma ExtIs(path: string, suffix: string)
    requires |suffix| > 0 && suffix[0] == '.' && '.' !in suffix[1..] && '/' !in suffix
    ensures Ext(path) == suffix <==> HasSuffix(path, suffix)
  {
    ExtBeforeEnds(path, |path|);
    if HasSuffix(path, suffix) {
      ExtBeforeIsSuffix(path, suffix, |path|);
    }
  }

  /** The type is decided by how the name ends, in any mixture of cases. */
  lemma FileTypeBySuffix(fileName: string)
    ensures DetectPiazzaFileType(fileName) == "geojson" <==> HasSuffix(ToLower(fileName), ".geojson")
    ensures DetectPiazzaFileType(fileName) == "raster"
       <==> HasSuffix(ToLower(fileName), ".tiff") || HasSuffix(ToLower(fileName), ".geotiff")
    ensures DetectPiazzaFileType(fileName) in {"geojson", "raster", "text"}
  {
    ExtIs(ToLower(fileName), ".geojson");
    ExtIs(ToLower(fileName), ".tiff");
    ExtIs(ToLower(fileName), ".geotiff");
    assert "geojson"[0] != "raster"[0] && "text"[0] != "geojson"[0] && "text"[0] != "raster"[0];
  }

  // ---- assembling the calls ----

  const STAT_ERROR := "error validating outputs"

  datatype Job = Job(serviceID: string, algCommand: string, algVersion: string)

  function CallFor(job: Job, filePath: string, procTime: string): IngestorCall {
    IngestorCall(filePath, DetectPiazzaFileType(filePath), job.serviceID, job.algVersion,
                 map["algoName" := job.serviceID, "algoVersion" := job.algVersion,
                     "algoCmd" := job.algCommand, "algoProcTime" := procTime])
  }

  /** One output, whether it can be statted, and the time at which it is looked at. */
  datatype Output = Output(filePath: string, present: bool, procTime: string)

  function CallsFor(job: Job, outputs: seq<Output>): seq<IngestorCall> {
    if outputs == [] then []
    else
      var last := outputs[|outputs| - 1];
      CallsFor(job, outputs[..|outputs| - 1])
      + if last.present then [CallFor(job, last.filePath, last.procTime)] else []
  }

  function StatErrors(outputs: seq<Output>): seq<string> {
    if outputs == [] then []
    else StatErrors(outputs[..|outputs| - 1]) + if outputs[|outputs| - 1].present then [] else [STAT_ERROR]
  }

  /** Every output becomes one call, in order, or one error. */
  method AssembleIngestorCalls(job: Job, outputs: seq<Output>)
    returns (ingestorCalls: seq<IngestorCall>, outputErrors: seq<string>)
    ensures ingestorCalls == CallsFor(job, outputs)
    ensures outputErrors == StatErrors(outputs)
    ensures |ingestorCalls| + |outputErrors| == |outputs|
    ensures forall e :: e in outputErrors ==> e == "error validating outputs"
  {
    ingestorCalls, outputErrors := [], [];
    for i := 0 to |outputs|
      invariant ingestorCalls == CallsFor(job, outputs[..i])
      invariant outputErrors == StatErrors(outputs[..i])
      invariant |ingestorCalls| + |outputErrors| == i
      invariant forall e :: e in outputErrors ==> e == "error validating outputs"
    {
      assert outputs[..i + 1][..i] == outputs[..i];
      if !outputs[i].present {
        outputErrors := outputErrors + [STAT_ERROR];
        continue;
      }
      var filePath := outputs[i].filePath;
      var fileType := DetectPiazzaFileType(filePath);
      var attMap := map["algoName" := job.serviceID, "algoVersion" := job.algVersion,
                        "algoCmd" := job.algCommand, "algoProcTime" := outputs[i].procTime];
      ingestorCalls := ingestorCalls + [IngestorCall(filePath, fileType, job.serviceID, job.algVersion, attMap)];
    }
    assert outputs[..|outputs|] == outputs;
  }

  /** The paths of the outputs that exist are the paths of the calls, in order. */
  lemma {:induction false} CallPaths(job: Job, outputs: seq<Output>)
    ensures |CallsFor(job, outputs)| + |StatErrors(outputs)| == |outputs|
    ensures (set c | c in CallsFor(job, outputs) :: c.filePath) == set o | o in outputs && o.present :: o.filePath
  {
    if outputs != [] {
      var init, last := outputs[..|outputs| - 1], outputs[|outputs| - 1];
      CallPaths(job, init);
      assert outputs == init + [last];
      var calls, before := CallsFor(job, outputs), CallsFor(job, init);
      assert (set o | o in outputs && o.present :: o.filePath)
          == (set o | o in init && o.present :: o.filePath) + if last.present then {last.filePath} else {};
      assert (set c | c in calls :: c.filePath)
          == (set c | c in before :: c.filePath) + if last.present then {last.filePath} else {};
    }
  }

  /** The call for an output that is there, behind those for the outputs before it: everything it carries. */
  lemma {:induction false} CallOf(job: Job, outputs: seq<Output>, i: nat)
    requires i < |outputs| && outputs[i].present
    ensures |CallsFor(job, outputs[..i])| < |CallsFor(job, outputs)|
    ensures CallsFor(job, outputs)[|CallsFor(job, outputs[..i])|]
         == IngestorCall(outputs[i].filePath, DetectPiazzaFileType(outputs[i].filePath), job.serviceID, job.algVersion,
                         map["algoName" := job.serviceID, "algoVersion" := job.algVersion,
                             "algoCmd" := job.algCommand, "algoProcTime" := outputs[i].procTime])
  {
    var init := outputs[..|outputs| - 1];
    if i < |init| {
      CallOf(job, init, i);
      assert init[..i] == outputs[..i];
    }
  }

  /** Outputs that are all there get one call each, in order. */
  lemma {:induction false} AllPresent(job: Job, outputs: seq<Output>)
    requires forall i :: 0 <= i < |outputs| ==> outputs[i].present
    ensures |CallsFor(job, outputs)| == |outputs|
    ensures forall i :: 0 <= i < |outputs| ==> CallsFor(job, outputs)[i].filePath == outputs[i].filePath
  {
    if outputs != [] {
      AllPresent(job, outputs[..|outputs| - 1]);
    }
  }

  // ---- collecting the results ----

  function ErrorsOf(results: seq<SingleIngestOutput>): seq<string> {
    if results == [] then []
    else
      var last := results[|results| - 1];
      ErrorsOf(results[..|results| - 1]) + if last.error.Some? then [last.error.value] else []
  }

  function SuccessesOf(results: seq<SingleIngestOutput>): seq<(string, string)> {
    if results == [] then []
    else
      var last := results[|results| - 1];
      SuccessesOf(results[..|results| - 1]) + if last.error.Some? then [] else [(last.filePath, last.dataID)]
  }

  lemma {:induction false} SuccessComesFrom(results: seq<SingleIngestOutput>, kv: (string, string)) returns (k: nat)
    requires kv in SuccessesOf(results)
    ensures k < |results| && results[k].error.None? && results[k].filePath == kv.0
  {
    var last := results[|results| - 1];
    if last.error.None? && kv == (last.filePath, last.dataID) {
      k := |results| - 1;
    } else {
      k := SuccessComesFrom(results[..|results| - 1], kv);
    }
  }

  /** A path has a data ID only if a result for it succeeded. */
  lemma KeyComesFrom(results: seq<SingleIngestOutput>, path: string) returns (k: nat)
    requires path in Writes(SuccessesOf(results))
    ensures k < |results| && results[k].error.None? && results[k].filePath == path
  {
    WrittenKeys(SuccessesOf(results));
    assert path in Writes(SuccessesOf(results)).Keys;
    var kv :| kv in SuccessesOf(results) && kv.0 == path;
    k := SuccessComesFrom(results, kv);
  }

  function CombinedText(errors: seq<string>): Option<string> {
    if errors == [] then None else Some("ingest errors: " + Join(errors, "; "))
  }

  /** The collected output before the combined error is filled in. */
  function Collected(prependErrors: seq<string>, results: seq<SingleIngestOutput>): MultiIngestOutput {
    MultiIngestOutput(Writes(SuccessesOf(results)), prependErrors + ErrorsOf(results), None)
  }

  /** The sequential meaning of draining: errors in order, data IDs with the last write winning. */
  function Drained(prependErrors: seq<string>, results: seq<SingleIngestOutput>): MultiIngestOutput {
    Collected(prependErrors, results).(combinedError := CombinedText(prependErrors + ErrorsOf(results)))
  }

  /** What the drain does with one result. */
  function Absorb(acc: MultiIngestOutput, r: SingleIngestOutput): MultiIngestOutput {
    if r.error.Some? then acc.(errors := acc.errors + [r.error.value])
    else acc.(dataIDs := acc.dataIDs[r.filePath := r.dataID])
  }

  lemma CollectOneMore(prependErrors: seq<string>, results: seq<SingleIngestOutput>, r: SingleIngestOutput)
    ensures Collected(prependErrors, results + [r]) == Absorb(Collected(prependErrors, results), r)
  {
    assert (results + [r])[..|results|] == results;
    assert SuccessesOf(results) + [] == SuccessesOf(results) && ErrorsOf(results) + [] == ErrorsOf(results);
    if r.error.Some? {
      assert prependErrors + (ErrorsOf(results) + [r.error.value])
          == prependErrors + ErrorsOf(results) + [r.error.value];
    } else {
      var kvs := SuccessesOf(results + [r]);
      assert kvs[..|kvs| - 1] == SuccessesOf(results);
    }
  }

  function Flatten(chans: seq<seq<SingleIngestOutput>>): seq<SingleIngestOutput> {
    if chans == [] then [] else Flatten(chans[..|chans| - 1]) + chans[|chans| - 1]
  }

  lemma FlattenNext(chans: seq<seq<SingleIngestOutput>>, i: nat)
    requires i < |chans|
    ensures Flatten(chans[..i + 1]) == Flatten(chans[..i]) + chans[i]
  {
    assert chans[..i + 1][..i] == chans[..i];
  }

  lemma TakeNext(before: seq<SingleIngestOutput>, chan: seq<SingleIngestOutput>, j: nat)
    requires j < |chan|
    ensures before + chan[..j] + [chan[j]] == before + chan[..j + 1]
  {
    assert chan[..j + 1] == chan[..j] + [chan[j]];
  }

  /** The text of the combined error, from the texts of all errors in order. */
  method CombineErrors(errors: seq<string>) returns (combined: Option<string>)
    ensures combined == CombinedText(errors)
  {
    if |errors| == 0 {
      return None;
    }
    var errorTexts: seq<string> := [];
    for i := 0 to |errors|
      invariant errorTexts == errors[..i]
    {
      errorTexts := errorTexts + [errors[i]];
    }
    assert errorTexts == errors;
    return Some("ingest errors: " + Join(errorTexts, "; "));
  }

  /** handleIngestResults, each channel given by the values it delivers until it is closed. */
  method HandleIngestResults(resultChans: seq<seq<SingleIngestOutput>>, prependErrors: seq<string>)
    returns (multiOutput: MultiIngestOutput)
    ensures multiOutput == Drained(prependErrors, Flatten(resultChans))
    ensures multiOutput.combinedError.Some? <==> multiOutput.errors != []
  {
    multiOutput := MultiIngestOutput(map[], prependErrors, None);
    CollectNothing(prependErrors);
    for i := 0 to |resultChans|
      invariant multiOutput == Collected(prependErrors, Flatten(resultChans[..i]))
    {
      ghost var before := Flatten(resultChans[..i]);
      var chan := resultChans[i];
      assert before + chan[..0] == before;
      for j := 0 to |chan|
        invariant multiOutput == Collected(prependErrors, before + chan[..j])
      {
        CollectOneMore(prependErrors, before + chan[..j], chan[j]);
        TakeNext(before, chan, j);
        if chan[j].error.Some? {
          multiOutput := multiOutput.(errors := multiOutput.errors + [chan[j].error.value]);
        } else {
          multiOutput := multiOutput.(dataIDs := multiOutput.dataIDs[chan[j].filePath := chan[j].dataID]);
        }
      }
      assert chan[..|chan|] == chan;
      FlattenNext(resultChans, i);
    }
    assert resultChans[..|resultChans|] == resultChans;
    var combined := CombineErrors(multiOutput.errors);
    multiOutput := multiOutput.(combinedError := combined);
  }

  lemma CollectNothing(prependErrors: seq<string>)
    ensures Collected(prependErrors, []) == MultiIngestOutput(map[], prependErrors, None)
  {
  }

  function Pairs(results: seq<SingleIngestOutput>): seq<(string, string)> {
    seq(|results|, i requires 0 <= i < |results| => (results[i].filePath, results[i].dataID))
  }

  /** Errors and successes together are as many as the results, and each success keeps its path. */
  lemma {:induction false} ResultsAreShared(results: seq<SingleIngestOutput>)
    ensures |ErrorsOf(results)| + |SuccessesOf(results)| == |results|
    ensures ErrorsOf(results) == [] ==> SuccessesOf(results) == Pairs(results)
  {
    if results != [] {
      ResultsAreShared(results[..|results| - 1]);
    }
  }
}
