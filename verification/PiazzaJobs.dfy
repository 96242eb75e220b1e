/**
 pzsvc/http.go and pzsvc/file.go: polling a Piazza job to its end, and ingesting data, which starts
 a job and waits for its result.
 */
module PiazzaJobs {
  import opened Common

  datatype DataResult = DataResult(dataID: string, message: string)

  /** One decoded answer to a status request; a missing result is a nil pointer. */
  datatype PollReply = RequestFailed(error: string) | StatusReply(status: string, result: Option<DataResult>)

  /** The two values Go returns, or the crash of reading through a nil pointer. */
  datatype Response = Response(result: Option<DataResult>, error: Option<string>) | Crashed

  const MAX_POLLS := 300

  /** Reading this reply crashes: an error status without the result that carries its message. */
  predicate Crashes(r: PollReply) {
    r.StatusReply? && r.status == "Error" && r.result.None?
  }

  /** The job is not decided yet by this reply. */
  predicate Waits(r: PollReply) {
    r.StatusReply? && !Crashes(r) &&
    (|| r.status == "Submitted" || r.status == "Running" || r.status == "Pending"
     || (r.status == "Success" && r.result.None?)
     || (r.status == "Error" && r.result.value.message == "Job Not Found."))
  }

  /** What a decisive reply decides. */
  function Decision(r: PollReply): Response
    requires !Waits(r)
  {
    if Crashes(r) then Crashed
    else if r.RequestFailed? then Response(None, Some(r.error))
    else if r.status == "Success" then Response(r.result, None)
    else Response(None, Some(PollError(r.status)))
  }

  function PollError(status: string): string {
    if status == "Fail" then "Piazza failure when acquiring DataId."
    else if status == "Error" then "Piazza error when acquiring DataId."
    else "Unknown status \"" + status + "\" when acquiring DataId."
  }

  /** How many of the replies from i on are waited through, up to the limit. */
  function FirstDecisive(replies: nat -> PollReply, i: nat): (k: nat)
    requires i <= MAX_POLLS
    ensures i <= k <= MAX_POLLS
    ensures forall j :: i <= j < k ==> Waits(replies(j))
    ensures k < MAX_POLLS ==> !Waits(replies(k))
    decreases MAX_POLLS - i
  {
    if i < MAX_POLLS && Waits(replies(i)) then FirstDecisive(replies, i + 1) else i
  }

  /** The first decisive reply among the first 300. */
  function JobResponse(jobID: string, replies: nat -> PollReply): Response {
    if jobID == "" then Response(None, Some("JobID not provided.  Cannot get Job Response."))
    else
      var k := FirstDecisive(replies, 0);
      if k == MAX_POLLS then Response(None, Some("Job never completed.  JobId: " + jobID))
      else Decision(replies(k))
  }

  /** How many status requests are made. */
  function PollRequests(jobID: string, replies: nat -> PollReply): nat {
    if jobID == "" then 0
    else
      var k := FirstDecisive(replies, 0);
      if k == MAX_POLLS then MAX_POLLS else k + 1
  }

  /** Behind waiting replies only, a decisive reply decides. */
  lemma DecidedAt(jobID: string, replies: nat -> PollReply, i: nat)
    requires jobID != "" && i < MAX_POLLS && !Waits(replies(i))
    requires forall j :: 0 <= j < i ==> Waits(replies(j))
    ensures JobResponse(jobID, replies) == Decision(replies(i)) && PollRequests(jobID, replies) == i + 1
  {
    var k := FirstDecisive(replies, 0);
    assert k == i;
  }

  lemma NeverDecided(jobID: string, replies: nat -> PollReply)
    requires jobID != "" && forall j :: 0 <= j < MAX_POLLS ==> Waits(replies(j))
    ensures JobResponse(jobID, replies) == Response(None, Some("Job never completed.  JobId: " + jobID))
    ensures PollRequests(jobID, replies) == MAX_POLLS
  {
    var k := FirstDecisive(replies, 0);
    assert k == MAX_POLLS;
  }

  method GetJobResponse(jobID: string, replies: nat -> PollReply) returns (r: Response, requests: nat)
    ensures r == JobResponse(jobID, replies) && requests == PollRequests(jobID, replies)
    ensures requests <= 300
    ensures requests > 0 ==> forall j :: 0 <= j < requests - 1 ==> Waits(replies(j))
    ensures jobID != "" && requests < MAX_POLLS ==> requests > 0 && !Waits(replies(requests - 1))
    ensures r.Response? && r.error.None? ==> r.result.Some?
  {
    requests := 0;
    if jobID == "" {
      return Response(None, Some("JobID not provided.  Cannot get Job Response.")), requests;
    }
    for i := 0 to 300
      invariant requests == i
      invariant forall j :: 0 <= j < i ==> Waits(replies(j))
    {
      var respObj := replies(i);
      requests := requests + 1;
      if respObj.RequestFailed? {
        DecidedAt(jobID, replies, i);
        return Response(None, Some(respObj.error)), requests;
      }
      if respObj.status == "Submitted" || respObj.status == "Running" || respObj.status == "Pending"
         || (respObj.status == "Success" && respObj.result.None?) {
        continue;
      }
      if respObj.status == "Error" {
        if respObj.result.None? {
          DecidedAt(jobID, replies, i);
          return Crashed, requests;
        }
        if respObj.result.value.message == "Job Not Found." {
          continue;
        }
      }
      DecidedAt(jobID, replies, i);
      if respObj.status == "Success" {
        return Response(respObj.result, None), requests;
      }
      if respObj.status == "Fail" {
        return Response(None, Some("Piazza failure when acquiring DataId.")), requests;
      }
      if respObj.status == "Error" {
        return Response(None, Some("Piazza error when acquiring DataId.")), requests;
      }
      return Response(None, Some("Unknown status \"" + respObj.status + "\" when acquiring DataId.")), requests;
    }
    NeverDecided(jobID, replies);
    return Response(None, Some("Job never completed.  JobId: " + jobID)), requests;
  }

  /** Exactly when a result comes back: a Success with a result, behind nothing but waiting replies, in time. */
  lemma ResultIff(jobID: string, replies: nat -> PollReply, res: DataResult)
    ensures JobResponse(jobID, replies) == Response(Some(res), None) <==>
              jobID != "" && exists k :: 0 <= k < MAX_POLLS && SucceedsAt(replies, k, res)
  {
    if jobID != "" {
      var k0 := FirstDecisive(replies, 0);
      forall k | 0 <= k < MAX_POLLS && SucceedsAt(replies, k, res)
        ensures k == k0
      {
        assert !Waits(replies(k));
        assert k0 <= k;
      }
      if JobResponse(jobID, replies) == Response(Some(res), None) {
        assert SucceedsAt(replies, k0, res);
      }
    }
  }

  ghost predicate SucceedsAt(replies: nat -> PollReply, k: nat, res: DataResult) {
    replies(k) == StatusReply("Success", Some(res)) && forall j :: 0 <= j < k ==> Waits(replies(j))
  }

  /** Replies behind which polling goes on, as Piazza words them: the job is on its way, or not to be found yet. */
  ghost predicate OnItsWay(replies: nat -> PollReply, i: nat) {
    forall j :: 0 <= j < i ==>
      && replies(j).StatusReply?
      && (|| replies(j).status == "Submitted"
          || replies(j).status == "Running"
          || replies(j).status == "Pending"
          || (replies(j).status == "Success" && replies(j).result.None?)
          || (replies(j).status == "Error" && replies(j).result.Some?
              && replies(j).result.value.message == "Job Not Found."))
  }

  /** Success with a result ends polling with that result. */
  lemma SuccessEndsPolling(jobID: string, replies: nat -> PollReply, i: nat, res: DataResult)
    requires jobID != "" && i < 300 && OnItsWay(replies, i)
    requires replies(i) == StatusReply("Success", Some(res))
    ensures JobResponse(jobID, replies) == Response(Some(res), None) && PollRequests(jobID, replies) == i + 1
  {
    assert !Waits(replies(i));
    DecidedAt(jobID, replies, i);
  }

  /** A failed request, Fail, an error other than "Job Not Found." and an unknown status end it with an error. */
  lemma FailureEndsPolling(jobID: string, replies: nat -> PollReply, i: nat)
    requires jobID != "" && i < 300 && OnItsWay(replies, i)
    requires
      || replies(i).RequestFailed?
      || replies(i).status == "Fail"
      || (replies(i).status == "Error" && replies(i).result.Some?
          && replies(i).result.value.message != "Job Not Found.")
      || replies(i).status !in {"Submitted", "Running", "Pending", "Success", "Fail", "Error"}
    ensures PollRequests(jobID, replies) == i + 1
    ensures JobResponse(jobID, replies)
         == Response(None, Some(
              if replies(i).RequestFailed? then replies(i).error
              else if replies(i).status == "Fail" then "Piazza failure when acquiring DataId."
              else if replies(i).status == "Error" then "Piazza error when acquiring DataId."
              else "Unknown status \"" + replies(i).status + "\" when acquiring DataId."))
  {
    assert !Waits(replies(i));
    DecidedAt(jobID, replies, i);
  }

  /** An error without a result crashes the poller; a job that stays on its way is given up after 300 requests. */
  lemma PollingEndsOtherwise(jobID: string, replies: nat -> PollReply, i: nat)
    requires jobID != "" && OnItsWay(replies, i)
    ensures i < 300 && replies(i) == StatusReply("Error", None) ==>
              JobResponse(jobID, replies) == Crashed && PollRequests(jobID, replies) == i + 1
    ensures i == 300 ==>
              && JobResponse(jobID, replies) == Response(None, Some("Job never completed.  JobId: " + jobID))
              && PollRequests(jobID, replies) == 300
  {
    if i < 300 && replies(i) == StatusReply("Error", None) {
      DecidedAt(jobID, replies, i);
    }
    if i == 300 {
      NeverDecided(jobID, replies);
    }
  }

  /** A missing error is never paired with a missing result, and polling crashes only on the reply named. */
  lemma NilErrorMeansResult(jobID: string, replies: nat -> PollReply)
    ensures
      var r := JobResponse(jobID, replies);
      && (r.Response? ==> (r.error.None? <==> r.result.Some?))
      && (r.Crashed? <==> jobID != "" && FirstDecisive(replies, 0) < MAX_POLLS
                          && Crashes(replies(FirstDecisive(replies, 0))))
      && ((forall j: nat :: !Crashes(replies(j))) ==> r.Response?)
  {
  }

  // ---- ingestion ----

  /** What an ingestion sends to Piazza. */
  datatype IngestRequest = IngestRequest(
    route: string, name: string, format: string, version: string, description: string,
    metadata: map<string, string>, mimeType: string, content: string, fileData: Option<string>)

  /** The world's part of an ingestion: encoding, submission, the job ID it answers with, the job's replies. */
  datatype IngestWorld = IngestWorld(
    marshalError: Option<string>, submitError: Option<string>,
    decodeError: Option<string>, jobID: string, replies: nat -> PollReply)

  datatype Ingestion = Ingested(dataID: string) | NotIngested(error: string) | IngestCrashed

  /** GetJobID: a response that decodes must carry a job ID. */
  function JobIDError(w: IngestWorld): Option<string> {
    if w.decodeError.None? && w.jobID == "" then Some("Response did not contain Job ID.") else w.decodeError
  }

  function IngestOutcome(w: IngestWorld): Ingestion {
    if w.marshalError.Some? then NotIngested(w.marshalError.value)
    else if w.submitError.Some? then NotIngested(w.submitError.value)
    else if JobIDError(w).Some? then NotIngested(JobIDError(w).value)
    else
      match JobResponse(w.jobID, w.replies)
      case Crashed => IngestCrashed
      case Response(_, Some(e)) => NotIngested(e)
      case Response(Some(res), None) => Ingested(res.dataID)
  }

  /** What an ingestion hands back is the data ID of the result its job ends with, if nothing fails before. */
  lemma IngestedID(w: IngestWorld, i: nat, res: DataResult)
    requires w.marshalError.None? && w.submitError.None? && w.decodeError.None? && w.jobID != ""
    requires i < 300 && OnItsWay(w.replies, i) && w.replies(i) == StatusReply("Success", Some(res))
    ensures IngestOutcome(w) == Ingested(res.dataID)
  {
    SuccessEndsPolling(w.jobID, w.replies, i, res);
  }

  /** The first thing that fails is the error; a response without a job ID is one. */
  lemma IngestErrors(w: IngestWorld)
    ensures w.marshalError.Some? ==> IngestOutcome(w) == NotIngested(w.marshalError.value)
    ensures w.marshalError.None? && w.submitError.Some? ==> IngestOutcome(w) == NotIngested(w.submitError.value)
    ensures w.marshalError.None? && w.submitError.None? && w.decodeError.Some? ==>
              IngestOutcome(w) == NotIngested(w.decodeError.value)
    ensures w.marshalError.None? && w.submitError.None? && w.decodeError.None? && w.jobID == "" ==>
              IngestOutcome(w) == NotIngested("Response did not contain Job ID.")
  {
  }

  /** Data that is present goes up as a file exactly for rasters and GeoJSON. */
  predicate UploadsFile(fType: string, ingData: Option<string>) {
    (fType == "raster" || fType == "geojson") && ingData.Some?
  }

  function MimeType(fType: string): string {
    if fType == "geojson" then "application/vnd.geo+json"
    else if fType == "text" then "application/text" else ""
  }

  function TextOf(ingData: Option<string>): string {
    if ingData.Some? then ingData.value else ""
  }

  /** The loop that fills in the metadata, key by key in no particular order. */
  method CopyProps(props: map<string, string>) returns (metadata: map<string, string>)
    ensures metadata == props
  {
    metadata := map[];
    var left := props.Keys;
    while left != {}
      invariant left <= props.Keys
      invariant metadata == map k | k in props.Keys - left :: props[k]
      decreases left
    {
      var key :| key in left;
      metadata := metadata[key := props[key]];
      left := left - {key};
    }
    assert metadata == props;
  }

  /** The switch over the file type: where the data goes. */
  method Payload(fType: string, ingData: Option<string>)
    returns (mimeType: string, content: string, fileData: Option<string>)
    ensures mimeType == MimeType(fType)
    ensures content == if fType == "text" then TextOf(ingData) else ""
    ensures fileData == if UploadsFile(fType, ingData) then ingData else None
    ensures fType == "raster" ==> (mimeType, content, fileData) == ("", "", ingData)
    ensures fType == "geojson" ==> (mimeType, content, fileData) == ("application/vnd.geo+json", "", ingData)
    ensures fType == "text" && ingData.Some? ==>
              (mimeType, content, fileData) == ("application/text", ingData.value, None)
    ensures fType !in {"raster", "geojson", "text"} ==> (mimeType, content, fileData) == ("", "", None)
  {
    mimeType, content, fileData := "", "", None;
    if fType == "raster" {
      fileData := ingData;
    } else if fType == "geojson" {
      mimeType := "application/vnd.geo+json";
      fileData := ingData;
    } else if fType == "text" {
      mimeType := "application/text";
      content := if ingData.Some? then ingData.value else "";
    }
  }

  /**
   Ingest. On every path at most one request is sent; the data is in it exactly once, as a file or as
   content, unless the type is unknown.
   */
  method Ingest(fName: string, fType: string, sourceName: string, version: string,
                ingData: Option<string>, props: map<string, string>, w: IngestWorld)
    returns (r: Ingestion, sent: seq<IngestRequest>)
    ensures r == IngestOutcome(w)
    ensures |sent| == if w.marshalError.None? then 1 else 0
    ensures sent != [] ==>
              && sent[0].metadata == props
              && sent[0].name == fName && sent[0].format == fType && sent[0].version == version
              && sent[0].description == fType + " uploaded by " + sourceName + "."
              && sent[0].mimeType == MimeType(fType)
              && (sent[0].route == "/data/file" <==> UploadsFile(fType, ingData))
              && (sent[0].route != "/data/file" ==> sent[0].route == "/data")
              && sent[0].fileData == (if UploadsFile(fType, ingData) then ingData else None)
              && sent[0].content == (if fType == "text" then TextOf(ingData) else "")
  {
    sent := [];
    var metadata := CopyProps(props);
    var mimeType, content, fileData := Payload(fType, ingData);
    if w.marshalError.Some? {
      return NotIngested(w.marshalError.value), sent;
    }
    var route := if fileData.Some? then "/data/file" else "/data";
    assert "/data/file"[5..] == "/file";
    sent := [IngestRequest(route, fName, fType, version, fType + " uploaded by " + sourceName + ".",
                           metadata, mimeType, content, fileData)];
    if w.submitError.Some? {
      return NotIngested(w.submitError.value), sent;
    }
    var jobErr := JobIDError(w);
    if jobErr.Some? {
      return NotIngested(jobErr.value), sent;
    }
    var resp, _ := GetJobResponse(w.jobID, w.replies);
    if resp.Crashed? {
      return IngestCrashed, sent;
    }
    if resp.error.Some? {
      return NotIngested(resp.error.value), sent;
    }
    return Ingested(resp.result.value.dataID), sent;
  }

  function LocString(subFold: string, fName: string): string {
    if subFold == "" then "./" + fName else "./" + subFold + "/" + fName
  }

  /** IngestFile: an unreadable or empty file is never sent. */
  method IngestFile(subFold: string, fName: string, fType: string, sourceName: string, version: string,
                    read: string -> Result<string>, props: map<string, string>, w: IngestWorld)
    returns (r: Ingestion, sent: seq<IngestRequest>)
    ensures
      var data := read(if subFold == "" then "./" + fName else "./" + subFold + "/" + fName);
      && (data.Failure? ==>
            r == NotIngested("Error reading file " + fName + " for Ingest: " + data.error) && sent == [])
      && (data.Success? && data.value == "" ==>
            r == NotIngested("File \"" + fName + "\" read as empty.") && sent == [])
      && (data.Success? && data.value != "" ==>
            && r == IngestOutcome(w)
            && |sent| == (if w.marshalError.None? then 1 else 0)
            && (sent != [] ==>
                  && sent[0].metadata == props
                  && sent[0].name == fName && sent[0].format == fType && sent[0].version == version
                  && sent[0].description == fType + " uploaded by " + sourceName + "."
                  && sent[0].mimeType == MimeType(fType)
                  && sent[0].fileData == (if UploadsFile(fType, Some(data.value)) then Some(data.value) else None)
                  && sent[0].content == (if fType == "text" then data.value else "")))
  {
    var path := LocString(subFold, fName);
    var fData := read(path);
    if fData.Failure? {
      return NotIngested("Error reading file " + fName + " for Ingest: " + fData.error), [];
    }
    if |fData.value| == 0 {
      return NotIngested("File \"" + fName + "\" read as empty."), [];
    }
    r, sent := Ingest(fName, fType, sourceName, version, Some(fData.value), props, w);
  }
}
