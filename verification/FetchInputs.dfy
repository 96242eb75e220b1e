/**
 worker/input/download_async.go and fetch_input.go: the download goroutines with their retry loop,
 and the main goroutine that starts them and reads one value from every error channel in order.
 */
module FetchInputs {
  import opened Common

  datatype GetOutcome = GetFailed(text: string) | Response(statusCode: int, body: string)

  datatype DownloadError =
    | CannotOpen(text: string) | RequestError(text: string) | UnexpectedStatus(code: int) | CopyError(text: string)

  /** What the world holds for one source: the file check, the outcome of each GET, the copy of a body. */
  datatype Source = Source(open: Option<string>, gets: seq<GetOutcome>, copy: Option<string>)

  function GetError(g: GetOutcome): Option<DownloadError> {
    match g
    case GetFailed(text) => Some(RequestError(text))
    case Response(code, _) => if code == 200 then None else Some(UnexpectedStatus(code))
  }

  /** The error a download ends with: the last GET decides, whatever came before it. */
  function Verdict(src: Source): Option<DownloadError>
    requires |src.gets| > 0
  {
    if src.open.Some? then Some(CannotOpen(src.open.value))
    else if GetError(src.gets[|src.gets| - 1]).Some? then GetError(src.gets[|src.gets| - 1])
    else if src.copy.Some? then Some(CopyError(src.copy.value))
    else None
  }

  /**
   The body of the download goroutine. There is no way out of the retry loop on success, so exactly
   Retries + 1 requests are made and the last one decides. With negative Retries there is no response
   to read and the goroutine crashes.
   */
  method DownloadInput(src: Source, retries: int)
    returns (sent: Option<DownloadError>, requests: nat, copied: Option<string>, crashed: bool)
    requires |src.gets| == if retries < 0 then 0 else retries + 1
    ensures crashed <==> src.open.None? && retries < 0
    ensures requests == if src.open.Some? then 0 else |src.gets|
    ensures retries >= 0 ==> sent == Verdict(src)
    ensures src.open.Some? ==> sent == Some(CannotOpen(src.open.value))
    ensures src.open.None? && retries >= 0 && src.gets[retries].GetFailed? ==>
              sent == Some(RequestError(src.gets[retries].text))
    ensures src.open.None? && retries >= 0 && src.gets[retries].Response? && src.gets[retries].statusCode != 200 ==>
              sent == Some(UnexpectedStatus(src.gets[retries].statusCode))
    ensures src.open.None? && retries >= 0 && src.gets[retries].Response? && src.gets[retries].statusCode == 200 ==>
              && copied == Some(src.gets[retries].body)
              && sent == (if src.copy.Some? then Some(CopyError(src.copy.value)) else None)
    ensures copied.Some? <==> retries >= 0 && src.open.None? && GetError(src.gets[retries]).None?
    ensures copied.Some? ==> src.gets[retries] == Response(200, copied.value)
  {
    requests, copied, crashed := 0, None, false;
    if src.open.Some? {
      return Some(CannotOpen(src.open.value)), requests, copied, crashed;
    }
    var resp: Option<GetOutcome> := None;
    var err: Option<DownloadError> := None;
    var i := 0;
    while i <= retries
      invariant 0 <= i && requests == i
      invariant i <= |src.gets|
      invariant i == 0 ==> resp == None && err == None
      invariant i > 0 ==> resp == Some(src.gets[i - 1]) && err == GetError(src.gets[i - 1])
    {
      resp := Some(src.gets[i]);
      requests := requests + 1;
      err := if resp.value.GetFailed? then Some(RequestError(resp.value.text)) else None;
      if err.None? && resp.value.statusCode != 200 {
        err := Some(UnexpectedStatus(resp.value.statusCode));
      }
      i := i + 1;
    }
    if err.Some? {
      return err, requests, copied, crashed;
    }
    if resp.None? {
      return None, requests, copied, true;
    }
    copied := Some(resp.value.body);
    if src.copy.Some? {
      return Some(CopyError(src.copy.value)), requests, copied, crashed;
    }
    return None, requests, copied, crashed;
  }

  const SOURCE_ERROR := "error downloading source imagery;"

  function Copies(n: nat): (r: seq<string>)
    ensures |r| == n
  {
    if n == 0 then [] else Copies(n - 1) + [SOURCE_ERROR]
  }

  /** The error FetchInputs returns when n downloads failed. */
  function FetchError(n: nat): Option<string> {
    if n == 0 then None else Some("[" + Join(Copies(n), " ") + "]")
  }

  function Failures(verdicts: seq<Option<DownloadError>>): nat {
    if verdicts == [] then 0
    else Failures(verdicts[..|verdicts| - 1]) + if verdicts[|verdicts| - 1].Some? then 1 else 0
  }

  lemma {:induction false} NoFailures(verdicts: seq<Option<DownloadError>>)
    ensures Failures(verdicts) == 0 <==> forall k :: 0 <= k < |verdicts| ==> verdicts[k].None?
  {
    if verdicts != [] {
      NoFailures(verdicts[..|verdicts| - 1]);
    }
  }

  /** The fan-in loop, given what the first receive from each channel yields. */
  method FetchAll(received: seq<Option<DownloadError>>) returns (err: Option<string>)
    ensures err == FetchError(Failures(received))
    ensures err.None? <==> forall k :: 0 <= k < |received| ==> received[k].None?
  {
    var errors: seq<string> := [];
    for i := 0 to |received|
      invariant errors == Copies(Failures(received[..i]))
    {
      assert received[..i + 1][..i] == received[..i];
      if received[i].Some? {
        errors := errors + [SOURCE_ERROR];
      }
    }
    assert received[..|received|] == received;
    NoFailures(received);
    if |errors| > 0 {
      return Some("[" + Join(errors, " ") + "]");
    }
    return None;
  }

  // ---- the goroutines ----

  type World = seq<Source>

  ghost predicate ValidWorld(w: World) { forall k :: 0 <= k < |w| ==> |w[k].gets| > 0 }

  datatype Pc =
    | Opening | Getting(i: nat, err: Option<DownloadError>) | Copying
    | Sending(e: DownloadError) | Closing | Done

  datatype Downloader = Downloader(pc: Pc, requests: nat, sent: seq<DownloadError>, closes: nat)

  datatype Main = Starting | Receiving(chan: nat) | Returned(result: Option<string>)

  datatype State = State(main: Main, dls: seq<Downloader>, errors: seq<string>)

  const INIT := State(Starting, [], [])

  datatype Action = StartNext | BeginReceive | ReceiveError | ReceiveClosed | Return | Step(k: nat)

  ghost predicate Enabled(w: World, s: State, a: Action) {
    match a
    case StartNext => s.main.Starting? && |s.dls| < |w|
    case BeginReceive => s.main.Starting? && |s.dls| == |w|
    case ReceiveError => s.main.Receiving? && s.main.chan < |s.dls| && s.dls[s.main.chan].pc.Sending?
    case ReceiveClosed => s.main.Receiving? && s.main.chan < |s.dls| && s.dls[s.main.chan].closes > 0
    case Return => s.main.Receiving? && s.main.chan == |s.dls|
    case Step(k) => k < |s.dls| && !s.dls[k].pc.Sending? && !s.dls[k].pc.Done?
  }

  /** The next own step of a download goroutine; sending waits for the main goroutine. */
  function StepOf(src: Source, d: Downloader): Downloader
    requires |src.gets| > 0 && !d.pc.Sending? && !d.pc.Done?
  {
    match d.pc
    case Opening => d.(pc := if src.open.Some? then Sending(CannotOpen(src.open.value)) else Getting(0, None))
    case Getting(i, err) =>
      if i < |src.gets| then d.(pc := Getting(i + 1, GetError(src.gets[i])), requests := d.requests + 1)
      else if err.Some? then d.(pc := Sending(err.value))
      else d.(pc := Copying)
    case Copying => d.(pc := if src.copy.Some? then Sending(CopyError(src.copy.value)) else Closing)
    case Closing => d.(pc := Done, closes := d.closes + 1)
  }

  function HandOver(d: Downloader): Downloader
    requires d.pc.Sending?
  {
    d.(pc := Closing, sent := d.sent + [d.pc.e])
  }

  ghost function Apply(w: World, s: State, a: Action): State
    requires ValidWorld(w) && |s.dls| <= |w| && Enabled(w, s, a)
  {
    match a
    case StartNext => s.(dls := s.dls + [Downloader(Opening, 0, [], 0)])
    case BeginReceive => s.(main := Receiving(0))
    case ReceiveError =>
      var k := s.main.chan;
      State(Receiving(k + 1), s.dls[k := HandOver(s.dls[k])], s.errors + [SOURCE_ERROR])
    case ReceiveClosed => s.(main := Receiving(s.main.chan + 1))
    case Return => s.(main := Returned(if |s.errors| > 0 then Some("[" + Join(s.errors, " ") + "]") else None))
    case Step(k) => s.(dls := s.dls[k := StepOf(w[k], s.dls[k])])
  }

  ghost predicate DlInv(src: Source, d: Downloader)
    requires |src.gets| > 0
  {
    && d.closes == (if d.pc.Done? then 1 else 0)
    && match d.pc
       case Opening => d.sent == [] && d.requests == 0
       case Getting(i, err) =>
         && src.open.None? && i <= |src.gets| && d.requests == i && d.sent == []
         && err == if i == 0 then None else GetError(src.gets[i - 1])
       case Copying =>
         && src.open.None? && GetError(src.gets[|src.gets| - 1]).None?
         && d.requests == |src.gets| && d.sent == []
       case Sending(e) => Verdict(src) == Some(e) && d.sent == [] && d.requests == Requests(src)
       case _ =>
         && d.requests == Requests(src)
         && d.sent == if Verdict(src).Some? then [Verdict(src).value] else []
  }

  /** How many GETs a finished download has made. */
  function Requests(src: Source): nat { if src.open.Some? then 0 else |src.gets| }

  function Verdicts(w: World): (r: seq<Option<DownloadError>>)
    requires ValidWorld(w)
    ensures |r| == |w|
  {
    seq(|w|, k requires 0 <= k < |w| => Verdict(w[k]))
  }

  /** The first receive from the channel of d has happened. */
  ghost predicate Settled(src: Source, d: Downloader)
    requires |src.gets| > 0
  {
    (d.pc.Closing? || d.pc.Done?) && (Verdict(src).None? ==> d.pc.Done?)
  }

  ghost predicate Inv(w: World, s: State)
    requires ValidWorld(w)
  {
    && |s.dls| <= |w|
    && (forall k :: 0 <= k < |s.dls| ==> DlInv(w[k], s.dls[k]))
    && match s.main
       case Starting => s.errors == [] && forall k :: 0 <= k < |s.dls| ==> s.dls[k].sent == []
       case Receiving(i) =>
         && |s.dls| == |w| && i <= |w|
         && s.errors == Copies(Failures(Verdicts(w)[..i]))
         && (forall k :: 0 <= k < i ==> Settled(w[k], s.dls[k]))
         && (forall k :: i <= k < |w| ==> s.dls[k].sent == [])
       case Returned(r) =>
         && |s.dls| == |w|
         && r == FetchError(Failures(Verdicts(w)))
         && (forall k :: 0 <= k < |w| ==> Settled(w[k], s.dls[k]))
  }

  function Rank(src: Source, d: Downloader): nat {
    match d.pc
    case Opening => |src.gets| + 5
    case Getting(i, _) => if i <= |src.gets| then |src.gets| - i + 4 else 4
    case Copying => 3
    case Sending(_) => 2
    case Closing => 1
    case Done => 0
  }

  lemma StepOfInv(src: Source, d: Downloader)
    requires |src.gets| > 0 && DlInv(src, d) && !d.pc.Sending? && !d.pc.Done?
    ensures DlInv(src, StepOf(src, d)) && StepOf(src, d).sent == d.sent
    ensures Settled(src, d) ==> Settled(src, StepOf(src, d))
    ensures Rank(src, StepOf(src, d)) < Rank(src, d)
  {
  }

  lemma ReceiveStepInv(w: World, s: State, a: Action)
    requires ValidWorld(w) && Inv(w, s) && Enabled(w, s, a)
    requires a.ReceiveError? || a.ReceiveClosed?
    ensures Inv(w, Apply(w, s, a))
  {
    var k := s.main.chan;
    assert DlInv(w[k], s.dls[k]);
    assert Verdicts(w)[..k + 1][..k] == Verdicts(w)[..k];
    var t := Apply(w, s, a);
    assert forall j :: 0 <= j < |w| && j != k ==> t.dls[j] == s.dls[j];
    assert DlInv(w[k], t.dls[k]) && Settled(w[k], t.dls[k]);
  }

  lemma OwnStepInv(w: World, s: State, k: nat)
    requires ValidWorld(w) && Inv(w, s) && Enabled(w, s, Step(k))
    ensures Inv(w, Apply(w, s, Step(k)))
  {
    StepOfInv(w[k], s.dls[k]);
    var t := Apply(w, s, Step(k));
    assert forall j :: 0 <= j < |t.dls| && j != k ==> t.dls[j] == s.dls[j];
  }

  lemma StepInv(w: World, s: State, a: Action)
    requires ValidWorld(w) && Inv(w, s) && Enabled(w, s, a)
    ensures Inv(w, Apply(w, s, a))
  {
    match a {
      case StartNext =>
      case BeginReceive => assert Verdicts(w)[..0] == [];
      case Return => assert Verdicts(w)[..|w|] == Verdicts(w);
      case Step(k) => OwnStepInv(w, s, k);
      case _ => ReceiveStepInv(w, s, a);
    }
  }

  ghost predicate Legal(w: World, s: State, schedule: seq<Action>)
    requires ValidWorld(w)
    decreases |schedule|
  {
    schedule == [] ||
    (|s.dls| <= |w| && Enabled(w, s, schedule[0]) && Legal(w, Apply(w, s, schedule[0]), schedule[1..]))
  }

  ghost function After(w: World, s: State, schedule: seq<Action>): State
    requires ValidWorld(w) && Legal(w, s, schedule)
    decreases |schedule|
  {
    if schedule == [] then s else After(w, Apply(w, s, schedule[0]), schedule[1..])
  }

  // ---- termination ----

  /** Steps left in the first n downloads, those not started yet included. */
  function RankTo(w: World, dls: seq<Downloader>, n: nat): nat
    requires n <= |w|
  {
    if n == 0 then 0
    else RankTo(w, dls, n - 1) + if n <= |dls| then Rank(w[n - 1], dls[n - 1]) else |w[n - 1].gets| + 6
  }

  function MainRank(w: World, m: Main): nat {
    match m
    case Starting => |w| + 2
    case Receiving(i) => if i <= |w| then |w| - i + 1 else 1
    case Returned(_) => 0
  }

  function Measure(w: World, s: State): nat { MainRank(w, s.main) + RankTo(w, s.dls, |w|) }

  lemma {:induction false} RankToUpdate(w: World, dls: seq<Downloader>, k: nat, d: Downloader, n: nat)
    requires n <= |w| && k < |dls| <= |w|
    ensures RankTo(w, dls[k := d], n)
         == RankTo(w, dls, n) + if k < n then Rank(w[k], d) - Rank(w[k], dls[k]) else 0
  {
    if n > 0 {
      RankToUpdate(w, dls, k, d, n - 1);
    }
  }

  lemma {:induction false} RankToStart(w: World, dls: seq<Downloader>, d: Downloader, n: nat)
    requires n <= |w| && |dls| < |w| && d.pc.Opening?
    ensures RankTo(w, dls + [d], n) == RankTo(w, dls, n) - if |dls| < n then 1 else 0
  {
    if n > 0 {
      RankToStart(w, dls, d, n - 1);
    }
  }

  lemma StepDecreases(w: World, s: State, a: Action)
    requires ValidWorld(w) && Inv(w, s) && Enabled(w, s, a)
    ensures Measure(w, Apply(w, s, a)) < Measure(w, s)
  {
    match a {
      case StartNext => RankToStart(w, s.dls, Downloader(Opening, 0, [], 0), |w|);
      case ReceiveError => RankToUpdate(w, s.dls, s.main.chan, HandOver(s.dls[s.main.chan]), |w|);
      case Step(k) =>
        StepOfInv(w[k], s.dls[k]);
        RankToUpdate(w, s.dls, k, StepOf(w[k], s.dls[k]), |w|);
      case _ =>
    }
  }

  /** Every schedule keeps the invariant and is no longer than the measure allows. */
  lemma {:induction false} AfterInv(w: World, s: State, schedule: seq<Action>)
    requires ValidWorld(w) && Inv(w, s) && Legal(w, s, schedule)
    ensures Inv(w, After(w, s, schedule))
    ensures |schedule| + Measure(w, After(w, s, schedule)) <= Measure(w, s)
    decreases |schedule|
  {
    if schedule != [] {
      StepInv(w, s, schedule[0]);
      StepDecreases(w, s, schedule[0]);
      AfterInv(w, Apply(w, s, schedule[0]), schedule[1..]);
    }
  }

  lemma {:induction false} InitialRank(w: World, n: nat)
    requires n <= |w| && forall k :: 0 <= k < |w| ==> |w[k].gets| <= |w[0].gets|
    ensures n > 0 ==> RankTo(w, [], n) <= n * (|w[0].gets| + 6)
  {
    if n > 0 {
      InitialRank(w, n - 1);
      assert n * (|w[0].gets| + 6) == (n - 1) * (|w[0].gets| + 6) + (|w[0].gets| + 6);
    }
  }

  /** With r + 1 GETs per source, every schedule for n sources ends within n (r + 8) + 2 steps. */
  lemma EveryScheduleEnds(w: World, retries: nat, schedule: seq<Action>)
    requires forall k :: 0 <= k < |w| ==> |w[k].gets| == retries + 1
    requires Legal(w, INIT, schedule)
    ensures |schedule| <= |w| * (retries + 8) + 2
  {
    AfterInv(w, INIT, schedule);
    if |w| > 0 {
      InitialRank(w, |w|);
      assert |w| * (retries + 8) == |w| * (retries + 7) + |w|;
    }
  }

  // ---- the results ----

  /** The file can be opened, the last request is answered with status 200, and its body can be copied. */
  predicate Downloads(src: Source)
    requires |src.gets| > 0
  {
    && src.open.None?
    && src.gets[|src.gets| - 1].Response? && src.gets[|src.gets| - 1].statusCode == 200
    && src.copy.None?
  }

  /** One text for every download that failed, in brackets. */
  lemma {:induction false} CopiesAreEqual(n: nat)
    ensures Copies(n) == seq(n, i => "error downloading source imagery;")
  {
    if n > 0 { CopiesAreEqual(n - 1); }
  }

  lemma {:induction false} FailuresCounted(verdicts: seq<Option<DownloadError>>)
    ensures Failures(verdicts) == |set k | 0 <= k < |verdicts| && verdicts[k].Some?|
  {
    var failed := set k | 0 <= k < |verdicts| && verdicts[k].Some?;
    if verdicts != [] {
      var n := |verdicts| - 1;
      var init := verdicts[..n];
      FailuresCounted(init);
      var before := set k | 0 <= k < n && init[k].Some?;
      assert forall k :: 0 <= k < n ==> init[k] == verdicts[k];
      assert failed == if verdicts[n].Some? then before + {n} else before;
    }
  }

  /** FetchInputs returns nil exactly when every download ended without error, whatever the schedule. */
  lemma FetchedIffAllSucceed(w: World, schedule: seq<Action>)
    requires ValidWorld(w) && Legal(w, INIT, schedule)
    requires After(w, INIT, schedule).main.Returned?
    ensures
      var s := After(w, INIT, schedule);
      && s.main.result == FetchError(Failures(Verdicts(w)))
      && (s.main.result.None? <==> forall k :: 0 <= k < |w| ==> Downloads(w[k]))
      && (s.main.result.Some? ==>
            var failed := |set k | 0 <= k < |w| && !Downloads(w[k])|;
            s.main.result.value == "[" + Join(seq(failed, i => "error downloading source imagery;"), " ") + "]")
      && (forall k :: 0 <= k < |s.dls| ==> s.dls[k].pc.Closing? || s.dls[k].pc.Done?)
  {
    AfterInv(w, INIT, schedule);
    NoFailures(Verdicts(w));
    assert forall k :: 0 <= k < |w| ==> Verdicts(w)[k] == Verdict(w[k]);
    ErrorText(w);
  }

  /** The error of the fan-in has one text for every source that cannot be downloaded. */
  lemma ErrorText(w: World)
    requires ValidWorld(w)
    ensures FetchError(Failures(Verdicts(w))).Some? ==>
              (var failed := |set k | 0 <= k < |w| && !Downloads(w[k])|;
               FetchError(Failures(Verdicts(w))).value
               == "[" + Join(seq(failed, i => "error downloading source imagery;"), " ") + "]")
  {
    FailuresCounted(Verdicts(w));
    CopiesAreEqual(Failures(Verdicts(w)));
    assert (set k | 0 <= k < |w| && !Downloads(w[k])) == set k | 0 <= k < |Verdicts(w)| && Verdicts(w)[k].Some?;
  }

  /** Each error channel carries at most one error and is closed at most once, never before its error. */
  lemma ErrorChannelsUsedOnce(w: World, schedule: seq<Action>, k: nat)
    requires ValidWorld(w) && Legal(w, INIT, schedule)
    requires k < |w| && k < |After(w, INIT, schedule).dls|
    ensures
      var d := After(w, INIT, schedule).dls[k];
      && |d.sent| <= 1 && d.closes <= 1
      && (d.sent != [] ==> Verdict(w[k]) == Some(d.sent[0]))
      && (d.closes == 1 ==> d.pc.Done? && (|d.sent| == 1 <==> Verdict(w[k]).Some?))
      && (d.pc.Done? ==> d.requests == Requests(w[k]))
  {
    AfterInv(w, INIT, schedule);
    assert DlInv(w[k], After(w, INIT, schedule).dls[k]);
  }

  /** Until FetchInputs has returned some step is possible. */
  lemma SomeStepEnabled(w: World, s: State) returns (a: Action)
    requires ValidWorld(w) && Inv(w, s) && !s.main.Returned?
    ensures Enabled(w, s, a)
  {
    match s.main {
      case Starting => a := if |s.dls| < |w| then StartNext else BeginReceive;
      case Receiving(i) =>
        if i == |w| {
          a := Return;
        } else {
          assert DlInv(w[i], s.dls[i]);
          match s.dls[i].pc {
            case Sending(_) => a := ReceiveError;
            case Done => a := ReceiveClosed;
            case _ => a := Step(i);
          }
        }
    }
  }

  /** When nothing can move, FetchInputs has returned and every download goroutine has ended. */
  lemma StuckMeansReturned(w: World, s: State)
    requires ValidWorld(w) && Inv(w, s)
    requires forall a :: !Enabled(w, s, a)
    ensures s.main.Returned?
    ensures forall k :: 0 <= k < |s.dls| ==> s.dls[k].pc.Done?
  {
    if !s.main.Returned? {
      var a := SomeStepEnabled(w, s);
      assert false;
    }
    forall k | 0 <= k < |s.dls|
      ensures s.dls[k].pc.Done?
    {
      assert !Enabled(w, s, Step(k));
    }
  }
}
