/**
 worker/ingest/ingest_async.go and ingest.go: the ingest goroutines as a transition system.
 Each call has an outer goroutine (the select and the send on outChan), an inner goroutine (the
 ingestion and the send on resultChan) and a timer; the main goroutine starts the calls and drains
 their channels in order. Channels are unbuffered: a send and its receive are one step. A schedule
 is any sequence of enabled actions.
 */
module IngestFanout {
  import opened Common
  import opened OutputIngest

  /** What IngestFile returns for a call, if it returns. */
  datatype Reply = Reply(dataID: string, error: Option<string>)

  datatype World = World(calls: seq<IngestorCall>, replies: seq<Reply>, asmErrors: seq<string>)

  ghost predicate ValidWorld(w: World) { |w.replies| == |w.calls| }

  /** Which branch of the select was taken. */
  datatype Verdict = Ingested | TimedOut

  const TIMEOUT_ERROR := "Unexpected error storing job output"

  function Message(w: World, k: nat, v: Verdict): SingleIngestOutput
    requires ValidWorld(w) && k < |w.calls|
  {
    match v
    case Ingested => SingleIngestOutput(w.calls[k].filePath, w.replies[k].dataID, w.replies[k].error)
    case TimedOut => SingleIngestOutput(w.calls[k].filePath, "", Some(TIMEOUT_ERROR))
  }

  datatype Outer = Created | Selecting | Forwarding(msg: SingleIngestOutput) | ClosingOut | OuterDone
  datatype Inner = NotStarted | Ingesting | Offering(msg: SingleIngestOutput) | ClosingResult | InnerDone
  datatype Timer = Unarmed | Armed | Fired

  /** One call's goroutines; closes count the closes of a channel, sent is what outChan delivered. */
  datatype Proc = Proc(
    outer: Outer, inner: Inner, timer: Timer, verdict: Option<Verdict>,
    resultCloses: nat, outCloses: nat, sent: seq<SingleIngestOutput>)

  const NEW_PROC := Proc(Created, NotStarted, Unarmed, None, 0, 0, [])

  datatype Main = Calling | Draining(chan: nat) | Finished

  datatype State = State(main: Main, procs: seq<Proc>, received: seq<SingleIngestOutput>, acc: MultiIngestOutput)

  function Init(w: World): State {
    State(Calling, [], [], MultiIngestOutput(map[], [] + w.asmErrors, None))
  }

  /** Steps of the goroutines of one call. */
  datatype LocalStep =
    | StartInner | IngestReturns | TimerFires
    | Deliver | SelectClosed | SelectTimeout
    | CloseResult | CloseOut

  datatype Action = CallNext | BeginDrain | Receive | NextChan | Finish | Local(k: nat, step: LocalStep)

  ghost predicate LocalEnabled(p: Proc, step: LocalStep) {
    match step
    case StartInner => p.outer.Created?
    case IngestReturns => p.inner.Ingesting?
    case TimerFires => p.timer.Armed?
    case Deliver => p.outer.Selecting? && p.inner.Offering?
    case SelectClosed => p.outer.Selecting? && p.resultCloses > 0
    case SelectTimeout => p.outer.Selecting? && p.timer.Fired?
    case CloseResult => p.inner.ClosingResult?
    case CloseOut => p.outer.ClosingOut?
  }

  function LocalApply(w: World, k: nat, p: Proc, step: LocalStep): Proc
    requires ValidWorld(w) && k < |w.calls| && LocalEnabled(p, step)
  {
    match step
    case StartInner => p.(outer := Selecting, inner := Ingesting, timer := Armed)
    case IngestReturns => p.(inner := Offering(Message(w, k, Ingested)))
    case TimerFires => p.(timer := Fired)
    case Deliver => p.(outer := Forwarding(p.inner.msg), inner := ClosingResult, verdict := Some(Ingested))
    case SelectClosed => p.(outer := Forwarding(SingleIngestOutput("", "", None)))
    case SelectTimeout => p.(outer := Forwarding(Message(w, k, TimedOut)), verdict := Some(TimedOut))
    case CloseResult => p.(inner := InnerDone, resultCloses := p.resultCloses + 1)
    case CloseOut => p.(outer := OuterDone, outCloses := p.outCloses + 1)
  }

  /** The channel being drained hands over its value; the outer goroutine goes on to close it. */
  function HandOver(p: Proc): Proc
    requires p.outer.Forwarding?
  {
    p.(outer := ClosingOut, sent := p.sent + [p.outer.msg])
  }

  ghost predicate Enabled(w: World, s: State, a: Action) {
    match a
    case CallNext => s.main.Calling? && |s.procs| < |w.calls|
    case BeginDrain => s.main.Calling? && |s.procs| == |w.calls|
    case Receive => s.main.Draining? && s.main.chan < |s.procs| && s.procs[s.main.chan].outer.Forwarding?
    case NextChan => s.main.Draining? && s.main.chan < |s.procs| && s.procs[s.main.chan].outCloses > 0
    case Finish => s.main.Draining? && s.main.chan == |s.procs|
    case Local(k, step) => k < |s.procs| && LocalEnabled(s.procs[k], step)
  }

  ghost function Apply(w: World, s: State, a: Action): State
    requires ValidWorld(w) && |s.procs| <= |w.calls| && Enabled(w, s, a)
  {
    match a
    case CallNext => s.(procs := s.procs + [NEW_PROC])
    case BeginDrain => s.(main := Draining(0))
    case Receive =>
      var k := s.main.chan;
      var msg := s.procs[k].outer.msg;
      State(s.main, s.procs[k := HandOver(s.procs[k])], s.received + [msg], Absorb(s.acc, msg))
    case NextChan => s.(main := Draining(s.main.chan + 1))
    case Finish => s.(main := Finished, acc := s.acc.(combinedError := CombinedText(s.acc.errors)))
    case Local(k, step) => s.(procs := s.procs[k := LocalApply(w, k, s.procs[k], step)])
  }

  // ---- the invariant ----

  ghost predicate ProcInv(w: World, k: nat, p: Proc)
    requires ValidWorld(w) && k < |w.calls|
  {
    && (p.verdict.Some? <==> !p.outer.Created? && !p.outer.Selecting?)
    && (p.outer.Created? ==> p.inner.NotStarted? && p.timer.Unarmed?)
    && (p.outer.Selecting? ==> p.inner.Ingesting? || p.inner.Offering?)
    && (!p.outer.Created? ==> !p.timer.Unarmed?)
    && (p.outer.Forwarding? ==> p.outer.msg == Message(w, k, p.verdict.value))
    && (p.verdict == Some(Ingested) ==> p.inner.ClosingResult? || p.inner.InnerDone?)
    && (p.verdict == Some(TimedOut) ==> p.timer.Fired? && (p.inner.Ingesting? || p.inner.Offering?))
    && (p.inner.Offering? ==> p.inner.msg == Message(w, k, Ingested))
    && p.resultCloses == (if p.inner.InnerDone? then 1 else 0)
    && p.outCloses == (if p.outer.OuterDone? then 1 else 0)
    && p.sent == (if p.outer.ClosingOut? || p.outer.OuterDone? then [Message(w, k, p.verdict.value)] else [])
  }

  ghost predicate ProcsInv(w: World, procs: seq<Proc>)
    requires ValidWorld(w) && |procs| <= |w.calls|
  {
    forall k :: 0 <= k < |procs| ==> ProcInv(w, k, procs[k])
  }

  /** What was received came from the calls in order, each as its select decided. */
  ghost predicate ReceivedInv(w: World, procs: seq<Proc>, received: seq<SingleIngestOutput>)
    requires ValidWorld(w) && |procs| <= |w.calls|
  {
    && |received| <= |procs|
    && forall j :: 0 <= j < |received| ==>
         procs[j].verdict.Some? && received[j] == Message(w, j, procs[j].verdict.value)
  }

  /** Where the main goroutine is, channels before it are closed and channels behind it unread. */
  ghost predicate PhaseInv(w: World, main: Main, procs: seq<Proc>, received: nat) {
    match main
    case Calling => received == 0 && forall j :: 0 <= j < |procs| ==> procs[j].sent == []
    case Draining(i) =>
      && |procs| == |w.calls| && i <= |procs|
      && (forall j :: 0 <= j < i ==> procs[j].outer.OuterDone?)
      && (forall j :: i < j < |procs| ==> procs[j].sent == [])
      && received == i + (if i < |procs| then |procs[i].sent| else 0)
    case Finished =>
      && |procs| == |w.calls| == received
      && (forall j :: 0 <= j < |procs| ==> procs[j].outer.OuterDone?)
  }

  ghost predicate Inv(w: World, s: State)
    requires ValidWorld(w)
  {
    && |s.procs| <= |w.calls|
    && ProcsInv(w, s.procs)
    && ReceivedInv(w, s.procs, s.received)
    && PhaseInv(w, s.main, s.procs, |s.received|)
    && (s.main.Finished? ==> s.acc == Drained(w.asmErrors, s.received))
    && (!s.main.Finished? ==> s.acc == Collected(w.asmErrors, s.received))
  }

  lemma InitInv(w: World)
    requires ValidWorld(w)
    ensures Inv(w, Init(w))
  {
    assert Collected(w.asmErrors, []) == Init(w).acc;
  }

  /** A step of one call's goroutines keeps their invariant and what the main goroutine relies on. */
  lemma LocalStepInv(w: World, k: nat, p: Proc, step: LocalStep)
    requires ValidWorld(w) && k < |w.calls| && ProcInv(w, k, p) && LocalEnabled(p, step)
    ensures
      var q := LocalApply(w, k, p, step);
      && ProcInv(w, k, q)
      && q.sent == p.sent
      && (p.verdict.Some? ==> q.verdict == p.verdict)
      && (p.outer.OuterDone? ==> q.outer.OuterDone?)
      && ProcRank(q) < ProcRank(p)
  {
  }

  lemma HandOverInv(w: World, k: nat, p: Proc)
    requires ValidWorld(w) && k < |w.calls| && ProcInv(w, k, p) && p.outer.Forwarding?
    ensures ProcInv(w, k, HandOver(p)) && ProcRank(HandOver(p)) < ProcRank(p)
    ensures HandOver(p).verdict == p.verdict && p.verdict.Some?
    ensures p.sent == [] && HandOver(p).sent == [Message(w, k, p.verdict.value)] == [p.outer.msg]
  {
  }

  /** Changing one call's goroutines leaves the other calls alone. */
  lemma UpdateKeepsProcs(w: World, procs: seq<Proc>, k: nat, q: Proc)
    requires ValidWorld(w) && |procs| <= |w.calls| && k < |procs|
    requires ProcsInv(w, procs) && ProcInv(w, k, q)
    ensures ProcsInv(w, procs[k := q])
  {
  }

  lemma UpdateKeepsReceived(w: World, procs: seq<Proc>, k: nat, q: Proc, received: seq<SingleIngestOutput>)
    requires ValidWorld(w) && |procs| <= |w.calls| && k < |procs|
    requires ReceivedInv(w, procs, received)
    requires procs[k].verdict.Some? ==> q.verdict == procs[k].verdict
    ensures ReceivedInv(w, procs[k := q], received)
  {
  }

  lemma UpdateKeepsPhase(w: World, main: Main, procs: seq<Proc>, k: nat, q: Proc, received: nat)
    requires k < |procs| && PhaseInv(w, main, procs, received)
    requires q.sent == procs[k].sent && (procs[k].outer.OuterDone? ==> q.outer.OuterDone?)
    ensures PhaseInv(w, main, procs[k := q], received)
  {
  }

  lemma LocalInv(w: World, s: State, k: nat, step: LocalStep)
    requires ValidWorld(w) && Inv(w, s) && Enabled(w, s, Local(k, step))
    ensures Inv(w, Apply(w, s, Local(k, step)))
  {
    var q := LocalApply(w, k, s.procs[k], step);
    LocalStepInv(w, k, s.procs[k], step);
    UpdateKeepsProcs(w, s.procs, k, q);
    UpdateKeepsReceived(w, s.procs, k, q, s.received);
    UpdateKeepsPhase(w, s.main, s.procs, k, q, |s.received|);
  }

  /** The channel being drained is the next one to be heard of. */
  lemma ReceivedSoFar(w: World, s: State)
    requires ValidWorld(w) && Inv(w, s) && Enabled(w, s, Receive)
    ensures |s.received| == s.main.chan
  {
    assert ProcInv(w, s.main.chan, s.procs[s.main.chan]);
  }

  lemma ReceiveInv(w: World, s: State)
    requires ValidWorld(w) && Inv(w, s) && Enabled(w, s, Receive)
    ensures Inv(w, Apply(w, s, Receive))
  {
    var k := s.main.chan;
    var q, msg := HandOver(s.procs[k]), s.procs[k].outer.msg;
    ReceivedSoFar(w, s);
    HandOverInv(w, k, s.procs[k]);
    UpdateKeepsProcs(w, s.procs, k, q);
    UpdateKeepsReceived(w, s.procs, k, q, s.received);
    ReceiveOneMore(w, s.procs[k := q], s.received, msg);
    HandOverPhase(w, s.main, s.procs);
    CollectOneMore(w.asmErrors, s.received, msg);
  }

  lemma ReceiveOneMore(w: World, procs: seq<Proc>, received: seq<SingleIngestOutput>, msg: SingleIngestOutput)
    requires ValidWorld(w) && |received| < |procs| <= |w.calls|
    requires ReceivedInv(w, procs, received)
    requires procs[|received|].verdict.Some? && msg == Message(w, |received|, procs[|received|].verdict.value)
    ensures ReceivedInv(w, procs, received + [msg])
  {
  }

  lemma HandOverPhase(w: World, main: Main, procs: seq<Proc>)
    requires main.Draining? && main.chan < |procs| && PhaseInv(w, main, procs, main.chan)
    requires procs[main.chan].outer.Forwarding? && procs[main.chan].sent == []
    ensures PhaseInv(w, main, procs[main.chan := HandOver(procs[main.chan])], main.chan + 1)
  {
  }

  lemma MainStepInv(w: World, s: State, a: Action)
    requires ValidWorld(w) && Inv(w, s) && Enabled(w, s, a)
    requires a.CallNext? || a.BeginDrain? || a.NextChan? || a.Finish?
    ensures Inv(w, Apply(w, s, a))
  {
    var t := Apply(w, s, a);
    if a.NextChan? {
      assert ProcInv(w, s.main.chan, s.procs[s.main.chan]);
    }
    if a.CallNext? {
      assert ProcInv(w, |s.procs|, NEW_PROC);
      assert ProcsInv(w, t.procs);
    }
    assert ReceivedInv(w, t.procs, t.received);
  }

  lemma StepInv(w: World, s: State, a: Action)
    requires ValidWorld(w) && Inv(w, s) && Enabled(w, s, a)
    ensures Inv(w, Apply(w, s, a))
  {
    match a {
      case Receive => ReceiveInv(w, s);
      case Local(k, step) => LocalInv(w, s, k, step);
      case _ => MainStepInv(w, s, a);
    }
  }

  // ---- schedules ----

  ghost predicate Legal(w: World, s: State, schedule: seq<Action>)
    requires ValidWorld(w)
    decreases |schedule|
  {
    schedule == [] ||
    (|s.procs| <= |w.calls| && Enabled(w, s, schedule[0]) && Legal(w, Apply(w, s, schedule[0]), schedule[1..]))
  }

  ghost function After(w: World, s: State, schedule: seq<Action>): State
    requires ValidWorld(w) && Legal(w, s, schedule)
    decreases |schedule|
  {
    if schedule == [] then s else After(w, Apply(w, s, schedule[0]), schedule[1..])
  }

  lemma {:induction false} AfterInv(w: World, s: State, schedule: seq<Action>)
    requires ValidWorld(w) && Inv(w, s) && Legal(w, s, schedule)
    ensures Inv(w, After(w, s, schedule))
    decreases |schedule|
  {
    if schedule != [] {
      StepInv(w, s, schedule[0]);
      AfterInv(w, Apply(w, s, schedule[0]), schedule[1..]);
    }
  }

  // ---- every schedule refines the sequential drain ----

  /** The results in call order, given which calls timed out. */
  function Results(w: World, verdicts: seq<Verdict>): seq<SingleIngestOutput>
    requires ValidWorld(w) && |verdicts| == |w.calls|
  {
    seq(|verdicts|, k requires 0 <= k < |verdicts| => Message(w, k, verdicts[k]))
  }

  ghost predicate Decided(w: World, s: State) {
    |s.procs| == |w.calls| && forall k :: 0 <= k < |s.procs| ==> s.procs[k].verdict.Some?
  }

  ghost function Verdicts(w: World, s: State): seq<Verdict>
    requires Decided(w, s)
  {
    seq(|s.procs|, k requires 0 <= k < |s.procs| => s.procs[k].verdict.value)
  }

  function Channels(s: State): seq<seq<SingleIngestOutput>> {
    seq(|s.procs|, k requires 0 <= k < |s.procs| => s.procs[k].sent)
  }

  /** However the goroutines are scheduled, the output is the sequential drain of the results in call order. */
  lemma EveryScheduleRefinesDrain(w: World, schedule: seq<Action>)
    requires ValidWorld(w) && Legal(w, Init(w), schedule)
    requires After(w, Init(w), schedule).main.Finished?
    ensures
      var s := After(w, Init(w), schedule);
      && Decided(w, s)
      && s.acc == Drained(w.asmErrors, Results(w, Verdicts(w, s)))
      && s.acc == Drained(w.asmErrors, Flatten(Channels(s)))
  {
    InitInv(w);
    AfterInv(w, Init(w), schedule);
    FinishedResults(w, schedule);
    var s := After(w, Init(w), schedule);
    assert forall k :: 0 <= k < |s.procs| ==> ProcInv(w, k, s.procs[k]);
    assert s.received == Results(w, Verdicts(w, s));
  }

  /** The k-th call was ingested in time, and without error. */
  ghost predicate Succeeded(w: World, s: State, k: nat)
    requires ValidWorld(w) && |s.procs| == |w.calls| && k < |w.calls|
  {
    s.procs[k].verdict == Some(Ingested) && w.replies[k].error.None?
  }

  /** No later call with the same path succeeded. */
  ghost predicate LastForItsPath(w: World, s: State, k: nat)
    requires ValidWorld(w) && |s.procs| == |w.calls| && k < |w.calls|
  {
    && Succeeded(w, s, k)
    && forall j :: k < j < |w.calls| && Succeeded(w, s, j) ==> w.calls[j].filePath != w.calls[k].filePath
  }

  /** The errors of the first n calls, in order: the reply's own, or that of the timeout. */
  ghost function ErrorsOfCalls(w: World, s: State, n: nat): seq<string>
    requires ValidWorld(w) && |s.procs| == |w.calls| && n <= |w.calls|
  {
    if n == 0 then []
    else
      ErrorsOfCalls(w, s, n - 1)
      + if s.procs[n - 1].verdict == Some(TimedOut) then ["Unexpected error storing job output"]
        else if w.replies[n - 1].error.Some? then [w.replies[n - 1].error.value]
        else []
  }

  /**
   The output of every finished schedule, in terms of the calls, of what their ingestions answered, and of
   which of them timed out: each path has the data ID answered for the last call that succeeded for it, no
   other path has one, and the errors are those of assembly, then those of the calls in order.
   */
  lemma OutputOfEverySchedule(w: World, schedule: seq<Action>)
    requires ValidWorld(w) && Legal(w, Init(w), schedule)
    requires After(w, Init(w), schedule).main.Finished?
    ensures Decided(w, After(w, Init(w), schedule))
    ensures
      var s := After(w, Init(w), schedule);
      && (forall k :: 0 <= k < |w.calls| && LastForItsPath(w, s, k) ==>
            Lookup(s.acc.dataIDs, w.calls[k].filePath) == Some(w.replies[k].dataID))
      && (forall path :: path in s.acc.dataIDs ==>
            exists k :: 0 <= k < |w.calls| && w.calls[k].filePath == path && Succeeded(w, s, k))
      && s.acc.errors == w.asmErrors + ErrorsOfCalls(w, s, |w.calls|)
      && s.acc.combinedError == (if s.acc.errors == [] then None
                                 else Some("ingest errors: " + Join(s.acc.errors, "; ")))
  {
    EveryScheduleRefinesDrain(w, schedule);
    var s := After(w, Init(w), schedule);
    var results := Results(w, Verdicts(w, s));
    assert results[..|w.calls|] == results;
    ErrorsInOrder(w, s, |w.calls|);
    forall k | 0 <= k < |w.calls| && LastForItsPath(w, s, k)
      ensures Lookup(s.acc.dataIDs, w.calls[k].filePath) == Some(w.replies[k].dataID)
    {
      LastSuccessIsKept(w, s, |w.calls|, k);
    }
    forall path | path in s.acc.dataIDs
      ensures exists k :: 0 <= k < |w.calls| && w.calls[k].filePath == path && Succeeded(w, s, k)
    {
      var k := KeyComesFrom(results, path);
      ResultSucceeded(w, s, k);
    }
  }

  ghost function ResultsTo(w: World, s: State, n: nat): seq<SingleIngestOutput>
    requires ValidWorld(w) && Decided(w, s) && n <= |w.calls|
  {
    Results(w, Verdicts(w, s))[..n]
  }

  lemma NextResult(w: World, s: State, n: nat)
    requires ValidWorld(w) && Decided(w, s) && 0 < n <= |w.calls|
    ensures ResultsTo(w, s, n) == ResultsTo(w, s, n - 1) + [Message(w, n - 1, s.procs[n - 1].verdict.value)]
    ensures ResultsTo(w, s, n)[..n - 1] == ResultsTo(w, s, n - 1)
  {
  }

  lemma {:induction false} ErrorsInOrder(w: World, s: State, n: nat)
    requires ValidWorld(w) && Decided(w, s) && n <= |w.calls|
    ensures ErrorsOf(ResultsTo(w, s, n)) == ErrorsOfCalls(w, s, n)
  {
    if n > 0 {
      NextResult(w, s, n);
      ErrorsInOrder(w, s, n - 1);
      assert ErrorsOfCalls(w, s, n - 1) + [] == ErrorsOfCalls(w, s, n - 1);
    }
  }

  lemma SuccessesGrow(w: World, s: State, n: nat)
    requires ValidWorld(w) && Decided(w, s) && 0 < n <= |w.calls|
    ensures Writes(SuccessesOf(ResultsTo(w, s, n)))
         == if Succeeded(w, s, n - 1)
            then Writes(SuccessesOf(ResultsTo(w, s, n - 1)))[w.calls[n - 1].filePath := w.replies[n - 1].dataID]
            else Writes(SuccessesOf(ResultsTo(w, s, n - 1)))
  {
    NextResult(w, s, n);
    var before, kvs := SuccessesOf(ResultsTo(w, s, n - 1)), SuccessesOf(ResultsTo(w, s, n));
    if Succeeded(w, s, n - 1) {
      assert kvs == before + [(w.calls[n - 1].filePath, w.replies[n - 1].dataID)];
      assert kvs[..|kvs| - 1] == before;
    } else {
      assert kvs == before;
    }
  }

  lemma {:induction false} LastSuccessIsKept(w: World, s: State, n: nat, k: nat)
    requires ValidWorld(w) && Decided(w, s) && k < n <= |w.calls| && LastForItsPath(w, s, k)
    ensures Lookup(Writes(SuccessesOf(ResultsTo(w, s, n))), w.calls[k].filePath) == Some(w.replies[k].dataID)
  {
    SuccessesGrow(w, s, n);
    if k < n - 1 { LastSuccessIsKept(w, s, n - 1, k); }
  }

  lemma ResultSucceeded(w: World, s: State, k: nat)
    requires ValidWorld(w) && Decided(w, s) && k < |w.calls|
    ensures Results(w, Verdicts(w, s))[k].filePath == w.calls[k].filePath
    ensures Results(w, Verdicts(w, s))[k].error.None? ==> Succeeded(w, s, k)
  {
  }

  /** What the channels delivered is the results in call order. */
  lemma FinishedResults(w: World, schedule: seq<Action>)
    requires ValidWorld(w) && Legal(w, Init(w), schedule)
    requires After(w, Init(w), schedule).main.Finished?
    ensures Decided(w, After(w, Init(w), schedule))
    ensures Flatten(Channels(After(w, Init(w), schedule))) == Results(w, Verdicts(w, After(w, Init(w), schedule)))
  {
    InitInv(w);
    AfterInv(w, Init(w), schedule);
    var s := After(w, Init(w), schedule);
    forall k | 0 <= k < |s.procs|
      ensures s.procs[k].verdict.Some? && s.procs[k].sent == [s.received[k]]
    {
      assert ProcInv(w, k, s.procs[k]);
    }
    assert s.received == Results(w, Verdicts(w, s));
    FlattenSingletons(Channels(s), s.received);
  }

  lemma {:induction false} FlattenSingletons(chans: seq<seq<SingleIngestOutput>>, values: seq<SingleIngestOutput>)
    requires |chans| == |values|
    requires forall k :: 0 <= k < |chans| ==> chans[k] == [values[k]]
    ensures Flatten(chans) == values
  {
    if chans != [] {
      var n := |chans| - 1;
      FlattenSingletons(chans[..n], values[..n]);
      assert values == values[..n] + [values[n]];
    }
  }

  /** Two schedules in which the same calls time out end with the same output. */
  lemma OutputIndependentOfSchedule(w: World, a: seq<Action>, b: seq<Action>)
    requires ValidWorld(w) && Legal(w, Init(w), a) && Legal(w, Init(w), b)
    requires After(w, Init(w), a).main.Finished? && After(w, Init(w), b).main.Finished?
    requires forall k :: 0 <= k < |w.calls| && k < |After(w, Init(w), a).procs| && k < |After(w, Init(w), b).procs| ==>
               After(w, Init(w), a).procs[k].verdict == After(w, Init(w), b).procs[k].verdict
    ensures After(w, Init(w), a).acc == After(w, Init(w), b).acc
  {
    EveryScheduleRefinesDrain(w, a);
    EveryScheduleRefinesDrain(w, b);
    assert Verdicts(w, After(w, Init(w), a)) == Verdicts(w, After(w, Init(w), b));
  }

  // ---- channels are used correctly ----

  /** A goroutine is about to send on, or close, a channel that is closed already. */
  ghost predicate AboutToPanic(p: Proc) {
    || ((p.outer.Forwarding? || p.outer.ClosingOut?) && p.outCloses > 0)
    || ((p.inner.Offering? || p.inner.ClosingResult?) && p.resultCloses > 0)
  }

  /** At most one value on a call's channel, naming its own file, and no misuse of a closed channel. */
  ghost predicate ChannelsFine(w: World, k: nat, p: Proc)
    requires k < |w.calls|
  {
    && !AboutToPanic(p)
    && |p.sent| <= 1 && p.outCloses <= 1 && p.resultCloses <= 1
    && (p.sent != [] ==> p.sent[0].filePath == w.calls[k].filePath)
    && (p.outCloses > 0 ==> |p.sent| == 1)
    && !LocalEnabled(p, SelectClosed)
  }

  lemma InvMeansFine(w: World, k: nat, p: Proc)
    requires ValidWorld(w) && k < |w.calls| && ProcInv(w, k, p)
    ensures ChannelsFine(w, k, p)
  {
  }

  /** At every moment every call's channels are used as they should be. */
  lemma ChannelsUsedOnce(w: World, schedule: seq<Action>, k: nat)
    requires ValidWorld(w) && Legal(w, Init(w), schedule)
    requires k < |After(w, Init(w), schedule).procs| && k < |w.calls|
    ensures ChannelsFine(w, k, After(w, Init(w), schedule).procs[k])
  {
    InitInv(w);
    AfterInv(w, Init(w), schedule);
    InvMeansFine(w, k, After(w, Init(w), schedule).procs[k]);
  }

  // ---- no deadlock ----

  /**
   Until the output is complete some step other than the return of an ingestion is possible: even
   if no ingestion ever returns, the timers bring the drain to its end.
   */
  lemma SomeStepEnabled(w: World, s: State) returns (a: Action)
    requires ValidWorld(w) && Inv(w, s) && !s.main.Finished?
    ensures Enabled(w, s, a) && !(a.Local? && a.step.IngestReturns?)
  {
    match s.main {
      case Calling => a := if |s.procs| < |w.calls| then CallNext else BeginDrain;
      case Draining(i) =>
        if i == |s.procs| {
          a := Finish;
        } else {
          var p := s.procs[i];
          assert ProcInv(w, i, p);
          match p.outer {
            case Created => a := Local(i, StartInner);
            case Selecting =>
              if p.inner.Offering? { a := Local(i, Deliver); }
              else if p.timer.Armed? { a := Local(i, TimerFires); }
              else { a := Local(i, SelectTimeout); }
            case Forwarding(_) => a := Receive;
            case ClosingOut => a := Local(i, CloseOut);
            case OuterDone => a := NextChan;
          }
        }
    }
  }

  /**
   When nothing at all can move, the output is complete, every outChan is closed, and the only
   goroutines left are inner ones blocked on their send after a timeout.
   */
  lemma StuckMeansFinished(w: World, s: State)
    requires ValidWorld(w) && Inv(w, s)
    requires forall a :: !Enabled(w, s, a)
    ensures s.main.Finished?
    ensures forall k :: 0 <= k < |s.procs| ==>
              && s.procs[k].outer.OuterDone?
              && (s.procs[k].inner.InnerDone? || (s.procs[k].inner.Offering? && s.procs[k].verdict == Some(TimedOut)))
  {
    if !s.main.Finished? {
      var a := SomeStepEnabled(w, s);
      assert false;
    }
    forall k | 0 <= k < |s.procs|
      ensures s.procs[k].inner.InnerDone? || (s.procs[k].inner.Offering? && s.procs[k].verdict == Some(TimedOut))
    {
      assert ProcInv(w, k, s.procs[k]);
      assert !Enabled(w, s, Local(k, IngestReturns)) && !Enabled(w, s, Local(k, CloseResult));
    }
  }

  // ---- termination ----

  function OuterRank(o: Outer): nat {
    match o case Created => 4 case Selecting => 3 case Forwarding(_) => 2 case ClosingOut => 1 case OuterDone => 0
  }

  function InnerRank(i: Inner): nat {
    match i case NotStarted => 4 case Ingesting => 3 case Offering(_) => 2 case ClosingResult => 1 case InnerDone => 0
  }

  function TimerRank(t: Timer): nat {
    match t case Unarmed => 2 case Armed => 1 case Fired => 0
  }

  function ProcRank(p: Proc): nat { OuterRank(p.outer) + InnerRank(p.inner) + TimerRank(p.timer) }

  function ProcsRank(procs: seq<Proc>): nat {
    if procs == [] then 0 else ProcsRank(procs[..|procs| - 1]) + ProcRank(procs[|procs| - 1])
  }

  function MainRank(w: World, m: Main): nat {
    match m
    case Calling => |w.calls| + 2
    case Draining(i) => if i <= |w.calls| then |w.calls| - i + 1 else 1
    case Finished => 0
  }

  /** The steps still possible, counted over the program counters of all goroutines. */
  function Measure(w: World, s: State): nat
    requires |s.procs| <= |w.calls|
  {
    MainRank(w, s.main) + ProcsRank(s.procs) + 11 * (|w.calls| - |s.procs|)
  }

  lemma {:induction false} ProcsRankUpdate(procs: seq<Proc>, k: nat, p: Proc)
    requires k < |procs|
    ensures ProcsRank(procs[k := p]) == ProcsRank(procs) - ProcRank(procs[k]) + ProcRank(p)
  {
    var n := |procs| - 1;
    if k < n {
      ProcsRankUpdate(procs[..n], k, p);
      assert procs[k := p][..n] == procs[..n][k := p];
    } else {
      assert procs[k := p][..n] == procs[..n];
    }
  }

  lemma StepDecreases(w: World, s: State, a: Action)
    requires ValidWorld(w) && Inv(w, s) && Enabled(w, s, a)
    requires |Apply(w, s, a).procs| <= |w.calls|
    ensures Measure(w, Apply(w, s, a)) < Measure(w, s)
  {
    match a {
      case CallNext =>
        assert (s.procs + [NEW_PROC])[..|s.procs|] == s.procs;
      case Receive =>
        var k := s.main.chan;
        HandOverInv(w, k, s.procs[k]);
        ProcsRankUpdate(s.procs, k, HandOver(s.procs[k]));
      case Local(k, step) =>
        LocalStepInv(w, k, s.procs[k], step);
        ProcsRankUpdate(s.procs, k, LocalApply(w, k, s.procs[k], step));
      case _ =>
    }
  }

  /** No schedule is longer than the measure of the state it starts in. */
  lemma {:induction false} ScheduleBound(w: World, s: State, schedule: seq<Action>)
    requires ValidWorld(w) && Inv(w, s) && Legal(w, s, schedule)
    ensures Inv(w, After(w, s, schedule))
    ensures |schedule| + Measure(w, After(w, s, schedule)) <= Measure(w, s)
    decreases |schedule|
  {
    if schedule != [] {
      StepInv(w, s, schedule[0]);
      StepDecreases(w, s, schedule[0]);
      ScheduleBound(w, Apply(w, s, schedule[0]), schedule[1..]);
    }
  }

  /** Every schedule for n calls ends within 12 n + 2 steps. */
  lemma EveryScheduleEnds(w: World, schedule: seq<Action>)
    requires ValidWorld(w) && Legal(w, Init(w), schedule)
    ensures |schedule| <= 12 * |w.calls| + 2
  {
    InitInv(w);
    ScheduleBound(w, Init(w), schedule);
  }
}
