/**
 dispatcher/poll/loop.go, Start and Stop: the polling goroutine, the goroutine that calls Stop and the
 consumer of the error channel. Both channels are unbuffered, so a send and its receive are one step;
 the ticker holds at most one tick. Start and Stop are each called once.
 */
module PollLoop {
  import opened Common

  datatype LoopPc = Selecting | Iterating | Sending(e: string) | ClosingErrs | Exited
  datatype StopPc = NotCalled | SendingStop | ClosingStop | StopDone
  datatype ConsumerPc = Ranging | RangeEnded

  /**
   The program counters, the ticker's buffer and both channels' closes; then the history: errors returned
   by iterations, errors received, iterations begun, and how many had begun when Stop's send completed.
   */
  datatype State = State(
    loop: LoopPc, stop: StopPc, consumer: ConsumerPc, tick: bool, errCloses: nat, stopCloses: nat,
    returned: seq<string>, received: seq<string>, begun: nat, begunAtStop: Option<nat>)

  const INIT := State(Selecting, NotCalled, Ranging, false, 0, 0, [], [], 0, None)

  datatype Action =
    | Tick | TakeTick | Return(err: Option<string>) | SendError
    | CallStop | TakeStop | TakeClosedStop | CloseErrs | CloseStop | EndRange

  /** reading: somebody ranges over the error channel. */
  ghost predicate Enabled(reading: bool, s: State, a: Action) {
    match a
    case Tick => !s.tick
    case TakeTick => s.loop.Selecting? && s.tick
    case Return(_) => s.loop.Iterating?
    case SendError => s.loop.Sending? && s.consumer.Ranging? && reading
    case CallStop => s.stop.NotCalled?
    case TakeStop => s.loop.Selecting? && s.stop.SendingStop?
    case TakeClosedStop => s.loop.Selecting? && s.stopCloses > 0
    case CloseErrs => s.loop.ClosingErrs?
    case CloseStop => s.stop.ClosingStop?
    case EndRange => s.consumer.Ranging? && reading && s.errCloses > 0
  }

  ghost function Apply(reading: bool, s: State, a: Action): State
    requires Enabled(reading, s, a)
  {
    match a
    case Tick => s.(tick := true)
    case TakeTick => s.(loop := Iterating, tick := false, begun := s.begun + 1)
    case Return(None) => s.(loop := Selecting)
    case Return(Some(e)) => s.(loop := Sending(e), returned := s.returned + [e])
    case SendError => s.(loop := Selecting, received := s.received + [s.loop.e])
    case CallStop => s.(stop := SendingStop)
    case TakeStop => s.(loop := ClosingErrs, stop := ClosingStop, begunAtStop := Some(s.begun))
    case TakeClosedStop => s.(loop := ClosingErrs)
    case CloseErrs => s.(loop := Exited, errCloses := s.errCloses + 1)
    case CloseStop => s.(stop := StopDone, stopCloses := s.stopCloses + 1)
    case EndRange => s.(consumer := RangeEnded)
  }

  ghost predicate Legal(reading: bool, s: State, schedule: seq<Action>)
    decreases |schedule|
  {
    schedule == [] ||
    (Enabled(reading, s, schedule[0]) && Legal(reading, Apply(reading, s, schedule[0]), schedule[1..]))
  }

  ghost function After(reading: bool, s: State, schedule: seq<Action>): State
    requires Legal(reading, s, schedule)
    decreases |schedule|
  {
    if schedule == [] then s else After(reading, Apply(reading, s, schedule[0]), schedule[1..])
  }

  ghost predicate Inv(s: State) {
    && s.returned == s.received + (if s.loop.Sending? then [s.loop.e] else [])
    && s.errCloses == (if s.loop.Exited? then 1 else 0)
    && s.stopCloses == (if s.stop.StopDone? then 1 else 0)
    && (s.loop.ClosingErrs? || s.loop.Exited? <==> s.stop.ClosingStop? || s.stop.StopDone?)
    && (s.begunAtStop.Some? <==> s.loop.ClosingErrs? || s.loop.Exited?)
    && (s.begunAtStop.Some? ==> s.begun == s.begunAtStop.value)
    && (s.consumer.RangeEnded? ==> s.loop.Exited?)
  }

  lemma StepInv(reading: bool, s: State, a: Action)
    requires Inv(s) && Enabled(reading, s, a)
    ensures Inv(Apply(reading, s, a))
  {
  }

  lemma {:induction false} AfterInv(reading: bool, s: State, schedule: seq<Action>)
    requires Inv(s) && Legal(reading, s, schedule)
    ensures Inv(After(reading, s, schedule))
    decreases |schedule|
  {
    if schedule != [] {
      StepInv(reading, s, schedule[0]);
      AfterInv(reading, Apply(reading, s, schedule[0]), schedule[1..]);
    }
  }

  /** In every run the errors received are those returned so far, in order, with at most the last one missing. */
  lemma ReceivedIsPrefixOfReturned(reading: bool, schedule: seq<Action>)
    requires Legal(reading, INIT, schedule)
    ensures
      var s := After(reading, INIT, schedule);
      && s.received <= s.returned
      && |s.returned| <= |s.received| + 1
      && (|s.returned| > |s.received| <==> s.loop.Sending?)
  {
    AfterInv(reading, INIT, schedule);
  }

  /** Once the error channel is closed nothing is missing, it was closed once and nobody sends on it again. */
  lemma ClosedMeansComplete(reading: bool, schedule: seq<Action>, more: seq<Action>)
    requires Legal(reading, INIT, schedule) && After(reading, INIT, schedule).errCloses > 0
    requires Legal(reading, After(reading, INIT, schedule), more)
    ensures
      var s := After(reading, INIT, schedule);
      var t := After(reading, s, more);
      && s.received == s.returned && s.errCloses == 1
      && t.received == s.received && t.returned == s.returned
      && t.errCloses == 1 && t.loop.Exited? && t.begun == s.begun
  {
    AfterInv(reading, INIT, schedule);
    ExitedStays(reading, After(reading, INIT, schedule), more);
  }

  lemma {:induction false} ExitedStays(reading: bool, s: State, more: seq<Action>)
    requires Inv(s) && s.loop.Exited? && Legal(reading, s, more)
    ensures
      var t := After(reading, s, more);
      t == s.(stop := t.stop, consumer := t.consumer, tick := t.tick, stopCloses := t.stopCloses)
    decreases |more|
  {
    if more != [] {
      StepInv(reading, s, more[0]);
      ExitedStays(reading, Apply(reading, s, more[0]), more[1..]);
    }
  }

  /** No iteration begins, and no error is returned, after Stop's send has been received. */
  lemma NothingBeginsAfterStop(reading: bool, schedule: seq<Action>)
    requires Legal(reading, INIT, schedule)
    ensures
      var s := After(reading, INIT, schedule);
      && (s.begunAtStop.Some? ==> s.begun == s.begunAtStop.value && s.received == s.returned)
      && (s.stop.ClosingStop? || s.stop.StopDone? ==> s.begunAtStop.Some?)
      && !Enabled(reading, s, TakeClosedStop)
      && s.stopCloses <= 1
  {
    AfterInv(reading, INIT, schedule);
  }

  // ---- iterations and ticks ----

  function Ticks(schedule: seq<Action>): nat {
    if schedule == [] then 0 else (if schedule[0].Tick? then 1 else 0) + Ticks(schedule[1..])
  }

  function Takes(schedule: seq<Action>): nat {
    if schedule == [] then 0 else (if schedule[0].TakeTick? then 1 else 0) + Takes(schedule[1..])
  }

  lemma {:induction false} TicksBalanced(reading: bool, s: State, schedule: seq<Action>)
    requires Legal(reading, s, schedule)
    ensures
      var t := After(reading, s, schedule);
      && t.begun == s.begun + Takes(schedule)
      && t.begun + (if t.tick then 1 else 0) == s.begun + (if s.tick then 1 else 0) + Ticks(schedule)
    decreases |schedule|
  {
    if schedule != [] {
      TicksBalanced(reading, Apply(reading, s, schedule[0]), schedule[1..]);
    }
  }

  /** Every iteration has a tick of its own, and at most one tick is waiting for one. */
  lemma OneIterationPerTick(reading: bool, schedule: seq<Action>)
    requires Legal(reading, INIT, schedule)
    ensures
      var s := After(reading, INIT, schedule);
      s.begun == Takes(schedule) && s.begun <= Ticks(schedule) <= s.begun + 1
  {
    TicksBalanced(reading, INIT, schedule);
  }

  // ---- Stop returns when the errors are read ----

  /** A reader can never be left with nothing to do: while Stop waits, the polling goroutine can move. */
  lemma StopIsNeverStuck(s: State) returns (a: Action)
    requires Inv(s) && (s.stop.SendingStop? || s.stop.ClosingStop?)
    ensures Enabled(true, s, a) && !a.Tick?
  {
    if s.stop.ClosingStop? {
      a := CloseStop;
    } else {
      match s.loop {
        case Selecting => a := TakeStop;
        case Iterating => a := Return(None);
        case Sending(_) => a := SendError;
        case _ => assert false;
      }
    }
  }

  /** When nothing but ticks can happen and errors are read, a called Stop has returned and both channels are closed. */
  lemma QuietMeansStopped(s: State)
    requires Inv(s) && !s.stop.NotCalled?
    requires forall a :: Enabled(true, s, a) ==> a.Tick?
    ensures s.stop.StopDone? && s.loop.Exited? && s.consumer.RangeEnded?
    ensures s.errCloses == 1 && s.stopCloses == 1 && s.received == s.returned
  {
    if s.stop.SendingStop? || s.stop.ClosingStop? {
      var a := StopIsNeverStuck(s);
      assert false;
    }
    assert !Enabled(true, s, CloseErrs) && !Enabled(true, s, EndRange);
  }

  /** The steps that are left once Stop's send has been received: one of each goroutine. */
  function StepsLeft(s: State): nat {
    (if s.loop.ClosingErrs? then 1 else 0) + (if s.stop.ClosingStop? then 1 else 0)
    + if s.consumer.Ranging? then 1 else 0
  }

  function StepsButTicks(schedule: seq<Action>): nat {
    if schedule == [] then 0 else (if schedule[0].Tick? then 0 else 1) + StepsButTicks(schedule[1..])
  }

  /** Ticks aside, at most three steps follow the receipt of Stop's send. */
  lemma {:induction false} StopEnds(reading: bool, s: State, schedule: seq<Action>)
    requires Inv(s) && s.begunAtStop.Some? && Legal(reading, s, schedule)
    ensures StepsButTicks(schedule) + StepsLeft(After(reading, s, schedule)) == StepsLeft(s) <= 3
    decreases |schedule|
  {
    if schedule != [] {
      StepInv(reading, s, schedule[0]);
      StopEnds(reading, Apply(reading, s, schedule[0]), schedule[1..]);
    }
  }

  /** Without a reader the first error blocks the loop, and a Stop called then never returns. */
  lemma UnreadErrorBlocksStop(e: string, more: seq<Action>)
    ensures Legal(false, INIT, [Tick, TakeTick, Return(Some(e)), CallStop])
    ensures Legal(false, After(false, INIT, [Tick, TakeTick, Return(Some(e)), CallStop]), more) ==>
              After(false, After(false, INIT, [Tick, TakeTick, Return(Some(e)), CallStop]), more).stop.SendingStop?
  {
    var s1 := Apply(false, INIT, Tick);
    var s2 := Apply(false, s1, TakeTick);
    var s3 := Apply(false, s2, Return(Some(e)));
    var s4 := Apply(false, s3, CallStop);
    var a1, a2, a3: seq<Action> := [TakeTick, Return(Some(e)), CallStop], [Return(Some(e)), CallStop], [CallStop];
    assert [Tick, TakeTick, Return(Some(e)), CallStop][1..] == a1 && a1[1..] == a2 && a2[1..] == a3 && a3[1..] == [];
    assert Legal(false, s4, []);
    assert Legal(false, s3, a3);
    assert Legal(false, s2, a2);
    assert Legal(false, s1, a1);
    assert After(false, s2, a2) == s4;
    if Legal(false, s4, more) {
      BlockedStays(s4, more);
    }
  }

  lemma {:induction false} BlockedStays(s: State, more: seq<Action>)
    requires s.loop.Sending? && s.stop.SendingStop? && Legal(false, s, more)
    ensures After(false, s, more).loop.Sending? && After(false, s, more).stop.SendingStop?
    decreases |more|
  {
    if more != [] {
      BlockedStays(Apply(false, s, more[0]), more[1..]);
    }
  }
}
