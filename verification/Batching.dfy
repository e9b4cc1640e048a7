/** The batching loop: messages are buffered and written in batches that start at least an
    interval apart.  Time is real; everything between two yields is one step. */
module Batching {
  import opened Lists

  type Message(==, !new)

  /** Where the background coroutine stands: at waker.wait, in a write, or past its loop. */
  datatype Phase = Waiting | Writing(payload: seq<Message>) | Stopped

  /** Where close stands; it raises what is not a closed comm. */
  datatype Closing = Open | Requested | Flushing(payload: seq<Message>) | Closed | Raised

  /** How a write ends: as it should, because the comm is closed, or with another exception. */
  datatype End = Done | CommClosed | Error

  datatype State = State(
    interval: real,
    time: real,
    waker: bool,
    deadline: Option<real>,          // next_deadline
    pleaseStop: bool,
    buffer: seq<Message>,
    phase: Phase,
    closing: Closing,
    written: seq<seq<Message>>,      // batches whose write succeeded
    failed: bool,                    // some write failed
    lost: bool,                      // some write found the comm closed
    sent: seq<Message>,              // messages accepted by send
    flushed: nat,                    // how many of them were sent before the flush of close
    starts: seq<real>)               // when background batches started

  datatype Step =
    | Tick(dt: real)
    | Send(msg: Message)
    | Wake                      // the wait ends, by the event or by the deadline
    | WriteDone(end: End)       // the background write ends
    | Close
    | Flush                     // close goes on once the loop has stopped
    | FlushDone(end: End)       // the last write ends, and the comm is closed unless that raises

  function Init(interval: real): State {
    State(interval, 0.0, false, None, false, [], Waiting, Open, [], false, false, [], 0, [])
  }

  predicate TimedOut(s: State) { s.deadline.Some? && s.time >= s.deadline.value }

  predicate Enabled(s: State, step: Step) {
    match step
    case Tick(dt) => dt >= 0.0
    case Send(_) => s.closing != Closed && !s.lost
    case Wake => s.phase == Waiting && (s.waker || TimedOut(s))
    case WriteDone(_) => s.phase.Writing?
    case Close => s.closing == Open
    case Flush => s.closing == Requested && s.phase == Stopped
    case FlushDone(_) => s.closing.Flushing?
  }

  /** The loop's test. */
  function Loop(s: State): State { s.(phase := if s.pleaseStop then Stopped else Waiting) }

  function Apply(s: State, step: Step): State
    requires Enabled(s, step)
  {
    match step
    case Tick(dt) => s.(time := s.time + dt)
    case Send(msg) =>
      s.(buffer := s.buffer + [msg], sent := s.sent + [msg], waker := s.waker || s.deadline == None)
    case Wake =>
      var s' := s.(waker := false);
      if s.buffer == [] then Loop(s'.(deadline := None))
      else if s.deadline.Some? && s.time < s.deadline.value then Loop(s')
      else s'.(phase := Writing(s.buffer), buffer := [], deadline := Some(s.time + s.interval), starts := s.starts + [s.time])
    case WriteDone(end) =>
      if end == Done then Loop(s.(written := s.written + [s.phase.payload]))
      else s.(phase := Stopped, failed := true, lost := s.lost || end == CommClosed)
    case Close => s.(closing := Requested, pleaseStop := true, waker := true)
    case Flush =>
      var s' := s.(flushed := |s.sent|);
      if s.lost || s.buffer == [] then s'.(closing := Closed) else s'.(closing := Flushing(s.buffer), buffer := [])
    case FlushDone(end) =>
      match end
      case Done => s.(written := s.written + [s.closing.payload], closing := Closed)
      case CommClosed => s.(closing := Closed, failed := true, lost := true)
      case Error => s.(closing := Raised, failed := true)
  }

  // ---- What every step keeps -------------------------------------------------

  function InFlight(s: State): seq<Message> {
    (if s.phase.Writing? then s.phase.payload else []) + (if s.closing.Flushing? then s.closing.payload else [])
  }

  /** Every message is written, being written or buffered, and in order. */
  predicate NothingMissing(s: State) {
    !s.failed ==> Flatten(s.written) + InFlight(s) + s.buffer == s.sent
  }

  /** Consecutive batches start at least an interval apart. */
  predicate Spaced(interval: real, starts: seq<real>) {
    forall i :: 0 < i < |starts| ==> starts[i] >= starts[i - 1] + interval
  }

  predicate Timed(s: State) {
    && Spaced(s.interval, s.starts)
    && (s.waker && s.deadline.Some? ==> s.pleaseStop)
    && (s.starts != [] && s.deadline.Some? ==> s.deadline.value == s.starts[|s.starts| - 1] + s.interval)
    && (s.starts != [] && s.deadline == None && s.phase != Stopped ==> s.time >= s.starts[|s.starts| - 1] + s.interval)
    && (s.starts == [] ==> s.deadline == None)
  }

  /** A buffer that is not empty has a set waker or a deadline, and so has a stop request. */
  predicate NotStranded(s: State) {
    && (s.phase == Waiting && s.buffer != [] ==> s.waker || s.deadline.Some?)
    && (s.phase == Waiting && s.pleaseStop ==> s.waker)
    && (s.phase.Writing? ==> s.deadline.Some?)
  }

  predicate Ordered(s: State) {
    && (s.closing != Open <==> s.pleaseStop)
    && (s.closing.Flushing? || s.closing == Closed || s.closing == Raised ==> s.phase == Stopped)
    && (!s.failed && (s.closing.Flushing? || s.closing == Closed) ==> s.flushed + |s.buffer| == |s.sent|)
    && (s.lost || s.closing == Raised ==> s.failed)
    && (s.lost ==> !s.closing.Flushing?)
    && (s.phase == Stopped ==> s.failed || s.pleaseStop)
    && (s.phase.Writing? ==> s.phase.payload != [])
  }

  /** After a failed write the loop is over. */
  predicate StoppedOnFailure(s: State) { s.failed ==> s.phase == Stopped }

  predicate Inv(s: State) {
    NothingMissing(s) && Timed(s) && NotStranded(s) && Ordered(s) && StoppedOnFailure(s)
  }

  lemma StepKeepsMessages(s: State, step: Step)
    requires NothingMissing(s) && Ordered(s) && Enabled(s, step)
    ensures NothingMissing(Apply(s, step))
  {
    hide Flatten, InFlight;
    var s', w := Apply(s, step), Flatten(s.written);
    match step
    case Tick(_) => SameInFlight(s, s');
    case Send(msg) =>
      SameInFlight(s, s');
      assert w + InFlight(s) + (s.buffer + [msg]) == (w + InFlight(s) + s.buffer) + [msg];
    case Close => SameInFlight(s, s');
    case Wake =>
      InFlightIs(s);
      InFlightIs(s');
      assert w + [] + s.buffer == w + s.buffer + [];
    case WriteDone(_) =>
      InFlightIs(s);
      InFlightIs(s');
      FlattenMore(s.written, s.phase.payload);
      assert w + s.phase.payload + [] == w + s.phase.payload;
    case Flush =>
      InFlightIs(s);
      InFlightIs(s');
      assert w + [] + s.buffer == w + s.buffer + [];
    case FlushDone(_) =>
      InFlightIs(s);
      InFlightIs(s');
      FlattenMore(s.written, s.closing.payload);
      assert w + s.closing.payload + [] == w + s.closing.payload;
  }

  lemma SameInFlight(s: State, s': State)
    requires s'.phase == s.phase && (s'.closing == s.closing || (!s.closing.Flushing? && !s'.closing.Flushing?))
    ensures InFlight(s') == InFlight(s)
  {
  }

  lemma InFlightIs(s: State)
    requires s.phase.Writing? ==> !s.closing.Flushing?
    ensures InFlight(s) == if s.phase.Writing? then s.phase.payload else if s.closing.Flushing? then s.closing.payload else []
  {
  }

  lemma StepKeepsTimed(s: State, step: Step)
    requires Timed(s) && NotStranded(s) && Enabled(s, step)
    ensures Timed(Apply(s, step))
  {
    if step.Wake? {
      WakeKeepsTimed(s);
    } else {
      hide Spaced;
    }
  }

  lemma WakeKeepsTimed(s: State)
    requires Timed(s) && Enabled(s, Wake)
    ensures Timed(Apply(s, Wake))
  {
  }

  lemma StepKeepsInv(s: State, step: Step)
    requires Inv(s) && Enabled(s, step)
    ensures Inv(Apply(s, step))
  {
    hide NothingMissing, Timed;
    StepKeepsMessages(s, step);
    StepKeepsTimed(s, step);
    assert NotStranded(Apply(s, step));
    assert Ordered(Apply(s, step));
    assert StoppedOnFailure(Apply(s, step));
  }

  predicate CanRun(s: State, steps: seq<Step>)
    decreases |steps|
  {
    steps == [] || (Enabled(s, steps[0]) && CanRun(Apply(s, steps[0]), steps[1..]))
  }

  function RunFrom(s: State, steps: seq<Step>): State
    requires CanRun(s, steps)
    decreases |steps|
  {
    if steps == [] then s else RunFrom(Apply(s, steps[0]), steps[1..])
  }

  ghost predicate Reachable(s: State) {
    exists steps :: CanRun(Init(s.interval), steps) && RunFrom(Init(s.interval), steps) == s
  }

  lemma SameInterval(s: State, step: Step)
    requires Enabled(s, step)
    ensures Apply(s, step).interval == s.interval
  {
  }

  lemma {:induction false} RunKeepsInv(s: State, steps: seq<Step>)
    requires Inv(s) && CanRun(s, steps)
    ensures Inv(RunFrom(s, steps)) && RunFrom(s, steps).interval == s.interval
    decreases |steps|
  {
    if steps != [] {
      SameInterval(s, steps[0]);
      hide Inv, Apply, Enabled;
      StepKeepsInv(s, steps[0]);
      RunKeepsInv(Apply(s, steps[0]), steps[1..]);
    }
  }

  lemma ReachableInv(s: State)
    requires Reachable(s)
    ensures Inv(s)
  {
    var steps :| CanRun(Init(s.interval), steps) && RunFrom(Init(s.interval), steps) == s;
    RunKeepsInv(Init(s.interval), steps);
  }

  /** In every run: a failed write stops the loop for good.  From then on no background batch
      starts, and at most the rest is written that close flushes; and if the comm was found
      closed, no message is accepted any more and nothing is written. */
  lemma FailureStops(s: State, steps: seq<Step>)
    requires Reachable(s) && s.failed && CanRun(s, steps)
    ensures Halted(s, RunFrom(s, steps))
  {
    ReachableInv(s);
    StoppedForGood(s, steps);
  }

  ghost predicate Halted(s: State, s': State) {
    && s'.failed && s'.phase == Stopped && s'.starts == s.starts
    && (s'.written == s.written || exists last :: s'.written == s.written + [last])
    && (s.lost ==> s'.lost && s'.sent == s.sent && s'.written == s.written)
  }

  /** The flush of close is behind. */
  predicate Past(s: State) { s.closing == Closed || s.closing == Raised }

  lemma {:induction false} StoppedForGood(s: State, steps: seq<Step>)
    requires s.phase == Stopped && s.failed && CanRun(s, steps) && (s.lost ==> !s.closing.Flushing?)
    ensures Halted(s, RunFrom(s, steps)) && (Past(s) ==> Past(RunFrom(s, steps)) && RunFrom(s, steps).written == s.written)
    decreases |steps|
  {
    if steps != [] {
      var s1 := Apply(s, steps[0]);
      FirstHalted(s, steps[0]);
      hide Apply, Enabled;
      StoppedForGood(s1, steps[1..]);
    }
  }

  lemma FirstHalted(s: State, step: Step)
    requires s.phase == Stopped && s.failed && Enabled(s, step) && (s.lost ==> !s.closing.Flushing?)
    ensures var s' := Apply(s, step);
            && Halted(s, s') && (Past(s) ==> Past(s') && s'.written == s.written)
            && (s'.written == s.written || Past(s')) && (s'.lost ==> !s'.closing.Flushing?)
  {
    if step.FlushDone? && step.end == Done {
      assert Apply(s, step).written == s.written + [s.closing.payload];
    }
  }

  /** In every timed run, background batches start at least the interval apart. */
  lemma BatchesAreSpaced(s: State, i: nat, j: nat)
    requires Reachable(s) && s.interval >= 0.0 && i < j < |s.starts|
    ensures s.starts[j] >= s.starts[i] + s.interval
  {
    ReachableInv(s);
    SpacedApart(s.interval, s.starts, i, j);
  }

  lemma {:induction false} SpacedApart(interval: real, starts: seq<real>, i: nat, j: nat)
    requires Spaced(interval, starts) && interval >= 0.0 && i < j < |starts|
    ensures starts[j] >= starts[i] + interval
    decreases j - i
  {
    if i + 1 < j { SpacedApart(interval, starts, i + 1, j); }
    assert starts[i + 1] >= starts[i] + interval;
  }

  /** After close, and without a failed write, exactly the messages sent before its flush have
      been written, in order. */
  lemma ClosedMeansWritten(s: State)
    requires Reachable(s) && s.closing == Closed && !s.failed
    ensures s.flushed <= |s.sent| && Flatten(s.written) == s.sent[..s.flushed]
  {
    ReachableInv(s);
    assert InFlight(s) == [];
    assert Flatten(s.written) + [] == Flatten(s.written);
  }

  // ---- Everything is written in the end --------------------------------------

  /** No new message, and no failing write. */
  predicate QuietStep(step: Step) { !step.Send? && (step.WriteDone? || step.FlushDone? ==> step.end == Done) }

  predicate Quiet(steps: seq<Step>) {
    forall i :: 0 <= i < |steps| ==> QuietStep(steps[i])
  }

  lemma {:induction false} RunsCompose(s: State, steps: seq<Step>, more: seq<Step>)
    requires CanRun(s, steps) && CanRun(RunFrom(s, steps), more)
    ensures CanRun(s, steps + more) && RunFrom(s, steps + more) == RunFrom(RunFrom(s, steps), more)
    decreases |steps|
  {
    hide Apply, Enabled;
    if steps == [] {
      assert steps + more == more;
    } else {
      RunsCompose(Apply(s, steps[0]), steps[1..], more);
      assert (steps + more)[1..] == steps[1..] + more;
    }
  }

  lemma OneStep(s: State, step: Step)
    requires Enabled(s, step)
    ensures CanRun(s, [step]) && RunFrom(s, [step]) == Apply(s, step)
  {
    hide Apply, Enabled;
    assert [step][1..] == [];
    assert RunFrom(Apply(s, step), []) == Apply(s, step);
  }

  lemma Prepend(s: State, step: Step, steps: seq<Step>)
    requires Enabled(s, step) && CanRun(Apply(s, step), steps)
    ensures CanRun(s, [step] + steps) && RunFrom(s, [step] + steps) == RunFrom(Apply(s, step), steps)
    ensures QuietStep(step) && Quiet(steps) ==> Quiet([step] + steps)
  {
    hide Apply, Enabled;
    OneStep(s, step);
    RunsCompose(s, [step], steps);
  }

  /** Steps still to go before the next write ends. */
  function Rank(s: State): nat {
    if s.phase.Writing? then 0 else if s.waker || TimedOut(s) then 1 else 2
  }

  /** Nothing is stranded: while nobody closes, time alone brings every message out. */
  lemma {:induction false} BufferDrains(s: State) returns (s': State, steps: seq<Step>)
    requires Inv(s) && !s.pleaseStop && !s.failed
    ensures CanRun(s, steps) && RunFrom(s, steps) == s' && Quiet(steps)
    ensures s'.buffer == [] && Flatten(s'.written) == s.sent
    decreases |s.buffer| + |InFlight(s)|, Rank(s)
  {
    if s.phase.Waiting? && s.buffer == [] {
      s', steps := s, [];
      assert InFlight(s) == [] && Flatten(s.written) + [] + [] == Flatten(s.written);
    } else {
      var step := if s.phase.Writing? then WriteDone(Done)
                  else if s.waker || TimedOut(s) then Wake
                  else Tick(s.deadline.value - s.time);
      StepKeepsInv(s, step);
      var more;
      s', more := BufferDrains(Apply(s, step));
      Prepend(s, step, more);
      steps := [step] + more;
    }
  }

  function CloseStep(s: State): Step
    requires s.closing != Closed
  {
    match s.phase
    case Waiting => Wake
    case Writing(_) => WriteDone(Done)
    case Stopped => if s.closing == Requested then Flush else FlushDone(Done)
  }

  /** Steps still to go before close returns. */
  function CloseRank(s: State): nat {
    (match s.closing { case Requested => 6 case Flushing(_) => 3 case _ => 0 }) +
    (match s.phase { case Waiting => 2 case Writing(_) => 1 case Stopped => 0 })
  }

  predicate AllWillBeWritten(s: State) { s.closing == Requested || s.buffer == [] }

  lemma CloseAdvances(s: State)
    requires Inv(s) && s.pleaseStop && !s.failed && s.closing != Closed
    ensures Enabled(s, CloseStep(s)) && QuietStep(CloseStep(s))
    ensures var s' := Apply(s, CloseStep(s));
            && s'.pleaseStop && !s'.failed && s'.sent == s.sent && CloseRank(s') < CloseRank(s)
            && (AllWillBeWritten(s) ==> AllWillBeWritten(s'))
  {
    hide NothingMissing, Timed;
  }

  /** Once close has been called, and with no failing write, it can run to its end, and then
      everything sent has been written. */
  lemma {:induction false} CloseCompletes(s: State) returns (s': State, steps: seq<Step>)
    requires Inv(s) && s.pleaseStop && !s.failed
    ensures CanRun(s, steps) && RunFrom(s, steps) == s' && Quiet(steps)
    ensures s'.closing == Closed && s'.sent == s.sent
    ensures AllWillBeWritten(s) ==> Flatten(s'.written) == s.sent
    decreases CloseRank(s)
  {
    hide Inv, Apply, Enabled, CloseRank, Flatten;
    if s.closing == Closed {
      s', steps := s, [];
      if s.buffer == [] { WrittenAtEnd(s); }
    } else {
      CloseAdvances(s);
      StepKeepsInv(s, CloseStep(s));
      var more;
      s', more := CloseCompletes(Apply(s, CloseStep(s)));
      Prepend(s, CloseStep(s), more);
      steps := [CloseStep(s)] + more;
    }
  }

  lemma WrittenAtEnd(s: State)
    requires Inv(s) && s.closing == Closed && !s.failed && s.buffer == []
    ensures Flatten(s.written) == s.sent
  {
    assert InFlight(s) == [] && Flatten(s.written) + [] + [] == Flatten(s.written);
  }

  // ---- The object itself -----------------------------------------------------

  predicate WokeUp(s: State, s': State) {
    && (s'.phase.Writing? <==> s.buffer != [] && (s.deadline == None || TimedOut(s)))
    && (if s'.phase.Writing? then
          && s'.phase.payload == s.buffer && s'.buffer == []
          && s'.starts == s.starts + [s.time] && s'.deadline == Some(s.time + s.interval)
        else
          && s'.buffer == s.buffer && s'.starts == s.starts && (s'.phase == Stopped <==> s.pleaseStop))
    && s'.written == s.written && !s'.waker
  }

  lemma WakeWakes(s: State)
    requires Enabled(s, Wake)
    ensures WokeUp(s, Apply(s, Wake))
  {
  }

  class BatchedSend {
    const interval: real
    var time: real
    var waker: bool
    var deadline: Option<real>
    var pleaseStop: bool
    var buffer: seq<Message>
    var phase: Phase
    var closing: Closing
    ghost var written: seq<seq<Message>>
    ghost var failed: bool
    var lost: bool
    ghost var sent: seq<Message>
    ghost var flushed: nat
    ghost var starts: seq<real>

    constructor (interval: real)
      ensures Now() == Init(interval) && Valid()
    {
      this.interval := interval;
      time, waker, deadline, pleaseStop, buffer := 0.0, false, None, false, [];
      phase, closing, written, failed, lost, sent, flushed, starts := Waiting, Open, [], false, false, [], 0, [];
      new;
      assert CanRun(Init(interval), []) && RunFrom(Init(interval), []) == Init(interval);
    }

    ghost function Now(): State
      reads this
    {
      State(interval, time, waker, deadline, pleaseStop, buffer, phase, closing, written, failed, lost, sent, flushed, starts)
    }

    /** Some timed run leads here. */
    ghost predicate Valid()
      reads this
    {
      Reachable(Now())
    }

    /** send; false stands for the error on a closed comm. */
    method Send(msg: Message) returns (accepted: bool)
      requires Valid()
      modifies this
      ensures Valid() && (accepted <==> old(closing) != Closed && !old(lost))
      ensures Now() == if accepted then Apply(old(Now()), Step.Send(msg)) else old(Now())
      ensures accepted ==> buffer == old(buffer) + [msg] && sent == old(sent) + [msg] && phase == old(phase)
      ensures accepted ==> deadline == old(deadline) && (waker <==> old(waker) || deadline == None)
    {
      if closing == Closed || lost {
        return false;
      }
      ReachesNext(Now(), Step.Send(msg));
      buffer := buffer + [msg];
      sent := sent + [msg];
      if deadline == None { waker := true; }
      return true;
    }

    /** The loop's test, where it stops or waits again. */
    method TestLoop()
      modifies this`phase
      ensures Now() == Loop(old(Now()))
    {
      phase := if pleaseStop then Stopped else Waiting;
    }

    /** The buffer becomes a batch, whose write begins. */
    method TakeBatch()
      modifies this
      ensures Now() == old(Now()).(phase := Writing(old(buffer)), buffer := [], deadline := Some(time + interval),
                                   starts := old(starts) + [time])
    {
      var payload := buffer;
      buffer := [];
      deadline := Some(time + interval);
      starts := starts + [time];
      phase := Writing(payload);
    }

    /** From the end of the wait to the next yield: everything buffered goes into one batch,
        unless there is nothing or the interval has not passed. */
    method Wake()
      requires Valid() && phase == Waiting && (waker || (deadline.Some? && time >= deadline.value))
      modifies this
      ensures Valid() && Now() == Apply(old(Now()), Step.Wake)
      ensures WokeUp(old(Now()), Now())
    {
      ReachesNext(Now(), Step.Wake);
      WakeWakes(Now());
      hide WokeUp, Reachable;
      waker := false;
      if buffer == [] {
        deadline := None;
        TestLoop();
      } else if deadline != None && time < deadline.value {
        TestLoop();
      } else {
        TakeBatch();
      }
    }

    /** The background write has ended. */
    method WriteDone(end: End)
      requires Valid() && phase.Writing?
      modifies this
      ensures Valid() && Now() == Apply(old(Now()), Step.WriteDone(end))
      ensures end != Done ==> phase == Stopped && failed && written == old(written) && (lost <==> end == CommClosed)
      ensures end == Done ==> written == old(written) + [old(phase).payload] && !failed && (phase == Stopped <==> pleaseStop)
      ensures !phase.Writing? && starts == old(starts) && buffer == old(buffer)
    {
      ReachesNext(Now(), Step.WriteDone(end));
      ReachableInv(Now());
      if end == Done {
        written := written + [phase.payload];
        TestLoop();
      } else {
        if end == CommClosed { lost := true; }
        failed := true;
        phase := Stopped;
      }
    }

    /** close, up to where it waits for the loop to stop. */
    method Close()
      requires Valid() && closing == Open
      modifies this
      ensures Valid() && Now() == Apply(old(Now()), Step.Close)
      ensures pleaseStop && waker && closing == Requested && phase == old(phase) && buffer == old(buffer)
    {
      ReachesNext(Now(), Step.Close);
      closing := Requested;
      pleaseStop := true;
      waker := true;
    }

    /** close, after the loop has stopped: write what is left, if anything. */
    method Flush()
      requires Valid() && closing == Requested && phase == Stopped
      modifies this
      ensures Valid() && Now() == Apply(old(Now()), Step.Flush)
      ensures flushed == |sent| && buffer == (if lost then old(buffer) else [])
      ensures closing == if lost || old(buffer) == [] then Closed else Flushing(old(buffer))
    {
      ReachesNext(Now(), Step.Flush);
      flushed := |sent|;
      if lost || buffer == [] {
        closing := Closed;
      } else {
        var payload := buffer;
        buffer := [];
        closing := Flushing(payload);
      }
    }

    method FlushDone(end: End)
      requires Valid() && closing.Flushing?
      modifies this
      ensures Valid() && Now() == Apply(old(Now()), Step.FlushDone(end))
      ensures closing == (if end == Error then Raised else Closed) && (end != Done ==> failed) && (end == CommClosed ==> lost)
      ensures written == if end == Done then old(written) + [old(closing).payload] else old(written)
    {
      ReachesNext(Now(), Step.FlushDone(end));
      match end
      case Done =>
        written := written + [closing.payload];
        closing := Closed;
      case CommClosed =>
        failed, lost := true, true;
        closing := Closed;
      case Error =>
        failed := true;
        closing := Raised;
    }
  }

  lemma ReachesNext(s: State, step: Step)
    requires Reachable(s) && Enabled(s, step)
    ensures Reachable(Apply(s, step))
  {
    assert Apply(s, step).interval == s.interval;
    hide Apply, Enabled, Init;
    var steps :| CanRun(Init(s.interval), steps) && RunFrom(Init(s.interval), steps) == s;
    OneStep(s, step);
    RunsCompose(Init(s.interval), steps, [step]);
  }
}
