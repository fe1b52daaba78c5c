/**
  The two-tier retry loop of `BotManager.run` as a small-step machine.

  The outer loop (re)initialises the session; the inner loop runs cycles. The
  environment drives the machine with events: a termination signal, or the
  outcome of the next external call, which is the initialisation at the outer
  loop head and a cycle at the inner loop head. The waits between calls are
  not interruptible, so a signal only takes effect when control next reaches
  a loop head and reads `should_restart`; `Settle` performs those reads.
 */
module Supervisor {

  /** `MAX_RETRIES`: consecutive escalations after which `run` gives up. */
  const MaxRetries: nat := 5

  /** Where control rests: at the head of the outer (session) loop, at the
      head of the inner (cycle) loop, or returned from `run`. */
  datatype Phase = OuterLoop | InnerLoop | Stopped

  /** The environment's next move. `Fails` is an initialisation reporting
      failure, or a cycle raising into the inner handler; `Escapes` is an
      exception that reaches the outer handler directly. At the outer loop
      head both `Fails` and `Escapes` are a failed initialisation. */
  datatype Event = Signal | Succeeds | Fails | Escapes

  /** The external calls `run` has made, in order. */
  datatype Action = Connected | ConnectFailed | CycleDone | CycleFailed | CycleEscaped

  datatype RunState = RunState(phase: Phase, shouldRestart: bool, retryCount: nat, log: seq<Action>)

  /** The state when `run` starts: `should_restart` is set and `retry_count` is 0. */
  const Start: RunState := RunState(OuterLoop, true, 0, [])

  /** The number of escalations (failed initialisations and exceptions that
      reached the outer handler) since the last successful initialisation. */
  function Escalations(log: seq<Action>): nat
  {
    if |log| == 0 then 0
    else
      var last := log[|log| - 1];
      if last == Connected then 0
      else if last == CycleDone || last == CycleFailed then Escalations(log[..|log| - 1])
      else Escalations(log[..|log| - 1]) + 1
  }

  /** The states `run` can be in between events. */
  predicate Valid(s: RunState) {
    && (s.phase == Stopped <==> !s.shouldRestart)
    && s.retryCount == Escalations(s.log)
    && s.retryCount <= MaxRetries
    && (s.phase != Stopped ==> s.retryCount < MaxRetries)
    && (s.phase == InnerLoop ==> s.retryCount == 0)
  }

  /** `handle_exit`: the signal handler clears `should_restart` and nothing else. */
  function HandleExit(s: RunState): (r: RunState)
    ensures !r.shouldRestart
    ensures r.phase == s.phase && r.retryCount == s.retryCount && r.log == s.log
  {
    s.(shouldRestart := false)
  }

  /** The loop heads read `should_restart`: when it is clear the inner loop
      falls through to the outer head, and the outer loop ends. */
  function Settle(s: RunState): (r: RunState)
    ensures r.shouldRestart == s.shouldRestart && r.retryCount == s.retryCount && r.log == s.log
    ensures r.phase == (if s.shouldRestart then s.phase else Stopped)
  {
    if s.shouldRestart then s else s.(phase := Stopped)
  }

  /** The outer exception handler: count the attempt, and give up (clearing
      `should_restart`) once the count reaches `MaxRetries`; otherwise wait
      and return to the outer loop head. */
  function Escalate(s: RunState): (r: RunState)
    ensures r.retryCount == s.retryCount + 1 && r.log == s.log
    ensures r.retryCount >= MaxRetries ==> r.phase == Stopped && !r.shouldRestart
    ensures r.retryCount < MaxRetries ==> r.phase == OuterLoop && r.shouldRestart == s.shouldRestart
  {
    var n := s.retryCount + 1;
    if n >= MaxRetries then s.(retryCount := n, shouldRestart := false, phase := Stopped)
    else s.(retryCount := n, phase := OuterLoop)
  }

  /** Helper of `Step`, one pass of the outer loop body up to the inner loop:
      a successful `initialize_bot` resets the counter; a failed one
      escalates. Its effect is stated by the lemmas about `Step`. */
  function Initialise(s: RunState, ok: bool): RunState
  {
    if ok then s.(retryCount := 0, phase := InnerLoop, log := s.log + [Connected])
    else Escalate(s.(log := s.log + [ConnectFailed]))
  }

  /** Helper of `Step`, one pass of the inner loop body: a completed cycle
      waits and returns to the inner head; a cycle error waits and breaks out
      to the outer loop, which initialises again, without touching the
      counter; an exception escaping the inner handler escalates. Signals are
      handled by `Step` itself. Its effect is stated by the lemmas about `Step`. */
  function RunCycle(s: RunState, e: Event): RunState
    requires e != Signal
  {
    match e
    case Succeeds => s.(log := s.log + [CycleDone])
    case Fails => s.(phase := OuterLoop, log := s.log + [CycleFailed])
    case Escapes => Escalate(s.(log := s.log + [CycleEscaped]))
  }

  /** One event applied to `run`. */
  function Step(s: RunState, e: Event): (r: RunState)
    ensures Valid(s) ==> Valid(r)
    ensures s.log <= r.log && |r.log| <= |s.log| + 1
    ensures Valid(s) && !s.shouldRestart ==> r == s
    ensures Valid(s) && e == Signal ==> r.log == s.log && !r.shouldRestart
    ensures r.retryCount > s.retryCount ==>
              |r.log| == |s.log| + 1 && r.log[|s.log|] in {ConnectFailed, CycleEscaped}
    ensures Valid(s) && s.phase == InnerLoop && e == Succeeds ==> r == s.(log := s.log + [CycleDone])
    ensures s.phase != Stopped && e == Escapes ==> r.retryCount == s.retryCount + 1
    ensures r.retryCount == s.retryCount + 1 <==>
              s.phase != Stopped && (e == Escapes || (s.phase == OuterLoop && e == Fails))
    ensures Valid(s) && r.retryCount == s.retryCount + 1 < MaxRetries ==> r.phase == OuterLoop && r.shouldRestart
  {
    if s.phase == Stopped then s
    else if e == Signal then Settle(HandleExit(s))
    else if s.phase == OuterLoop then Settle(Initialise(s, e == Succeeds))
    else Settle(RunCycle(s, e))
  }

  /** A sequence of events applied to `run`. */
  function Run(s: RunState, events: seq<Event>): (r: RunState)
    ensures Valid(s) ==> Valid(r)
    ensures s.log <= r.log
    ensures Valid(s) && !s.shouldRestart ==> r == s
    decreases |events|
  {
    if |events| == 0 then s else Run(Step(s, events[0]), events[1..])
  }

  /** A successful initialisation resets the counter and enters the cycle loop. */
  lemma SuccessResetsCounter(s: RunState)
    requires Valid(s) && s.phase == OuterLoop
    ensures Step(s, Succeeds) == RunState(InnerLoop, true, 0, s.log + [Connected])
  {
  }

  /** A cycle error leaves the counter alone but goes back to the outer loop,
      so the next outcome is that of a fresh initialisation. */
  lemma CycleErrorReinitialises(s: RunState, e: Event)
    requires Valid(s) && s.phase == InnerLoop && e != Signal
    ensures Step(s, Fails) == RunState(OuterLoop, true, s.retryCount, s.log + [CycleFailed])
    ensures Step(Step(s, Fails), e).log == s.log + [CycleFailed, if e == Succeeds then Connected else ConnectFailed]
  {
  }

  /** A completed cycle stays in the cycle loop with the counter at 0, so
      the next outcome is that of another cycle. */
  lemma CycleDoneContinues(s: RunState, e: Event)
    requires Valid(s) && s.phase == InnerLoop && e != Signal
    ensures Step(s, Succeeds) == RunState(InnerLoop, true, 0, s.log + [CycleDone])
    ensures Step(Step(s, Succeeds), e).log ==
              s.log + [CycleDone, if e == Succeeds then CycleDone else if e == Fails then CycleFailed else CycleEscaped]
  {
  }

  /** An exception escaping the cycle's handler reaches the outer handler:
      the counter goes from 0 to 1 and control returns to the outer loop. */
  lemma EscapeEscalates(s: RunState)
    requires Valid(s) && s.phase == InnerLoop
    ensures Step(s, Escapes) == RunState(OuterLoop, true, 1, s.log + [CycleEscaped])
  {
  }

  /** An exception raised at the outer loop head outside `initialize_bot`'s
      own handler is a failed initialisation: it escalates the same way. */
  lemma InitRaiseIsFailure(s: RunState)
    requires Valid(s) && s.phase == OuterLoop
    ensures Step(s, Escapes) == Step(s, Fails)
  {
  }

  /** The counter grows only at the outer handler, by one per escalation:
      a failed initialisation, or an exception escaping a cycle. */
  lemma CounterCountsEscalations(s: RunState, e: Event)
    requires Valid(s)
    ensures var r := Step(s, e);
            r.retryCount == s.retryCount + 1 <==>
            (|r.log| == |s.log| + 1 && r.log[|s.log|] in {ConnectFailed, CycleEscaped})
    ensures var r := Step(s, e);
            r.retryCount == s.retryCount + 1 <==>
            s.phase != Stopped && (e == Escapes || (s.phase == OuterLoop && e == Fails))
  {
  }

  /** `n` copies of one value. */
  function Repeat<T>(x: T, n: nat): (r: seq<T>)
    ensures |r| == n && forall k :: 0 <= k < n ==> r[k] == x
  {
    if n == 0 then [] else [x] + Repeat(x, n - 1)
  }

  /** One failed initialisation is one escalation at the outer handler. */
  lemma FailedInitEscalates(s: RunState)
    requires Valid(s) && s.phase == OuterLoop
    ensures Step(s, Fails) == Escalate(s.(log := s.log + [ConnectFailed]))
  {
  }

  /** From the outer loop head, failing initialisations count up until the
      counter reaches `MaxRetries`; then `run` stops with `should_restart`
      cleared, having made exactly those initialisation attempts. */
  lemma {:induction false} FailuresExhaustRetries(s: RunState, n: nat)
    requires Valid(s) && s.phase == OuterLoop
    requires s.retryCount + n <= MaxRetries
    ensures var r := Run(s, Repeat(Fails, n));
            && r.retryCount == s.retryCount + n
            && r.log == s.log + Repeat(ConnectFailed, n)
            && (s.retryCount + n < MaxRetries ==> r.phase == OuterLoop && r.shouldRestart)
            && (s.retryCount + n == MaxRetries ==> r.phase == Stopped && !r.shouldRestart)
    decreases n
  {
    if n > 0 {
      var t := Step(s, Fails);
      FailedInitEscalates(s);
      assert Run(s, Repeat(Fails, n)) == Run(t, Repeat(Fails, n - 1)) by {
        assert Repeat(Fails, n)[0] == Fails && Repeat(Fails, n)[1..] == Repeat(Fails, n - 1);
      }
      assert s.log + Repeat(ConnectFailed, n) == t.log + Repeat(ConnectFailed, n - 1) by {
        assert Repeat(ConnectFailed, n) == [ConnectFailed] + Repeat(ConnectFailed, n - 1);
      }
      if s.retryCount + 1 < MaxRetries {
        FailuresExhaustRetries(t, n - 1);
      } else {
        assert n == 1 && t.phase == Stopped;
      }
    }
  }

  /** From the start of `run`, exactly `MaxRetries` consecutive failed
      initialisations stop it, and fewer do not. */
  lemma TerminationBound(n: nat)
    requires n <= MaxRetries
    ensures (Run(Start, Repeat(Fails, n)).phase == Stopped) <==> n == MaxRetries
    ensures |Run(Start, Repeat(Fails, n)).log| == n
  {
    FailuresExhaustRetries(Start, n);
  }

  /** Once `run` has stopped, no event makes it initialise or cycle again. */
  lemma {:induction false} StoppedIsFinal(s: RunState, events: seq<Event>)
    requires s.phase == Stopped
    ensures Run(s, events) == s
    decreases |events|
  {
    if |events| > 0 {
      StoppedIsFinal(s, events[1..]);
    }
  }

  /** After a signal, whatever happens next, `run` makes no further
      initialisation or cycle and ends with `should_restart` cleared. */
  lemma SignalEndsRun(s: RunState, events: seq<Event>)
    requires Valid(s)
    ensures var r := Run(Step(s, Signal), events);
            r.phase == Stopped && !r.shouldRestart && r.log == s.log
  {
    StoppedIsFinal(Step(s, Signal), events);
  }

  /** Between successful initialisations the counter never passes
      `MaxRetries`, and any reachable state keeps the invariant. */
  lemma ReachableIsValid(events: seq<Event>)
    ensures Valid(Run(Start, events))
    ensures Run(Start, events).retryCount == Escalations(Run(Start, events).log) <= MaxRetries
  {
  }
}
