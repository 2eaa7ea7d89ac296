/**
 * The 4-7-8 breathing exercise (the `Breathing` component of components/Emergency.tsx).
 *
 * Time is discrete: the events are "timeout h fires", "interval h fires" and the effect's
 * cleanup. Every `setTimeout`/`setInterval` call creates a new handle, an index into the
 * `timeouts`/`intervals` tables, whose entry stays live until it fires (a timeout) or is
 * cleared. The effect keeps only the latest handles, in its reassigned variables `timer`
 * and `interval`, and cleanup clears just those two; the invariant `Consistent` says no other
 * handle is live, which is why cleanup silences the session.
 */
module BreathingExercise {
  import opened Base

  datatype Phase = Start | In | Hold | Out

  /** What a scheduled timeout runs: the pre-roll's `runSequence`, or the end of a breathing phase. */
  datatype Action = RunSequence | EndIn | EndHold | EndOut

  /** A timeout created by `setTimeout`: its callback, its delay, and whether it is still pending. */
  datatype Timeout = Timeout(action: Action, delayMs: nat, live: bool)

  const PreRollMs: nat := 500
  const TickMs: nat := 1000

  /** The countdown a phase starts from. */
  function PhaseSeconds(p: Phase): nat {
    match p
    case Start => 0
    case In => 4
    case Hold => 7
    case Out => 8
  }

  function PhaseText(p: Phase): string {
    match p
    case Start => "准备"
    case In => "吸气"
    case Hold => "屏气"
    case Out => "呼气"
  }

  /** The callback of the timeout that ends a phase (for `Start`, the pre-roll). */
  function PhaseAction(p: Phase): Action {
    match p
    case Start => RunSequence
    case In => EndIn
    case Hold => EndHold
    case Out => EndOut
  }

  /** How long a phase lasts before its timeout fires. */
  function PhaseDelayMs(p: Phase): nat {
    if p == Start then PreRollMs else TickMs * PhaseSeconds(p)
  }

  function Rank(p: Phase): nat {
    match p
    case Start => 0
    case In => 1
    case Hold => 2
    case Out => 3
  }

  datatype Session = Session(
    phase: Phase,
    secondsLeft: int,
    text: string,
    timeouts: seq<Timeout>,
    intervals: seq<bool>,
    timer: Option<nat>,
    interval: Option<nat>,
    finishCalls: nat)

  datatype Event = TimeoutFires(handle: nat) | IntervalFires(handle: nat) | Cleanup

  /** After mounting: the initial state, with the pre-roll timeout scheduled as handle 0. */
  function Mounted(): Session {
    Session(Start, 0, PhaseText(Start), [Timeout(RunSequence, PreRollMs, true)], [], Some(0), None, 0)
  }

  /** `clearTimeout(h)`: no effect on an absent or already finished handle. */
  function ClearedTimeout(ts: seq<Timeout>, h: Option<nat>): seq<Timeout> {
    if h.Some? && h.value < |ts| then ts[h.value := ts[h.value].(live := false)] else ts
  }

  /** `clearInterval(h)`. */
  function ClearedInterval(ivs: seq<bool>, h: Option<nat>): seq<bool> {
    if h.Some? && h.value < |ivs| then ivs[h.value := false] else ivs
  }

  /** `startTimer(seconds)`: reset the countdown and start a new one-second interval. */
  function WithTimerStarted(s: Session, seconds: nat): Session {
    s.(secondsLeft := seconds, intervals := s.intervals + [true], interval := Some(|s.intervals|))
  }

  /** `timer = setTimeout(action, delay)`. */
  function WithTimeoutSet(s: Session, action: Action, delayMs: nat): Session {
    s.(timeouts := s.timeouts + [Timeout(action, delayMs, true)], timer := Some(|s.timeouts|))
  }

  /**
   * Show a phase, start its countdown and schedule its end: the new timer and interval are
   * fresh handles appended to the tables, live, and the timer runs the phase's callback after
   * the phase's duration; every older handle is kept as it was.
   */
  function Entered(s: Session, p: Phase): (r: Session)
    ensures r.phase == p && r.text == PhaseText(p) && r.secondsLeft == PhaseSeconds(p)
    ensures r.finishCalls == s.finishCalls
    ensures TimerLive(r) && IntervalLive(r)
    ensures r.timer == Some(|s.timeouts|) && r.interval == Some(|s.intervals|)
    ensures r.timeouts[r.timer.value] == Timeout(PhaseAction(p), PhaseDelayMs(p), true)
    ensures |r.timeouts| == |s.timeouts| + 1 && r.timeouts[..|s.timeouts|] == s.timeouts
    ensures |r.intervals| == |s.intervals| + 1 && r.intervals[..|s.intervals|] == s.intervals
  {
    WithTimeoutSet(WithTimerStarted(s.(phase := p, text := PhaseText(p)), PhaseSeconds(p)), PhaseAction(p), PhaseDelayMs(p))
  }

  /**
   * The body of a timeout callback: the pre-roll enters `In`; the end of `In` enters `Hold`
   * and the end of `Hold` enters `Out`, each after stopping the running countdown; the end of
   * `Out` stops the countdown and calls the completion callback once, staying in `Out`.
   */
  function AfterAction(s: Session, a: Action): (r: Session)
    ensures a == RunSequence ==> r.phase == In
    ensures a == EndIn ==> r.phase == Hold
    ensures a == EndHold ==> r.phase == Out
    ensures a != EndOut ==> r.finishCalls == s.finishCalls && r.secondsLeft == PhaseSeconds(r.phase)
    ensures a == EndOut ==> r.phase == s.phase && r.finishCalls == s.finishCalls + 1 && !IntervalLive(r)
    ensures |r.intervals| >= |s.intervals|
    ensures a != RunSequence && s.interval.Some? && s.interval.value < |s.intervals| ==> !r.intervals[s.interval.value]
  {
    match a
    case RunSequence => Entered(s, In)
    case EndIn => Entered(s.(intervals := ClearedInterval(s.intervals, s.interval)), Hold)
    case EndHold => Entered(s.(intervals := ClearedInterval(s.intervals, s.interval)), Out)
    case EndOut => s.(intervals := ClearedInterval(s.intervals, s.interval), finishCalls := s.finishCalls + 1)
  }

  /**
   * One event. Only a live handle can fire; a tick counts down by one and never below zero;
   * cleanup stops the held timer and interval and changes nothing visible. No event calls the
   * completion callback more than once, and handles are never removed from the tables.
   */
  function Step(s: Session, e: Event): (r: Session)
    ensures s.finishCalls <= r.finishCalls <= s.finishCalls + 1
    ensures |s.timeouts| <= |r.timeouts| && |s.intervals| <= |r.intervals|
    ensures e.TimeoutFires? && !(e.handle < |s.timeouts| && s.timeouts[e.handle].live) ==> r == s
    ensures e.IntervalFires? ==> r == s || r == s.(secondsLeft := Max(0, s.secondsLeft - 1))
    ensures e.Cleanup? ==>
      r.phase == s.phase && r.secondsLeft == s.secondsLeft && r.finishCalls == s.finishCalls
      && !TimerLive(r) && !IntervalLive(r)
  {
    match e
    case TimeoutFires(h) =>
      if h < |s.timeouts| && s.timeouts[h].live then
        AfterAction(s.(timeouts := s.timeouts[h := s.timeouts[h].(live := false)]), s.timeouts[h].action)
      else s
    case IntervalFires(h) =>
      if h < |s.intervals| && s.intervals[h] then s.(secondsLeft := Max(0, s.secondsLeft - 1)) else s
    case Cleanup =>
      s.(timeouts := ClearedTimeout(s.timeouts, s.timer), intervals := ClearedInterval(s.intervals, s.interval))
  }

  function Run(s: Session, events: seq<Event>): Session
    decreases |events|
  {
    if events == [] then s else Run(Step(s, events[0]), events[1..])
  }

  predicate TimerLive(s: Session) {
    s.timer.Some? && s.timer.value < |s.timeouts| && s.timeouts[s.timer.value].live
  }

  predicate IntervalLive(s: Session) {
    s.interval.Some? && s.interval.value < |s.intervals| && s.intervals[s.interval.value]
  }

  /** No timeout and no interval is pending. */
  predicate Quiet(s: Session) {
    && (forall h :: 0 <= h < |s.timeouts| ==> !s.timeouts[h].live)
    && (forall h :: 0 <= h < |s.intervals| ==> !s.intervals[h])
  }

  /**
   * The session invariant: the only live handles are the ones held in `timer` and `interval`;
   * the timer belongs to the current phase and has its duration; the countdown lies within the
   * phase's seconds; the completion callback ran at most once, and only at the end of `Out` with
   * nothing left pending.
   */
  predicate Consistent(s: Session) {
    && s.timer.Some? && s.timer.value < |s.timeouts|
    && (s.interval.Some? ==> s.interval.value < |s.intervals|)
    && (forall h :: 0 <= h < |s.timeouts| && s.timeouts[h].live ==> s.timer == Some(h))
    && (forall h :: 0 <= h < |s.intervals| && s.intervals[h] ==> s.interval == Some(h))
    && s.timeouts[s.timer.value].action == PhaseAction(s.phase)
    && s.timeouts[s.timer.value].delayMs == PhaseDelayMs(s.phase)
    && (s.phase == Start <==> s.interval.None?)
    && 0 <= s.secondsLeft <= PhaseSeconds(s.phase)
    && s.text == PhaseText(s.phase)
    && s.finishCalls <= 1
    && (s.finishCalls == 1 ==> s.phase == Out && !TimerLive(s) && !IntervalLive(s))
    && (TimerLive(s) ==> s.finishCalls == 0 && (s.phase != Start ==> IntervalLive(s)))
  }

  lemma MountedConsistent()
    ensures Consistent(Mounted()) && TimerLive(Mounted())
    ensures Mounted().timeouts[0] == Timeout(RunSequence, 500, true)
  {
  }

  /** Entering a phase from a state with nothing pending keeps the invariant. */
  lemma EnteredConsistent(s: Session, p: Phase)
    requires p != Start
    requires s.timer.Some? && s.timer.value < |s.timeouts|
    requires s.interval.Some? ==> s.interval.value < |s.intervals|
    requires Quiet(s) && s.finishCalls == 0
    ensures Consistent(Entered(s, p)) && TimerLive(Entered(s, p)) && IntervalLive(Entered(s, p))
  {
  }

  /** Every event keeps the invariant. */
  lemma StepConsistent(s: Session, e: Event)
    requires Consistent(s)
    ensures Consistent(Step(s, e))
  {
    match e {
      case TimeoutFires(h) =>
        if h < |s.timeouts| && s.timeouts[h].live {
          var s1 := s.(timeouts := s.timeouts[h := s.timeouts[h].(live := false)]);
          var s2 := s1.(intervals := ClearedInterval(s1.intervals, s1.interval));
          assert Quiet(s1.(intervals := ClearedInterval(s1.intervals, s1.interval)));
          match s.timeouts[h].action {
            case RunSequence => EnteredConsistent(s1, In);
            case EndIn => EnteredConsistent(s2, Hold);
            case EndHold => EnteredConsistent(s2, Out);
            case EndOut =>
          }
        }
      case IntervalFires(h) =>
      case Cleanup =>
    }
  }

  /**
   * Phases only move forward, one at a time: Start, In, Hold, Out. Entering a phase resets the
   * countdown to that phase's seconds; within a phase the countdown never goes up; the
   * completion callback runs only when `Out` ends.
   */
  lemma StepInOrder(s: Session, e: Event)
    requires Consistent(s)
    ensures var t := Step(s, e);
      && (t.phase == s.phase || (Rank(t.phase) == Rank(s.phase) + 1 && t.secondsLeft == PhaseSeconds(t.phase)))
      && (t.phase == s.phase ==> t.secondsLeft <= s.secondsLeft)
      && (t.finishCalls == s.finishCalls || (t.finishCalls == s.finishCalls + 1 && s.phase == Out && t.phase == Out))
  {
  }

  lemma {:induction false} RunConsistent(s: Session, events: seq<Event>)
    requires Consistent(s)
    ensures Consistent(Run(s, events))
    decreases |events|
  {
    if events != [] {
      StepConsistent(s, events[0]);
      RunConsistent(Step(s, events[0]), events[1..]);
    }
  }

  /** Whatever happens after mounting, the completion callback runs at most once. */
  lemma FinishAtMostOnce(events: seq<Event>)
    ensures Run(Mounted(), events).finishCalls <= 1
    ensures Run(Mounted(), events).finishCalls == 1 ==> Run(Mounted(), events).phase == Out
  {
    MountedConsistent();
    RunConsistent(Mounted(), events);
  }

  /** Letting each scheduled timeout fire in turn runs In, Hold and Out and completes exactly once. */
  lemma FullSessionCompletesOnce()
    ensures var s1 := Step(Mounted(), TimeoutFires(0));
      var s2 := Step(s1, TimeoutFires(1));
      var s3 := Step(s2, TimeoutFires(2));
      var s4 := Step(s3, TimeoutFires(3));
      && s1.phase == In && s1.secondsLeft == 4 && s1.timeouts[1] == Timeout(EndIn, 4000, true)
      && s2.phase == Hold && s2.secondsLeft == 7 && s2.timeouts[2] == Timeout(EndHold, 7000, true)
      && s3.phase == Out && s3.secondsLeft == 8 && s3.timeouts[3] == Timeout(EndOut, 8000, true)
      && s4.finishCalls == 1 && Quiet(s4)
  {
    PreRollStep();
    InStep(4);
    HoldStep(7);
    LastStep(8);
  }

  /** Running two event lists one after the other is running their concatenation. */
  lemma {:induction false} RunAppend(s: Session, a: seq<Event>, b: seq<Event>)
    ensures Run(s, a + b) == Run(Run(s, a), b)
    decreases |a|
  {
    if a == [] {
      assert a + b == b;
    } else {
      assert (a + b)[0] == a[0] && (a + b)[1..] == a[1..] + b;
      RunAppend(Step(s, a[0]), a[1..], b);
    }
  }

  /**
   * However many ticks of the running countdown arrive during each phase, letting the four
   * scheduled timeouts fire in turn completes the session exactly once, in `Out`, with nothing
   * left pending and the countdown at what the ticks of `Out` left of its eight seconds.
   */
  lemma FullSessionWithTicks(a: nat, b: nat, c: nat)
    ensures var r := Run(Mounted(), [TimeoutFires(0)] + Ticks(0, a) + [TimeoutFires(1)] + Ticks(1, b)
                                    + [TimeoutFires(2)] + Ticks(2, c) + [TimeoutFires(3)]);
      r.finishCalls == 1 && r.phase == Out && r.secondsLeft == Max(0, 8 - c) && Quiet(r)
  {
    var m := Mounted();
    var p1, p2, p3 := Ticks(0, a) + [TimeoutFires(1)], Ticks(1, b) + [TimeoutFires(2)], Ticks(2, c) + [TimeoutFires(3)];
    assert [TimeoutFires(0)] + Ticks(0, a) + [TimeoutFires(1)] + Ticks(1, b) + [TimeoutFires(2)] + Ticks(2, c) + [TimeoutFires(3)]
      == [TimeoutFires(0)] + (p1 + (p2 + p3));
    RunAppend(m, [TimeoutFires(0)], p1 + (p2 + p3));
    PreRollStep();
    RunSingle(m, TimeoutFires(0));
    RunAppend(SessionIn(4), p1, p2 + p3);
    TicksThenFire(SessionIn(4), 0, a, 1);
    InStep(Max(0, 4 - a));
    RunAppend(SessionHold(7), p2, p3);
    TicksThenFire(SessionHold(7), 1, b, 2);
    HoldStep(Max(0, 7 - b));
    TicksThenFire(SessionOut(8), 2, c, 3);
    LastStep(Max(0, 8 - c));
  }

  /**
   * The sessions the scheduled timeouts lead to, in `In`, `Hold` and `Out`, with `secs` left on
   * the countdown: every earlier handle spent or cleared, the phase's own timer and interval live.
   */
  function SessionIn(secs: int): Session {
    Session(In, secs, PhaseText(In), [Timeout(RunSequence, 500, false), Timeout(EndIn, 4000, true)],
            [true], Some(1), Some(0), 0)
  }

  function SessionHold(secs: int): Session {
    Session(Hold, secs, PhaseText(Hold),
            [Timeout(RunSequence, 500, false), Timeout(EndIn, 4000, false), Timeout(EndHold, 7000, true)],
            [false, true], Some(2), Some(1), 0)
  }

  function SessionOut(secs: int): Session {
    Session(Out, secs, PhaseText(Out),
            [Timeout(RunSequence, 500, false), Timeout(EndIn, 4000, false), Timeout(EndHold, 7000, false),
             Timeout(EndOut, 8000, true)],
            [false, false, true], Some(3), Some(2), 0)
  }

  /** The pre-roll enters `In`. */
  lemma PreRollStep()
    ensures Step(Mounted(), TimeoutFires(0)) == SessionIn(4)
  {
  }

  /** The end of `In` enters `Hold`, whatever the countdown shows. */
  lemma InStep(x: int)
    ensures Step(SessionIn(x), TimeoutFires(1)) == SessionHold(7)
  {
  }

  /** The end of `Hold` enters `Out`, whatever the countdown shows. */
  lemma HoldStep(x: int)
    ensures Step(SessionHold(x), TimeoutFires(2)) == SessionOut(8)
  {
  }

  /** The end of `Out` completes once and leaves nothing pending. */
  lemma LastStep(x: int)
    ensures var r := Step(SessionOut(x), TimeoutFires(3));
      r.finishCalls == 1 && r.phase == Out && r.secondsLeft == x && Quiet(r)
  {
  }

  /** `k` ticks of a live interval and then a timeout firing. */
  lemma TicksThenFire(s: Session, h: nat, k: nat, t: nat)
    requires h < |s.intervals| && s.intervals[h] && s.secondsLeft >= 0
    ensures Run(s, Ticks(h, k) + [TimeoutFires(t)]) == Step(s.(secondsLeft := Max(0, s.secondsLeft - k)), TimeoutFires(t))
  {
    RunAppend(s, Ticks(h, k), [TimeoutFires(t)]);
    TicksCountDown(s, h, k);
    RunSingle(s.(secondsLeft := Max(0, s.secondsLeft - k)), TimeoutFires(t));
  }

  /** Running a single event is stepping it. */
  lemma RunSingle(s: Session, e: Event)
    ensures Run(s, [e]) == Step(s, e)
  {
    assert [e][1..] == [];
  }

  /** A state with nothing pending ignores every event. */
  lemma QuietStep(s: Session, e: Event)
    requires Quiet(s)
    ensures Step(s, e) == s
  {
    match e {
      case TimeoutFires(h) =>
      case IntervalFires(h) =>
      case Cleanup =>
        if s.timer.Some? && s.timer.value < |s.timeouts| {
          assert s.timeouts[s.timer.value].(live := false) == s.timeouts[s.timer.value];
          assert s.timeouts[s.timer.value := s.timeouts[s.timer.value]] == s.timeouts;
        }
        if s.interval.Some? && s.interval.value < |s.intervals| {
          assert s.intervals[s.interval.value := false] == s.intervals;
        }
    }
  }

  lemma {:induction false} QuietRun(s: Session, events: seq<Event>)
    requires Quiet(s)
    ensures Run(s, events) == s
    decreases |events|
  {
    if events != [] {
      QuietStep(s, events[0]);
      QuietRun(s, events[1..]);
    }
  }

  /**
   * Cleanup clears only the handles held in `timer` and `interval`, yet afterwards nothing is
   * pending, so no later event changes anything: no phase change, no countdown, no completion.
   */
  lemma CleanupSilences(s: Session, events: seq<Event>)
    requires Consistent(s)
    ensures Quiet(Step(s, Cleanup))
    ensures Run(Step(s, Cleanup), events) == Step(s, Cleanup)
  {
    QuietRun(Step(s, Cleanup), events);
  }

  function Ticks(h: nat, k: nat): (r: seq<Event>)
    ensures |r| == k && forall i :: 0 <= i < k ==> r[i] == IntervalFires(h)
  {
    if k == 0 then [] else [IntervalFires(h)] + Ticks(h, k - 1)
  }

  /** `k` ticks of a live interval count down by `k`, clamped at zero, and change nothing else. */
  lemma {:induction false} TicksCountDown(s: Session, h: nat, k: nat)
    requires h < |s.intervals| && s.intervals[h] && s.secondsLeft >= 0
    ensures Run(s, Ticks(h, k)) == s.(secondsLeft := Max(0, s.secondsLeft - k))
    decreases k
  {
    if k > 0 {
      var t := s.(secondsLeft := Max(0, s.secondsLeft - 1));
      assert Ticks(h, k)[1..] == Ticks(h, k - 1);
      TicksCountDown(t, h, k - 1);
    } else {
      assert s.(secondsLeft := Max(0, s.secondsLeft - 0)) == s;
    }
  }

  /** The component's effect state, updated in place by its callbacks. */
  class Breathing {
    var phase: Phase
    var secondsLeft: int
    var text: string
    var timeouts: seq<Timeout>
    var intervals: seq<bool>
    var timer: Option<nat>
    var interval: Option<nat>
    var finishCalls: nat

    function State(): Session
      reads this
    {
      Session(phase, secondsLeft, text, timeouts, intervals, timer, interval, finishCalls)
    }

    predicate Valid()
      reads this
    {
      Consistent(State())
    }

    /** Mounting: phase `Start`, text 准备, countdown 0, and the 500 ms pre-roll scheduled. */
    constructor ()
      ensures State() == Mounted() && Valid()
    {
      phase := Start;
      secondsLeft := 0;
      text := PhaseText(Start);
      intervals := [];
      interval := None;
      finishCalls := 0;
      timeouts := [Timeout(RunSequence, PreRollMs, true)];
      timer := Some(0);
    }

    method StartTimer(seconds: nat)
      modifies this
      ensures State() == WithTimerStarted(old(State()), seconds)
    {
      secondsLeft := seconds;
      interval := Some(|intervals|);
      intervals := intervals + [true];
    }

    method SetTimeout(action: Action, delayMs: nat)
      modifies this
      ensures State() == WithTimeoutSet(old(State()), action, delayMs)
    {
      timer := Some(|timeouts|);
      timeouts := timeouts + [Timeout(action, delayMs, true)];
    }

    method ClearInterval()
      modifies this
      ensures State() == old(State()).(intervals := ClearedInterval(old(intervals), old(interval)))
    {
      if interval.Some? && interval.value < |intervals| {
        intervals := intervals[interval.value := false];
      }
    }

    method ClearTimeout()
      modifies this
      ensures State() == old(State()).(timeouts := ClearedTimeout(old(timeouts), old(timer)))
    {
      if timer.Some? && timer.value < |timeouts| {
        timeouts := timeouts[timer.value := timeouts[timer.value].(live := false)];
      }
    }

    method EnterPhase(p: Phase)
      modifies this
      ensures State() == Entered(old(State()), p)
    {
      phase := p;
      text := PhaseText(p);
      StartTimer(PhaseSeconds(p));
      SetTimeout(PhaseAction(p), PhaseDelayMs(p));
    }

    /** The callback of a timeout, run once the timeout is spent. */
    method RunAction(a: Action)
      modifies this
      ensures State() == AfterAction(old(State()), a)
    {
      match a {
        case RunSequence =>
          EnterPhase(In);
        case EndIn =>
          ClearInterval();
          EnterPhase(Hold);
        case EndHold =>
          ClearInterval();
          EnterPhase(Out);
        case EndOut =>
          ClearInterval();
          finishCalls := finishCalls + 1;
      }
    }

    /** Timeout `h` fires: if still pending, it is spent and its callback runs. */
    method OnTimeout(h: nat)
      modifies this
      ensures State() == Step(old(State()), TimeoutFires(h))
      ensures old(Valid()) ==> Valid()
    {
      ghost var before := State();
      if h < |timeouts| && timeouts[h].live {
        var action := timeouts[h].action;
        timeouts := timeouts[h := timeouts[h].(live := false)];
        RunAction(action);
      }
      if Consistent(before) {
        StepConsistent(before, TimeoutFires(h));
      }
    }

    /** Interval `h` fires: if still running, the countdown drops by one, not below zero. */
    method OnInterval(h: nat)
      modifies this
      ensures State() == Step(old(State()), IntervalFires(h))
      ensures old(Valid()) ==> Valid()
    {
      if h < |intervals| && intervals[h] {
        secondsLeft := Max(0, secondsLeft - 1);
      }
    }

    /** The effect's cleanup on unmount: clear the current timeout and interval. */
    method Cleanup()
      modifies this
      ensures State() == Step(old(State()), Event.Cleanup)
      ensures old(Valid()) ==> Valid() && Quiet(State())
    {
      ghost var before := State();
      ClearTimeout();
      ClearInterval();
      if Consistent(before) {
        StepConsistent(before, Event.Cleanup);
        CleanupSilences(before, []);
      }
    }
  }
}
