/** The wakeup thread of a registered timer (src/timer.rs:101-125, 253-258, 279-299, 322-355) as a step machine: the
    thread, the owner of the timer, the tick they share, and the permit of park and unpark. A step is one access to
    what they share. The clock only moves forward, and wakeups may be spurious. */
module TimerWakeup {
  import opened Options
  import Wheel
  import opened WheelModel

  const TERMINATE_THREAD := 0

  /** The wakeup thread. `until` is its `sleep_until_tick`. */
  datatype Sleeper =
    | Reload
    | Head(until: nat)
    | Parked(until: nat)
    | Swap(until: nat)
    | Fire
    | Exited

  /** What the owner does after `schedule_readiness`. */
  datatype After = ToIdle | ToDrain

  /** The owner: between calls, or between two calls of the loop that drains the timer; inside `schedule_readiness`; at
      the end of the call of `poll_to` that returns nothing; or inside the destructor. */
  datatype Owner =
    | Idle
    | Draining
    | Load(tick: nat, after: After)
    | Exchange(seen: nat, tick: nat, after: After)
    | Unpark(after: After)
    | DropUnpark
    | Dropped

  /** `dues` is what is set in the timer, and when the wheel hands it out: at its own tick or, if it was inserted for
      the tick the wheel was then at, a lap later (`WheelModel.DuesOf`). `scheduled` collects, for the proof, every tick
      given to `schedule_readiness`. */
  datatype State = State(wakeup: nat, ready: bool, permit: bool, clock: nat, sleeper: Sleeper, owner: Owner,
                         dues: map<nat, nat>, scheduled: set<nat>)

  /** The timer is being registered (lines 366-382): the thread has just been spawned, and the owner is about to
      schedule the next tick, which the wheel promises to be no later than it hands out anything already set. */
  ghost predicate Starts(s: State) {
    && s.wakeup == TICK_MAX && !s.ready && !s.permit && s.sleeper == Reload
    && s.owner.Load? && s.owner.after == ToIdle && s.owner.tick <= TICK_MAX
    && Covers(s.owner.tick, s.dues) && s.scheduled == {s.owner.tick}
  }

  datatype Label =
    | Pass(ticks: nat)
    | Sleep
    | Spurious
    | Insert(key: nat, tick: nat, due: nat)
    | Cancel(key: nat)
    | BeginDrain
    | Take(key: nat)
    | EndDrain(next: nat)
    | Schedule
    | Drop
    | DropThread

  // ---------- steps ----------

  /** A step of the wakeup thread is always possible, unless it is parked and has nothing to wake it, or has
      returned. */
  predicate CanStep(s: State) {
    match s.sleeper
    case Parked(until) => s.permit || until <= s.clock
    case Exited => false
    case _ => true
  }

  function StepSleeper(s: State): State
    requires CanStep(s)
  {
    match s.sleeper
    case Reload => s.(sleeper := Head(s.wakeup))
    case Head(until) =>
      if until == TERMINATE_THREAD then s.(sleeper := Exited)
      else if s.clock < until then s.(sleeper := Parked(until))
      else s.(sleeper := Swap(until))
    case Parked(_) => s.(permit := false, sleeper := Reload)
    case Swap(until) =>
      if s.wakeup == until then s.(wakeup := TICK_MAX, sleeper := Fire) else s.(sleeper := Head(s.wakeup))
    case Fire => s.(ready := true, sleeper := Head(TICK_MAX))
  }

  function Return(after: After): Owner {
    if after.ToIdle? then Idle else Draining
  }

  function Back(owner: Owner): After
    requires owner.Idle? || owner.Draining?
  {
    if owner.Idle? then ToIdle else ToDrain
  }

  /** The loop of `schedule_readiness`. */
  function StepOwner(s: State): State
    requires s.owner.Load? || s.owner.Exchange? || s.owner.Unpark?
  {
    match s.owner
    case Load(tick, after) =>
      if s.wakeup <= tick then s.(owner := Return(after)) else s.(owner := Exchange(s.wakeup, tick, after))
    case Exchange(seen, tick, after) =>
      if s.wakeup == seen then s.(wakeup := tick, owner := Unpark(after))
      else if s.wakeup <= tick then s.(owner := Return(after))
      else s.(owner := Exchange(s.wakeup, tick, after))
    case Unpark(after) => s.(permit := true, owner := Return(after))
  }

  predicate Enabled(s: State, l: Label) {
    match l
    case Pass(_) => true
    case Sleep => CanStep(s)
    case Spurious => s.sleeper.Parked?
    case Insert(key, tick, due) =>
      (s.owner.Idle? || s.owner.Draining?) && key !in s.dues && tick <= TICK_MAX && tick <= due
    case Cancel(key) => (s.owner.Idle? || s.owner.Draining?) && key in s.dues
    case BeginDrain => s.owner.Idle?
    case Take(key) => s.owner.Draining? && key in s.dues
    case EndDrain(next) => s.owner.Draining? && next <= TICK_MAX && Covers(next, s.dues)
    case Schedule => s.owner.Load? || s.owner.Exchange? || s.owner.Unpark?
    case Drop => s.owner.Idle?
    case DropThread => s.owner.DropUnpark?
  }

  /** `EndDrain` is the end of the call that returns nothing: readiness is cleared, and `next`, which the wheel promises
      to be no later than it hands out anything still set, late or not, is scheduled. */
  function Do(s: State, l: Label): State
    requires Enabled(s, l)
  {
    match l
    case Pass(ticks) => s.(clock := s.clock + ticks)
    case Sleep => StepSleeper(s)
    case Spurious => s.(permit := false, sleeper := Reload)
    case Insert(key, tick, due) =>
      s.(dues := s.dues[key := due], scheduled := s.scheduled + {tick}, owner := Load(tick, Back(s.owner)))
    case Cancel(key) => s.(dues := s.dues - {key})
    case BeginDrain => s.(owner := Draining)
    case Take(key) => s.(dues := s.dues - {key})
    case EndDrain(next) => s.(ready := false, scheduled := s.scheduled + {next}, owner := Load(next, ToIdle))
    case Schedule => StepOwner(s)
    case Drop => s.(wakeup := TERMINATE_THREAD, owner := DropUnpark)
    case DropThread => s.(permit := true, owner := Dropped)
  }

  ghost predicate Run(states: seq<State>, labels: seq<Label>) {
    && |states| == |labels| + 1
    && Starts(states[0])
    && forall i :: 0 <= i < |labels| ==> Enabled(states[i], labels[i]) && states[i + 1] == Do(states[i], labels[i])
  }

  ghost predicate EndsRun(s: State, states: seq<State>, labels: seq<Label>) {
    Run(states, labels) && states[|states| - 1] == s
  }

  ghost predicate Reachable(s: State) {
    exists states, labels :: EndsRun(s, states, labels)
  }

  // ---------- the invariant ----------

  /** The owner will not be done before it has made sure that the thread wakes by `t`. */
  predicate WillCover(owner: Owner, t: nat) {
    match owner
    case Draining => true
    case Load(tick, after) => after.ToDrain? || tick <= t
    case Exchange(_, tick, after) => after.ToDrain? || tick <= t
    case Unpark(after) => after.ToDrain?
    case _ => false
  }

  /** Somebody sees to it that the event loop drains the timer by tick `t`. */
  predicate Covered(s: State, t: nat) {
    s.wakeup <= t || s.sleeper.Fire? || s.ready || WillCover(s.owner, t)
  }

  /** The tick the thread sleeps for, or is about to. */
  function Awaits(sleeper: Sleeper): Option<nat> {
    match sleeper
    case Head(until) => Some(until)
    case Parked(until) => Some(until)
    case Swap(until) => Some(until)
    case Fire => Some(TICK_MAX)
    case _ => None
  }

  predicate WillUnpark(s: State) {
    s.permit || s.owner.Unpark? || s.owner.DropUnpark?
  }

  predicate Gone(owner: Owner) {
    owner.DropUnpark? || owner.Dropped?
  }

  /** The values the shared tick can take. */
  predicate Known(s: State, t: nat) {
    t in s.scheduled || t == TICK_MAX || (t == TERMINATE_THREAD && Gone(s.owner))
  }

  predicate SchedulesZero(owner: Owner) {
    (owner.Load? || owner.Exchange?) && owner.tick == 0
  }

  ghost predicate Inv(s: State) {
    && (forall k :: k in s.dues ==> Covered(s, s.dues[k]))
    && (forall t :: t in s.scheduled ==> t <= TICK_MAX)
    && (Awaits(s.sleeper).Some? ==> Awaits(s.sleeper).value <= s.wakeup || WillUnpark(s))
    && (Awaits(s.sleeper).Some? ==> Known(s, Awaits(s.sleeper).value))
    && (s.sleeper.Swap? ==> s.sleeper.until != TERMINATE_THREAD && s.sleeper.until <= s.clock)
    && (s.sleeper.Exited? ==> Known(s, TERMINATE_THREAD))
    && Known(s, s.wakeup) && s.wakeup <= TICK_MAX
    && (s.owner.Load? || s.owner.Exchange? ==> s.owner.tick in s.scheduled)
    && (s.owner.Exchange? ==> s.owner.tick < s.owner.seen)
    && (Gone(s.owner) ==> s.wakeup == TERMINATE_THREAD)
    && (0 in s.scheduled ==> s.wakeup == 0 || SchedulesZero(s.owner))
  }

  lemma SleeperKeepsInv(s: State)
    requires Inv(s) && CanStep(s)
    ensures Inv(StepSleeper(s))
  {
  }

  lemma OwnerKeepsInv(s: State)
    requires Inv(s) && (s.owner.Load? || s.owner.Exchange? || s.owner.Unpark?)
    ensures Inv(StepOwner(s))
  {
  }

  lemma StepKeepsInv(s: State, l: Label)
    requires Inv(s) && Enabled(s, l)
    ensures Inv(Do(s, l))
  {
    if l.Sleep? {
      SleeperKeepsInv(s);
    } else if l.Schedule? {
      OwnerKeepsInv(s);
    }
  }

  lemma {:induction false} RunKeepsInv(states: seq<State>, labels: seq<Label>, i: nat)
    requires Run(states, labels) && i < |states|
    ensures Inv(states[i])
  {
    if i > 0 {
      RunKeepsInv(states, labels, i - 1);
      StepKeepsInv(states[i - 1], labels[i - 1]);
    }
  }

  lemma ReachableInv(s: State)
    requires Reachable(s)
    ensures Inv(s)
  {
    var states, labels :| EndsRun(s, states, labels);
    RunKeepsInv(states, labels, |labels|);
  }

  // ---------- theorems ----------

  /** Outside a drain, every entry has a wakeup scheduled in time, or its wakeup is just happening, or has happened
      and waits for the event loop; and this also holds if the drain cleared readiness while the thread was firing. */
  lemma WakeupNeverLost(s: State, key: nat)
    requires Reachable(s) && s.owner.Idle? && key in s.dues
    ensures s.wakeup <= s.dues[key] || s.sleeper.Fire? || s.ready
  {
    ReachableInv(s);
  }

  /** The thread is never parked past the shared tick, unless it has a permit or the owner is about to give it one. */
  lemma NeverOversleeps(s: State)
    requires Reachable(s) && s.sleeper.Parked? && s.wakeup < s.sleeper.until
    ensures s.permit || s.owner.Unpark? || s.owner.DropUnpark?
  {
    ReachableInv(s);
  }

  /** The thread consumes a wakeup only when its tick has come, and it is one that was scheduled, or none is. */
  lemma NeverEarly(s: State, l: Label)
    requires Reachable(s) && Enabled(s, l) && !s.sleeper.Fire? && Do(s, l).sleeper.Fire?
    ensures l.Sleep? && s.sleeper == Swap(s.wakeup) && s.wakeup <= s.clock
    ensures s.wakeup in s.scheduled || s.wakeup == TICK_MAX
    ensures s.wakeup != TERMINATE_THREAD && Do(s, l).wakeup == TICK_MAX
  {
    ReachableInv(s);
  }

  /** The step at `m` consumes a wakeup, and the thread has not done anything else since. */
  ghost predicate Consumes(states: seq<State>, labels: seq<Label>, m: nat, i: nat)
    requires |states| == |labels| + 1
  {
    && m < i < |states| && labels[m].Sleep? && states[m].sleeper == Swap(states[m].wakeup)
    && 0 < states[m].wakeup <= states[m].clock
    && (states[m].wakeup in states[m].scheduled || states[m].wakeup == TICK_MAX)
    && (forall k :: m < k <= i ==> states[k].sleeper.Fire?)
  }

  lemma {:induction false} FireHasCause(states: seq<State>, labels: seq<Label>, i: nat) returns (m: nat)
    requires Run(states, labels) && i < |states| && states[i].sleeper.Fire?
    ensures Consumes(states, labels, m, i)
  {
    var s := states[i - 1];
    if s.sleeper.Fire? {
      m := FireHasCause(states, labels, i - 1);
    } else {
      m := i - 1;
      RunReaches(states, labels, i - 1);
      NeverEarly(s, labels[i - 1]);
    }
  }

  lemma RunReaches(states: seq<State>, labels: seq<Label>, i: nat)
    requires Run(states, labels) && i < |states|
    ensures Reachable(states[i])
  {
    assert EndsRun(states[i], states[..i + 1], labels[..i]);
  }

  /** Readiness is set only by a wakeup whose tick was scheduled and had come. */
  lemma ReadyOnlyInTime(states: seq<State>, labels: seq<Label>, i: nat) returns (m: nat)
    requires Run(states, labels) && i < |labels| && !states[i].ready && states[i + 1].ready
    ensures Consumes(states, labels, m, i)
  {
    m := FireHasCause(states, labels, i);
  }

  /** The thread returns only when the timer is dropped, or when tick 0 was scheduled, the value that the destructor
      uses to stop the thread. */
  lemma ThreadStaysAlive(s: State)
    requires Reachable(s) && s.sleeper.Exited?
    ensures 0 in s.scheduled || Gone(s.owner)
  {
    ReachableInv(s);
  }

  function Steps(s: State, k: nat): State
    decreases k
  {
    if k == 0 || !CanStep(s) then s else Steps(StepSleeper(s), k - 1)
  }

  /** Whether the thread, running alone, sets readiness within `k` steps. */
  ghost predicate FiresWithin(s: State, k: nat) {
    exists j :: 0 <= j <= k && Steps(s, j).ready
  }

  /** While the owner rests and tick 0 has not been scheduled, an entry whose tick has come makes the thread set
      readiness within six of its own steps, wherever it is. */
  lemma DueEntryFires(s: State, key: nat)
    requires Reachable(s) && s.owner.Idle? && key in s.dues && s.dues[key] <= s.clock && 0 !in s.scheduled
    ensures FiresWithin(s, 6)
  {
    ReachableInv(s);
    assert Covered(s, s.dues[key]);
    if s.ready {
      assert Steps(s, 0).ready;
    } else {
      FiresFrom(s);
    }
  }

  lemma FiresFrom(s: State)
    requires Inv(s) && s.owner.Idle? && 0 !in s.scheduled && !s.ready && (s.wakeup <= s.clock || s.sleeper.Fire?)
    ensures FiresWithin(s, 6)
  {
    match s.sleeper
    case Fire => assert Steps(s, 1).ready;
    case Swap(until) =>
      if s.wakeup == until {
        assert Steps(StepSleeper(s), 1).ready;
        assert Steps(s, 2).ready;
      } else {
        HeadFires(StepSleeper(s));
        assert Steps(s, 4).ready;
      }
    case Head(until) =>
      if until <= s.clock && until == s.wakeup {
        HeadFires(s);
        assert Steps(s, 3).ready;
      } else if until <= s.clock {
        var s' := StepSleeper(s);
        HeadFires(StepSleeper(s'));
        assert Steps(s, 5).ready;
      } else {
        var s' := StepSleeper(StepSleeper(s));
        ReloadFires(s');
        assert Steps(s, 6).ready;
      }
    case Parked(_) =>
      ReloadFires(StepSleeper(s));
      assert Steps(s, 5).ready;
    case Reload =>
      ReloadFires(s);
      assert Steps(s, 4).ready;
    case Exited =>
  }

  lemma HeadFires(s: State)
    requires s.sleeper == Head(s.wakeup) && 0 < s.wakeup <= s.clock
    ensures Steps(s, 3).ready
  {
    assert Steps(StepSleeper(s), 2) == Steps(StepSleeper(StepSleeper(s)), 1);
  }

  lemma ReloadFires(s: State)
    requires s.sleeper == Reload && 0 < s.wakeup <= s.clock
    ensures Steps(s, 4).ready
  {
    HeadFires(StepSleeper(s));
  }

  // ---------- tick 0 ----------

  /** Once the shared tick is 0 it stays so, and the thread does not set readiness again but by a wakeup that was
      already happening. */
  lemma TickZeroIsForever(s: State, l: Label)
    requires Reachable(s) && Enabled(s, l) && s.wakeup == TERMINATE_THREAD
    ensures Do(s, l).wakeup == TERMINATE_THREAD
    ensures Do(s, l).sleeper.Fire? ==> s.sleeper.Fire?
    ensures Do(s, l).ready ==> s.ready || s.sleeper.Fire?
  {
    ReachableInv(s);
  }

  ghost predicate StopsWithin(s: State, k: nat) {
    exists j :: 0 <= j <= k && Steps(s, j).sleeper.Exited?
  }

  /** While the owner rests, the wakeup thread is on its way to return exactly if tick 0 was ever scheduled: for an
      entry set for it, or because `next_tick` still found it in a cache. */
  lemma StopsOnTickZero(s: State)
    requires Reachable(s) && s.owner.Idle?
    ensures StopsWithin(s, 6) <==> 0 in s.scheduled
  {
    ReachableInv(s);
    if 0 in s.scheduled {
      StopsFrom(s);
    }
    forall j | 0 <= j <= 6 && Steps(s, j).sleeper.Exited?
      ensures 0 in s.scheduled
    {
      StepsKeepInv(s, j);
    }
  }

  lemma {:induction false} StepsKeepInv(s: State, k: nat)
    requires Inv(s)
    ensures Inv(Steps(s, k)) && Steps(s, k).scheduled == s.scheduled && Steps(s, k).owner == s.owner
    decreases k
  {
    if k > 0 && CanStep(s) {
      StepKeepsInv(s, Sleep);
      StepsKeepInv(StepSleeper(s), k - 1);
    }
  }

  /** Once the destructor is through, the thread returns, and nothing raises the shared tick from the value that stops
      it. */
  lemma DropStopsThread(s: State)
    requires Reachable(s) && s.owner.Dropped?
    ensures StopsWithin(s, 6)
    ensures forall l :: Enabled(s, l) ==> Do(s, l).wakeup == TERMINATE_THREAD && Do(s, l).owner.Dropped?
  {
    ReachableInv(s);
    StopsFrom(s);
    forall l | Enabled(s, l)
      ensures Do(s, l).wakeup == TERMINATE_THREAD && Do(s, l).owner.Dropped?
    {
      StepKeepsInv(s, l);
    }
  }

  lemma StopsFrom(s: State)
    requires Inv(s) && (s.owner.Idle? || s.owner.Dropped?) && s.wakeup == 0
    ensures StopsWithin(s, 6)
  {
    match s.sleeper
    case Exited => assert Steps(s, 0).sleeper.Exited?;
    case Reload =>
      ReloadStops(s);
      assert Steps(s, 2).sleeper.Exited?;
    case Fire =>
      var s' := StepSleeper(s);
      HeadStops(s');
      assert Steps(s, 5).sleeper.Exited?;
    case Parked(_) =>
      ReloadStops(StepSleeper(s));
      assert Steps(s, 3).sleeper.Exited?;
    case Swap(_) =>
      ZeroHeadStops(StepSleeper(s));
      assert Steps(s, 2).sleeper.Exited?;
    case Head(until) =>
      HeadStops(s);
      assert Steps(s, 4).sleeper.Exited?;
  }

  lemma ZeroHeadStops(s: State)
    requires s.sleeper == Head(0)
    ensures forall k: nat :: k >= 1 ==> Steps(s, k).sleeper.Exited?
  {
    forall k: nat | k >= 1
      ensures Steps(s, k).sleeper.Exited?
    {
      ExitedStays(StepSleeper(s), k - 1);
    }
  }

  lemma ExitedStays(s: State, k: nat)
    requires s.sleeper.Exited?
    ensures Steps(s, k).sleeper.Exited?
  {
  }

  lemma ReloadStops(s: State)
    requires s.sleeper == Reload && s.wakeup == 0
    ensures forall k: nat :: k >= 2 ==> Steps(s, k).sleeper.Exited?
  {
    ZeroHeadStops(StepSleeper(s));
  }

  lemma HeadStops(s: State)
    requires s.sleeper.Head? && s.wakeup == 0 && (s.sleeper.until == 0 || s.permit)
    ensures Steps(s, 4).sleeper.Exited?
  {
    var until := s.sleeper.until;
    if until == 0 {
      ZeroHeadStops(s);
    } else if s.clock < until {
      var s' := StepSleeper(StepSleeper(s));
      ReloadStops(s');
    } else {
      var s' := StepSleeper(StepSleeper(s));
      ZeroHeadStops(s');
    }
  }

  lemma StepIsReachable(s: State, l: Label)
    requires Reachable(s) && Enabled(s, l)
    ensures Reachable(Do(s, l))
  {
    var states, labels :| EndsRun(s, states, labels);
    var states', labels' := states + [Do(s, l)], labels + [l];
    forall i | 0 <= i < |labels'|
      ensures Enabled(states'[i], labels'[i]) && states'[i + 1] == Do(states'[i], labels'[i])
    {
      if i < |labels| {
        assert labels'[i] == labels[i] && states'[i] == states[i] && states'[i + 1] == states[i + 1];
      }
    }
    assert EndsRun(Do(s, l), states', labels');
  }

  /** A timer registered empty, and an entry then set for tick 0. */
  const EMPTY_TIMER := State(TICK_MAX, false, false, 0, Reload, Load(TICK_MAX, ToIdle), map[], {TICK_MAX})
  const ZERO_SET := State(0, false, true, 0, Reload, Idle, map[0 := 4], {TICK_MAX, 0})

  lemma TickZeroIsSet()
    ensures Reachable(ZERO_SET)
  {
    assert EndsRun(EMPTY_TIMER, [EMPTY_TIMER], []);
    StepIsReachable(EMPTY_TIMER, Schedule);
    var s1 := Do(EMPTY_TIMER, Schedule);
    StepIsReachable(s1, Insert(0, 0, 4));
    var s2 := Do(s1, Insert(0, 0, 4));
    StepIsReachable(s2, Schedule);
    var s3 := Do(s2, Schedule);
    StepIsReachable(s3, Schedule);
    var s4 := Do(s3, Schedule);
    StepIsReachable(s4, Schedule);
    assert Do(s4, Schedule) == ZERO_SET;
  }

  /** The timer of src/timer.rs:168 starts at tick 0, so a delay that rounds to tick 0 is not moved to a later tick
      (line 179). Then the thread returns, and an entry set afterwards is never signalled, although it is overdue. */
  lemma TickZeroKillsThread()
    ensures exists s ::
              && Reachable(s) && s.owner.Idle? && s.sleeper.Exited? && !s.ready
              && 1 in s.dues && s.dues[1] < s.clock
  {
    TickZeroIsSet();
    StepIsReachable(ZERO_SET, Sleep);
    var s1 := Do(ZERO_SET, Sleep);
    StepIsReachable(s1, Sleep);
    var s2 := Do(s1, Sleep);
    StepIsReachable(s2, Insert(1, 5, 5));
    var s3 := Do(s2, Insert(1, 5, 5));
    StepIsReachable(s3, Schedule);
    var s4 := Do(s3, Schedule);
    StepIsReachable(s4, Pass(9));
    var s5 := Do(s4, Pass(9));
    assert Reachable(s5) && s5.owner.Idle? && s5.sleeper.Exited? && !s5.ready && 1 in s5.dues
           && s5.dues[1] < s5.clock;
  }

  // ---------- the owner alone ----------

  function OwnerAlone(s: State, k: nat): State
    decreases k
  {
    if k == 0 || !(s.owner.Load? || s.owner.Exchange? || s.owner.Unpark?) then s else OwnerAlone(StepOwner(s), k - 1)
  }

  /** When the thread does not interfere, `schedule_readiness` step by step is the one of `Wheel.Timer`, and unparks the
      thread exactly if it has lowered the shared tick. */
  lemma ScheduleAlone(s: State)
    requires s.owner.Load?
    ensures var s' := OwnerAlone(s, 3);
            && s'.owner == Return(s.owner.after)
            && Some(Wheel.Inner(s'.wakeup, s'.ready))
               == Wheel.Scheduled(Some(Wheel.Inner(s.wakeup, s.ready)), s.owner.tick)
            && s' == s.(wakeup := s'.wakeup, permit := s.permit || s.owner.tick < s.wakeup, owner := s'.owner)
  {
    var s1 := StepOwner(s);
    assert OwnerAlone(s, 3) == OwnerAlone(s1, 2);
    if s1.owner.Exchange? {
      var s2 := StepOwner(s1);
      assert OwnerAlone(s1, 2) == OwnerAlone(s2, 1);
      assert OwnerAlone(s2, 1) == OwnerAlone(StepOwner(s2), 0);
    }
  }

  /** So is the end of a drain: readiness is cleared and the next tick scheduled. */
  lemma EndDrainAlone(s: State, next: nat)
    requires Enabled(s, EndDrain(next))
    ensures var s' := OwnerAlone(Do(s, EndDrain(next)), 3);
            && s'.owner == Idle
            && Some(Wheel.Inner(s'.wakeup, s'.ready)) == Wheel.Scheduled(Some(Wheel.Inner(s.wakeup, false)), next)
  {
    ScheduleAlone(Do(s, EndDrain(next)));
  }
}
