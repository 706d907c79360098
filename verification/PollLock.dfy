/** The lock around `poll2` that `Poll::poll1` builds from one atomic word, a mutex and a condition variable
    (src/poll.rs:672-744), for any number of threads. A step is one access to the word, the mutex or the condition
    variable. Waiters may be woken spuriously or by their timeout, and threads may arrive at any time. */
module PollLock {
  import opened Options

  /** A call of `poll1`. `zero` says that the timeout has run down to zero, `inc` that the thread has counted itself,
      `curr` is the word as it last saw it. */
  datatype Pc =
    | Try(zero: bool)
    | Acquire(curr: int, zero: bool)
    | Loop(curr: int, inc: bool, zero: bool)
    | Blocked(zero: bool)
    | Woken(zero: bool)
    | Reread(zero: bool)
    | Enter
    | Leave
    | InPoll
    | AcquireToNotify
    | Notify
    | Unlock

  /** `word` is `lock_state`; `mutex` the thread that holds the mutex. `owner` and `counted` are auxiliary: the thread
      that took the lock bit, and those that have added two for themselves. */
  datatype State = State(word: int, mutex: Option<nat>, threads: map<nat, Pc>, owner: Option<nat>, counted: set<nat>)

  const INIT := State(0, None, map[], None, {})

  datatype Label =
    | Call(t: nat, zero: bool)
    | Step(t: nat)
    | Wake(t: nat, timedOut: bool)
    | NotifyOne(t: nat, waiter: nat, timedOut: bool)

  // ---------- steps ----------

  function Goto(s: State, t: nat, pc: Pc): State {
    s.(threads := s.threads[t := pc])
  }

  function Done(s: State, t: nat): State {
    s.(threads := s.threads - {t})
  }

  predicate Locked(word: int) {
    word % 2 == 1
  }

  /** One turn of the loop. The word is looked at first, so that a thread whose time is up still takes a free lock. */
  function LoopStep(s: State, t: nat): State
    requires t in s.threads && s.threads[t].Loop?
  {
    var Loop(curr, inc, zero) := s.threads[t];
    if !Locked(curr) then
      if s.word == curr then
        Goto(s.(word := if inc then curr + 1 - 2 else curr + 1, owner := Some(t), counted := s.counted - {t}), t, Enter)
      else Goto(s, t, Loop(s.word, inc, zero))
    else if zero then
      Goto(if inc then s.(word := s.word - 2, counted := s.counted - {t}) else s, t, Leave)
    else if !inc then
      if s.word == curr then Goto(s.(word := curr + 2, counted := s.counted + {t}), t, Loop(curr, true, zero))
      else Goto(s, t, Loop(s.word, inc, zero))
    else Goto(s.(mutex := None), t, Blocked(zero))
  }

  predicate NeedsMutex(pc: Pc) {
    pc.Acquire? || pc.Woken? || pc.AcquireToNotify?
  }

  /** Every step but a notification and the ways out of `wait`. */
  predicate CanStep(s: State, t: nat) {
    t in s.threads && !s.threads[t].Blocked? && !s.threads[t].Notify? && (NeedsMutex(s.threads[t]) ==> s.mutex == None)
  }

  function ThreadStep(s: State, t: nat): State
    requires CanStep(s, t)
  {
    match s.threads[t]
    case Try(zero) =>
      if s.word == 0 then Goto(s.(word := 1, owner := Some(t)), t, InPoll) else Goto(s, t, Acquire(s.word, zero))
    case Acquire(curr, zero) => Goto(s.(mutex := Some(t)), t, Loop(curr, false, zero))
    case Loop(_, _, _) => LoopStep(s, t)
    case Woken(zero) => Goto(s.(mutex := Some(t)), t, Reread(zero))
    case Reread(zero) => Goto(s, t, Loop(s.word, true, zero))
    case Enter => Goto(s.(mutex := None), t, InPoll)
    case Leave => Done(s.(mutex := None), t)
    case InPoll =>
      var free := s.(word := s.word - s.word % 2, owner := None);
      if s.word != 1 then Goto(free, t, AcquireToNotify) else Done(free, t)
    case AcquireToNotify => Goto(s.(mutex := Some(t)), t, Notify)
    case Unlock => Done(s.(mutex := None), t)
  }

  ghost predicate Enabled(s: State, l: Label) {
    match l
    case Call(t, _) => t !in s.threads
    case Step(t) => CanStep(s, t)
    case Wake(t, _) => t in s.threads && s.threads[t].Blocked?
    case NotifyOne(t, waiter, _) =>
      && t in s.threads && s.threads[t].Notify?
      && ((waiter in s.threads && s.threads[waiter].Blocked?)
          || (forall u :: u in s.threads ==> !s.threads[u].Blocked?))
  }

  /** `notify_one` wakes one blocked thread, if there is any. Its time may be up all the same: the timeout is looked at
      after the wait, however it ended (lines 720-728). */
  function Do(s: State, l: Label): State
    requires Enabled(s, l)
  {
    match l
    case Call(t, zero) => Goto(s, t, Try(zero))
    case Step(t) => ThreadStep(s, t)
    case Wake(t, timedOut) => Goto(s, t, Woken(s.threads[t].zero || timedOut))
    case NotifyOne(t, waiter, timedOut) =>
      var notified :=
        if waiter in s.threads && s.threads[waiter].Blocked? then
          Goto(s, waiter, Woken(s.threads[waiter].zero || timedOut))
        else s;
      Goto(notified, t, Unlock)
  }

  ghost predicate Run(states: seq<State>, labels: seq<Label>) {
    && |states| == |labels| + 1
    && states[0] == INIT
    && forall i :: 0 <= i < |labels| ==> Enabled(states[i], labels[i]) && states[i + 1] == Do(states[i], labels[i])
  }

  ghost predicate EndsRun(s: State, states: seq<State>, labels: seq<Label>) {
    Run(states, labels) && states[|states| - 1] == s
  }

  ghost predicate Reachable(s: State) {
    exists states, labels :: EndsRun(s, states, labels)
  }

  // ---------- the invariant ----------

  predicate HoldsMutex(pc: Pc) {
    pc.Loop? || pc.Reread? || pc.Enter? || pc.Leave? || pc.Notify? || pc.Unlock?
  }

  predicate HoldsLock(pc: Pc) {
    pc.Enter? || pc.InPoll?
  }

  predicate Counted(pc: Pc) {
    (pc.Loop? && pc.inc) || pc.Blocked? || pc.Woken? || pc.Reread?
  }

  /** Released the lock to waiters, and has not notified yet. */
  predicate WillNotify(pc: Pc) {
    pc.AcquireToNotify? || pc.Notify?
  }

  /** A counted waiter that is awake, and looks at the word before it blocks again. */
  predicate WillLook(pc: Pc) {
    pc.Woken? || pc.Reread? || (pc.Loop? && pc.inc && !Locked(pc.curr))
  }

  /** A counted waiter that has seen the lock taken, and is about to block or to give up. */
  predicate SawLocked(pc: Pc) {
    pc.Loop? && pc.inc && Locked(pc.curr)
  }

  ghost predicate NotifyInFlight(s: State) {
    exists t :: t in s.threads && WillNotify(s.threads[t])
  }

  ghost predicate SomeoneLooks(s: State) {
    exists t :: t in s.threads && WillLook(s.threads[t])
  }

  ghost predicate SomeoneBlocked(s: State) {
    exists t :: t in s.threads && s.threads[t].Blocked?
  }

  /** Each thread agrees with the mutex and with the auxiliary fields. */
  ghost predicate Agrees(s: State, t: nat) {
    && (t in s.threads && HoldsMutex(s.threads[t]) <==> s.mutex == Some(t))
    && (t in s.threads && HoldsLock(s.threads[t]) <==> s.owner == Some(t))
    && (t in s.threads && Counted(s.threads[t]) <==> t in s.counted)
  }

  ghost predicate Agreement(s: State) {
    forall t :: Agrees(s, t)
  }

  predicate WordOk(s: State) {
    s.word == (if s.owner.Some? then 1 else 0) + 2 * |s.counted|
  }

  /** While the lock is free and a thread is blocked, someone is about to do something about it. */
  ghost predicate NobodyForgotten(s: State) {
    !Locked(s.word) && SomeoneBlocked(s) ==> NotifyInFlight(s) || SomeoneLooks(s)
  }

  /** A thread about to block although the lock has become free will be notified after it has blocked. */
  ghost predicate NobodySleepsIn(s: State) {
    !Locked(s.word) && s.mutex.Some? && s.mutex.value in s.threads && SawLocked(s.threads[s.mutex.value]) ==>
        NotifyInFlight(s)
  }

  ghost predicate Inv(s: State) {
    Agreement(s) && WordOk(s) && NobodyForgotten(s) && NobodySleepsIn(s)
  }

  // ---------- preservation ----------

  lemma Counting(set1: set<nat>, t: nat)
    ensures t in set1 ==> |set1 - {t}| == |set1| - 1 && |set1| > 0
    ensures t !in set1 ==> |set1 + {t}| == |set1| + 1 && set1 - {t} == set1
  {
  }

  lemma ThreadAgrees(s: State, t: nat, u: nat)
    requires CanStep(s, t) && WordOk(s) && Agrees(s, t) && Agrees(s, u)
    ensures Agrees(ThreadStep(s, t), u)
  {
    if s.threads[t].Loop? {
      LoopAgrees(s, t, u);
    }
  }

  lemma LoopAgrees(s: State, t: nat, u: nat)
    requires t in s.threads && s.threads[t].Loop? && WordOk(s) && Agrees(s, t) && Agrees(s, u)
    ensures Agrees(LoopStep(s, t), u)
  {
  }

  /** Nobody can take the lock, or join or leave the waiters, unseen by the word. */
  lemma StepAgrees(s: State, l: Label)
    requires Agreement(s) && WordOk(s) && Enabled(s, l)
    ensures Agreement(Do(s, l)) && WordOk(Do(s, l))
  {
    assert Agrees(s, l.t);
    forall u
      ensures Agrees(Do(s, l), u)
    {
      assert Agrees(s, u);
      if l.Step? {
        ThreadAgrees(s, l.t, u);
      } else {
        OtherAgrees(s, l, u);
      }
    }
    if l.Step? {
      StepWord(s, l.t);
    }
  }

  lemma OtherAgrees(s: State, l: Label, u: nat)
    requires Enabled(s, l) && !l.Step? && Agrees(s, l.t) && Agrees(s, u)
    ensures Agrees(Do(s, l), u)
  {
  }

  lemma StepWord(s: State, t: nat)
    requires Agreement(s) && WordOk(s) && CanStep(s, t)
    ensures WordOk(ThreadStep(s, t))
  {
    assert Agrees(s, t);
    Counting(s.counted, t);
  }

  ghost predicate OnlyThread(s: State, s': State, t: nat) {
    forall u :: u != t ==> (u in s'.threads <==> u in s.threads) && (u in s.threads ==> s'.threads[u] == s.threads[u])
  }

  /** The lock did not become free, and `t` keeps its promise to notify, if it made one. */
  ghost predicate Quiet(s: State, s': State, t: nat) {
    && OnlyThread(s, s', t)
    && (Locked(s.word) ==> Locked(s'.word))
    && (t in s.threads && WillNotify(s.threads[t]) ==> t in s'.threads && WillNotify(s'.threads[t]))
  }

  lemma NotificationStays(s: State, s': State, t: nat)
    requires Quiet(s, s', t) && NotifyInFlight(s)
    ensures NotifyInFlight(s')
  {
    var u :| u in s.threads && WillNotify(s.threads[u]);
    assert u in s'.threads && WillNotify(s'.threads[u]);
  }

  /** The thread that stepped still looks, if it did before, or has found the lock taken; and it blocks only if a
      notification is on its way. */
  lemma ForgottenFrame(s: State, s': State, t: nat)
    requires NobodyForgotten(s) && Quiet(s, s', t)
    requires !Locked(s'.word) && t in s.threads && WillLook(s.threads[t]) ==> t in s'.threads && WillLook(s'.threads[t])
    requires !Locked(s'.word) && t in s'.threads && s'.threads[t].Blocked? ==> NotifyInFlight(s)
    ensures NobodyForgotten(s')
  {
    if !Locked(s'.word) && SomeoneBlocked(s') {
      if !NotifyInFlight(s) {
        var b :| b in s'.threads && s'.threads[b].Blocked?;
        assert b in s.threads && s.threads[b].Blocked?;
        var u :| u in s.threads && WillLook(s.threads[u]);
        assert u in s'.threads && WillLook(s'.threads[u]);
      } else {
        NotificationStays(s, s', t);
      }
    }
  }

  lemma SleepsFrame(s: State, s': State, t: nat)
    requires NobodySleepsIn(s) && Quiet(s, s', t)
    requires s'.mutex == s.mutex || s'.mutex == None || s'.mutex == Some(t)
    requires !Locked(s'.word) && s'.mutex == Some(t) && t in s'.threads ==> !SawLocked(s'.threads[t])
    ensures NobodySleepsIn(s')
  {
    if !Locked(s'.word) && s'.mutex.Some? && s'.mutex.value in s'.threads && SawLocked(s'.threads[s'.mutex.value]) {
      NotificationStays(s, s', t);
    }
  }

  lemma LoopKeepsWatch(s: State, t: nat)
    requires Inv(s) && t in s.threads && s.threads[t].Loop?
    ensures NobodyForgotten(LoopStep(s, t)) && NobodySleepsIn(LoopStep(s, t))
  {
    assert Agrees(s, t);
    var s' := LoopStep(s, t);
    ForgottenFrame(s, s', t);
    SleepsFrame(s, s', t);
  }

  /** A thread that leaves `poll2` either finds that nobody has counted itself, or will notify. */
  lemma ReleaseKeepsWatch(s: State, t: nat)
    requires Inv(s) && t in s.threads && s.threads[t].InPoll?
    ensures NobodyForgotten(ThreadStep(s, t)) && NobodySleepsIn(ThreadStep(s, t))
  {
    var s' := ThreadStep(s, t);
    assert Agrees(s, t);
    if s.word != 1 {
      assert t in s'.threads && WillNotify(s'.threads[t]);
    } else {
      assert s.counted == {};
      forall u | u in s'.threads
        ensures !Counted(s'.threads[u])
      {
        assert Agrees(s, u);
      }
    }
  }

  lemma ThreadKeepsWatch(s: State, t: nat)
    requires Inv(s) && CanStep(s, t) && !s.threads[t].Loop? && !s.threads[t].InPoll?
    ensures NobodyForgotten(ThreadStep(s, t)) && NobodySleepsIn(ThreadStep(s, t))
  {
    var s' := ThreadStep(s, t);
    assert Agrees(s, t);
    ForgottenFrame(s, s', t);
    SleepsFrame(s, s', t);
  }

  lemma NotifyKeepsWatch(s: State, t: nat, waiter: nat, timedOut: bool)
    requires Inv(s) && Enabled(s, NotifyOne(t, waiter, timedOut))
    ensures var s' := Do(s, NotifyOne(t, waiter, timedOut)); NobodyForgotten(s') && NobodySleepsIn(s')
  {
    var s' := Do(s, NotifyOne(t, waiter, timedOut));
    assert Agrees(s, t);
    if waiter in s.threads && s.threads[waiter].Blocked? {
      assert waiter in s'.threads && WillLook(s'.threads[waiter]);
    }
  }

  /** A release with waiters puts a notification on its way, and it stays on its way until it wakes someone. */
  lemma StepKeepsWatch(s: State, l: Label)
    requires Inv(s) && Enabled(s, l)
    ensures NobodyForgotten(Do(s, l)) && NobodySleepsIn(Do(s, l))
  {
    match l
    case NotifyOne(t, waiter, timedOut) => NotifyKeepsWatch(s, t, waiter, timedOut);
    case Step(t) =>
      if s.threads[t].Loop? {
        LoopKeepsWatch(s, t);
      } else if s.threads[t].InPoll? {
        ReleaseKeepsWatch(s, t);
      } else {
        ThreadKeepsWatch(s, t);
      }
    case _ =>
      assert Agrees(s, l.t);
      ForgottenFrame(s, Do(s, l), l.t);
      SleepsFrame(s, Do(s, l), l.t);
  }

  lemma StepKeepsInv(s: State, l: Label)
    requires Inv(s) && Enabled(s, l)
    ensures Inv(Do(s, l))
  {
    StepAgrees(s, l);
    StepKeepsWatch(s, l);
  }

  lemma {:induction false} RunKeepsInv(states: seq<State>, labels: seq<Label>, i: nat)
    requires Run(states, labels) && i < |states|
    ensures Inv(states[i])
  {
    if i == 0 {
      assert forall t :: Agrees(INIT, t);
    } else {
      RunKeepsInv(states, labels, i - 1);
      StepKeepsInv(states[i - 1], labels[i - 1]);
    }
  }

  lemma ReachableInv(s: State)
    requires Reachable(s)
    ensures Inv(s)
  {
    var states, labels :| EndsRun(s, states, labels);
    RunKeepsInv(states, labels, |labels|);
  }

  // ---------- theorems ----------

  /** At most one thread is in `poll2`, and exactly while the lock bit is set some thread is in it, or between taking
      the lock and entering. */
  lemma MutualExclusion(s: State, t: nat, u: nat)
    requires Reachable(s) && t in s.threads && u in s.threads && HoldsLock(s.threads[t])
    ensures HoldsLock(s.threads[u]) ==> u == t
    ensures Locked(s.word)
  {
    ReachableInv(s);
    assert Agrees(s, t) && Agrees(s, u);
  }

  lemma LockBitMeansHeld(s: State)
    requires Reachable(s) && Locked(s.word)
    ensures exists t :: t in s.threads && HoldsLock(s.threads[t])
  {
    ReachableInv(s);
    assert Agrees(s, s.owner.value);
  }

  /** The word is the lock bit plus twice the number of threads that have counted themselves. */
  lemma WordCounts(s: State)
    requires Reachable(s)
    ensures s.word == (if exists t :: t in s.threads && HoldsLock(s.threads[t]) then 1 else 0) + 2 * |s.counted|
    ensures forall t :: t in s.counted <==> t in s.threads && Counted(s.threads[t])
    ensures s.word >= 0
  {
    ReachableInv(s);
    forall t
      ensures t in s.counted <==> t in s.threads && Counted(s.threads[t])
    {
      assert Agrees(s, t);
    }
    if s.owner.Some? {
      assert Agrees(s, s.owner.value);
    } else {
      forall t | t in s.threads
        ensures !HoldsLock(s.threads[t])
      {
        assert Agrees(s, t);
      }
    }
  }

  /** Whenever the lock is free and a thread is blocked on the condition variable, a notification is in flight, or
      another counted waiter is awake and will look at the word before it blocks. */
  lemma NoLostNotification(s: State)
    requires Reachable(s) && !Locked(s.word) && SomeoneBlocked(s)
    ensures NotifyInFlight(s) || SomeoneLooks(s)
  {
    ReachableInv(s);
  }

  /** So the calls never all wait for each other: unless a thread is in `poll2`, some thread can move. */
  lemma NoDeadlock(s: State)
    requires Reachable(s) && s.threads != map[] && forall t :: t in s.threads ==> !s.threads[t].InPoll?
    ensures exists t :: t in s.threads && !s.threads[t].Blocked? && (NeedsMutex(s.threads[t]) ==> s.mutex == None)
  {
    ReachableInv(s);
    if s.mutex.Some? {
      var t := s.mutex.value;
      assert Agrees(s, t);
      assert t in s.threads && !s.threads[t].Blocked?;
    } else if s.owner.Some? {
      assert Agrees(s, s.owner.value);
    } else {
      assert s.threads.Keys != {};
      var t :| t in s.threads.Keys;
      if s.threads[t].Blocked? {
        assert SomeoneBlocked(s);
        assert !Locked(s.word);
        if NotifyInFlight(s) {
          var u :| u in s.threads && WillNotify(s.threads[u]);
          assert !s.threads[u].Blocked?;
        } else {
          var u :| u in s.threads && WillLook(s.threads[u]);
          assert !s.threads[u].Blocked?;
        }
      }
    }
  }

  /** A thread gives up without polling only if its time is up and it has seen the lock taken. It takes back its own
      count and nobody else's; and if it was woken by a notification, that is not lost: should the lock be free by
      then, whoever is blocked has another notification on its way, or another waiter that looks. */
  lemma GivesUpInTime(s: State, l: Label, t: nat)
    requires Reachable(s) && Enabled(s, l)
    requires t in s.threads && !s.threads[t].Leave? && t in Do(s, l).threads && Do(s, l).threads[t].Leave?
    ensures s.threads[t].Loop? && s.threads[t].zero && Locked(s.threads[t].curr)
    ensures Do(s, l).counted == s.counted - {t}
    ensures Do(s, l).word == s.word - 2 * (|s.counted| - |Do(s, l).counted|)
    ensures !Locked(Do(s, l).word) && SomeoneBlocked(Do(s, l)) ==> NotifyInFlight(Do(s, l)) || SomeoneLooks(Do(s, l))
    ensures !Locked(Do(s, l).word) && s.threads[t].inc ==> NotifyInFlight(Do(s, l))
  {
    ReachableInv(s);
    StepKeepsInv(s, l);
    LeaveEffect(s, l, t, Do(s, l));
    LeaveCounts(s, t);
  }

  lemma LeaveEffect(s: State, l: Label, t: nat, s': State)
    requires Enabled(s, l) && s' == Do(s, l)
    requires t in s.threads && !s.threads[t].Leave? && t in s'.threads && s'.threads[t].Leave?
    ensures s.threads[t].Loop? && s.threads[t].zero && Locked(s.threads[t].curr) && s' == LoopStep(s, t)
  {
  }

  lemma LeaveCounts(s: State, t: nat)
    requires Inv(s) && t in s.threads && s.threads[t].Loop? && s.threads[t].zero && Locked(s.threads[t].curr)
    ensures var s' := LoopStep(s, t);
            && s'.counted == s.counted - {t} && s'.word == s.word - 2 * (|s.counted| - |s'.counted|)
            && (!Locked(s'.word) && s.threads[t].inc ==> NotifyInFlight(s'))
  {
    var s' := LoopStep(s, t);
    assert Agrees(s, t);
    Counting(s.counted, t);
    if !Locked(s'.word) && s.threads[t].inc {
      NotificationStays(s, s', t);
    }
  }

  /** A call that has returned leaves nothing behind: no count, no lock and no mutex. */
  lemma ReturnedLeavesNothing(s: State, t: nat)
    requires Reachable(s) && t !in s.threads
    ensures t !in s.counted && s.mutex != Some(t) && s.owner != Some(t)
  {
    ReachableInv(s);
    assert Agrees(s, t);
  }

  // ---------- how a call ends ----------

  predicate BeforePoll(pc: Pc) {
    pc.Try? || pc.Acquire? || pc.Loop? || pc.Blocked? || pc.Woken? || pc.Reread? || pc.Enter?
  }

  predicate TimeIsUp(pc: Pc) {
    match pc
    case Try(zero) => zero
    case Acquire(_, zero) => zero
    case Loop(_, _, zero) => zero
    case Blocked(zero) => zero
    case Woken(zero) => zero
    case Reread(zero) => zero
    case _ => false
  }

  /** The thread looks at a word with the lock bit set, and its time is up. */
  predicate SeesNoHope(s: State, t: nat) {
    t in s.threads && s.threads[t].Loop? && s.threads[t].zero && Locked(s.threads[t].curr)
  }

  predicate EntersPoll(s: State, s': State, t: nat) {
    t in s.threads && !s.threads[t].InPoll? && t in s'.threads && s'.threads[t].InPoll?
  }

  /** The label by which the time of `t` is up: the call was made with none, or a wait has taken it all. */
  predicate RunsOut(l: Label, t: nat) {
    || (l.Call? && l.t == t && l.zero)
    || (l.Wake? && l.t == t && l.timedOut)
    || (l.NotifyOne? && l.waiter == t && l.timedOut)
  }

  /** What a step does to a call: it goes on before the poll, enters it, gives up, goes on after it, or returns; and it
      returns only from after the poll or from giving up. */
  lemma CallMoves(s: State, l: Label, t: nat)
    requires Enabled(s, l) && t in s.threads
    ensures var s' := Do(s, l); var pc := s.threads[t];
            if t !in s'.threads then l == Step(t) && !BeforePoll(pc)
            else
              && (BeforePoll(pc) ==>
                    || BeforePoll(s'.threads[t]) || s'.threads[t].InPoll?
                    || (l == Step(t) && s'.threads[t].Leave? && SeesNoHope(s, t)))
              && (pc.Leave? ==> s'.threads[t].Leave?)
              && (!BeforePoll(pc) && !pc.Leave? ==>
                    !BeforePoll(s'.threads[t]) && !s'.threads[t].Leave? && !EntersPoll(s, s', t))
              && (TimeIsUp(s'.threads[t]) ==> TimeIsUp(pc) || RunsOut(l, t))
  {
    if l == Step(t) && s.threads[t].Loop? {
      LoopMoves(s, t);
    }
  }

  lemma LoopMoves(s: State, t: nat)
    requires t in s.threads && s.threads[t].Loop?
    ensures var s' := LoopStep(s, t);
            && t in s'.threads && (TimeIsUp(s'.threads[t]) ==> TimeIsUp(s.threads[t]))
            && (BeforePoll(s'.threads[t]) || (s'.threads[t].Leave? && SeesNoHope(s, t)))
  {
  }

  /** The call of thread `t` that begins at `j` is still on at `i`. */
  ghost predicate CallLasts(states: seq<State>, labels: seq<Label>, t: nat, j: nat, i: nat) {
    && Run(states, labels) && j < i <= |labels| && labels[j].Call? && labels[j].t == t
    && forall m :: j < m <= i ==> t in states[m].threads
  }

  /** How often thread `t` has entered `poll2` between `j` and `i`. */
  function Entries(states: seq<State>, t: nat, j: nat, i: nat): nat
    requires i < |states|
    decreases i
  {
    if i <= j then 0
    else Entries(states, t, j, i - 1) + if EntersPoll(states[i - 1], states[i], t) then 1 else 0
  }

  ghost predicate RanOut(labels: seq<Label>, t: nat, j: nat, i: nat) {
    exists m :: j <= m < i && m < |labels| && RunsOut(labels[m], t)
  }

  /** The call has looked at a set lock bit with its time up, and left without looking again. */
  ghost predicate GaveUp(states: seq<State>, labels: seq<Label>, t: nat, j: nat, i: nat)
    requires |states| == |labels| + 1
  {
    exists m :: j < m < i && m < |labels| && labels[m] == Step(t) && SeesNoHope(states[m], t)
  }

  ghost predicate Stage(states: seq<State>, labels: seq<Label>, t: nat, j: nat, i: nat)
    requires CallLasts(states, labels, t, j, i)
  {
    var pc := states[i].threads[t];
    && (TimeIsUp(pc) ==> RanOut(labels, t, j, i))
    && (if BeforePoll(pc) then Entries(states, t, j, i) == 0
        else if pc.Leave? then
          Entries(states, t, j, i) == 0 && GaveUp(states, labels, t, j, i) && RanOut(labels, t, j, i)
        else Entries(states, t, j, i) == 1)
  }

  lemma {:induction false} CallStage(states: seq<State>, labels: seq<Label>, t: nat, j: nat, i: nat)
    requires CallLasts(states, labels, t, j, i)
    ensures Stage(states, labels, t, j, i)
  {
    if i == j + 1 {
      assert states[i] == Do(states[j], labels[j]);
      assert Entries(states, t, j, j) == 0;
      if TimeIsUp(states[i].threads[t]) {
        assert RunsOut(labels[j], t);
      }
    } else {
      CallStage(states, labels, t, j, i - 1);
      StageStep(states, labels, t, j, i);
    }
  }

  lemma StageStep(states: seq<State>, labels: seq<Label>, t: nat, j: nat, i: nat)
    requires CallLasts(states, labels, t, j, i) && j + 1 < i && Stage(states, labels, t, j, i - 1)
    ensures Stage(states, labels, t, j, i)
  {
    var s, l := states[i - 1], labels[i - 1];
    CallMoves(s, l, t);
    if TimeIsUp(states[i].threads[t]) && !TimeIsUp(s.threads[t]) {
      assert RunsOut(l, t);
    }
  }

  /** A call that returns has been in `poll2` exactly once; or never, and then its time was up, and it has seen the lock
      taken. */
  lemma CallPollsOnceOrGivesUp(states: seq<State>, labels: seq<Label>, t: nat, j: nat, i: nat)
    requires CallLasts(states, labels, t, j, i) && i < |labels| && t !in states[i + 1].threads
    ensures || Entries(states, t, j, i + 1) == 1
            || (Entries(states, t, j, i + 1) == 0 && GaveUp(states, labels, t, j, i) && RanOut(labels, t, j, i))
  {
    CallStage(states, labels, t, j, i);
    CallMoves(states[i], labels[i], t);
  }

  // ---------- a thread alone ----------

  function Alone(s: State, t: nat, k: nat): State
    decreases k
  {
    if k == 0 || !CanStep(s, t) then s else Alone(ThreadStep(s, t), t, k - 1)
  }

  predicate PollsAt(s: State, t: nat, k: nat) {
    t in Alone(s, t, k).threads && Alone(s, t, k).threads[t].InPoll?
  }

  ghost predicate PollsWithin(s: State, t: nat, k: nat) {
    exists j: nat :: j <= k && PollsAt(s, t, j)
  }

  /** The thread acts on a set lock bit without looking at the word again: it gives up, or blocks. */
  predicate LooksNoMore(pc: Pc) {
    || (pc.Loop? && Locked(pc.curr) && (pc.zero || pc.inc))
    || (pc.Acquire? && Locked(pc.curr) && pc.zero)
  }

  /** While the lock and the mutex are free, a thread on its way in is in `poll2` within six steps of its own, even if
      its time is up, exactly if it has not already seen the lock taken for the last time. */
  lemma FreeLockIsTaken(s: State, t: nat)
    requires CanStep(s, t) && BeforePoll(s.threads[t]) && !Locked(s.word)
    requires s.mutex == None || s.mutex == Some(t)
    requires s.threads[t].Try? || NeedsMutex(s.threads[t]) ==> s.mutex == None
    ensures PollsWithin(s, t, 6) <==> !LooksNoMore(s.threads[t])
  {
    var pc := s.threads[t];
    if LooksNoMore(pc) {
      forall j: nat | j <= 6
        ensures !PollsAt(s, t, j)
      {
        NoLookNoPoll(s, t, j);
      }
    } else {
      var k := Approach(s, t);
      assert PollsAt(s, t, k);
    }
  }

  lemma Approach(s: State, t: nat) returns (k: nat)
    requires CanStep(s, t) && BeforePoll(s.threads[t]) && !Locked(s.word) && !LooksNoMore(s.threads[t])
    requires s.threads[t].Try? || NeedsMutex(s.threads[t]) ==> s.mutex == None
    ensures k <= 6 && PollsAt(s, t, k)
  {
    var pc := s.threads[t];
    var s1 := ThreadStep(s, t);
    if pc.Loop? {
      k := LoopPolls(s, t);
    } else if pc.Enter? || (pc.Try? && s.word == 0) {
      k := 1;
      assert Alone(s, t, 1) == Alone(s1, t, 0);
    } else if pc.Acquire? || pc.Reread? {
      k := LoopPolls(s1, t);
      k := k + 1;
    } else {
      k := LoopPolls(ThreadStep(s1, t), t);
      assert Alone(s, t, k + 2) == Alone(s1, t, k + 1);
      k := k + 2;
    }
  }

  lemma LoopPolls(s: State, t: nat) returns (k: nat)
    requires t in s.threads && s.threads[t].Loop? && !Locked(s.word) && !LooksNoMore(s.threads[t])
    ensures k <= 3 && PollsAt(s, t, k)
  {
    var s1 := ThreadStep(s, t);
    if s1.threads[t].Enter? {
      k := 2;
      assert Alone(s, t, 2) == Alone(s1, t, 1);
      assert Alone(s1, t, 1) == Alone(ThreadStep(s1, t), t, 0);
    } else {
      var s2 := ThreadStep(s1, t);
      k := 3;
      assert Alone(s, t, 3) == Alone(s1, t, 2) == Alone(s2, t, 1);
      assert Alone(s2, t, 1) == Alone(ThreadStep(s2, t), t, 0);
    }
  }

  lemma {:induction false} NoLookNoPoll(s: State, t: nat, k: nat)
    requires t in s.threads ==> LooksNoMore(s.threads[t]) || s.threads[t].Leave? || s.threads[t].Blocked?
    ensures !PollsAt(s, t, k)
    decreases k
  {
    if k > 0 && CanStep(s, t) {
      NoLookNoPoll(ThreadStep(s, t), t, k - 1);
    }
  }
}
