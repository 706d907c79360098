/** What the calls of the readiness queue achieve (src/poll.rs:786-920, 955-1056), over whole runs: a call that has
    returned has taken effect with the arguments it was given, however often its compare-exchange failed on the way. */
module ReadinessCalls {
  import opened ReadinessWord
  import opened MarkerQueue
  import opened Options
  import opened Readiness
  import opened ReadinessInvariant
  import opened ReadinessThreads
  import opened ReadinessTheorems
  import opened ReadinessDelivery
  import opened ReadinessBatch

  // ---------- calls in a run ----------

  /** Thread `t` starts at label `j` and is still in its call at `i`. */
  ghost predicate CallLasts(states: seq<State>, labels: seq<Label>, t: nat, j: nat, i: nat) {
    Run(states, labels) && j < i <= |labels| && forall m :: j < m <= i ==> t in states[m].threads
  }

  /** The call ends with label `i`. */
  ghost predicate CallReturns(states: seq<State>, labels: seq<Label>, t: nat, j: nat, i: nat) {
    CallLasts(states, labels, t, j, i) && i < |labels| && t !in states[i + 1].threads
  }

  lemma OtherStepKeeps(s: State, l: Label, t: nat)
    requires Enabled(s, l) && t in s.threads && l != StepThread(t)
    ensures t in Do(s, l).threads && Do(s, l).threads[t] == s.threads[t]
  {
    if l.StepThread? {
      ThreadCarries(s, l.t);
    } else if l.StepPoller? {
      PollerLeaves(s);
    }
  }

  lemma LocalStepIs(s: State, t: nat)
    requires Runs(s, t) && IsLocal(s.threads[t])
    ensures var o := LocalStep(s.nodes[s.threads[t].n], t, s.threads[t]);
            && ThreadStep(s, t).nodes == s.nodes[s.threads[t].n := o.node]
            && (t in ThreadStep(s, t).threads <==> o.pc.Some?)
            && (o.pc.Some? ==> ThreadStep(s, t).threads[t] == o.pc.value)
  {
  }

  /** A node once dropped stays so. */
  lemma DroppedStays(s: State, l: Label, n: nat)
    requires Reachable(s) && Enabled(s, l) && n in s.nodes && n in Do(s, l).nodes && s.nodes[n].word.dropped
    ensures Do(s, l).nodes[n].word.dropped
  {
    WordChanges(s, l, n);
    if Acts(s, l, n) {
      AfterPollMeans(s.nodes[n].word, AfterPoll(s.nodes[n].word));
    }
  }

  // ---------- set_readiness ----------

  /** One access of `set_readiness`: the load only loads; the compare-exchange gives up on a dropped node, tries again
      with the word it has found, or takes effect. If it sets the queued bit, its thread is on its way to push. */
  lemma SetMoves(node: ReadinessNode, t: nat, pc: Pc)
    requires pc.SetLoad? || pc.SetSwap?
    ensures var o := SetStep(node, t, pc);
            match pc
            case SetLoad(n, h, ready, follow) => o.node == node && o.pc == Some(SetSwap(n, h, ready, follow, node.word))
            case SetSwap(n, h, ready, follow, seen) =>
              if seen.dropped then o.node == node
              else if node.word != seen then o.node == node && o.pc == Some(SetSwap(n, h, ready, follow, node.word))
              else
                && HasReadiness(node.word, o.node.word, ready)
                && (!node.word.queued && o.node.word.queued ==> o.pc == Some(Route(n, h, FromSet(follow))))
  {
    if pc.SetSwap? {
      WithReadinessMeans(pc.seen, pc.ready, WithReadiness(pc.seen, pc.ready));
    }
  }

  /** The call has its argument still to install; what it has last seen dropped is dropped. */
  predicate SetPending(s: State, t: nat, n: nat, h: nat, ready: Bits4) {
    && t in s.threads && n in s.nodes
    && (|| s.threads[t] == SetLoad(n, h, ready, Return)
        || (&& s.threads[t].SetSwap? && s.threads[t] == SetSwap(n, h, ready, Return, s.threads[t].seen)
            && (s.threads[t].seen.dropped ==> s.nodes[n].word.dropped)))
  }

  /** The step installs the readiness, or the node was dropped. */
  predicate SetEffect(s: State, s': State, n: nat, ready: Bits4) {
    && n in s.nodes
    && (s.nodes[n].word.dropped || (n in s'.nodes && HasReadiness(s.nodes[n].word, s'.nodes[n].word, ready)))
  }

  ghost predicate SetDone(states: seq<State>, labels: seq<Label>, t: nat, n: nat, ready: Bits4, j: nat, i: nat)
    requires |states| == |labels| + 1
  {
    exists m :: j < m < i && m < |labels| && labels[m] == StepThread(t) && SetEffect(states[m], states[m + 1], n, ready)
  }

  lemma SetStepsOn(s: State, t: nat, n: nat, h: nat, ready: Bits4)
    requires Runs(s, t) && SetPending(s, t, n, h, ready)
    ensures SetPending(ThreadStep(s, t), t, n, h, ready) || SetEffect(s, ThreadStep(s, t), n, ready)
  {
    LocalStepIs(s, t);
    SetMoves(s.nodes[n], t, s.threads[t]);
  }

  lemma SetWaits(s: State, l: Label, t: nat, n: nat, h: nat, ready: Bits4)
    requires Reachable(s) && Enabled(s, l) && l != StepThread(t) && SetPending(s, t, n, h, ready)
    ensures SetPending(Do(s, l), t, n, h, ready)
  {
    OtherStepKeeps(s, l, t);
    StepIsReachable(s, l);
    ReachableIsSafe(Do(s, l));
    SafeThread(Do(s, l), t);
    if s.nodes[n].word.dropped {
      DroppedStays(s, l, n);
    }
  }

  lemma {:induction false} SetProgress(states: seq<State>, labels: seq<Label>, t: nat, n: nat, h: nat, ready: Bits4,
                                       j: nat, i: nat)
    requires CallLasts(states, labels, t, j, i) && labels[j] == CallSet(t, n, h, ready)
    ensures SetPending(states[i], t, n, h, ready) || SetDone(states, labels, t, n, ready, j, i)
  {
    if i == j + 1 {
      assert Enabled(states[j], labels[j]) && states[i] == Do(states[j], labels[j]);
      SetStarts(states[j], labels[j]);
    } else {
      SetProgress(states, labels, t, n, h, ready, j, i - 1);
      if SetPending(states[i - 1], t, n, h, ready) {
        SetGoesOn(states, labels, t, n, h, ready, i - 1);
      } else {
        SetDoneStays(states, labels, t, n, ready, j, i - 1);
      }
    }
  }

  lemma SetStarts(s: State, l: Label)
    requires Enabled(s, l) && l.CallSet?
    ensures SetPending(Do(s, l), l.t, l.n, l.h, l.ready)
  {
  }

  lemma SetDoneStays(states: seq<State>, labels: seq<Label>, t: nat, n: nat, ready: Bits4, j: nat, i: nat)
    requires |states| == |labels| + 1 && SetDone(states, labels, t, n, ready, j, i)
    ensures SetDone(states, labels, t, n, ready, j, i + 1)
  {
    var m :| j < m < i && m < |labels| && labels[m] == StepThread(t) && SetEffect(states[m], states[m + 1], n, ready);
    assert labels[m] == StepThread(t) && SetEffect(states[m], states[m + 1], n, ready);
  }

  lemma SetGoesOn(states: seq<State>, labels: seq<Label>, t: nat, n: nat, h: nat, ready: Bits4, m: nat)
    requires Run(states, labels) && m < |labels| && SetPending(states[m], t, n, h, ready)
    ensures || SetPending(states[m + 1], t, n, h, ready)
            || (labels[m] == StepThread(t) && SetEffect(states[m], states[m + 1], n, ready))
  {
    RunReaches(states, labels, m);
    if labels[m] == StepThread(t) {
      SetStepsOn(states[m], t, n, h, ready);
    } else {
      SetWaits(states[m], labels[m], t, n, h, ready);
    }
  }

  /** A `set_readiness` that has returned has installed the readiness it was given, or has found its node dropped. */
  lemma SetTakesEffect(states: seq<State>, labels: seq<Label>, t: nat, n: nat, h: nat, ready: Bits4, j: nat, i: nat)
    requires CallReturns(states, labels, t, j, i) && labels[j] == CallSet(t, n, h, ready)
    ensures SetDone(states, labels, t, n, ready, j, i + 1)
  {
    SetProgress(states, labels, t, n, h, ready, j, i);
    if SetPending(states[i], t, n, h, ready) {
      SetGoesOn(states, labels, t, n, h, ready, i);
    }
  }

  // ---------- update ----------

  /** The call has still to bind the node, take the lock, store the token, or install its arguments. */
  predicate UpdatePending(s: State, t: nat, n: nat, args: Args) {
    && t in s.threads && s.threads[t].n == n && Updates(s.threads[t]) && s.threads[t].args == args
    && !s.threads[t].UpdUnlock? && !s.threads[t].UpdJob?
  }

  /** The registration a call asked for, token included. */
  predicate IsRegistered(node: ReadinessNode, node': ReadinessNode, args: Args) {
    && HasRegistration(node.word, node'.word, node'.word.wr, args.interest, args.opt)
    && node'.Token(node'.word.wr) == args.token && node'.current == args.token && node'.bound
  }

  /** The step installs the registration, or finds another `update` at work on the node, which leaves the call nothing
      to do (lines 852-855). */
  predicate UpdateEffect(s: State, s': State, t: nat, n: nat, args: Args) {
    && n in s.nodes && t in s.threads
    && (|| (s.threads[t].UpdLock? && s.nodes[n].locked)
        || (n in s'.nodes && IsRegistered(s.nodes[n], s'.nodes[n], args)))
  }

  ghost predicate UpdateDone(states: seq<State>, labels: seq<Label>, t: nat, n: nat, args: Args, j: nat, i: nat)
    requires |states| == |labels| + 1
  {
    exists m ::
        j < m < i && m < |labels| && labels[m] == StepThread(t) && UpdateEffect(states[m], states[m + 1], t, n, args)
  }

  /** One access of `update`: every one leads on to the next, until the compare-exchange takes effect; one that fails is
      tried again with the word it has found. */
  lemma UpdateMoves(node: ReadinessNode, t: nat, pc: Pc)
    requires Updates(pc) && !pc.UpdUnlock? && !pc.UpdJob?
    requires pc.UpdSwap? ==> node.Token(pc.pos) == pc.args.token && node.bound
    ensures var o := UpdateStep(node, t, pc);
            if pc.UpdLock? && node.locked then o.node == node && o.pc == None
            else if pc.UpdSwap? && node.word == pc.seen then
              && IsRegistered(node, o.node, pc.args) && o.node.word.wr == pc.pos
              && o.pc == Some(UpdUnlock(pc.n, pc.args, !node.word.queued && o.node.word.queued))
            else
              && o.pc.Some? && Updates(o.pc.value) && o.pc.value.n == pc.n && o.pc.value.args == pc.args
              && !o.pc.value.UpdUnlock? && !o.pc.value.UpdJob? && o.node.word == node.word
              && (pc.UpdSwap? ==> o.pc.value == UpdSwap(pc.n, pc.args, node.word, pc.base, pc.pos))
  {
    if pc.UpdSwap? {
      WithRegistrationMeans(pc.seen, pc.pos, pc.args.interest, pc.args.opt,
                            WithRegistration(pc.seen, pc.pos, pc.args.interest, pc.args.opt));
    }
  }

  lemma UpdateStepsOn(s: State, t: nat, n: nat, args: Args)
    requires Safe(s) && Runs(s, t) && UpdatePending(s, t, n, args)
    ensures UpdatePending(ThreadStep(s, t), t, n, args) || UpdateEffect(s, ThreadStep(s, t), t, n, args)
  {
    SafeThread(s, t);
    LocalStepIs(s, t);
    UpdateMoves(s.nodes[n], t, s.threads[t]);
  }

  lemma UpdateGoesOn(states: seq<State>, labels: seq<Label>, t: nat, n: nat, args: Args, m: nat)
    requires Run(states, labels) && m < |labels| && UpdatePending(states[m], t, n, args)
    ensures || UpdatePending(states[m + 1], t, n, args)
            || (labels[m] == StepThread(t) && UpdateEffect(states[m], states[m + 1], t, n, args))
  {
    if labels[m] == StepThread(t) {
      RunReaches(states, labels, m);
      ReachableIsSafe(states[m]);
      UpdateStepsOn(states[m], t, n, args);
    } else {
      OtherStepKeeps(states[m], labels[m], t);
    }
  }

  lemma UpdateStarts(s: State, l: Label)
    requires Enabled(s, l) && l.CallUpdate?
    ensures UpdatePending(Do(s, l), l.t, l.n, l.args)
  {
  }

  lemma UpdateDoneStays(states: seq<State>, labels: seq<Label>, t: nat, n: nat, args: Args, j: nat, i: nat)
    requires |states| == |labels| + 1 && UpdateDone(states, labels, t, n, args, j, i)
    ensures UpdateDone(states, labels, t, n, args, j, i + 1)
  {
    var m :| j < m < i && m < |labels| && labels[m] == StepThread(t)
             && UpdateEffect(states[m], states[m + 1], t, n, args);
    assert labels[m] == StepThread(t) && UpdateEffect(states[m], states[m + 1], t, n, args);
  }

  lemma {:induction false} UpdateProgress(states: seq<State>, labels: seq<Label>, t: nat, n: nat, args: Args, j: nat,
                                          i: nat)
    requires CallLasts(states, labels, t, j, i) && labels[j] == CallUpdate(t, n, args)
    ensures UpdatePending(states[i], t, n, args) || UpdateDone(states, labels, t, n, args, j, i)
  {
    if i == j + 1 {
      assert Enabled(states[j], labels[j]) && states[i] == Do(states[j], labels[j]);
      UpdateStarts(states[j], labels[j]);
    } else {
      UpdateProgress(states, labels, t, n, args, j, i - 1);
      if UpdatePending(states[i - 1], t, n, args) {
        UpdateGoesOn(states, labels, t, n, args, i - 1);
      } else {
        UpdateDoneStays(states, labels, t, n, args, j, i - 1);
      }
    }
  }

  /** An `update` that has returned has installed its interest, its options and its token, empty ones included, or has
      found another `update` at work. */
  lemma UpdateTakesEffect(states: seq<State>, labels: seq<Label>, t: nat, n: nat, args: Args, j: nat, i: nat)
    requires CallReturns(states, labels, t, j, i) && labels[j] == CallUpdate(t, n, args)
    ensures UpdateDone(states, labels, t, n, args, j, i + 1)
  {
    UpdateProgress(states, labels, t, n, args, j, i);
    if UpdatePending(states[i], t, n, args) {
      UpdateGoesOn(states, labels, t, n, args, i);
    }
  }

  // ---------- dropping handles ----------

  predicate DropPending(s: State, t: nat, n: nat, h: nat) {
    && t in s.threads && s.threads[t].n == n && DropsHandle(s.threads[t]) && !s.threads[t].DropFlag?
    && HandleOf(s.threads[t]) == h
  }

  /** The node is flagged as dropped, and its word otherwise left alone. */
  predicate FlagEffect(s: State, s': State, n: nat) {
    n in s.nodes && n in s'.nodes && HasDropped(s.nodes[n].word, s'.nodes[n].word)
  }

  /** Handle `h` is gone with its reference, and the node with the last one. */
  predicate ReleaseEffect(s: State, s': State, n: nat, h: nat) {
    && n in s.nodes && h in s.nodes[n].handles
    && if s.nodes[n].refs == 1 then n !in s'.nodes
       else
         && n in s'.nodes && s'.nodes[n].refs == s.nodes[n].refs - 1
         && s'.nodes[n].handles == s.nodes[n].handles - {h} && s'.nodes[n].word == s.nodes[n].word
  }

  lemma FlagStep(s: State, t: nat, n: nat)
    requires Runs(s, t) && s.threads[t] == DropFlag(n)
    ensures DropPending(ThreadStep(s, t), t, n, 0) && FlagEffect(s, ThreadStep(s, t), n)
  {
    LocalStepIs(s, t);
    FlaggedDroppedMeans(s.nodes[n].word, FlaggedDropped(s.nodes[n].word));
  }

  lemma DropStepsOn(s: State, t: nat, n: nat, h: nat)
    requires Safe(s) && Runs(s, t) && DropPending(s, t, n, h)
    ensures if t in ThreadStep(s, t).threads then DropPending(ThreadStep(s, t), t, n, h)
            else ReleaseEffect(s, ThreadStep(s, t), n, h)
  {
    SafeThread(s, t);
    var pc := s.threads[t];
    if pc.Route? {
      LocalStepIs(s, t);
    } else if pc.Push? {
      DropPushes(s, t);
    }
  }

  lemma DropPushes(s: State, t: nat)
    requires Runs(s, t) && s.threads[t].Push? && s.threads[t].origin.FromDrop?
    ensures t in PushStep(s, t).threads
    ensures DropPending(PushStep(s, t), t, s.threads[t].n, s.threads[t].h)
  {
  }

  lemma {:induction false} DropProgress(states: seq<State>, labels: seq<Label>, t: nat, n: nat, h: nat, j: nat, i: nat)
    requires CallLasts(states, labels, t, j, i) && DropPending(states[j + 1], t, n, h)
    ensures DropPending(states[i], t, n, h)
  {
    if i > j + 1 {
      DropProgress(states, labels, t, n, h, j, i - 1);
      DropGoesOn(states, labels, t, n, h, i - 1);
    }
  }

  lemma DropGoesOn(states: seq<State>, labels: seq<Label>, t: nat, n: nat, h: nat, m: nat)
    requires Run(states, labels) && m < |labels| && DropPending(states[m], t, n, h)
    ensures if t in states[m + 1].threads then DropPending(states[m + 1], t, n, h)
            else ReleaseEffect(states[m], states[m + 1], n, h)
  {
    if labels[m] == StepThread(t) {
      RunReaches(states, labels, m);
      ReachableIsSafe(states[m]);
      DropStepsOn(states[m], t, n, h);
    } else {
      OtherStepKeeps(states[m], labels[m], t);
    }
  }

  /** Dropping a `SetReadiness` gives back its handle and its reference, with the call's last step. */
  lemma SetReadinessIsDropped(states: seq<State>, labels: seq<Label>, t: nat, n: nat, h: nat, j: nat, i: nat)
    requires CallReturns(states, labels, t, j, i) && labels[j] == CallDropSetReadiness(t, n, h)
    ensures ReleaseEffect(states[i], states[i + 1], n, h)
  {
    assert Enabled(states[j], labels[j]) && states[j + 1] == Do(states[j], labels[j]);
    assert states[j + 1].threads[t] == Release(n, h);
    DropProgress(states, labels, t, n, h, j, i);
    DropGoesOn(states, labels, t, n, h, i);
  }

  /** The call is about to flag the node, or has done so at `m`. */
  ghost predicate Flags(states: seq<State>, labels: seq<Label>, t: nat, n: nat, j: nat, i: nat)
    requires |states| == |labels| + 1
  {
    exists m :: j < m < i && m < |labels| && labels[m] == StepThread(t) && FlagEffect(states[m], states[m + 1], n)
  }

  lemma {:induction false} FlagProgress(states: seq<State>, labels: seq<Label>, t: nat, n: nat, j: nat, i: nat)
    requires CallLasts(states, labels, t, j, i) && labels[j] == CallDropRegistration(t, n)
    ensures || states[i].threads[t] == DropFlag(n)
            || (Flags(states, labels, t, n, j, i) && DropPending(states[i], t, n, 0))
  {
    if i == j + 1 {
      assert Enabled(states[j], labels[j]) && states[i] == Do(states[j], labels[j]);
    } else {
      FlagProgress(states, labels, t, n, j, i - 1);
      FlagGoesOn(states, labels, t, n, j, i - 1);
    }
  }

  lemma FlagGoesOn(states: seq<State>, labels: seq<Label>, t: nat, n: nat, j: nat, m: nat)
    requires CallLasts(states, labels, t, j, m) && m < |labels|
    requires states[m].threads[t] == DropFlag(n)
             || (Flags(states, labels, t, n, j, m) && DropPending(states[m], t, n, 0))
    ensures if t !in states[m + 1].threads then
              Flags(states, labels, t, n, j, m + 1) && ReleaseEffect(states[m], states[m + 1], n, 0)
            else
              || states[m + 1].threads[t] == DropFlag(n)
              || (Flags(states, labels, t, n, j, m + 1) && DropPending(states[m + 1], t, n, 0))
  {
    if states[m].threads[t] == DropFlag(n) {
      if labels[m] == StepThread(t) {
        FlagStep(states[m], t, n);
        assert FlagEffect(states[m], states[m + 1], n);
      } else {
        OtherStepKeeps(states[m], labels[m], t);
      }
    } else {
      DropGoesOn(states, labels, t, n, 0, m);
      var k :| j < k < m && k < |labels| && labels[k] == StepThread(t) && FlagEffect(states[k], states[k + 1], n);
      assert labels[k] == StepThread(t) && FlagEffect(states[k], states[k + 1], n);
    }
  }

  /** Dropping a `Registration` flags its node as dropped, and gives back its handle and its reference with the call's
      last step. */
  lemma RegistrationIsDropped(states: seq<State>, labels: seq<Label>, t: nat, n: nat, j: nat, i: nat)
    requires CallReturns(states, labels, t, j, i) && labels[j] == CallDropRegistration(t, n)
    ensures Flags(states, labels, t, n, j, i + 1) && ReleaseEffect(states[i], states[i + 1], n, 0)
  {
    FlagProgress(states, labels, t, n, j, i);
    FlagGoesOn(states, labels, t, n, j, i);
  }

  // ---------- wakeups ----------

  /** A push that has stored its link goes on to wake the poller exactly if it has replaced the sleep marker. */
  lemma WakesExactlySleepers(s: State, t: nat)
    requires Runs(s, t) && s.threads[t].Push? && s.threads[t].phase.Link?
    ensures t in ThreadStep(s, t).threads && ThreadStep(s, t).threads[t].Wake? <==> s.threads[t].phase.prev == Sleep
  {
  }

  /** The pipe is filled exactly by a wakeup, and emptied exactly by the cleanup; a poller that is notified cleans up
      before its pass. */
  lemma PipeIsCleaned(s: State, l: Label)
    requires Enabled(s, l)
    ensures Do(s, l).pipe <==> (s.pipe && !l.CleanPipe?) || (l.StepThread? && s.threads[l.t].Wake?)
    ensures l.SelectNotified? ==> Do(s, l).poller.Cleanup? && s.pipe
    ensures s.poller.Cleanup? && !Do(s, l).poller.Cleanup? ==> l.CleanPipe? && Do(s, l).poller.PassReady?
  {
    if l.StepThread? {
      ThreadFillsPipe(s, l.t);
    } else if l.StepPoller? {
      PollerLeavesPipe(s);
    }
  }

  lemma ThreadFillsPipe(s: State, t: nat)
    requires Runs(s, t)
    ensures ThreadStep(s, t).pipe <==> s.pipe || s.threads[t].Wake?
    ensures ThreadStep(s, t).poller == s.poller
  {
  }

  lemma PollerLeavesPipe(s: State)
    requires Enabled(s, StepPoller)
    ensures StepOfPoller(s).pipe == s.pipe
  {
    if s.poller.PPush? {
      PollerPushLeavesPipe(s, PollerPushStep(s));
    } else if NodeReady(s) {
      TurnLeavesPipe(s, NodeStep(s));
    }
  }

  lemma PollerPushLeavesPipe(s: State, s': State)
    requires s.poller.PPush? && s' == PollerPushStep(s)
    ensures s'.pipe == s.pipe
  {
  }

  lemma TurnLeavesPipe(s: State, s': State)
    requires NodeReady(s) && s' == NodeStep(s)
    ensures s'.pipe == s.pipe
  {
  }

  // ---------- handles ----------

  predicate IsLive(s: State, n: nat, h: nat) {
    n in s.nodes && h in s.nodes[n].handles && s.nodes[n].handles[h].Live?
  }

  predicate DropsIt(l: Label, n: nat, h: nat) {
    (l.CallDropRegistration? && l.n == n && h == 0) || (l.CallDropSetReadiness? && l.n == n && l.h == h)
  }

  /** A new node starts as asked: nothing signalled, two handles, the token, interest and options given or none, and a
      reference for each handle, and one for the queue if it is bound to one. */
  lemma CreatedAsAsked(s: State, l: Label)
    requires Enabled(s, l) && (l.New2? || l.NewPriv? || l.EnqueueJob?)
    ensures var s' := Do(s, l);
            && IsLive(s', l.n, 0) && IsLive(s', l.n, 1)
            && var node := s'.nodes[l.n]; var w := node.word;
               && |node.handles| == 2 && w.readiness == 0 && !w.queued && !w.dropped && !node.locked
               && (l.NewPriv? ==>
                     && w.interest == l.interest && w.opt == l.opt && node.bound && node.refs == 3
                     && node.Token(w.rd) == l.token && node.Token(w.wr) == l.token)
               && (!l.NewPriv? ==> w.interest == 0 && w.opt == 0 && !node.bound && node.refs == 2)
  {
  }

  /** A clone is a live handle, with a reference of its own. */
  lemma CloneIsLive(s: State, n: nat, h: nat, copy: nat)
    requires Reachable(s) && Enabled(s, Clone(n, h, copy))
    ensures var s' := Do(s, Clone(n, h, copy));
            && IsLive(s', n, copy) && !IsLive(s, n, copy)
            && s'.nodes[n].refs == s.nodes[n].refs + 1 && |s'.nodes[n].handles| == |s.nodes[n].handles| + 1
  {
  }

  /** A handle that nobody drops stays live, and keeps its node alive with it. */
  lemma LiveHandleStays(s: State, l: Label, n: nat, h: nat)
    requires Reachable(s) && Enabled(s, l) && IsLive(s, n, h) && !DropsIt(l, n, h)
    ensures IsLive(Do(s, l), n, h)
  {
    ReachableIsSafe(s);
    SafeNode(s, n);
    if l.StepThread? {
      ThreadKeepsHandle(s, l.t, n, h);
    } else if l.StepPoller? {
      PollerKeepsHandle(s, n, h);
    }
  }

  lemma ThreadKeepsHandle(s: State, t: nat, n: nat, h: nat)
    requires Safe(s) && Runs(s, t) && IsLive(s, n, h)
    ensures IsLive(ThreadStep(s, t), n, h)
  {
    var pc := s.threads[t];
    SafeIsHere(s, t);
    if IsLocal(pc) {
      LocalStepIs(s, t);
      LocalKeepsHandles(s.nodes[pc.n], t, pc);
    } else if pc.Push? {
      PushKeeps(s, PushStep(s, t), t, n);
    } else if pc.GiveBack? {
      assert Holds(s, ThePoller);
      ClosedMeansClosing(s);
      QueueRefCounted(s, pc.n);
      GivenBackNode(s.q, s.nodes[pc.n], t, pc);
    } else if pc.Release? && s.nodes[pc.n].refs == 1 {
      LastReference(s.q, s.nodes[pc.n], t, pc);
    }
  }

  lemma LocalKeepsHandles(node: ReadinessNode, t: nat, pc: Pc)
    requires IsLocal(pc)
    ensures LocalStep(node, t, pc).node.handles == node.handles
  {
    if Updates(pc) {
      UpdateKeepsHandles(node, t, pc);
    }
  }

  lemma UpdateKeepsHandles(node: ReadinessNode, t: nat, pc: Pc)
    requires Updates(pc)
    ensures UpdateStep(node, t, pc).node.handles == node.handles
  {
  }

  lemma PollerKeepsHandle(s: State, n: nat, h: nat)
    requires Safe(s) && Enabled(s, StepPoller) && IsLive(s, n, h) && NodeOk(s.nodes[n])
    ensures IsLive(StepOfPoller(s), n, h)
  {
    PollerChangesNode(s, n);
    PollerReleases(s, n);
    if s.nodes[n].refs == 1 {
      NoHandlesWithRef(s.nodes[n], h);
    }
  }

  /** A node that the queue's reference and a handle keep alive has at least two references. */
  lemma NoHandlesWithRef(node: ReadinessNode, h: nat)
    requires NodeOk(node) && h in node.handles && node.refs == 1
    ensures !node.qref.Held?
  {
  }

  // ---------- the destructor ----------

  /** The destructor's loop ends, by way of the sleep marker if that is the tail, exactly at a marker with a null link:
      elsewhere it goes on, also after `Inconsistent`. */
  lemma DestructorStops(s: State)
    requires Reachable(s) && Closing(s.poller) && Enabled(s, StepPoller) && !s.poller.ClearReset?
    requires !s.poller.ClearSwap?
    ensures var poller' := StepOfPoller(s).poller;
            poller'.Dead? || poller'.ClearReset? <==>
              s.poller == DqLoad(InDrop) && s.q.tail in {End, Sleep, Closed} && s.q.Next(s.q.tail) == Null
  {
    ReachableIsSafe(s);
    assert Holds(s, ThePoller);
    if s.poller.PPush? {
      PushGoesOn(s, PollerPushStep(s));
    } else if !s.poller.Drain? {
      SearchStops(s, DequeueStep(s));
    }
  }

  lemma PushGoesOn(s: State, s': State)
    requires s.poller.PPush? && s' == PollerPushStep(s)
    ensures !s'.poller.Dead? && !s'.poller.ClearReset?
  {
  }

  lemma SearchStops(s: State, s': State)
    requires s.poller.DqLoad? || s.poller.DqMarker? || s.poller.DqHead? || s.poller.DqRetry?
    requires PollerOk(s) && Closing(s.poller) && s' == DequeueStep(s)
    ensures s'.poller.Dead? || s'.poller.ClearReset? <==>
              s.poller == DqLoad(InDrop) && s.q.tail in {End, Sleep, Closed} && s.q.Next(s.q.tail) == Null
  {
  }
}
