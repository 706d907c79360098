/** What the invariant means: the properties of the readiness queue, for every reachable state and every step. */
module ReadinessTheorems {
  import opened ReadinessWord
  import opened MarkerQueue
  import opened Readiness
  import opened ReadinessInvariant
  import opened ReadinessThreads
  import opened ReadinessPoller
  import opened ReadinessSafety

  ghost predicate EndsRun(s: State, states: seq<State>, labels: seq<Label>) {
    Run(states, labels) && states[|states| - 1] == s
  }

  ghost predicate Reachable(s: State) {
    exists states, labels :: EndsRun(s, states, labels)
  }

  lemma ReachableIsSafe(s: State)
    requires Reachable(s)
    ensures Safe(s)
  {
    var states, labels :| EndsRun(s, states, labels);
    RunSafe(states, labels, |labels|);
  }

  lemma StepIsReachable(s: State, l: Label)
    requires Reachable(s) && Enabled(s, l)
    ensures Reachable(Do(s, l))
  {
    var states, labels :| EndsRun(s, states, labels);
    var states' := states + [Do(s, l)];
    var labels' := labels + [l];
    forall i | 0 <= i < |labels'|
      ensures Enabled(states'[i], labels'[i]) && states'[i + 1] == Do(states'[i], labels'[i])
    {
      if i < |labels| {
        assert labels'[i] == labels[i] && states'[i] == states[i] && states'[i + 1] == states[i + 1];
      }
    }
    assert EndsRun(Do(s, l), states', labels');
  }

  // ---------- the queue is a FIFO ----------

  datatype FifoStep = Nothing | Pushed(n: nat) | Popped(n: nat)

  /** One step of a FIFO with a record of what went in and what came out. */
  predicate FifoStepOk(items: seq<nat>, items': seq<nat>, pushed: seq<nat>, pushed': seq<nat>,
                       popped: seq<nat>, popped': seq<nat>, step: FifoStep) {
    match step
    case Nothing => items' == items && pushed' == pushed && popped' == popped
    case Pushed(n) => items' == items + [n] && pushed' == pushed + [n] && popped' == popped
    case Popped(n) => items == [n] + items' && pushed' == pushed && popped' == popped + [n]
  }

  /** The step of the FIFO that a step of the machine stands for: a head swap that installs a heap node pushes it,
      `Data` pops one, and everything else, `Inconsistent` and `Empty` included, does nothing. */
  function FifoView(s: State, s': State): FifoStep {
    if s'.q.head != s.q.head && s'.q.head.Node? then Pushed(s'.q.head.id)
    else if s'.q.tail != s.q.tail && s.q.tail.Node? then Popped(s.q.tail.id)
    else Nothing
  }

  lemma AdvanceStep(s: State, s': State)
    requires QueueOk(s) && s.q.Next(s.q.tail) != Null && s'.q == Advance(s.q)
    ensures FifoStepOk(Data(s.q.chain), Data(s'.q.chain), s.q.pushed, s'.q.pushed, s.q.popped, s'.q.popped,
                       FifoView(s, s'))
  {
    AdvanceInv(s.q);
    assert s.q.chain[1] != s.q.chain[0];
  }

  lemma SwapStep(s: State, s': State, p: Ptr, actor: Actor)
    requires QueueOk(s) && s'.q == SwapHead(s.q, p, actor) && p !in s.q.chain
    ensures FifoStepOk(Data(s.q.chain), Data(s'.q.chain), s.q.pushed, s'.q.pushed, s.q.popped, s'.q.popped,
                       FifoView(s, s'))
  {
    DataAppend(s.q.chain, p);
    assert s.q.head in s.q.chain;
  }

  lemma ReplaceStep(s: State, s': State, marker: Ptr)
    requires QueueOk(s) && s'.q == ReplaceMarker(s.q, marker) && Marker(marker) && s.q.head == s.q.tail
    requires Marker(s.q.tail)
    ensures FifoStepOk(Data(s.q.chain), Data(s'.q.chain), s.q.pushed, s'.q.pushed, s.q.popped, s'.q.popped,
                       FifoView(s, s'))
  {
    assert |s.q.chain| == 1;
  }

  /** Which atomic access a poller step makes to the queue. */
  ghost predicate SameList(q: Queue, q': Queue) {
    q'.chain == q.chain && q'.head == q.head && q'.tail == q.tail && q'.pushed == q.pushed && q'.popped == q.popped
  }

  lemma DequeueAccess(s: State, s': State)
    requires s.poller.DqLoad? || s.poller.DqMarker? || s.poller.DqHead? || s.poller.DqRetry?
    requires s' == DequeueStep(s)
    ensures SameList(s.q, s'.q) || (s'.q == Advance(s.q) && s.q.Next(s.q.tail) != Null)
  {
  }

  lemma MarkerAccess(s: State, s': State)
    requires PollerOk(s) && Enabled(s, StepPoller) && s' == StepOfPoller(s)
    requires s.poller.PrepTail? || s.poller.PrepSwap? || s.poller.ClearReset? || s.poller.ClearSwap?
    ensures || SameList(s.q, s'.q)
            || (s'.q == ReplaceMarker(s.q, s'.q.head) && Marker(s'.q.head) && s.q.head == s.q.tail && Marker(s.q.tail))
  {
  }

  lemma PushAccess(s: State, s': State)
    requires PollerOk(s) && s.poller.PPush? && s' == PollerPushStep(s)
    ensures SameList(s.q, s'.q) || (s'.q == SwapHead(s.q, s.poller.p, Poller) && s.poller.p !in s.q.chain)
  {
    if s.poller.phase.Swap? {
      PushSwapAccess(s, s', s.poller.p, s.poller.phase.prev, s.poller.after);
    }
  }

  lemma PushSwapAccess(s: State, s': State, p: Ptr, prev: Ptr, after: After)
    requires s.poller == PPush(p, Swap(prev), after) && PushOk(s, p, Swap(prev), after) && s' == PollerPushStep(s)
    ensures SameList(s.q, s'.q) || (s'.q == SwapHead(s.q, p, Poller) && p !in s.q.chain)
  {
  }

  lemma PollerAccess(s: State, s': State)
    requires Safe(s) && Enabled(s, StepPoller) && s' == StepOfPoller(s)
    ensures || SameList(s.q, s'.q)
            || (s'.q == Advance(s.q) && s.q.Next(s.q.tail) != Null)
            || (s.poller.PPush? && s'.q == SwapHead(s.q, s.poller.p, Poller) && s.poller.p !in s.q.chain)
            || (s'.q == ReplaceMarker(s.q, s'.q.head) && Marker(s'.q.head) && s.q.head == s.q.tail && Marker(s.q.tail))
  {
    assert Holds(s, ThePoller);
    if s.poller.DqLoad? || s.poller.DqMarker? || s.poller.DqHead? || s.poller.DqRetry? {
      DequeueAccess(s, s');
    } else if s.poller.PPush? {
      PushAccess(s, s');
    } else if s.poller.PrepTail? || s.poller.PrepSwap? || s.poller.ClearReset? || s.poller.ClearSwap? {
      MarkerAccess(s, s');
    } else {
      TurnAccess(s, s');
    }
  }

  lemma TurnAccess(s: State, s': State)
    requires Enabled(s, StepPoller) && s' == StepOfPoller(s) && (NodeReady(s) || s.poller.Drain?)
    ensures SameList(s.q, s'.q)
  {
  }

  /** Every step refines a step of a FIFO. */
  lemma QueueRefinesFifo(s: State, l: Label)
    requires Reachable(s) && Enabled(s, l)
    ensures var s' := Do(s, l);
            FifoStepOk(Data(s.q.chain), Data(s'.q.chain), s.q.pushed, s'.q.pushed, s.q.popped, s'.q.popped,
                       FifoView(s, s'))
  {
    ReachableIsSafe(s);
    assert Holds(s, TheQueue);
    var s' := Do(s, l);
    if l.StepPoller? {
      PollerAccess(s, s');
      if s'.q == Advance(s.q) && s.q.Next(s.q.tail) != Null {
        AdvanceStep(s, s');
      } else if s.poller.PPush? && s'.q == SwapHead(s.q, s.poller.p, Poller) && s.poller.p !in s.q.chain {
        SwapStep(s, s', s.poller.p, Poller);
      } else if s'.q == ReplaceMarker(s.q, s'.q.head) && Marker(s'.q.head) && s.q.head == s.q.tail && Marker(s.q.tail) {
        ReplaceStep(s, s', s'.q.head);
      }
    } else if l.StepThread? {
      ThreadAccess(s, s', l.t);
      var pc := s.threads[l.t];
      if s'.q == SwapHead(s.q, Node(pc.n), Producer(l.t)) && Node(pc.n) !in s.q.chain {
        SwapStep(s, s', Node(pc.n), Producer(l.t));
      }
    }
  }

  lemma ThreadAccess(s: State, s': State, t: nat)
    requires Safe(s) && Runs(s, t) && s' == ThreadStep(s, t)
    ensures || SameList(s.q, s'.q)
            || (s'.q == SwapHead(s.q, Node(s.threads[t].n), Producer(t)) && Node(s.threads[t].n) !in s.q.chain)
  {
    if OnTheWay(s.threads[t]) {
      NotListed(s, t);
    }
  }

  /** Nodes come out in the order of their head swaps, each as often as it was pushed, and none is skipped. */
  lemma PoppedInPushOrder(s: State)
    requires Reachable(s)
    ensures s.q.pushed == s.q.popped + Data(s.q.chain)
    ensures s.q.popped <= s.q.pushed
    ensures forall n :: n in Data(s.q.chain) <==> Node(n) in s.q.chain
  {
    ReachableIsSafe(s);
    assert Holds(s, TheQueue);
    forall n
      ensures n in Data(s.q.chain) <==> Node(n) in s.q.chain
    {
      DataMembers(s.q.chain, n);
    }
  }

  /** What `dequeue_node` hands out is never a marker. */
  lemma DataIsNoMarker(s: State)
    requires Reachable(s) && (s.poller.NodeLoad? || s.poller.Drain?)
    ensures s.poller.p.Node? && s.poller.p.id in s.nodes
  {
    ReachableIsSafe(s);
    assert Holds(s, ThePoller);
  }

  predicate HasData(pc: PollerPc) {
    pc.NodeLoad? || pc.Drain?
  }

  /** The poller is handed a node exactly by the step that pops it, and it is that node. */
  lemma DataIsPopped(s: State, l: Label)
    requires Reachable(s) && Enabled(s, l) && !HasData(s.poller)
    ensures var s' := Do(s, l);
            && (HasData(s'.poller) <==> FifoView(s, s').Popped?)
            && (HasData(s'.poller) ==> s'.poller.p == Node(FifoView(s, s').n))
  {
    var s' := Do(s, l);
    ReachableIsSafe(s);
    if l.StepPoller? {
      PollerHandsOut(s, s');
    } else if l.StepThread? {
      ThreadHandsOut(s, s', l.t);
    }
  }

  lemma ThreadHandsOut(s: State, s': State, t: nat)
    requires Safe(s) && Runs(s, t) && !HasData(s.poller) && s' == ThreadStep(s, t)
    ensures !HasData(s'.poller) && !FifoView(s, s').Popped?
  {
    ThreadAccess(s, s', t);
  }

  lemma PollerHandsOut(s: State, s': State)
    requires Safe(s) && Enabled(s, StepPoller) && s' == StepOfPoller(s) && !HasData(s.poller)
    ensures HasData(s'.poller) <==> FifoView(s, s').Popped?
    ensures HasData(s'.poller) ==> s'.poller.p == Node(FifoView(s, s').n)
  {
    if s.poller.DqLoad? || s.poller.DqMarker? || s.poller.DqRetry? {
      assert Holds(s, TheQueue) && Holds(s, ThePoller);
      DequeueHandsOut(s, s');
    } else {
      OtherHandsOut(s, s');
    }
  }

  lemma OtherHandsOut(s: State, s': State)
    requires Safe(s) && Enabled(s, StepPoller) && s' == StepOfPoller(s)
    requires !HasData(s.poller) && !(s.poller.DqLoad? || s.poller.DqMarker? || s.poller.DqRetry?)
    ensures !HasData(s'.poller) && !FifoView(s, s').Popped?
  {
    if s.poller.PPush? {
      PushHandsOut(s, s');
    } else if s.poller.NodeLoad? || s.poller.NodeSwap? || s.poller.Deliver? {
      TurnHandsOut(s, s');
    } else if s.poller.PrepTail? || s.poller.PrepSwap? {
      assert Holds(s, ThePoller);
      PrepareHandsOut(s, s');
    } else if s.poller.ClearReset? || s.poller.ClearSwap? {
      assert Holds(s, ThePoller);
      ClearHandsOut(s, s');
    }
  }

  lemma PushHandsOut(s: State, s': State)
    requires s.poller.PPush? && s' == PollerPushStep(s)
    ensures !HasData(s'.poller) && !FifoView(s, s').Popped?
  {
  }

  lemma TurnHandsOut(s: State, s': State)
    requires NodeReady(s) && s' == NodeStep(s)
    ensures !HasData(s'.poller) && !FifoView(s, s').Popped?
  {
    if s.poller.NodeSwap? {
      SwapHandsOut(s, s');
    }
  }

  lemma SwapHandsOut(s: State, s': State)
    requires NodeReady(s) && s.poller.NodeSwap? && s' == NodeStep(s)
    ensures !HasData(s'.poller) && !FifoView(s, s').Popped?
  {
  }

  lemma PrepareHandsOut(s: State, s': State)
    requires s.poller.PrepTail? || (s.poller.PrepSwap? && s.q.tail == End)
    requires s' == PrepareStep(s)
    ensures !HasData(s'.poller) && !FifoView(s, s').Popped?
  {
  }

  lemma ClearHandsOut(s: State, s': State)
    requires s.poller.ClearReset? || (s.poller.ClearSwap? && s.q.tail == Sleep)
    requires s' == DequeueStep(s)
    ensures !HasData(s'.poller) && !FifoView(s, s').Popped?
  {
  }

  lemma DequeueHandsOut(s: State, s': State)
    requires QueueOk(s) && PollerOk(s) && (s.poller.DqLoad? || s.poller.DqMarker? || s.poller.DqRetry?)
    requires s' == DequeueStep(s)
    ensures HasData(s'.poller) <==> FifoView(s, s').Popped?
    ensures HasData(s'.poller) ==> s'.poller.p == Node(FifoView(s, s').n)
  {
    assert s.q.tail in s.q.chain;
    ClosedTail(s.q);
    if s.q.Next(s.q.tail) != Null {
      TailMoves(s.q);
    }
    if s.poller.DqLoad? {
      LoadHandsOut(s, s');
    } else {
      RetryHandsOut(s, s');
    }
  }

  lemma TailMoves(q: Queue)
    requires MarkerQueue.Inv(q) && q.Next(q.tail) != Null
    ensures q.Next(q.tail) != q.tail && Advance(q).head == q.head
  {
    AdvanceInv(q);
    assert q.chain[1] != q.chain[0];
  }

  lemma LoadHandsOut(s: State, s': State)
    requires s.poller.DqLoad? && s' == DequeueStep(s) && s.q.tail != Null && s.q.Next(s.q.tail) != s.q.tail
    ensures HasData(s'.poller) <==> FifoView(s, s').Popped?
    ensures HasData(s'.poller) ==> s'.poller.p == Node(FifoView(s, s').n)
  {
  }

  lemma RetryHandsOut(s: State, s': State)
    requires (s.poller.DqMarker? || s.poller.DqRetry?) && s' == DequeueStep(s) && s.q.Next(s.q.tail) != s.q.tail
    requires s.q.tail.Node? || s.q.Next(s.q.tail) == Null
    ensures HasData(s'.poller) <==> FifoView(s, s').Popped?
    ensures HasData(s'.poller) ==> s'.poller.p == Node(FifoView(s, s').n)
  {
  }

  /** `Empty` with no `until` is returned exactly at a marker whose link is null; the FIFO then holds a node if and
      only if the link out of that marker is still owed, so nothing can be reached through completed links. */
  lemma EmptyMeansUnreachable(s: State, c: Ctx)
    requires Reachable(s) && s.poller == DqLoad(c) && Marker(s.q.tail) && s.q.Next(s.q.tail) == Null
    requires s.q.tail != Closed
    ensures (|s.q.chain| > 1) <==> s.q.tail in s.q.owed
    ensures Data(s.q.chain) != [] ==> s.q.tail in s.q.owed
  {
    ReachableIsSafe(s);
    assert Holds(s, TheQueue);
    if |s.q.chain| > 1 {
      assert LinkAt(s.q, 0);
      assert s.q.chain[1] != Null;
    } else {
      assert Data(s.q.chain) == [] + Data(s.q.chain[1..]);
    }
  }

  // ---------- lifetime ----------

  /** The poller may still dereference node `n`. */
  predicate PollerUses(pc: PollerPc, n: nat) {
    || ((pc.NodeLoad? || pc.Drain?) && pc.p == Node(n))
    || ((pc.NodeSwap? || pc.Deliver?) && pc.n == n)
    || (pc.PPush? && (pc.p == Node(n) || (pc.after.ToDeliver? && pc.after.n == n)))
  }

  /** A node that a thread, the list or the poller can reach, or whose link one of them has still to store, is not
      freed, and the reference count is the number of handles, plus one while the queue's reference is outstanding. */
  lemma NoUseAfterFree(s: State)
    requires Reachable(s)
    ensures forall t :: t in s.threads ==> s.threads[t].n in s.nodes
    ensures forall n :: Node(n) in s.q.chain ==> n in s.nodes
    ensures forall n :: PollerUses(s.poller, n) ==> n in s.nodes
    ensures forall t, m ::
              t in s.threads && s.threads[t].Push? && s.threads[t].phase == Link(Node(m)) ==> m in s.nodes
    ensures forall m :: s.poller.PPush? && s.poller.phase == Link(Node(m)) ==> m in s.nodes
    ensures forall n :: n in s.nodes ==>
              s.nodes[n].refs == |s.nodes[n].handles| + (if s.nodes[n].qref.Held? then 1 else 0) && s.nodes[n].refs > 0
  {
    ReachableIsSafe(s);
    assert Holds(s, TheQueue);
    PollerUsesNodes(s);
    forall t, m | t in s.threads && s.threads[t].Push? && s.threads[t].phase == Link(Node(m))
      ensures m in s.nodes
    {
      SafeThread(s, t);
    }
    forall t | t in s.threads
      ensures s.threads[t].n in s.nodes
    {
      SafeThread(s, t);
    }
    forall n | n in s.nodes
      ensures s.nodes[n].refs == |s.nodes[n].handles| + (if s.nodes[n].qref.Held? then 1 else 0) && s.nodes[n].refs > 0
    {
      SafeNode(s, n);
    }
  }

  lemma PollerUsesNodes(s: State)
    requires Safe(s)
    ensures forall n :: PollerUses(s.poller, n) ==> n in s.nodes
    ensures forall m :: s.poller.PPush? && s.poller.phase == Link(Node(m)) ==> m in s.nodes
  {
    assert Holds(s, ThePoller) && Holds(s, TheQueue);
  }

  /** The three places that give the queue's reference back. */
  predicate ReleaseSite(s: State, l: Label, n: nat) {
    || (l.StepThread? && l.t in s.threads && s.threads[l.t].GiveBack? && s.threads[l.t].n == n)
    || (l.StepPoller? && s.poller.NodeSwap? && s.poller.n == n && s.poller.seen.dropped)
    || (l.StepPoller? && s.poller.Drain? && s.poller.p == Node(n))
  }

  /** The queue's reference, once released, is never released again or taken back; it is released at the three
      sites and nowhere else, and every visit to a site releases it. */
  lemma QueueRefReleasedOnce(s: State, l: Label, n: nat)
    requires Reachable(s) && Enabled(s, l) && n in s.nodes
    ensures s.nodes[n].qref.Released? && n in Do(s, l).nodes ==> Do(s, l).nodes[n].qref.Released?
    ensures ReleaseSite(s, l, n) ==> s.nodes[n].qref.Held?
    ensures s.nodes[n].qref.Held? ==>
              (ReleaseSite(s, l, n) <==> n !in Do(s, l).nodes || !Do(s, l).nodes[n].qref.Held?)
  {
    ReachableIsSafe(s);
    SafeNode(s, n);
    if l.StepThread? {
      ThreadReleases(s, l.t, n);
    } else if l.StepPoller? {
      PollerReleases(s, n);
    }
  }

  lemma ThreadReleases(s: State, t: nat, n: nat)
    requires Safe(s) && Runs(s, t) && n in s.nodes
    ensures s.nodes[n].qref.Released? && n in ThreadStep(s, t).nodes ==> ThreadStep(s, t).nodes[n].qref.Released?
    ensures s.threads[t].GiveBack? && s.threads[t].n == n ==> s.nodes[n].qref.Held?
    ensures s.nodes[n].qref.Held? ==>
              ((s.threads[t].GiveBack? && s.threads[t].n == n) <==>
                 n !in ThreadStep(s, t).nodes || !ThreadStep(s, t).nodes[n].qref.Held?)
  {
    var pc := s.threads[t];
    SafeIsHere(s, t);
    if pc.GiveBack? {
      assert Holds(s, ThePoller);
      ClosedMeansClosing(s);
      QueueRefCounted(s, pc.n);
      GivenBackNode(s.q, s.nodes[pc.n], t, pc);
    } else if pc.Push? {
      PushKeeps(s, ThreadStep(s, t), t, n);
    } else if pc.Release? {
      if s.nodes[pc.n].refs == 1 {
        LastReference(s.q, s.nodes[pc.n], t, pc);
      }
      HandleReleaseKeepsRef(s, ThreadStep(s, t), t, n);
    } else if IsLocal(pc) {
      LocalKeepsRef(s.q, s.nodes[pc.n], t, pc);
    }
  }

  /** A push changes of a node only where it is, and how far its job has come. */
  lemma HandleReleaseKeepsRef(s: State, s': State, t: nat, n: nat)
    requires Runs(s, t) && s.threads[t].Release? && n in s.nodes && s' == ReleaseStep(s, t)
    requires s.threads[t].n == n && s.nodes[n].refs == 1 ==> !s.nodes[n].qref.Held?
    ensures n in s'.nodes ==> s'.nodes[n].qref == s.nodes[n].qref
    ensures n !in s'.nodes ==> !s.nodes[n].qref.Held?
  {
  }

  lemma PushKeeps(s: State, s': State, t: nat, n: nat)
    requires Runs(s, t) && s.threads[t].Push? && n in s.nodes && s' == PushStep(s, t)
    ensures n in s'.nodes && s'.nodes[n] == s.nodes[n].(slot := s'.nodes[n].slot, plan := s'.nodes[n].plan)
  {
  }

  lemma LocalKeepsRef(q: Queue, node: ReadinessNode, t: nat, pc: Pc)
    requires Mine(q, node, t, pc) && IsLocal(pc)
    ensures var node' := LocalStep(node, t, pc).node;
            (node.qref.Held? ==> node'.qref.Held?) && (node.qref.Released? ==> node'.qref.Released?)
  {
  }

  /** The poller's compare-exchange on node `n`'s word is about to succeed. */
  predicate Acts(s: State, l: Label, n: nat) {
    && l.StepPoller? && s.poller.NodeSwap? && s.poller.n == n && n in s.nodes
    && !s.poller.seen.dropped && AfterPoll(s.poller.seen) != s.poller.seen && s.nodes[n].word == s.poller.seen
  }

  predicate Delivers(s: State, l: Label, n: nat) {
    l.StepPoller? && s.poller.Deliver? && s.poller.n == n && s.poller.ready != 0
  }

  /** What a step of the poller does to node `n`: it releases it, acts on its word, delivers it, or moves it at most
      between its places. */
  ghost predicate PollerNodeChange(s: State, s': State, n: nat)
    requires n in s.nodes
  {
    var node := s.nodes[n];
    if ReleaseSite(s, StepPoller, n) then
      if node.refs == 1 then n !in s'.nodes
      else n in s'.nodes && s'.nodes[n] == node.(refs := node.refs - 1, qref := Released, slot := Spent)
    else
      && n in s'.nodes
      && var node' := s'.nodes[n];
         if Acts(s, StepPoller, n) then
           node' == node.(word := AfterPoll(node.word), unseen := false,
                          slot := if AfterPoll(node.word).queued then Processing else Idle)
         else if Delivers(s, StepPoller, n) then
           node' == node.(job := NO_JOB, plan := if node.plan.Waiting? then Handed else node.plan)
         else node' == node.(slot := node'.slot)
  }

  lemma DequeueNodeChange(s: State, s': State, n: nat)
    requires s.poller.DqLoad? || s.poller.DqMarker? || s.poller.DqHead? || s.poller.DqRetry?
             || s.poller.ClearReset? || s.poller.ClearSwap?
    requires n in s.nodes && s' == DequeueStep(s)
    ensures PollerNodeChange(s, s', n)
  {
    DequeueNodes(s, s');
    ProcessedNodeChange(s, s', n);
  }

  lemma DequeueNodes(s: State, s': State)
    requires s.poller.DqLoad? || s.poller.DqMarker? || s.poller.DqHead? || s.poller.DqRetry?
             || s.poller.ClearReset? || s.poller.ClearSwap?
    requires s' == DequeueStep(s)
    ensures s'.nodes == s.nodes || s'.nodes == Processed(s.nodes, s.q.tail)
  {
  }

  lemma ProcessedNodeChange(s: State, s': State, n: nat)
    requires s.poller.DqLoad? || s.poller.DqMarker? || s.poller.DqHead? || s.poller.DqRetry?
             || s.poller.ClearReset? || s.poller.ClearSwap?
    requires n in s.nodes && (s'.nodes == s.nodes || s'.nodes == Processed(s.nodes, s.q.tail))
    ensures PollerNodeChange(s, s', n)
  {
  }

  lemma PushNodeChange(s: State, s': State, n: nat)
    requires s.poller.PPush? && n in s.nodes && s' == PollerPushStep(s)
    requires s.poller.phase == Swap(Closed) ==> s.poller.p == End
    ensures PollerNodeChange(s, s', n)
  {
  }

  lemma SwapNodeChange(s: State, s': State, n: nat)
    requires NodeReady(s) && n in s.nodes && s.poller.NodeSwap? && s' == NodeStep(s)
    ensures PollerNodeChange(s, s', n)
  {
    if s.poller.seen.dropped {
      DroppedNodeChange(s, s', n);
    }
  }

  lemma DroppedNodeChange(s: State, s': State, n: nat)
    requires NodeReady(s) && n in s.nodes && s.poller.NodeSwap? && s.poller.seen.dropped && s' == NodeStep(s)
    ensures PollerNodeChange(s, s', n)
  {
  }

  lemma DeliverNodeChange(s: State, s': State, n: nat)
    requires NodeReady(s) && n in s.nodes && !s.poller.NodeSwap? && s' == NodeStep(s)
    ensures PollerNodeChange(s, s', n)
  {
  }

  lemma PollerChangesNode(s: State, n: nat)
    requires Safe(s) && Enabled(s, StepPoller) && n in s.nodes
    ensures PollerNodeChange(s, StepOfPoller(s), n)
  {
    if s.poller.PPush? {
      if s.poller.phase == Swap(Closed) {
        PollerFindsClosed(s, s.poller.p, s.poller.after);
      }
      PushNodeChange(s, StepOfPoller(s), n);
    } else if s.poller.NodeLoad? || s.poller.NodeSwap? || s.poller.Deliver? {
      if s.poller.NodeSwap? {
        SwapNodeChange(s, StepOfPoller(s), n);
      } else {
        DeliverNodeChange(s, StepOfPoller(s), n);
      }
    } else if !s.poller.PrepTail? && !s.poller.PrepSwap? && !s.poller.Drain? {
      DequeueNodeChange(s, StepOfPoller(s), n);
    }
  }

  lemma PollerReleases(s: State, n: nat)
    requires Safe(s) && Enabled(s, StepPoller) && n in s.nodes
    ensures s.nodes[n].qref.Released? && n in StepOfPoller(s).nodes ==> StepOfPoller(s).nodes[n].qref.Released?
    ensures ReleaseSite(s, StepPoller, n) ==> s.nodes[n].qref.Held?
    ensures s.nodes[n].qref.Held? ==>
              (ReleaseSite(s, StepPoller, n) <==> n !in StepOfPoller(s).nodes || !StepOfPoller(s).nodes[n].qref.Held?)
  {
    assert Holds(s, ThePoller);
    SafeNode(s, n);
    if s.poller.Drain? {
      QueueRefCounted(s, s.poller.p.id);
    }
    PollerChangesNode(s, n);
  }

  /** Once a registration is dropped and no thread works on the node, its queue reference has been given back,
      unless the node never had a queue, is still listed, or is in the poller's hands. */
  lemma QueueRefGivenBack(s: State, n: nat)
    requires Reachable(s) && n in s.nodes && s.nodes[n].word.dropped
    requires forall t :: t in s.threads ==> s.threads[t].n != n
    ensures || s.nodes[n].qref.Released?
            || s.nodes[n].qref.Unbound?
            || Node(n) in s.q.chain
            || InHand(s.poller, n)
  {
    ReachableIsSafe(s);
    SafeNode(s, n);
  }

  /** So on a drained queue, and on a closed one that nothing has been abandoned in, the reference is back, if there
      ever was one. */
  lemma DrainedGivesBack(s: State, n: nat)
    requires Reachable(s) && n in s.nodes && s.nodes[n].word.dropped
    requires forall t :: t in s.threads ==> s.threads[t].n != n
    requires Data(s.q.chain) == [] && (s.poller.Outside? || s.poller.Select? || s.poller.Dead?)
    ensures s.nodes[n].qref.Released? || s.nodes[n].qref.Unbound?
  {
    QueueRefGivenBack(s, n);
    DataMembers(s.q.chain, n);
  }

  /** The destructor stops at a marker with a null link, and abandons what is still in the queue. It abandons
      something exactly if some thread had swapped the head but not yet stored the link out of that marker. */
  lemma DestructorAbandons(s: State)
    requires Reachable(s) && s.poller == DqLoad(InDrop) && Marker(s.q.tail) && s.q.Next(s.q.tail) == Null
    ensures Data(s.q.chain) != [] <==> s.q.tail in s.q.owed
    ensures s.q.tail in s.q.owed ==>
              && s.q.owed[s.q.tail].actor.Producer?
              && var t := s.q.owed[s.q.tail].actor.tid;
                 t in s.threads && s.threads[t].Push? && s.threads[t].phase == Link(s.q.tail)
    ensures forall t :: t in s.threads && s.threads[t].Push? && s.threads[t].phase == Link(s.q.tail) ==>
              s.q.tail in s.q.owed
    ensures s.q.tail !in s.q.owed <==> s.q.chain == [Closed]
  {
    ReachableIsSafe(s);
    assert Holds(s, TheQueue) && Holds(s, ThePoller);
    if s.q.tail == Closed {
      ClosedTail(s.q);
      assert Data([Closed]) == Data([]);
    } else {
      assert LinkAt(s.q, 0);
      NoPollerDebt(s);
      assert OwedBacked(s, s.q.tail);
      assert s.q.chain[1..][0] == s.q.chain[1];
    }
    forall t | t in s.threads && s.threads[t].Push? && s.threads[t].phase == Link(s.q.tail)
      ensures s.q.tail in s.q.owed
    {
      SafeThread(s, t);
    }
  }

  // ---------- wakeups ----------

  /** While the poller is blocked after `prepare_for_sleep` and the head is no longer the sleep marker, the pipe
      holds a byte, or a thread that replaced the marker has still to write one. */
  lemma NoLostWakeup(s: State)
    requires Reachable(s) && s.poller == Select(true) && s.q.head != Sleep
    ensures s.pipe || exists t ::
              t in s.threads && (s.threads[t].Wake? || (s.threads[t].Push? && s.threads[t].phase == Link(Sleep)))
    ensures s.q.tail == Sleep && Data(s.q.chain) != []
  {
    ReachableIsSafe(s);
    assert Holds(s, TheQueue) && Holds(s, ThePoller) && Holds(s, TheWaker);
    assert s.q.chain[1] in s.q.chain;
    assert s.q.chain[1].Node?;
    assert s.q.chain[1..][0] == s.q.chain[1];
  }

  /** A blocked poller that finds the head still the sleep marker has an empty queue behind it. */
  lemma SleepsOnEmptyQueue(s: State)
    requires Reachable(s) && s.poller == Select(true) && s.q.head == Sleep
    ensures s.q.chain == [Sleep] && Data(s.q.chain) == []
  {
    ReachableIsSafe(s);
    assert Holds(s, TheQueue) && Holds(s, ThePoller);
    OneElement(s.q);
  }

  // ---------- the queued bit ----------

  /** Thread `t` is on its way to push `n`. */
  predicate Carries(s: State, t: nat, n: nat) {
    t in s.threads && s.threads[t].n == n && OnTheWay(s.threads[t])
  }

  /** Until its queue reference is given back (or it is dropped without ever having had a queue), a node's queued bit is
      set exactly when the node is in the list, or carried by a thread, or in the poller's hands; and it is in one of
      these places only, and once. */
  lemma QueuedBitIsOneSlot(s: State, n: nat)
    requires Reachable(s) && n in s.nodes
    requires !s.nodes[n].qref.Released? && !(s.nodes[n].qref.Unbound? && s.nodes[n].word.dropped)
    ensures s.nodes[n].word.queued <==> Node(n) in s.q.chain || (exists t :: Carries(s, t, n)) || InHand(s.poller, n)
    ensures Node(n) in s.q.chain ==> !InHand(s.poller, n) && forall t :: !Carries(s, t, n)
    ensures InHand(s.poller, n) ==> forall t :: !Carries(s, t, n)
    ensures forall t, u :: Carries(s, t, n) && Carries(s, u, n) ==> t == u
    ensures forall i, j :: 0 <= i < j < |s.q.chain| ==> s.q.chain[i] != s.q.chain[j]
  {
    ReachableIsSafe(s);
    SafeNode(s, n);
    assert Holds(s, TheQueue);
    forall t | Carries(s, t, n)
      ensures s.nodes[n].slot == Pushing(t)
    {
      SafeThread(s, t);
    }
    if InHand(s.poller, n) {
      InHandIsProcessing(s, n);
    }
    if s.nodes[n].slot.Pushing? {
      assert Carries(s, s.nodes[n].slot.tid, n);
    }
  }

  lemma InHandIsProcessing(s: State, n: nat)
    requires Safe(s) && InHand(s.poller, n)
    ensures n in s.nodes && s.nodes[n].slot.Processing?
  {
    assert Holds(s, ThePoller);
  }
}
