/** Every step of a thread that holds a handle keeps the invariant. */
module ReadinessThreads {
  import opened ReadinessWord
  import opened MarkerQueue
  import opened Options
  import opened Readiness
  import opened ReadinessInvariant
  import opened ReadinessFrames

  /** The claims a node's auxiliary fields make about thread `t` match its new program counter. */
  ghost predicate Matches(node: ReadinessNode, t: nat, pc: Option<Pc>) {
    && (node.slot == Pushing(t) ==> pc.Some? && OnTheWay(pc.value))
    && (node.qref == Counting(t) ==> pc.Some? && pc.value.UpdCount?)
    && (node.locked && node.holder == t ==> pc.Some? && HoldsLock(pc.value))
    && (forall h :: h in node.handles && node.handles[h] == Dropping(t) ==>
          pc.Some? && DropsHandle(pc.value) && HandleOf(pc.value) == h)
  }

  lemma OwnNodeBacked(s: State, s': State, t: nat, n: nat, pc: Option<Pc>)
    requires Doing(s, t, n) && n in s.nodes && n in s'.nodes && Backed(s, n, s.nodes[n])
    requires ThreadGuarantee(s.nodes[n], s'.nodes[n], t, s.q.head == Closed)
    requires s'.threads == (if pc.Some? then s.threads[t := pc.value] else s.threads - {t}) && s'.poller == s.poller
    requires pc.Some? ==> pc.value.n == n
    requires Matches(s'.nodes[n], t, pc)
    requires s'.nodes[n].slot.Listed? <==> Node(n) in s'.q.chain
    ensures Backed(s', n, s'.nodes[n])
  {
  }

  lemma NoDebts(s: State, t: nat)
    requires QueueOk(s) && t in s.threads && !(s.threads[t].Push? && s.threads[t].phase.Link?)
    ensures forall p :: p in s.q.owed ==> s.q.owed[p].actor != Producer(t)
  {
    forall p | p in s.q.owed
      ensures s.q.owed[p].actor != Producer(t)
    {
      assert OwedBacked(s, p);
    }
  }

  lemma WakerKept(s: State, s': State, t: nat)
    requires WakerOk(s) && t in s.threads && !s.threads[t].Wake? && !(s.threads[t].Push? && s.threads[t].phase.Link?)
    requires s'.waker == s.waker
    requires forall u :: u != t && u in s.threads ==> u in s'.threads && s'.threads[u] == s.threads[u]
    ensures WakerOk(s')
  {
  }

  lemma QueueUntouched(q: Queue, actor: Actor, p: Ptr)
    requires MarkerQueue.Inv(q)
    ensures QueueGuarantee(q, q, actor, p)
  {
  }

  /** A step at node level: from `node` to `node'`, and on to `pc`. */
  ghost predicate NodeStepOk(q: Queue, node: ReadinessNode, node': ReadinessNode, t: nat, n: nat, pc: Option<Pc>) {
    && ThreadGuarantee(node, node', t, q.head == Closed)
    && NodeOk(node')
    && (node'.slot.Listed? <==> node.slot.Listed?)
    && (pc.Some? ==> pc.value.n == n && PcOk(q, node', t, pc.value))
    && Matches(node', t, pc)
  }

  ghost predicate LocalStepOk(s: State, s': State, t: nat, n: nat, node': ReadinessNode, pc: Option<Pc>) {
    && Doing(s, t, n) && n in s.nodes
    && !s.threads[t].Wake? && !(s.threads[t].Push? && s.threads[t].phase.Link?)
    && s' == Goto(Put(s, n, node'), t, pc)
    && NodeStepOk(s.q, s.nodes[n], node', t, n, pc)
    && (pc.Some? && BorrowsPoll(pc.value) ==> !Closing(s.poller))
  }

  lemma LocalIsThreadStep(s: State, s': State, t: nat, n: nat, node': ReadinessNode, pc: Option<Pc>)
    requires LocalStepOk(s, s', t, n, node', pc)
    requires Backed(s, n, s.nodes[n]) && QueueOk(s) && WakerOk(s) && PollerOk(s)
    ensures ThreadStepOk(s, s', t, n)
  {
    OwnNodeBacked(s, s', t, n, pc);
    NoDebts(s, t);
    WakerKept(s, s', t);
    QueueUntouched(s.q, Producer(t), Node(n));
    assert OnlyThread(s, s', t, n);
  }

  lemma LocalMove(s: State, s': State, t: nat, n: nat, node': ReadinessNode, pc: Option<Pc>)
    requires Safe(s) && LocalStepOk(s, s', t, n, node', pc)
    ensures Safe(s')
  {
    assert Holds(s, TheQueue) && Holds(s, ThePoller) && Holds(s, TheWaker);
    SafeNode(s, n);
    LocalIsThreadStep(s, s', t, n, node', pc);
    ThreadMove(s, s', t, n);
  }

  // ---------- the steps that are local to a node ----------

  /** What the invariant says about thread `t` and its node, at node level. */
  ghost predicate Mine(q: Queue, node: ReadinessNode, t: nat, pc: Pc) {
    && PcOk(q, node, t, pc)
    && NodeOk(node)
    && Matches(node, t, Some(pc))
  }

  ghost predicate Here(s: State, t: nat) {
    && Runs(s, t)
    && Mine(s.q, s.nodes[s.threads[t].n], t, s.threads[t])
    && (BorrowsPoll(s.threads[t]) ==> !Closing(s.poller))
  }

  lemma SafeIsHere(s: State, t: nat)
    requires Safe(s) && Runs(s, t)
    ensures Here(s, t) && ThreadOk(s, t) && Backed(s, s.threads[t].n, s.nodes[s.threads[t].n])
  {
    SafeThread(s, t);
    SafeNode(s, s.threads[t].n);
  }

  /** A step that leaves the node alone. */
  lemma UnchangedNode(q: Queue, node: ReadinessNode, t: nat, n: nat, pc: Option<Pc>)
    requires NodeOk(node) && Matches(node, t, pc)
    requires pc.Some? ==> pc.value.n == n && PcOk(q, node, t, pc.value)
    ensures NodeStepOk(q, node, node, t, n, pc)
  {
  }

  lemma SetReadinessGuarantee(q: Queue, node: ReadinessNode, t: nat, pc: Pc)
    requires Mine(q, node, t, pc) && pc.SetSwap? && !pc.seen.dropped && node.word == pc.seen
    ensures ThreadGuarantee(node, SetReadiness(node, t, pc).node, t, q.head == Closed)
  {
  }

  lemma SetReadinessNodeOk(q: Queue, node: ReadinessNode, t: nat, pc: Pc)
    requires NodeOk(node) && pc.SetSwap? && !pc.seen.dropped && node.word == pc.seen
    ensures NodeOk(SetReadiness(node, t, pc).node)
  {
    ReadinessFacts(pc.seen, pc.ready);
  }

  /** What installing a readiness does to the rest of the word. */
  lemma ReadinessFacts(w: Word, ready: Bits4)
    ensures var next := WithReadiness(w, ready);
            && next.queued == (w.queued || Signals(next)) && next.dropped == w.dropped
            && next.interest == w.interest && next.opt == w.opt && next.rd == w.rd && next.wr == w.wr
            && (w.interest == 0 ==> !Signals(next))
  {
  }

  lemma SetReadinessOk(q: Queue, node: ReadinessNode, t: nat, pc: Pc)
    requires Mine(q, node, t, pc) && pc.SetSwap? && !pc.seen.dropped && node.word == pc.seen
    ensures var o := SetReadiness(node, t, pc); NodeStepOk(q, node, o.node, t, pc.n, o.pc)
  {
    SetReadinessGuarantee(q, node, t, pc);
    SetReadinessNodeOk(q, node, t, pc);
  }

  lemma SetStepOk(q: Queue, node: ReadinessNode, t: nat, pc: Pc)
    requires Mine(q, node, t, pc) && (pc.SetLoad? || pc.SetSwap?)
    ensures var o := SetStep(node, t, pc); NodeStepOk(q, node, o.node, t, pc.n, o.pc)
  {
    if pc.SetSwap? && !pc.seen.dropped && node.word == pc.seen {
      SetReadinessOk(q, node, t, pc);
    } else {
      UnchangedNode(q, node, t, pc.n, SetStep(node, t, pc).pc);
    }
  }

  lemma ReregisterGuarantee(q: Queue, node: ReadinessNode, t: nat, pc: Pc)
    requires node.locked && node.holder == t && (node.word.queued <==> node.slot != Idle) && pc.UpdSwap?
             && node.word == pc.seen
    ensures ThreadGuarantee(node, Reregister(node, t, pc).node, t, q.head == Closed)
  {
  }

  lemma ReregisterNodeOk(q: Queue, node: ReadinessNode, t: nat, pc: Pc)
    requires Mine(q, node, t, pc) && pc.UpdSwap? && node.word == pc.seen
    ensures NodeOk(Reregister(node, t, pc).node)
  {
  }

  lemma ReregisterOk(q: Queue, node: ReadinessNode, t: nat, pc: Pc)
    requires Mine(q, node, t, pc) && pc.UpdSwap? && node.word == pc.seen
    ensures var o := Reregister(node, t, pc); NodeStepOk(q, node, o.node, t, pc.n, o.pc)
  {
    ReregisterGuarantee(q, node, t, pc);
    ReregisterNodeOk(q, node, t, pc);
    ReregisterPc(q, node, t, pc);
  }

  lemma ReregisterPc(q: Queue, node: ReadinessNode, t: nat, pc: Pc)
    requires Mine(q, node, t, pc) && pc.UpdSwap? && node.word == pc.seen
    ensures var o := Reregister(node, t, pc);
            && o.pc.Some? && o.pc.value.n == pc.n && PcOk(q, o.node, t, o.pc.value) && Matches(o.node, t, o.pc)
            && (o.node.slot.Listed? <==> node.slot.Listed?)
  {
  }

  lemma UpdateTokenGuarantee(q: Queue, node: ReadinessNode, t: nat, pc: Pc)
    requires Mine(q, node, t, pc) && pc.UpdToken?
    ensures ThreadGuarantee(node, UpdateStep(node, t, pc).node, t, q.head == Closed)
    ensures NodeOk(UpdateStep(node, t, pc).node)
  {
    var pos := NextTokenPos(pc.seen);
    assert pos != node.word.rd && pos != node.word.wr;
  }

  lemma UpdateTokenPc(q: Queue, node: ReadinessNode, t: nat, pc: Pc)
    requires Mine(q, node, t, pc) && pc.UpdToken?
    ensures var o := UpdateStep(node, t, pc); o.pc.Some? && o.pc.value.n == pc.n && PcOk(q, o.node, t, o.pc.value)
  {
    var pos := NextTokenPos(pc.seen);
    assert pos != node.word.rd && pos != node.word.wr;
  }

  lemma UpdateTokenOk(q: Queue, node: ReadinessNode, t: nat, pc: Pc)
    requires Mine(q, node, t, pc) && pc.UpdToken?
    ensures var o := UpdateStep(node, t, pc); NodeStepOk(q, node, o.node, t, pc.n, o.pc)
  {
    UpdateTokenGuarantee(q, node, t, pc);
    UpdateTokenPc(q, node, t, pc);
  }

  lemma UpdateBindOk(q: Queue, node: ReadinessNode, t: nat, pc: Pc)
    requires Mine(q, node, t, pc) && (pc.UpdBind? || pc.UpdCount?)
    ensures var o := UpdateStep(node, t, pc); NodeStepOk(q, node, o.node, t, pc.n, o.pc)
  {
    UpdateBindGuarantee(q, node, t, pc);
    UpdateBindPc(q, node, t, pc);
  }

  lemma UpdateBindGuarantee(q: Queue, node: ReadinessNode, t: nat, pc: Pc)
    requires PcOk(q, node, t, pc) && NodeOk(node) && (pc.UpdBind? || pc.UpdCount?)
    ensures ThreadGuarantee(node, UpdateStep(node, t, pc).node, t, q.head == Closed)
    ensures NodeOk(UpdateStep(node, t, pc).node)
  {
  }

  lemma UpdateBindPc(q: Queue, node: ReadinessNode, t: nat, pc: Pc)
    requires Mine(q, node, t, pc) && (pc.UpdBind? || pc.UpdCount?)
    ensures var o := UpdateStep(node, t, pc);
            && o.pc.Some? && o.pc.value.n == pc.n && PcOk(q, o.node, t, o.pc.value) && Matches(o.node, t, o.pc)
  {
  }

  lemma UpdateLockOk(q: Queue, node: ReadinessNode, t: nat, pc: Pc)
    requires Mine(q, node, t, pc) && pc.UpdLock?
    ensures var o := UpdateStep(node, t, pc); NodeStepOk(q, node, o.node, t, pc.n, o.pc)
  {
  }

  lemma UpdateUnlockOk(q: Queue, node: ReadinessNode, t: nat, pc: Pc)
    requires Mine(q, node, t, pc) && pc.UpdUnlock?
    ensures var o := UpdateStep(node, t, pc); NodeStepOk(q, node, o.node, t, pc.n, o.pc)
  {
  }

  lemma UpdateJobOk(q: Queue, node: ReadinessNode, t: nat, pc: Pc)
    requires Mine(q, node, t, pc) && pc.UpdJob?
    ensures var o := UpdateStep(node, t, pc); NodeStepOk(q, node, o.node, t, pc.n, o.pc)
  {
  }

  lemma UpdateStepOk(q: Queue, node: ReadinessNode, t: nat, pc: Pc)
    requires Mine(q, node, t, pc) && Updates(pc)
    ensures var o := UpdateStep(node, t, pc); NodeStepOk(q, node, o.node, t, pc.n, o.pc)
  {
    if pc.UpdSwap? && node.word == pc.seen {
      ReregisterOk(q, node, t, pc);
    } else if pc.UpdToken? {
      UpdateTokenOk(q, node, t, pc);
    } else if pc.UpdBind? || pc.UpdCount? {
      UpdateBindOk(q, node, t, pc);
    } else if pc.UpdLock? {
      UpdateLockOk(q, node, t, pc);
    } else if pc.UpdUnlock? {
      UpdateUnlockOk(q, node, t, pc);
    } else if pc.UpdJob? {
      UpdateJobOk(q, node, t, pc);
    } else {
      UnchangedNode(q, node, t, pc.n, UpdateStep(node, t, pc).pc);
    }
  }

  lemma DropFlagGuarantee(q: Queue, node: ReadinessNode, t: nat, pc: Pc)
    requires Mine(q, node, t, pc) && pc.DropFlag?
    ensures ThreadGuarantee(node, RouteStep(node, t, pc).node, t, q.head == Closed)
  {
  }

  lemma DropFlagNodeOk(q: Queue, node: ReadinessNode, t: nat, pc: Pc)
    requires Mine(q, node, t, pc) && pc.DropFlag?
    ensures NodeOk(RouteStep(node, t, pc).node)
  {
  }

  lemma DropFlagOk(q: Queue, node: ReadinessNode, t: nat, pc: Pc)
    requires Mine(q, node, t, pc) && pc.DropFlag?
    ensures var o := RouteStep(node, t, pc); NodeStepOk(q, node, o.node, t, pc.n, o.pc)
  {
    DropFlagGuarantee(q, node, t, pc);
    DropFlagNodeOk(q, node, t, pc);
    DropFlagPc(q, node, t, pc);
  }

  lemma DropFlagPc(q: Queue, node: ReadinessNode, t: nat, pc: Pc)
    requires Mine(q, node, t, pc) && pc.DropFlag?
    ensures var o := RouteStep(node, t, pc);
            && o.pc.Some? && o.pc.value.n == pc.n && PcOk(q, o.node, t, o.pc.value) && Matches(o.node, t, o.pc)
            && (o.node.slot.Listed? <==> node.slot.Listed?)
  {
  }

  lemma RouteOk(q: Queue, node: ReadinessNode, t: nat, pc: Pc)
    requires Mine(q, node, t, pc) && pc.Route?
    ensures var o := RouteStep(node, t, pc); NodeStepOk(q, node, o.node, t, pc.n, o.pc)
  {
  }

  /** An outcome borrows the poll only if the thread did. */
  lemma StillBorrows(node: ReadinessNode, t: nat, pc: Pc)
    requires IsLocal(pc)
    ensures var o := LocalStep(node, t, pc); o.pc.Some? && BorrowsPoll(o.pc.value) ==> BorrowsPoll(pc)
  {
  }

  lemma LocalSafe(s: State, t: nat)
    requires Safe(s) && Runs(s, t) && IsLocal(s.threads[t])
    ensures Safe(ThreadStep(s, t))
  {
    SafeIsHere(s, t);
    var pc := s.threads[t];
    var node := s.nodes[pc.n];
    var o := LocalStep(node, t, pc);
    if pc.SetLoad? || pc.SetSwap? {
      SetStepOk(s.q, node, t, pc);
    } else if Updates(pc) {
      UpdateStepOk(s.q, node, t, pc);
    } else if pc.DropFlag? {
      DropFlagOk(s.q, node, t, pc);
    } else {
      RouteOk(s.q, node, t, pc);
    }
    StillBorrows(node, t, pc);
    LocalMove(s, ThreadStep(s, t), t, pc.n, o.node, o.pc);
  }

  // ---------- pushing ----------

  lemma ResetGuarantee(q: Queue, actor: Actor, p: Ptr)
    requires MarkerQueue.Inv(q) && p !in q.chain
    ensures QueueGuarantee(q, ResetLink(q, p), actor, p)
  {
    ResetLinkInv(q, p);
  }

  lemma SwapGuarantee(q: Queue, actor: Actor, p: Ptr)
    requires MarkerQueue.Inv(q) && q.head != Closed && q.Next(p) == Null
    requires p != Null && p != Sleep && p !in q.chain && (p == End ==> q.tail.Node?)
    ensures QueueGuarantee(q, SwapHead(q, p, actor), actor, p)
    ensures q.head !in q.owed
  {
    SwapHeadInv(q, p, actor);
  }

  lemma LinkGuarantee(q: Queue, actor: Actor, prev: Ptr, p: Ptr)
    requires MarkerQueue.Inv(q) && prev in q.owed && q.owed[prev] == Owed(actor, p)
    ensures QueueGuarantee(q, StoreLink(q, prev, p), actor, p)
    ensures p in q.chain
  {
    StoreLinkInv(q, prev, p);
    var i :| 0 <= i < |q.chain| && q.chain[i] == prev;
    assert LinkAt(q, i);
  }

  /** A step of `enqueue_node` that leaves the node alone: all but the head swap. */
  ghost predicate QueueStepOk(s: State, s': State, t: nat, n: nat, pc: Option<Pc>) {
    && Doing(s, t, n) && n in s.nodes
    && s'.nodes == s.nodes && s'.poller == s.poller && s'.pipe == s.pipe && s'.waker == s.waker
    && s'.threads == (if pc.Some? then s.threads[t := pc.value] else s.threads - {t})
    && (pc.Some? ==>
          pc.value.n == n && PcOk(s'.q, s.nodes[n], t, pc.value) && (BorrowsPoll(pc.value) ==> !Closing(s.poller)))
    && Matches(s.nodes[n], t, pc)
    && QueueGuarantee(s.q, s'.q, Producer(t), Node(n))
    && s'.q.chain == s.q.chain && s'.q.head == s.q.head
    && (s'.q.Next(Node(n)) != s.q.Next(Node(n)) ==> s.nodes[n].slot == Pushing(t) || Node(n) in s.q.chain)
    && (forall p :: p in s'.q.owed ==> s'.q.owed[p].actor != Producer(t))
    && (s.waker == Some(t) ==> pc.Some? && pc.value.Wake?)
  }

  lemma QueueMove(s: State, s': State, t: nat, n: nat, pc: Option<Pc>)
    requires Safe(s) && QueueStepOk(s, s', t, n, pc)
    ensures Safe(s')
  {
    assert Holds(s, ThePoller) && Holds(s, TheWaker);
    SafeNode(s, n);
    QueueIsThreadStep(s, s', t, n, pc);
    ThreadMove(s, s', t, n);
  }

  lemma QueueIsThreadStep(s: State, s': State, t: nat, n: nat, pc: Option<Pc>)
    requires QueueStepOk(s, s', t, n, pc)
    requires NodeOk(s.nodes[n]) && Backed(s, n, s.nodes[n]) && WakerOk(s) && PollerOk(s)
    ensures ThreadStepOk(s, s', t, n)
  {
    UnchangedNodeGuarantee(s.nodes[n], t, s.q.head == Closed);
    OwnNodeBacked(s, s', t, n, pc);
    QueueOnly(s, s', t, n, pc);
    QueueWaker(s, s', t, n, pc);
  }

  lemma QueueOnly(s: State, s': State, t: nat, n: nat, pc: Option<Pc>)
    requires QueueStepOk(s, s', t, n, pc)
    ensures OnlyThread(s, s', t, n)
    ensures t in s'.threads ==> s'.threads[t].n == n && ThreadOk(s', t)
  {
  }

  lemma QueueWaker(s: State, s': State, t: nat, n: nat, pc: Option<Pc>)
    requires QueueStepOk(s, s', t, n, pc) && WakerOk(s) && PollerOk(s)
    ensures WakerOk(s')
    ensures s.poller == Select(true) && s'.q.head != Sleep ==> s'.pipe || s'.waker.Some?
  {
  }

  lemma UnchangedNodeGuarantee(node: ReadinessNode, t: nat, closed: bool)
    ensures ThreadGuarantee(node, node, t, closed)
  {
  }

  lemma NotListed(s: State, t: nat)
    requires Safe(s) && Runs(s, t) && OnTheWay(s.threads[t])
    ensures Node(s.threads[t].n) !in s.q.chain
  {
    SafeIsHere(s, t);
  }

  lemma PushResetOk(s: State, t: nat, n: nat, h: nat, origin: Origin)
    requires Here(s, t) && s.threads[t] == Push(n, h, origin, Reset)
    requires QueueGuarantee(s.q, ResetLink(s.q, Node(n)), Producer(t), Node(n))
    requires forall p :: p in s.q.owed ==> s.q.owed[p].actor != Producer(t)
    requires s.waker != Some(t)
    ensures QueueStepOk(s, PushStep(s, t), t, n, Some(Push(n, h, origin, Load)))
  {
    var pc := Push(n, h, origin, Load);
    assert PcOk(ResetLink(s.q, Node(n)), s.nodes[n], t, pc);
  }

  lemma PushLoadOk(s: State, t: nat, n: nat, h: nat, origin: Origin, phase: Phase)
    requires Here(s, t) && s.threads[t] == Push(n, h, origin, phase)
    requires phase.Load? || (phase.Swap? && phase.prev != Closed && s.q.head != phase.prev)
    requires QueueGuarantee(s.q, s.q, Producer(t), Node(n))
    requires forall p :: p in s.q.owed ==> s.q.owed[p].actor != Producer(t)
    requires s.waker != Some(t)
    ensures QueueStepOk(s, PushStep(s, t), t, n, Some(Push(n, h, origin, Swap(s.q.head))))
  {
    var pc := Push(n, h, origin, Swap(s.q.head));
    assert PcOk(s.q, s.nodes[n], t, pc);
  }

  lemma PushClosedOk(s: State, t: nat, n: nat, h: nat, origin: Origin)
    requires Here(s, t) && s.threads[t] == Push(n, h, origin, Swap(Closed))
    requires QueueGuarantee(s.q, s.q, Producer(t), Node(n))
    requires forall p :: p in s.q.owed ==> s.q.owed[p].actor != Producer(t)
    requires s.waker != Some(t)
    ensures QueueStepOk(s, PushStep(s, t), t, n, Some(GiveBack(n, h, origin)))
  {
    var pc := GiveBack(n, h, origin);
    assert PcOk(s.q, s.nodes[n], t, pc);
  }

  lemma AfterLink(q: Queue, node: ReadinessNode, t: nat, n: nat, h: nat, origin: Origin, prev: Ptr, pc: Option<Pc>)
    requires Mine(q, node, t, Push(n, h, origin, Link(prev)))
    requires pc == (if prev == Sleep then Some(Wake(n, h, origin)) else Finish(n, h, origin))
    ensures pc.Some? ==> pc.value.n == n && PcOk(StoreLink(q, prev, Node(n)), node, t, pc.value)
    ensures Matches(node, t, pc)
  {
  }

  lemma PushLinkOk(s: State, t: nat, n: nat, h: nat, origin: Origin, prev: Ptr, pc: Option<Pc>)
    requires Here(s, t) && s.threads[t] == Push(n, h, origin, Link(prev))
    requires pc == (if prev == Sleep then Some(Wake(n, h, origin)) else Finish(n, h, origin))
    requires QueueGuarantee(s.q, StoreLink(s.q, prev, Node(n)), Producer(t), Node(n)) && Node(n) in s.q.chain
    requires forall p :: p in s.q.owed && p != prev ==> s.q.owed[p].actor != Producer(t)
    requires s.waker == Some(t) ==> prev == Sleep
    ensures QueueStepOk(s, PushStep(s, t), t, n, pc)
  {
    AfterLink(s.q, s.nodes[n], t, n, h, origin, prev, pc);
  }

  lemma NotWaker(s: State, t: nat)
    requires WakerOk(s) && t in s.threads && !s.threads[t].Wake?
    requires !(s.threads[t].Push? && s.threads[t].phase == Link(Sleep))
    ensures s.waker != Some(t)
  {
  }

  lemma OneDebt(s: State, t: nat, prev: Ptr)
    requires QueueOk(s) && t in s.threads && s.threads[t].Push? && s.threads[t].phase == Link(prev)
    ensures forall p :: p in s.q.owed && p != prev ==> s.q.owed[p].actor != Producer(t)
  {
    forall p | p in s.q.owed && p != prev
      ensures s.q.owed[p].actor != Producer(t)
    {
      assert OwedBacked(s, p);
    }
  }

  /** A push that is not at its head swap. */
  lemma PushQuietSafe(s: State, t: nat)
    requires Safe(s) && Runs(s, t) && s.threads[t].Push?
    requires s.threads[t].phase.Swap? ==> s.threads[t].phase.prev == Closed || s.q.head != s.threads[t].phase.prev
    ensures Safe(PushStep(s, t))
  {
    assert Holds(s, TheQueue) && Holds(s, TheWaker);
    var Push(n, h, origin, phase) := s.threads[t];
    SafeIsHere(s, t);
    var pc: Option<Pc>;
    match phase {
      case Link(prev) =>
        pc := if prev == Sleep then Some(Wake(n, h, origin)) else Finish(n, h, origin);
        LinkGuarantee(s.q, Producer(t), prev, Node(n));
        OneDebt(s, t, prev);
        PushLinkOk(s, t, n, h, origin, prev, pc);
      case Reset =>
        pc := Some(Push(n, h, origin, Load));
        NotListed(s, t);
        NoDebts(s, t);
        NotWaker(s, t);
        ResetGuarantee(s.q, Producer(t), Node(n));
        PushResetOk(s, t, n, h, origin);
      case _ =>
        QueueUntouched(s.q, Producer(t), Node(n));
        NoDebts(s, t);
        NotWaker(s, t);
        if phase == Swap(Closed) {
          pc := Some(GiveBack(n, h, origin));
          PushClosedOk(s, t, n, h, origin);
        } else {
          pc := Some(Push(n, h, origin, Swap(s.q.head)));
          PushLoadOk(s, t, n, h, origin, phase);
        }
    }
    QueueMove(s, PushStep(s, t), t, n, pc);
  }

  lemma ListedNode(q: Queue, node: ReadinessNode, t: nat, pc: Pc)
    requires Mine(q, node, t, pc) && pc.Push? && pc.phase.Swap?
    ensures ThreadGuarantee(node, InList(node), t, q.head == Closed)
    ensures NodeOk(InList(node))
    ensures Matches(InList(node), t, Some(pc.(phase := Link(pc.phase.prev))))
  {
  }

  /** What the head swap changes. */
  lemma PushSwapEffect(s: State, s': State, t: nat, n: nat, h: nat, origin: Origin, prev: Ptr)
    requires Runs(s, t) && s.threads[t] == Push(n, h, origin, Swap(prev)) && prev != Closed && s.q.head == prev
    requires s' == PushStep(s, t)
    ensures SwapEffect(s, s', t, n, h, origin, prev)
  {
  }

  ghost predicate SwapEffect(s: State, s': State, t: nat, n: nat, h: nat, origin: Origin, prev: Ptr) {
    && Doing(s, t, n) && n in s.nodes && prev == s.q.head && prev != Closed
    && s.threads[t] == Push(n, h, origin, Swap(prev))
    && s'.q == SwapHead(s.q, Node(n), Producer(t)) && s'.nodes == s.nodes[n := InList(s.nodes[n])]
    && s'.threads == s.threads[t := Push(n, h, origin, Link(prev))]
    && s'.poller == s.poller && s'.pipe == s.pipe && s'.waker == (if prev == Sleep then Some(t) else s.waker)
  }

  lemma PushSwapThread(s: State, s': State, t: nat, n: nat, h: nat, origin: Origin, prev: Ptr)
    requires SwapEffect(s, s', t, n, h, origin, prev) && Here(s, t)
    ensures ThreadOk(s', t)
  {
  }

  lemma PushSwapWaker(s: State, s': State, t: nat, n: nat, h: nat, origin: Origin, prev: Ptr)
    requires SwapEffect(s, s', t, n, h, origin, prev) && WakerOk(s) && PollerOk(s)
    ensures WakerOk(s')
    ensures s.poller == Select(true) && s'.q.head != Sleep ==> s'.pipe || s'.waker.Some?
  {
  }

  lemma PushSwapLinks(s: State, s': State, t: nat, n: nat, h: nat, origin: Origin, prev: Ptr)
    requires SwapEffect(s, s', t, n, h, origin, prev)
    requires forall p :: p in s.q.owed ==> s.q.owed[p].actor != Producer(t)
    ensures forall p :: p in s'.q.owed && s'.q.owed[p].actor == Producer(t) ==> OwedBacked(s', p)
  {
  }

  lemma PushSwapOnly(s: State, s': State, t: nat, n: nat, h: nat, origin: Origin, prev: Ptr)
    requires SwapEffect(s, s', t, n, h, origin, prev) && s.nodes[n].slot == Pushing(t)
    requires QueueGuarantee(s.q, s'.q, Producer(t), Node(n))
    ensures OnlyThread(s, s', t, n)
  {
  }

  lemma PushSwapBacked(s: State, s': State, t: nat, n: nat, h: nat, origin: Origin, prev: Ptr)
    requires SwapEffect(s, s', t, n, h, origin, prev) && Here(s, t) && Backed(s, n, s.nodes[n])
    ensures ThreadGuarantee(s.nodes[n], s'.nodes[n], t, s.q.head == Closed)
    ensures NodeOk(s'.nodes[n])
    ensures Backed(s', n, s'.nodes[n])
  {
    ListedNode(s.q, s.nodes[n], t, s.threads[t]);
    assert s'.q.chain[|s.q.chain|] == Node(n);
    OwnNodeBacked(s, s', t, n, Some(Push(n, h, origin, Link(prev))));
  }

  lemma PushSwapSafe(s: State, t: nat)
    requires Safe(s) && Runs(s, t) && s.threads[t].Push? && s.threads[t].phase.Swap?
    requires s.threads[t].phase.prev != Closed && s.q.head == s.threads[t].phase.prev
    ensures Safe(PushStep(s, t))
  {
    assert Holds(s, TheQueue) && Holds(s, ThePoller) && Holds(s, TheWaker);
    var Push(n, h, origin, Swap(prev)) := s.threads[t];
    var s' := PushStep(s, t);
    SafeIsHere(s, t);
    NotListed(s, t);
    PushSwapEffect(s, s', t, n, h, origin, prev);
    PushSwapMoves(s, s', t, n, h, origin, prev);
  }

  lemma PushSwapMoves(s: State, s': State, t: nat, n: nat, h: nat, origin: Origin, prev: Ptr)
    requires Safe(s) && SwapEffect(s, s', t, n, h, origin, prev) && Here(s, t) && Node(n) !in s.q.chain
    requires MarkerQueue.Inv(s.q) && QueueOk(s) && WakerOk(s) && PollerOk(s) && Backed(s, n, s.nodes[n])
    ensures Safe(s')
  {
    NoDebts(s, t);
    SwapGuarantee(s.q, Producer(t), Node(n));
    PushSwapThread(s, s', t, n, h, origin, prev);
    PushSwapWaker(s, s', t, n, h, origin, prev);
    PushSwapLinks(s, s', t, n, h, origin, prev);
    PushSwapOnly(s, s', t, n, h, origin, prev);
    PushSwapBacked(s, s', t, n, h, origin, prev);
    ThreadMove(s, s', t, n);
  }

  // ---------- waking and releasing ----------

  lemma WakeSafe(s: State, t: nat)
    requires Safe(s) && Runs(s, t) && s.threads[t].Wake?
    ensures Safe(ReleaseStep(s, t))
  {
    assert Holds(s, TheQueue) && Holds(s, ThePoller) && Holds(s, TheWaker);
    var Wake(n, h, origin) := s.threads[t];
    var s' := ReleaseStep(s, t);
    var pc := Finish(n, h, origin);
    SafeIsHere(s, t);
    NoDebts(s, t);
    QueueUntouched(s.q, Producer(t), Node(n));
    UnchangedNodeGuarantee(s.nodes[n], t, s.q.head == Closed);
    WakeMatches(s.q, s.nodes[n], t, s.threads[t], pc);
    OwnNodeBacked(s, s', t, n, pc);
    WakeWaker(s, s', t);
    assert pc.Some? ==> ThreadOk(s', t);
    assert ThreadStepOk(s, s', t, n);
    ThreadMove(s, s', t, n);
  }

  lemma WakeMatches(q: Queue, node: ReadinessNode, t: nat, pc: Pc, pc': Option<Pc>)
    requires Mine(q, node, t, pc) && pc.Wake? && pc' == Finish(pc.n, pc.h, pc.origin)
    ensures Matches(node, t, pc')
    ensures pc'.Some? ==>
              pc'.value.n == pc.n && PcOk(q, node, t, pc'.value) && (BorrowsPoll(pc'.value) ==> BorrowsPoll(pc))
  {
  }

  lemma WakeWaker(s: State, s': State, t: nat)
    requires WakerOk(s) && Runs(s, t) && s.threads[t].Wake? && s' == ReleaseStep(s, t)
    ensures WakerOk(s')
  {
  }

  /** Once the closed marker is the head, the destructor runs, and no thread is inside `update`. */
  lemma ClosedMeansClosing(s: State)
    requires PollerOk(s) && s.q.head == Closed
    ensures Closing(s.poller)
  {
  }

  lemma QueueRefCounted(s: State, n: nat)
    requires Safe(s) && n in s.nodes && Closing(s.poller)
    ensures !s.nodes[n].qref.Counting?
  {
    SafeNode(s, n);
    if s.nodes[n].qref.Counting? {
      SafeThread(s, s.nodes[n].qref.tid);
    }
  }

  lemma GivenBackNode(q: Queue, node: ReadinessNode, t: nat, pc: Pc)
    requires Mine(q, node, t, pc) && pc.GiveBack? && !node.qref.Counting?
    ensures node.refs > 1
    ensures var node' := node.(refs := node.refs - 1, qref := Released, slot := Spent);
            var pc' := Finish(pc.n, pc.h, pc.origin);
            && ThreadGuarantee(node, node', t, q.head == Closed)
            && NodeOk(node')
            && Matches(node', t, pc')
            && (pc'.Some? ==>
                  pc'.value.n == pc.n && PcOk(q, node', t, pc'.value) && (BorrowsPoll(pc'.value) ==> BorrowsPoll(pc)))
  {
    assert HandleOf(pc) in node.handles;
    assert |node.handles| > 0;
  }

  lemma GiveBackSafe(s: State, t: nat)
    requires Safe(s) && Runs(s, t) && s.threads[t].GiveBack?
    ensures Safe(ReleaseStep(s, t))
  {
    assert Holds(s, ThePoller);
    var GiveBack(n, h, origin) := s.threads[t];
    var node := s.nodes[n];
    SafeIsHere(s, t);
    ClosedMeansClosing(s);
    QueueRefCounted(s, n);
    GivenBackNode(s.q, node, t, s.threads[t]);
    LocalMove(s, ReleaseStep(s, t), t, n, node.(refs := node.refs - 1, qref := Released, slot := Spent),
              Finish(n, h, origin));
  }

  lemma HandleRemoved(handles: map<nat, Use>, h: nat)
    requires h in handles
    ensures |handles - {h}| == |handles| - 1
    ensures |handles| == 1 ==> forall k :: k in handles ==> k == h
  {
    assert (handles - {h}).Keys == handles.Keys - {h};
    assert |handles| == |handles.Keys| && |handles - {h}| == |(handles - {h}).Keys|;
    if |handles| == 1 {
      assert handles.Keys - {h} == {};
      forall k | k in handles
        ensures k == h
      {
        assert k in handles.Keys;
        assert k !in handles.Keys - {h};
      }
    }
  }

  lemma ReleasedNode(q: Queue, node: ReadinessNode, t: nat, pc: Pc)
    requires Mine(q, node, t, pc) && pc.Release? && node.refs > 1
    ensures var node' := node.(refs := node.refs - 1, handles := node.handles - {pc.h});
            NodeStepOk(q, node, node', t, pc.n, None)
  {
    HandleRemoved(node.handles, pc.h);
    var node' := node.(refs := node.refs - 1, handles := node.handles - {pc.h});
    assert node'.handles == map k | k in node.handles && k != pc.h :: node.handles[k];
  }

  /** The last reference is a handle's: nothing else in the machine refers to the node. */
  lemma LastReference(q: Queue, node: ReadinessNode, t: nat, pc: Pc)
    requires Mine(q, node, t, pc) && pc.Release? && node.refs == 1
    ensures forall k :: k in node.handles ==> k == pc.h
    ensures node.handles[pc.h] == Dropping(t)
    ensures !node.qref.Held? && !node.qref.Counting? && !node.slot.Listed? && !node.slot.Processing?
  {
    HandleRemoved(node.handles, pc.h);
  }

  ghost predicate Unused(s: State, n: nat) {
    && n in s.nodes
    && Node(n) !in s.q.chain
    && !s.nodes[n].slot.Processing? && !s.nodes[n].qref.Counting? && !s.nodes[n].qref.Held?
  }

  lemma FreedPoller(s: State, s': State, n: nat)
    requires PollerOk(s) && Unused(s, n)
    requires s'.q == s.q && s'.nodes == s.nodes - {n} && s'.poller == s.poller && s'.pipe == s.pipe
    requires s'.waker == s.waker
    ensures PollerOk(s')
  {
  }

  lemma FreedNodes(s: State, s': State, t: nat, n: nat)
    requires NodesOk(s) && Doing(s, t, n)
    requires s'.q == s.q && s'.nodes == s.nodes - {n} && s'.poller == s.poller && s'.threads == s.threads - {t}
    ensures NodesOk(s')
  {
    forall m | m in s'.nodes
      ensures NodeOk(s'.nodes[m]) && Backed(s', m, s'.nodes[m])
    {
      FreedBacked(s, s', t, n, m);
    }
  }

  /** What another node claims is backed as before: its claims are about other threads than the one that is done. */
  lemma FreedBacked(s: State, s': State, t: nat, n: nat, m: nat)
    requires Doing(s, t, n) && m != n && m in s.nodes && Backed(s, m, s.nodes[m])
    requires s'.q == s.q && s'.poller == s.poller && s'.threads == s.threads - {t}
    ensures Backed(s', m, s.nodes[m])
  {
    var node := s.nodes[m];
    forall u | Doing(s, u, m)
      ensures Doing(s', u, m) && s'.threads[u] == s.threads[u]
    {
    }
    forall h | h in node.handles && node.handles[h].Dropping?
      ensures Doing(s', node.handles[h].tid, m)
    {
      assert Doing(s, node.handles[h].tid, m);
    }
  }

  lemma FreedThreads(s: State, s': State, t: nat, n: nat)
    requires ThreadsOk(s) && Doing(s, t, n) && n in s.nodes
    requires forall u :: u in s.threads && u != t ==> s.threads[u].n != n
    requires s'.q == s.q && s'.nodes == s.nodes - {n} && s'.poller == s.poller && s'.threads == s.threads - {t}
    ensures ThreadsOk(s')
  {
    forall u | u in s'.threads
      ensures ThreadOk(s', u)
    {
      assert ThreadOk(s, u);
    }
  }

  lemma FreedQueue(s: State, s': State, t: nat, n: nat)
    requires QueueOk(s) && t in s.threads && s.threads[t].Release? && Node(n) !in s.q.chain
    requires s'.q == s.q && s'.nodes == s.nodes - {n} && s'.poller == s.poller && s'.threads == s.threads - {t}
    ensures QueueOk(s')
  {
    forall p | p in s'.q.owed
      ensures OwedBacked(s', p)
    {
      assert OwedBacked(s, p);
    }
  }

  lemma Alone(s: State, t: nat)
    requires Safe(s) && Runs(s, t) && s.threads[t].Release? && s.nodes[s.threads[t].n].refs == 1
    ensures Unused(s, s.threads[t].n)
    ensures forall u :: u in s.threads && u != t ==> s.threads[u].n != s.threads[t].n
  {
    var pc := s.threads[t];
    SafeIsHere(s, t);
    LastReference(s.q, s.nodes[pc.n], t, pc);
    forall u | u in s.threads && u != t
      ensures s.threads[u].n != pc.n
    {
      SafeThread(s, u);
    }
  }

  lemma FreeSafe(s: State, s': State, t: nat, n: nat)
    requires Safe(s) && Runs(s, t) && s.threads[t].Release? && s.threads[t].n == n && s.nodes[n].refs == 1
    requires s' == s.(nodes := s.nodes - {n}, threads := s.threads - {t})
    ensures Safe(s')
  {
    Alone(s, t);
    forall part
      ensures Holds(s', part)
    {
      assert Holds(s, part);
      match part
      case TheQueue => FreedQueue(s, s', t, n);
      case TheNodes => FreedNodes(s, s', t, n);
      case TheThreads => FreedThreads(s, s', t, n);
      case ThePoller => FreedPoller(s, s', n);
      case TheWaker => WakerKept(s, s', t);
    }
  }

  lemma ReleaseSafe(s: State, t: nat)
    requires Safe(s) && Runs(s, t) && s.threads[t].Release?
    ensures Safe(ReleaseStep(s, t))
  {
    var Release(n, h) := s.threads[t];
    var node := s.nodes[n];
    if node.refs == 1 {
      FreeSafe(s, ReleaseStep(s, t), t, n);
    } else {
      SafeIsHere(s, t);
      ReleasedNode(s.q, node, t, s.threads[t]);
      LocalMove(s, ReleaseStep(s, t), t, n, node.(refs := node.refs - 1, handles := node.handles - {h}), None);
    }
  }

  lemma ThreadStepSafe(s: State, t: nat)
    requires Safe(s) && Runs(s, t)
    ensures Safe(ThreadStep(s, t))
  {
    var pc := s.threads[t];
    if IsLocal(pc) {
      LocalSafe(s, t);
    } else if pc.Push? {
      if pc.phase.Swap? && pc.phase.prev != Closed && s.q.head == pc.phase.prev {
        PushSwapSafe(s, t);
      } else {
        PushQuietSafe(s, t);
      }
    } else if pc.Wake? {
      WakeSafe(s, t);
    } else if pc.GiveBack? {
      GiveBackSafe(s, t);
    } else {
      ReleaseSafe(s, t);
    }
  }
}
