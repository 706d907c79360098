/** Every step of the poller keeps the invariant. */
module ReadinessPoller {
  import opened ReadinessWord
  import opened MarkerQueue
  import opened Readiness
  import opened ReadinessInvariant
  import opened ReadinessFrames
  import opened ReadinessThreads

  // ---------- what the poller's steps guarantee to the threads ----------

  ghost predicate PollerGuarantee(node: ReadinessNode, node': ReadinessNode) {
    && node'.handles == node.handles && node'.locked == node.locked && node'.holder == node.holder
    && node'.bound == node.bound
    && node'.token0 == node.token0 && node'.token1 == node.token1 && node'.token2 == node.token2
    && node'.word.wr == node.word.wr && (node'.word.rd == node.word.rd || node'.word.rd == node.word.wr)
    && node'.word.dropped == node.word.dropped
    && (node.slot.Pushing? || node'.slot.Pushing? ==> node'.slot == node.slot)
    && (node.qref.Counting? || node'.qref.Counting? ==> node'.qref == node.qref)
  }

  /** The poller stepped from `s` to `s'` and changed no node but `n`. */
  ghost predicate OnlyPoller(s: State, s': State, n: nat) {
    && s'.threads == s.threads && s'.waker == s.waker
    && (forall m :: m != n ==> (m in s'.nodes <==> m in s.nodes) && (m in s.nodes ==> s'.nodes[m] == s.nodes[m]))
    && (forall m :: m != n ==> (Node(m) in s'.q.chain <==> Node(m) in s.q.chain))
    && (forall m :: m != n && InHand(s.poller, m) ==> InHand(s'.poller, m))
    && (forall u :: u in s.threads && BorrowsPoll(s.threads[u]) && Closing(s'.poller) ==> Closing(s.poller))
  }

  ghost predicate PollerStepOk(s: State, s': State, n: nat) {
    && OnlyPoller(s, s', n)
    && NodeAfterPoller(s, s', n)
    && LinksAfterPoller(s.q, s'.q, n)
    && MarkerQueue.Inv(s'.q)
    && PollerDebtsBacked(s')
    && PollerOk(s')
  }

  /** The step leaves node `n` in order, or frees it when no thread works on it. */
  ghost predicate NodeAfterPoller(s: State, s': State, n: nat) {
    && (n in s'.nodes ==>
          && n in s.nodes && PollerGuarantee(s.nodes[n], s'.nodes[n]) && NodeOk(s'.nodes[n])
          && (s'.nodes[n].slot.Listed? <==> Node(n) in s'.q.chain)
          && (s'.nodes[n].slot.Processing? ==> InHand(s'.poller, n))
          && PushersSeeNext(s.q, s'.q, s.nodes[n], n))
    && (n in s.nodes && n !in s'.nodes ==> forall u :: u in s.threads ==> s.threads[u].n != n)
    && (n !in s'.nodes ==> Node(n) !in s'.q.chain)
  }

  /** The step leaves the producers' unfinished pushes, and the links of nodes outside the list, alone. */
  ghost predicate LinksAfterPoller(q: Queue, q': Queue, n: nat) {
    && (forall p :: p in q.owed && q.owed[p].actor.Producer? ==> p in q'.owed && q'.owed[p] == q.owed[p])
    && (forall p :: p in q'.owed && q'.owed[p].actor.Producer? ==> p in q.owed && q'.owed[p] == q.owed[p])
    && (forall m :: m != n && Node(m) !in q.chain ==> q'.Next(Node(m)) == q.Next(Node(m)))
    && (q.head == Closed ==> q'.head == Closed)
  }

  ghost predicate PollerDebtsBacked(s: State) {
    forall p :: p in s.q.owed && s.q.owed[p].actor.Poller? ==> OwedBacked(s, p)
  }

  /** A thread about to push `n` still finds its link as it left it. */
  ghost predicate PushersSeeNext(q: Queue, q': Queue, node: ReadinessNode, n: nat) {
    node.slot.Pushing? ==> q'.Next(Node(n)) == q.Next(Node(n))
  }

  lemma GuaranteeToThread(node: ReadinessNode, node': ReadinessNode, u: nat, pc: Pc)
    requires PollerGuarantee(node, node') && HandleOk(node, u, pc)
    ensures NodeRely(node, node', u, pc)
  {
  }

  lemma ThreadUnderPoller(s: State, s': State, n: nat, u: nat)
    requires PollerStepOk(s, s', n) && u in s.threads && ThreadOk(s, u)
    requires OnTheWay(s.threads[u]) ==> Node(s.threads[u].n) !in s.q.chain
    ensures ThreadOk(s', u)
  {
    var pc := s.threads[u];
    var m := pc.n;
    assert m in s'.nodes;
    if m == n {
      GuaranteeToThread(s.nodes[m], s'.nodes[m], u, pc);
    } else {
      assert NodeRely(s.nodes[m], s'.nodes[m], u, pc);
    }
    ThreadKept(s.q, s'.q, s.nodes[m], s'.nodes[m], u, pc);
  }

  lemma ThreadsUnderPoller(s: State, s': State, n: nat)
    requires ThreadsOk(s) && NodesOk(s) && PollerStepOk(s, s', n)
    ensures ThreadsOk(s')
  {
    forall u | u in s'.threads
      ensures ThreadOk(s', u)
    {
      assert ThreadOk(s, u);
      assert Backed(s, s.threads[u].n, s.nodes[s.threads[u].n]);
      ThreadUnderPoller(s, s', n, u);
    }
  }

  lemma NodeUnderPoller(s: State, s': State, n: nat, m: nat)
    requires PollerStepOk(s, s', n) && m in s.nodes && m in s'.nodes && NodeOk(s.nodes[m]) && Backed(s, m, s.nodes[m])
    ensures NodeOk(s'.nodes[m]) && Backed(s', m, s'.nodes[m])
  {
  }

  lemma NodesUnderPoller(s: State, s': State, n: nat)
    requires NodesOk(s) && PollerStepOk(s, s', n)
    ensures NodesOk(s')
  {
    forall m | m in s'.nodes
      ensures NodeOk(s'.nodes[m]) && Backed(s', m, s'.nodes[m])
    {
      assert NodeOk(s.nodes[m]) && Backed(s, m, s.nodes[m]);
      NodeUnderPoller(s, s', n, m);
    }
  }

  lemma QueueUnderPoller(s: State, s': State, n: nat)
    requires QueueOk(s) && PollerStepOk(s, s', n)
    ensures QueueOk(s')
  {
    forall p | p in s'.q.owed
      ensures OwedBacked(s', p)
    {
      if s'.q.owed[p].actor.Producer? {
        assert OwedBacked(s, p);
      }
    }
    forall m | Node(m) in s'.q.chain
      ensures m in s'.nodes
    {
      if m != n {
        assert Node(m) in s.q.chain;
      }
    }
  }

  lemma PollerMove(s: State, s': State, n: nat)
    requires Safe(s) && PollerStepOk(s, s', n)
    ensures Safe(s')
  {
    assert Holds(s, TheQueue) && Holds(s, TheNodes) && Holds(s, TheThreads) && Holds(s, TheWaker);
    ThreadsUnderPoller(s, s', n);
    NodesUnderPoller(s, s', n);
    QueueUnderPoller(s, s', n);
    AllParts(s');
  }

  // ---------- steps that change no node ----------

  ghost predicate QuietStepOk(s: State, s': State) {
    && s'.threads == s.threads && s'.waker == s.waker && s'.nodes == s.nodes
    && (forall m :: InHand(s.poller, m) ==> InHand(s'.poller, m))
    && (forall u :: u in s.threads && BorrowsPoll(s.threads[u]) && Closing(s'.poller) ==> Closing(s.poller))
    && QuietQueue(s.q, s'.q)
    && (forall p :: p in s'.q.owed && s'.q.owed[p].actor.Poller? ==> OwedBacked(s', p))
    && PollerOk(s')
  }

  ghost predicate QuietQueue(q: Queue, q': Queue) {
    && MarkerQueue.Inv(q')
    && (forall m :: Node(m) in q'.chain <==> Node(m) in q.chain)
    && (forall m :: q'.Next(Node(m)) == q.Next(Node(m)) || Node(m) in q.chain)
    && (forall p :: p in q.owed && q.owed[p].actor.Producer? ==> p in q'.owed && q'.owed[p] == q.owed[p])
    && (forall p :: p in q'.owed && q'.owed[p].actor.Producer? ==> p in q.owed && q'.owed[p] == q.owed[p])
    && (q.head == Closed ==> q'.head == Closed)
  }

  lemma QuietMove(s: State, s': State)
    requires Safe(s) && QuietStepOk(s, s')
    ensures Safe(s')
  {
    assert Holds(s, TheQueue);
    var n := 0;
    if n in s.nodes {
      SafeNode(s, n);
    }
    QuietIsPollerStep(s, s', n);
    PollerMove(s, s', n);
  }

  lemma QuietIsPollerStep(s: State, s': State, n: nat)
    requires QuietStepOk(s, s')
    requires n in s.nodes ==> NodeOk(s.nodes[n]) && Backed(s, n, s.nodes[n])
    requires n !in s.nodes ==> Node(n) !in s.q.chain
    ensures PollerStepOk(s, s', n)
  {
  }

  lemma QuietSame(q: Queue)
    requires MarkerQueue.Inv(q)
    ensures QuietQueue(q, q)
  {
  }

  lemma QuietReset(q: Queue, p: Ptr)
    requires MarkerQueue.Inv(q) && p !in q.chain && !p.Node?
    ensures QuietQueue(q, ResetLink(q, p))
  {
    ResetLinkInv(q, p);
  }

  lemma QuietReplace(q: Queue, marker: Ptr)
    requires MarkerQueue.Inv(q) && q.head == q.tail && Marker(q.tail) && q.tail != Closed
    requires marker == End || marker == Sleep
    requires q.Next(marker) == Null
    ensures QuietQueue(q, ReplaceMarker(q, marker))
    ensures q.chain == [q.tail] && q.owed == map[]
  {
    ReplaceMarkerInv(q, marker);
    assert forall p :: p in q.owed ==> p in q.chain;
  }

  lemma QuietAdvance(q: Queue)
    requires MarkerQueue.Inv(q) && q.Next(q.tail) != Null && !q.tail.Node?
    ensures QuietQueue(q, Advance(q))
    ensures 1 < |q.chain| && q.tail != Closed
  {
    AdvanceInv(q);
    var r := Advance(q);
    forall m
      ensures Node(m) in r.chain <==> Node(m) in q.chain
    {
      assert q.chain == [q.tail] + r.chain;
    }
  }

  lemma NoPollerDebt(s: State)
    requires QueueOk(s) && !(s.poller.PPush? && s.poller.phase.Link?)
    ensures forall p :: p in s.q.owed ==> !s.q.owed[p].actor.Poller?
  {
    forall p | p in s.q.owed
      ensures !s.q.owed[p].actor.Poller?
    {
      assert OwedBacked(s, p);
    }
  }

  /** A step that moves only the poller's program counter, or the pipe. */
  lemma CounterMove(s: State, s': State)
    requires Safe(s) && !(s.poller.PPush? && s.poller.phase.Link?)
    requires s'.threads == s.threads && s'.waker == s.waker && s'.nodes == s.nodes && s'.q == s.q
    requires forall m :: InHand(s.poller, m) ==> InHand(s'.poller, m)
    requires Closing(s'.poller) ==> Closing(s.poller) || (forall u :: u in s.threads ==> !BorrowsPoll(s.threads[u]))
    requires PollerOk(s')
    ensures Safe(s')
  {
    assert Holds(s, TheQueue);
    QuietSame(s.q);
    NoPollerDebt(s);
    QuietMove(s, s');
  }

  // ---------- the positions a pass may reach ----------

  lemma PassAdvance(chain: seq<Ptr>, c: Ctx)
    requires PassOk(chain, c, Null) && 0 < |chain| && (c.InPass? ==> chain[0] != c.until)
    ensures PassOk(chain[1..], c, Null)
    ensures c.InPass? && chain[0].Node? ==> chain[0].id !in c.requeued
  {
    var rest := chain[1..];
    if c.InPass? {
      assert Behind(chain, c, 0);
      assert chain[..1] == [chain[0]];
      forall r | r in c.requeued
        ensures Node(r) in rest
      {
        assert chain == [chain[0]] + rest;
      }
      forall j: nat | j < |rest|
        ensures Behind(rest, c, j)
      {
        assert Behind(chain, c, j + 1);
        assert chain[..j + 2] == [chain[0]] + rest[..j + 1];
      }
    }
  }

  // ---------- taking a node off the list ----------

  lemma PoppedQueue(q: Queue)
    requires MarkerQueue.Inv(q) && q.Next(q.tail) != Null && q.tail.Node?
    ensures var q' := Advance(q);
            && MarkerQueue.Inv(q') && q'.owed == q.owed && q'.next == q.next && q'.head == q.head
            && q.tail !in q'.chain
            && (forall p :: p != q.tail ==> (p in q'.chain <==> p in q.chain))
            && q'.chain == q.chain[1..]
  {
    AdvanceInv(q);
    var q' := Advance(q);
    assert q.chain == [q.tail] + q'.chain;
    forall i | 0 <= i < |q'.chain|
      ensures q'.chain[i] != q.tail
    {
      assert q'.chain[i] == q.chain[i + 1];
    }
  }

  predicate Searching(pc: PollerPc, c: Ctx) {
    pc == DqLoad(c) || pc == DqMarker(c) || pc == DqRetry(c)
  }

  /** The poller is about to hand out the tail. */
  ghost predicate CanPop(s: State, c: Ctx) {
    && Searching(s.poller, c)
    && CtxOk(s, c, Null) && s.q.tail.Node? && (c.InPass? ==> s.q.tail != c.until)
    && s.q.Next(s.q.tail) != Null
  }

  lemma PoppedNode(node: ReadinessNode)
    requires NodeOk(node) && node.slot.Listed?
    ensures NodeOk(node.(slot := Processing)) && PollerGuarantee(node, node.(slot := Processing))
  {
  }

  lemma PopPollerOk(s: State, s': State, c: Ctx, n: nat)
    requires CtxOk(s, c, Null) && n in s.nodes
    requires s'.poller == Got(Node(n), c) && s'.nodes == s.nodes[n := s.nodes[n].(slot := Processing)]
    requires s'.q.head == s.q.head
    requires PassOk(s'.q.chain, c, Null) && (c.InPass? ==> n !in c.requeued)
    ensures PollerOk(s')
  {
  }

  lemma PopOnly(s: State, s': State, c: Ctx, n: nat)
    requires Searching(s.poller, c) && n in s.nodes
    requires s' == s.(q := s'.q, poller := Got(Node(n), c), nodes := s.nodes[n := s.nodes[n].(slot := Processing)])
    requires forall p :: p != Node(n) ==> (p in s'.q.chain <==> p in s.q.chain)
    ensures OnlyPoller(s, s', n) && InHand(s'.poller, n)
  {
  }

  lemma PopIsPollerStep(s: State, s': State, c: Ctx, n: nat)
    requires Searching(s.poller, c) && n in s.nodes
    requires s' == s.(q := s'.q, poller := Got(Node(n), c), nodes := s.nodes[n := s.nodes[n].(slot := Processing)])
    requires NodeOk(s'.nodes[n]) && PollerGuarantee(s.nodes[n], s'.nodes[n]) && s.nodes[n].slot.Listed?
    requires MarkerQueue.Inv(s'.q) && s'.q.owed == s.q.owed && s'.q.next == s.q.next && s'.q.head == s.q.head
    requires Node(n) !in s'.q.chain && forall p :: p != Node(n) ==> (p in s'.q.chain <==> p in s.q.chain)
    requires PollerOk(s')
    requires forall p :: p in s.q.owed ==> !s.q.owed[p].actor.Poller?
    ensures PollerStepOk(s, s', n)
  {
    PopOnly(s, s', c, n);
    PopNode(s, s', c, n);
    SameDebts(s, s', n);
  }

  /** The links are as they were, and none is the poller's to store. */
  lemma SameDebts(s: State, s': State, n: nat)
    requires s'.q.owed == s.q.owed && s'.q.next == s.q.next && s'.q.head == s.q.head
    requires forall p :: p in s.q.owed ==> !s.q.owed[p].actor.Poller?
    ensures PollerDebtsBacked(s') && LinksAfterPoller(s.q, s'.q, n)
  {
  }

  lemma PopNode(s: State, s': State, c: Ctx, n: nat)
    requires n in s.nodes && s.nodes[n].slot.Listed? && s'.q.next == s.q.next && Node(n) !in s'.q.chain
    requires s'.poller == Got(Node(n), c) && s'.nodes == s.nodes[n := s.nodes[n].(slot := Processing)]
    requires NodeOk(s'.nodes[n]) && PollerGuarantee(s.nodes[n], s'.nodes[n])
    ensures NodeAfterPoller(s, s', n)
  {
  }

  lemma PopSafe(s: State, s': State, c: Ctx)
    requires Safe(s) && CanPop(s, c)
    requires s' == s.(q := Advance(s.q), poller := Got(s.q.tail, c), nodes := Processed(s.nodes, s.q.tail))
    ensures Safe(s')
  {
    assert Holds(s, TheQueue);
    var n := s.q.tail.id;
    assert s.q.chain[0] == Node(n);
    SafeNode(s, n);
    PoppedQueue(s.q);
    PoppedNode(s.nodes[n]);
    PassAdvance(s.q.chain, c);
    NoPollerDebt(s);
    PopPollerOk(s, s', c, n);
    PopIsPollerStep(s, s', c, n);
    PollerMove(s, s', n);
  }

  lemma TailIsData(s: State)
    requires QueueOk(s) && s.q.Next(s.q.tail) != Null && !Marker(s.q.tail)
    ensures s.q.tail.Node?
  {
    assert s.q.tail in s.q.chain;
  }

  lemma ClosedTail(q: Queue)
    requires MarkerQueue.Inv(q)
    ensures q.tail == Closed ==> q.chain == [Closed] && q.head == Closed && q.Next(Closed) == Null
  {
  }

  lemma DqLoadMarkerSafe(s: State, c: Ctx)
    requires Safe(s) && s.poller == DqLoad(c) && Marker(s.q.tail) && s.q.Next(s.q.tail) != Null
    ensures Safe(DequeueStep(s))
  {
    assert Holds(s, TheQueue) && Holds(s, ThePoller);
    NoPollerDebt(s);
    DqLoadMarkerOk(s, c);
    QuietMove(s, DequeueStep(s));
  }

  lemma DqLoadMarkerOk(s: State, c: Ctx)
    requires MarkerQueue.Inv(s.q) && CtxOk(s, c, Null)
    requires s.poller == DqLoad(c) && Marker(s.q.tail) && s.q.Next(s.q.tail) != Null
    requires forall r :: r in s.q.owed ==> !s.q.owed[r].actor.Poller?
    ensures QuietStepOk(s, DequeueStep(s))
  {
    var s' := s.(q := Advance(s.q), poller := DqMarker(c));
    QuietAdvance(s.q);
    AdvanceInv(s.q);
    PassAdvance(s.q.chain, c);
    AfterMarkerOk(s, s', c);
    DqLoadMarkerQuiet(s, s', c);
  }

  lemma DqLoadMarkerQuiet(s: State, s': State, c: Ctx)
    requires s.poller == DqLoad(c) && s' == s.(q := Advance(s.q), poller := DqMarker(c)) && PollerOk(s')
    requires QuietQueue(s.q, s'.q)
    requires forall r :: r in s.q.owed ==> !s.q.owed[r].actor.Poller?
    ensures QuietStepOk(s, s')
  {
  }

  lemma AfterMarkerOk(s: State, s': State, c: Ctx)
    requires CtxOk(s, c, Null) && s' == s.(q := Advance(s.q), poller := DqMarker(c))
    requires PassOk(s'.q.chain, c, Null) && s'.q.head == s.q.head && MarkerQueue.Inv(s.q) && MarkerQueue.Inv(s'.q)
    requires 1 < |s.q.chain| && s'.q.tail == s.q.chain[1] && Marker(s.q.tail)
    ensures PollerOk(s')
  {
    assert s'.q.tail in s.q.chain;
    assert s'.q.tail != Null && s'.q.tail != Sleep;
  }

  lemma DqLoadSafe(s: State, c: Ctx)
    requires Safe(s) && s.poller == DqLoad(c)
    ensures Safe(DequeueStep(s))
  {
    assert Holds(s, TheQueue) && Holds(s, ThePoller);
    if Marker(s.q.tail) && s.q.Next(s.q.tail) != Null {
      DqLoadMarkerSafe(s, c);
    } else if !Marker(s.q.tail) && !(c.InPass? && s.q.tail == c.until) && s.q.Next(s.q.tail) != Null {
      TailIsData(s);
      PopSafe(s, DequeueStep(s), c);
    } else {
      assert s.q.chain[0] != Null;
      DqLoadLeaves(s, DequeueStep(s), c);
      CounterMove(s, DequeueStep(s));
    }
  }

  lemma DqLoadLeaves(s: State, s': State, c: Ctx)
    requires PollerOk(s) && s.poller == DqLoad(c) && s' == DequeueStep(s) && s.q.tail != Null
    requires !(Marker(s.q.tail) && s.q.Next(s.q.tail) != Null)
    requires !(!Marker(s.q.tail) && !(c.InPass? && s.q.tail == c.until) && s.q.Next(s.q.tail) != Null)
    ensures s' == s.(poller := s'.poller) && !s'.poller.PPush? && PollerOk(s')
            && (Closing(s'.poller) ==> Closing(s.poller))
  {
  }

  lemma DqMarkerSafe(s: State, c: Ctx)
    requires Safe(s) && s.poller == DqMarker(c)
    ensures Safe(DequeueStep(s))
  {
    assert Holds(s, TheQueue) && Holds(s, ThePoller);
    var s' := DequeueStep(s);
    if c.InPass? && s.q.tail == c.until {
      CounterMove(s, s');
    } else if s.q.Next(s.q.tail) != Null {
      ClosedTail(s.q);
      PopSafe(s, s', c);
    } else {
      CounterMove(s, s');
    }
  }

  lemma DqRetrySafe(s: State, c: Ctx)
    requires Safe(s) && s.poller == DqRetry(c)
    ensures Safe(DequeueStep(s))
  {
    assert Holds(s, TheQueue) && Holds(s, ThePoller);
    var s' := DequeueStep(s);
    if s.q.Next(s.q.tail) != Null {
      ClosedTail(s.q);
      PopSafe(s, s', c);
    } else {
      CounterMove(s, s');
    }
  }

  lemma OneElement(q: Queue)
    requires MarkerQueue.Inv(q) && q.head == q.tail
    ensures q.chain == [q.tail]
  {
  }

  lemma DqHeadSafe(s: State, c: Ctx)
    requires Safe(s) && s.poller == DqHead(c)
    ensures Safe(DequeueStep(s))
  {
    assert Holds(s, TheQueue) && Holds(s, ThePoller);
    var s' := DequeueStep(s);
    if s.q.head == s.q.tail {
      OneElement(s.q);
    }
    CounterMove(s, s');
  }

  lemma ClearResetSafe(s: State, c: Ctx)
    requires Safe(s) && s.poller == ClearReset(c)
    ensures Safe(DequeueStep(s))
  {
    assert Holds(s, TheQueue) && Holds(s, ThePoller);
    assert s.q.chain[0] == Sleep;
    QuietReset(s.q, End);
    NoPollerDebt(s);
    QuietMove(s, DequeueStep(s));
  }

  lemma ClearSwapSafe(s: State, c: Ctx)
    requires Safe(s) && s.poller == ClearSwap(c)
    ensures Safe(DequeueStep(s))
  {
    assert Holds(s, TheQueue) && Holds(s, ThePoller);
    if s.q.head == Sleep {
      QuietReplace(s.q, End);
      QuietMove(s, DequeueStep(s));
    } else {
      CounterMove(s, DequeueStep(s));
    }
  }

  lemma PrepEndOk(s: State, s': State)
    requires s.poller.PrepTail? && s.q.tail == End && PollerOk(s) && Sleep !in s.q.chain
    requires s' == s.(q := ResetLink(s.q, Sleep), poller := PrepSwap)
    requires QuietQueue(s.q, s'.q)
    requires forall r :: r in s.q.owed ==> !s.q.owed[r].actor.Poller?
    ensures QuietStepOk(s, s')
  {
  }

  lemma NoSleepBehind(q: Queue)
    requires MarkerQueue.Inv(q) && q.tail != Sleep
    ensures Sleep !in q.chain
  {
  }

  lemma PrepTailSafe(s: State)
    requires Safe(s) && s.poller.PrepTail?
    ensures Safe(PrepareStep(s))
  {
    assert Holds(s, TheQueue) && Holds(s, ThePoller);
    if s.q.tail == End {
      NoPollerDebt(s);
      NoSleepBehind(s.q);
      QuietReset(s.q, Sleep);
      PrepEndOk(s, PrepareStep(s));
      QuietMove(s, PrepareStep(s));
    } else {
      CounterMove(s, PrepareStep(s));
    }
  }

  lemma PrepSwapSafe(s: State)
    requires Safe(s) && s.poller.PrepSwap?
    ensures Safe(PrepareStep(s))
  {
    assert Holds(s, TheQueue) && Holds(s, ThePoller);
    if s.q.head == End {
      QuietReplace(s.q, Sleep);
      QuietMove(s, PrepareStep(s));
    } else {
      CounterMove(s, PrepareStep(s));
    }
  }

  // ---------- enqueue_node by the poller ----------

  lemma PassRequeue(chain: seq<Ptr>, c: Ctx, n: nat)
    requires PassOk(chain, c, Null) && c.InPass? && Node(n) !in chain
    ensures PassOk(chain, Requeue(c, n), Node(n))
  {
    var c' := Requeue(c, n);
    forall j: nat | j < |chain|
      ensures Behind(chain, c', j)
    {
      assert Behind(chain, c, j);
      if chain[j].Node? && chain[j].id in c'.requeued {
        assert chain[j] != Node(n);
        assert c.until != Null;
      }
    }
  }

  lemma PassListed(chain: seq<Ptr>, c: Ctx, n: nat)
    requires PassOk(chain, c, Node(n)) && c.InPass? && Node(n) !in chain && n in c.requeued
    ensures PassOk(chain + [Node(n)], c, Null)
  {
    var chain' := chain + [Node(n)];
    assert chain'[|chain|] == Node(n);
    forall r | r in c.requeued
      ensures Node(r) in chain'
    {
      if Node(r) != Node(n) {
        assert Node(r) in chain;
      }
    }
    forall j: nat | j < |chain'|
      ensures Behind(chain', c, j)
    {
      if j < |chain| {
        assert Behind(chain, c, j);
        assert chain'[..j + 1] == chain[..j + 1];
      } else {
        assert chain'[..j + 1] == chain';
        assert Node(c.until.id) in chain';
      }
    }
  }

  lemma EndPushTail(s: State, phase: Phase, c: Ctx)
    requires QueueOk(s) && s.poller == PPush(End, phase, ToRetry(c)) && PollerOk(s) && phase.Swap?
    requires phase.prev != Closed && s.q.head == phase.prev
    ensures s.q.tail.Node?
  {
    ClosedTail(s.q);
  }

  lemma MarkerSwap(q: Queue, p: Ptr)
    requires MarkerQueue.Inv(q) && q.head != Closed && (p == End || p == Closed) && p !in q.chain && q.Next(p) == Null
    requires p == End ==> q.tail.Node?
    ensures var q' := SwapHead(q, p, Poller);
            && QuietQueue(q, q') && q'.tail == q.tail && q'.head == p
            && q'.chain == q.chain + [p] && q.head !in q.owed && q'.owed == q.owed[q.head := Owed(Poller, p)]
  {
    SwapHeadInv(q, p, Poller);
    assert q.head in q.chain;
    MarkerSwapQuiet(q, p);
  }

  lemma MarkerSwapQuiet(q: Queue, p: Ptr)
    requires MarkerQueue.Inv(SwapHead(q, p, Poller)) && q.head !in q.owed && q.head != Closed && !p.Node?
    ensures QuietQueue(q, SwapHead(q, p, Poller))
  {
  }

  lemma MarkerSwapSafe(s: State, p: Ptr, prev: Ptr, after: After)
    requires Safe(s) && s.poller == PPush(p, Swap(prev), after) && !p.Node? && prev != Closed && s.q.head == prev
    ensures Safe(PollerPushStep(s))
  {
    assert Holds(s, TheQueue) && Holds(s, ThePoller);
    var s' := PollerPushStep(s);
    NoPollerDebt(s);
    if after.ToRetry? {
      EndPushTail(s, Swap(prev), after.c);
      PassKept(s.q.chain, s.q.chain + [End], after.c, Null, End);
    }
    MarkerSwap(s.q, p);
    MarkerSwapOk(s, s', p, prev, after);
    QuietMove(s, s');
  }

  lemma MarkerSwapOk(s: State, s': State, p: Ptr, prev: Ptr, after: After)
    requires s.poller == PPush(p, Swap(prev), after) && !p.Node? && s.q.head == prev && PollerOk(s)
    requires s' == s.(q := SwapHead(s.q, p, Poller), poller := PPush(p, Link(prev), after))
    requires s'.q.tail == s.q.tail && s'.q.head == p && s'.q.owed == s.q.owed[prev := Owed(Poller, p)]
    requires QuietQueue(s.q, s'.q)
    requires forall r :: r in s.q.owed ==> !s.q.owed[r].actor.Poller?
    requires after.ToRetry? ==> PassOk(s'.q.chain, after.c, Null) && s.q.tail.Node? && prev != Closed
    ensures QuietStepOk(s, s')
  {
    MarkerSwapPoller(s, s', p, prev, after);
  }

  lemma MarkerSwapPoller(s: State, s': State, p: Ptr, prev: Ptr, after: After)
    requires s.poller == PPush(p, Swap(prev), after) && !p.Node? && s.q.head == prev && PollerOk(s)
    requires s' == s.(q := SwapHead(s.q, p, Poller), poller := PPush(p, Link(prev), after))
    requires s'.q.tail == s.q.tail && s'.q.head == p && s'.q.owed == s.q.owed[prev := Owed(Poller, p)]
    requires after.ToRetry? ==> PassOk(s'.q.chain, after.c, Null) && s.q.tail.Node? && prev != Closed
    ensures PollerOk(s')
  {
  }

  /** The head swap that puts a node back. */
  lemma RequeueFacts(s: State, n: nat, prev: Ptr, after: After)
    requires PollerOk(s) && s.poller == PPush(Node(n), Swap(prev), after)
    ensures after.ToDeliver? && after.c.InPass? && n in after.c.requeued && PassOk(s.q.chain, after.c, Node(n))
    ensures n in s.nodes && Node(n) !in s.q.chain && s.q.Next(Node(n)) == Null && s.nodes[n].slot.Processing?
    ensures !Closing(s.poller)
  {
  }

  lemma RequeueSwapSafe(s: State, n: nat, prev: Ptr, after: After)
    requires Safe(s) && s.poller == PPush(Node(n), Swap(prev), after) && prev != Closed && s.q.head == prev
    ensures Safe(PollerPushStep(s))
  {
    assert Holds(s, TheQueue) && Holds(s, ThePoller);
    NoPollerDebt(s);
    RequeueFacts(s, n, prev, after);
    SafeNode(s, n);
    SwapHeadInv(s.q, Node(n), Poller);
    PassListed(s.q.chain, after.c, n);
    RequeuedNode(s.nodes[n]);
    RequeuePollerOk(s, PollerPushStep(s), n, prev, after);
    RequeueSwapOk(s, PollerPushStep(s), n, prev, after);
    PollerMove(s, PollerPushStep(s), n);
  }

  lemma RequeuedNode(node: ReadinessNode)
    requires NodeOk(node) && node.slot.Processing?
    ensures NodeOk(node.(slot := Listed)) && PollerGuarantee(node, node.(slot := Listed))
  {
  }

  lemma RequeueSwapOk(s: State, s': State, n: nat, prev: Ptr, after: After)
    requires s.poller == PPush(Node(n), Swap(prev), after) && s.q.head == prev && prev != Closed && !Closing(s.poller)
    requires n in s.nodes && prev !in s.q.owed && Node(n) !in s.q.chain && s.nodes[n].slot.Processing?
    requires s' == s.(q := SwapHead(s.q, Node(n), Poller), poller := PPush(Node(n), Link(prev), after),
                      nodes := s.nodes[n := s.nodes[n].(slot := Listed)])
    requires NodeOk(s'.nodes[n]) && PollerGuarantee(s.nodes[n], s'.nodes[n])
    requires MarkerQueue.Inv(s'.q) && PollerOk(s')
    requires forall r :: r in s.q.owed ==> !s.q.owed[r].actor.Poller?
    ensures PollerStepOk(s, s', n)
  {
    RequeueOnly(s, s', n, prev, after);
    RequeueLinks(s.q, n, prev);
    RequeueNode(s, s', n, prev, after);
    RequeueDebts(s, s', n, prev, after);
  }

  lemma RequeueLinks(q: Queue, n: nat, prev: Ptr)
    requires q.head == prev && prev != Closed && prev !in q.owed
    ensures LinksAfterPoller(q, SwapHead(q, Node(n), Poller), n)
  {
  }

  lemma RequeueNode(s: State, s': State, n: nat, prev: Ptr, after: After)
    requires n in s.nodes && s.nodes[n].slot.Processing?
    requires s' == s.(q := SwapHead(s.q, Node(n), Poller), poller := PPush(Node(n), Link(prev), after),
                      nodes := s.nodes[n := s.nodes[n].(slot := Listed)])
    requires NodeOk(s'.nodes[n]) && PollerGuarantee(s.nodes[n], s'.nodes[n])
    ensures NodeAfterPoller(s, s', n)
  {
    assert s'.q.chain[|s.q.chain|] == Node(n);
  }

  lemma RequeueDebts(s: State, s': State, n: nat, prev: Ptr, after: After)
    requires s.q.head == prev && s'.q == SwapHead(s.q, Node(n), Poller)
    requires s'.poller == PPush(Node(n), Link(prev), after)
    requires forall r :: r in s.q.owed ==> !s.q.owed[r].actor.Poller?
    ensures PollerDebtsBacked(s')
  {
  }

  lemma RequeueOnly(s: State, s': State, n: nat, prev: Ptr, after: After)
    requires s.poller == PPush(Node(n), Swap(prev), after) && n in s.nodes
    requires s' == s.(q := SwapHead(s.q, Node(n), Poller), poller := PPush(Node(n), Link(prev), after),
                      nodes := s.nodes[n := s.nodes[n].(slot := Listed)])
    ensures OnlyPoller(s, s', n)
  {
  }

  lemma RequeuePollerOk(s: State, s': State, n: nat, prev: Ptr, after: After)
    requires s.poller == PPush(Node(n), Swap(prev), after) && PollerOk(s) && n in s.nodes
    requires s'.poller == PPush(Node(n), Link(prev), after) && s'.nodes == s.nodes[n := s.nodes[n].(slot := Listed)]
    requires PassOk(s'.q.chain, after.c, Null) && s'.q.head == Node(n) && NodeOk(s.nodes[n])
    requires prev in s'.q.owed && s'.q.owed[prev] == Owed(Poller, Node(n))
    ensures PollerOk(s')
  {
  }

  lemma PollerLinkSafe(s: State, p: Ptr, prev: Ptr, after: After)
    requires Safe(s) && s.poller == PPush(p, Link(prev), after)
    ensures Safe(PollerPushStep(s))
  {
    assert Holds(s, TheQueue) && Holds(s, ThePoller);
    LinkGuarantee(s.q, Poller, prev, p);
    OnePollerDebt(s, prev);
    PollerLinkOk(s, PollerPushStep(s), p, prev, after);
    QuietMove(s, PollerPushStep(s));
  }

  lemma OnePollerDebt(s: State, prev: Ptr)
    requires QueueOk(s) && s.poller.PPush? && s.poller.phase == Link(prev)
    ensures forall r :: r in s.q.owed && r != prev ==> !s.q.owed[r].actor.Poller?
    ensures prev in s.q.owed ==> prev in s.q.chain
  {
    forall r | r in s.q.owed && r != prev
      ensures !s.q.owed[r].actor.Poller?
    {
      assert OwedBacked(s, r);
    }
  }

  lemma PollerLinkPollerOk(s: State, s': State, p: Ptr, prev: Ptr, after: After)
    requires s.poller == PPush(p, Link(prev), after) && PollerOk(s)
    requires s' == s.(q := StoreLink(s.q, prev, p), poller := Resume(after))
    ensures PollerOk(s')
  {
  }

  lemma PollerLinkOk(s: State, s': State, p: Ptr, prev: Ptr, after: After)
    requires s.poller == PPush(p, Link(prev), after) && PollerOk(s)
    requires s' == s.(q := StoreLink(s.q, prev, p), poller := Resume(after))
    requires MarkerQueue.Inv(s'.q) && prev in s.q.chain
    requires forall r :: r in s.q.owed && r != prev ==> !s.q.owed[r].actor.Poller?
    ensures QuietStepOk(s, s')
  {
    PollerLinkPollerOk(s, s', p, prev, after);
    PollerLinkQuiet(s.q, p, prev);
  }

  lemma PollerLinkQuiet(q: Queue, p: Ptr, prev: Ptr)
    requires MarkerQueue.Inv(StoreLink(q, prev, p)) && prev in q.chain && prev in q.owed
    requires q.owed[prev] == Owed(Poller, p)
    ensures QuietQueue(q, StoreLink(q, prev, p))
  {
  }

  lemma PollerResetSafe(s: State, p: Ptr, after: After)
    requires Safe(s) && s.poller == PPush(p, Reset, after)
    ensures Safe(PollerPushStep(s))
  {
    assert Holds(s, TheQueue) && Holds(s, ThePoller);
    NoPollerDebt(s);
    var n := if p.Node? then p.id else 0;
    if n in s.nodes {
      SafeNode(s, n);
    }
    PollerResetOk(s, p, after, n);
    PollerMove(s, PollerPushStep(s), n);
  }

  lemma PollerResetOk(s: State, p: Ptr, after: After, n: nat)
    requires s.poller == PPush(p, Reset, after) && MarkerQueue.Inv(s.q) && PollerOk(s) && (p.Node? ==> n == p.id)
    requires n in s.nodes ==> NodeOk(s.nodes[n]) && Backed(s, n, s.nodes[n])
    requires n !in s.nodes ==> Node(n) !in s.q.chain
    requires forall r :: r in s.q.owed ==> !s.q.owed[r].actor.Poller?
    ensures PollerStepOk(s, PollerPushStep(s), n)
  {
    ResetLinkInv(s.q, p);
    if p.Node? {
      HandProcessing(s, p, after);
    }
    ResetPollerOk(s, PollerPushStep(s), p, after);
    ResetIsPollerStep(s, PollerPushStep(s), p, after, n);
  }

  lemma HandProcessing(s: State, p: Ptr, after: After)
    requires s.poller == PPush(p, Reset, after) && PollerOk(s) && p.Node?
    ensures p.id in s.nodes && s.nodes[p.id].slot.Processing?
  {
  }

  lemma ResetPollerOk(s: State, s': State, p: Ptr, after: After)
    requires s.poller == PPush(p, Reset, after) && PollerOk(s)
    requires s' == s.(q := ResetLink(s.q, p), poller := PPush(p, Load, after))
    ensures PollerOk(s')
  {
  }

  lemma ResetIsPollerStep(s: State, s': State, p: Ptr, after: After, n: nat)
    requires s.poller == PPush(p, Reset, after)
             && (p.Node? ==> n == p.id && n in s.nodes && s.nodes[n].slot.Processing?)
    requires s' == s.(q := ResetLink(s.q, p), poller := PPush(p, Load, after))
    requires MarkerQueue.Inv(s'.q) && PollerOk(s')
    requires n in s.nodes ==> NodeOk(s.nodes[n]) && Backed(s, n, s.nodes[n])
    requires n !in s.nodes ==> Node(n) !in s.q.chain
    requires forall r :: r in s.q.owed ==> !s.q.owed[r].actor.Poller?
    ensures PollerStepOk(s, s', n)
  {
    ResetOnly(s, s', p, after, n);
    assert PollerDebtsBacked(s');
    ResetNode(s, s', p, after, n);
    assert LinksAfterPoller(s.q, s'.q, n);
  }

  lemma ResetOnly(s: State, s': State, p: Ptr, after: After, n: nat)
    requires s.poller == PPush(p, Reset, after)
    requires s' == s.(q := ResetLink(s.q, p), poller := PPush(p, Load, after))
    ensures OnlyPoller(s, s', n)
  {
  }

  lemma ResetNode(s: State, s': State, p: Ptr, after: After, n: nat)
    requires s.poller == PPush(p, Reset, after)
             && (p.Node? ==> n == p.id && n in s.nodes && s.nodes[n].slot.Processing?)
    requires s' == s.(q := ResetLink(s.q, p), poller := PPush(p, Load, after))
    requires n in s.nodes ==> NodeOk(s.nodes[n]) && Backed(s, n, s.nodes[n])
    requires n !in s.nodes ==> Node(n) !in s.q.chain
    ensures NodeAfterPoller(s, s', n)
  {

  }

  lemma PollerPushSafe(s: State)
    requires Safe(s) && s.poller.PPush?
    ensures Safe(PollerPushStep(s))
  {
    var PPush(p, phase, after) := s.poller;
    if phase.Reset? {
      PollerResetSafe(s, p, after);
    } else if phase.Link? {
      PollerLinkSafe(s, p, phase.prev, after);
    } else if phase == Swap(Closed) {
      PollerFindsClosed(s, p, after);
    } else if phase.Load? || s.q.head != phase.prev {
      PollerReloadSafe(s, p, phase, after);
    } else if p.Node? {
      RequeueSwapSafe(s, p.id, phase.prev, after);
    } else {
      MarkerSwapSafe(s, p, phase.prev, after);
    }
  }

  lemma PollerReloadSafe(s: State, p: Ptr, phase: Phase, after: After)
    requires Safe(s) && s.poller == PPush(p, phase, after)
    requires phase.Load? || (phase.Swap? && phase.prev != Closed && s.q.head != phase.prev)
    ensures Safe(PollerPushStep(s))
  {
    assert Holds(s, ThePoller);
    CounterMove(s, PollerPushStep(s));
  }

  /** Only the destructor's push of the end marker can find the queue closed. */
  lemma PollerFindsClosed(s: State, p: Ptr, after: After)
    requires Safe(s) && s.poller == PPush(p, Swap(Closed), after)
    ensures p == End
    ensures Safe(PollerPushStep(s))
  {
    assert Holds(s, TheQueue) && Holds(s, ThePoller);
    ClosedFound(s, PollerPushStep(s), p, after);
    CounterMove(s, PollerPushStep(s));
  }

  lemma ClosedFound(s: State, s': State, p: Ptr, after: After)
    requires PollerOk(s) && s.poller == PPush(p, Swap(Closed), after) && s' == PollerPushStep(s)
    requires MarkerQueue.Inv(s.q)
    ensures p == End && after.ToRetry?
    ensures s' == s.(poller := DqRetry(after.c)) && PollerOk(s') && (Closing(s'.poller) ==> Closing(s.poller))
  {
    assert s.q.head in s.q.chain;
  }

  // ---------- the loop of poll ----------

  lemma NodeLoadSafe(s: State)
    requires NodeReady(s)
    requires Safe(s) && s.poller.NodeLoad?
    ensures Safe(NodeStep(s))
  {
    assert Holds(s, ThePoller);
    SafeNode(s, s.poller.p.id);
    CounterMove(s, NodeStep(s));
  }

  lemma NodeRetrySafe(s: State, n: nat, seen: Word, want: int, c: Ctx)
    requires NodeReady(s)
    requires Safe(s) && s.poller == NodeSwap(n, seen, want, c) && !seen.dropped
    requires AfterPoll(seen) != seen && s.nodes[n].word != seen
    ensures Safe(NodeStep(s))
  {
    assert Holds(s, ThePoller);
    SafeNode(s, n);
    CounterMove(s, NodeStep(s));
  }

  lemma NoSwapOk(s: State, s': State, n: nat, seen: Word, want: int, c: Ctx)
    requires s.poller == NodeSwap(n, seen, want, c) && PollerOk(s) && AfterPoll(seen) == seen
    requires NodeOk(s.nodes[n]) && Node(n) !in s.q.chain && PassOk(s.q.chain, Requeue(c, n), Node(n))
    requires s' == s.(poller := Proceed(n, seen, want, c))
    ensures PollerOk(s') && InHand(s'.poller, n) && !Closing(s'.poller)
  {
  }

  lemma NodeNoSwapSafe(s: State, n: nat, seen: Word, want: int, c: Ctx)
    requires NodeReady(s)
    requires Safe(s) && s.poller == NodeSwap(n, seen, want, c) && !seen.dropped && AfterPoll(seen) == seen
    ensures Safe(NodeStep(s))
  {
    assert Holds(s, ThePoller);
    SafeNode(s, n);
    PassRequeue(s.q.chain, c, n);
    NoSwapOk(s, NodeStep(s), n, seen, want, c);
    CounterMove(s, NodeStep(s));
  }

  lemma PolledNode(node: ReadinessNode)
    requires NodeOk(node) && node.slot.Processing? && !node.word.dropped
    ensures var next := AfterPoll(node.word);
            var node' := node.(word := next, unseen := false, slot := if next.queued then Processing else Idle);
            && NodeOk(node') && PollerGuarantee(node, node') && node'.word.rd == node.word.wr
            && node'.Token(node'.word.rd) == node.current
  {
  }

  lemma NodeSwapSafe(s: State, n: nat, seen: Word, want: int, c: Ctx)
    requires NodeReady(s)
    requires Safe(s) && s.poller == NodeSwap(n, seen, want, c) && !seen.dropped
    requires AfterPoll(seen) != seen && s.nodes[n].word == seen
    ensures Safe(NodeStep(s))
  {
    assert Holds(s, TheQueue) && Holds(s, ThePoller);
    SafeNode(s, n);
    NoPollerDebt(s);
    PolledNode(s.nodes[n]);
    PassRequeue(s.q.chain, c, n);
    PolledPollerOk(s, NodeStep(s), n, seen, want, c);
    NodeSwapIsPollerStep(s, NodeStep(s), n, seen, want, c);
    PollerMove(s, NodeStep(s), n);
  }

  /** The poller has put `AfterPoll(seen)` in place. */
  ghost predicate Polled(s: State, s': State, n: nat, seen: Word, c: Ctx)
    requires n in s.nodes
  {
    var node := s.nodes[n];
    var next := AfterPoll(seen);
    && s' == s.(nodes := s.nodes[n := node.(word := next, unseen := false,
                                            slot := if next.queued then Processing else Idle)],
                poller := Proceed(n, seen, node.current, c))
    && NodeOk(s'.nodes[n]) && PollerGuarantee(node, s'.nodes[n])
    && s'.nodes[n].word.rd == node.word.wr && next.rd == node.word.wr
    && s'.nodes[n].Token(s'.nodes[n].word.rd) == node.current
  }

  lemma PolledPollerOk(s: State, s': State, n: nat, seen: Word, want: int, c: Ctx)
    requires s.poller == NodeSwap(n, seen, want, c) && n in s.nodes && PollerOk(s) && NodeOk(s.nodes[n])
    requires Node(n) !in s.q.chain && Polled(s, s', n, seen, c) && PassOk(s.q.chain, Requeue(c, n), Node(n))
    ensures PollerOk(s')
    ensures s'.nodes[n].slot.Processing? ==> InHand(s'.poller, n)
    ensures !Closing(s'.poller)
  {
    assert Kept(s', n);
  }

  lemma NodeSwapIsPollerStep(s: State, s': State, n: nat, seen: Word, want: int, c: Ctx)
    requires s.poller == NodeSwap(n, seen, want, c) && n in s.nodes && s.nodes[n].slot.Processing?
    requires Node(n) !in s.q.chain && MarkerQueue.Inv(s.q) && Polled(s, s', n, seen, c)
    requires PollerOk(s') && (s'.nodes[n].slot.Processing? ==> InHand(s'.poller, n)) && !Closing(s'.poller)
    requires forall r :: r in s.q.owed ==> !s.q.owed[r].actor.Poller?
    ensures PollerStepOk(s, s', n)
  {
    NodeSwapOnly(s, s', n, seen, want, c);
    NodeSwapNode(s, s', n, seen, c);
    SameDebts(s, s', n);
  }

  lemma NodeSwapOnly(s: State, s': State, n: nat, seen: Word, want: int, c: Ctx)
    requires s.poller == NodeSwap(n, seen, want, c) && n in s.nodes && !Closing(s'.poller)
    requires n in s'.nodes
    requires s'.threads == s.threads && s'.waker == s.waker && s'.q == s.q && s'.nodes == s.nodes[n := s'.nodes[n]]
    ensures OnlyPoller(s, s', n)
  {
  }

  lemma NodeSwapNode(s: State, s': State, n: nat, seen: Word, c: Ctx)
    requires n in s.nodes && s.nodes[n].slot.Processing? && Node(n) !in s.q.chain && Polled(s, s', n, seen, c)
    requires s'.nodes[n].slot.Processing? ==> InHand(s'.poller, n)
    ensures NodeAfterPoller(s, s', n)
  {

  }

  lemma DeliverNothingSafe(s: State)
    requires NodeReady(s)
    requires Safe(s) && s.poller.Deliver? && s.poller.ready == 0
    ensures Safe(NodeStep(s))
  {
    assert Holds(s, ThePoller);
    DeliverNothingOk(s);
    CounterMove(s, NodeStep(s));
  }

  lemma DeliverNothingOk(s: State)
    requires NodeReady(s)
    requires PollerOk(s) && s.poller.Deliver? && s.poller.ready == 0
    ensures s.poller.n in s.nodes && PollerOk(NodeStep(s)) && !Closing(NodeStep(s).poller)
  {
  }

  lemma AboutToDeliver(s: State)
    requires PollerOk(s) && s.poller.Deliver?
    ensures s.poller.c.InPass? && PassOk(s.q.chain, s.poller.c, Null) && s.poller.n in s.nodes
  {
  }

  lemma DeliverSafe(s: State)
    requires NodeReady(s)
    requires Safe(s) && s.poller.Deliver? && s.poller.ready != 0
    ensures Safe(NodeStep(s))
  {
    assert Holds(s, TheQueue) && Holds(s, ThePoller);
    AboutToDeliver(s);
    SafeNode(s, s.poller.n);
    NoPollerDebt(s);
    DeliverPollerStep(s);
    PollerMove(s, NodeStep(s), s.poller.n);
  }

  lemma DeliverPollerStep(s: State)
    requires NodeReady(s)
    requires s.poller.Deliver? && s.poller.ready != 0 && PollerOk(s)
    requires s.poller.n in s.nodes && NodeOk(s.nodes[s.poller.n]) && Backed(s, s.poller.n, s.nodes[s.poller.n])
    requires MarkerQueue.Inv(s.q)
    requires forall r :: r in s.q.owed ==> !s.q.owed[r].actor.Poller?
    ensures PollerStepOk(s, NodeStep(s), s.poller.n)
  {
    AboutToDeliver(s);
    PassDelivered(s.q.chain, s.poller.c);
    DeliveredPollerOk(s, NodeStep(s), s.poller.n);
    DeliverIsPollerStep(s, NodeStep(s), s.poller.n);
  }

  lemma NodeFacts(s: State, n: nat)
    requires NodesOk(s) && n in s.nodes
    ensures NodeOk(s.nodes[n]) && Backed(s, n, s.nodes[n])
  {
  }

  lemma PassDelivered(chain: seq<Ptr>, c: Ctx)
    requires c.InPass? && PassOk(chain, c, Null)
    ensures PassOk(chain, c.(len := c.len + 1), Null)
  {
    var c' := c.(len := c.len + 1);
    forall j: nat | j < |chain|
      ensures Behind(chain, c', j)
    {
      assert Behind(chain, c, j);
    }
  }

  lemma DeliveredPollerOk(s: State, s': State, n: nat)
    requires NodeReady(s)
    requires s.poller.Deliver? && s.poller.n == n && s.poller.ready != 0 && PollerOk(s)
    requires n in s.nodes && s' == NodeStep(s)
    requires PassOk(s.q.chain, s.poller.c.(len := s.poller.c.len + 1), Null)
    ensures PollerOk(s') && !Closing(s'.poller)
  {
  }

  lemma DeliverIsPollerStep(s: State, s': State, n: nat)
    requires NodeReady(s)
    requires s.poller.Deliver? && s.poller.n == n && s.poller.ready != 0
    requires n in s.nodes && NodeOk(s.nodes[n]) && Backed(s, n, s.nodes[n]) && MarkerQueue.Inv(s.q) && s' == NodeStep(s)
    requires PollerOk(s') && !Closing(s'.poller)
    requires forall r :: r in s.q.owed ==> !s.q.owed[r].actor.Poller?
    ensures PollerStepOk(s, s', n)
  {
    DeliverOnly(s, s', n);
    SameDebts(s, s', n);
  }

  lemma DeliverOnly(s: State, s': State, n: nat)
    requires NodeReady(s) && s.poller.Deliver? && s.poller.n == n && s.poller.ready != 0
    requires n in s.nodes && NodeOk(s.nodes[n]) && Backed(s, n, s.nodes[n]) && s' == NodeStep(s)
    requires !Closing(s'.poller)
    ensures OnlyPoller(s, s', n) && NodeAfterPoller(s, s', n) && s'.q == s.q
  {

  }

  // ---------- giving the queue's reference back ----------

  lemma NoHandles(handles: map<nat, Use>)
    requires |handles| == 0
    ensures forall h :: h !in handles
  {
    assert handles == map[];
  }

  /** The queue's reference is held, so giving it back either frees a node no one has a handle on, or leaves it
      spent. */
  lemma QueueRefReleased(s: State, n: nat)
    requires Safe(s) && n in s.nodes && s.nodes[n].slot.Processing? && s.nodes[n].qref.Held?
    ensures var node := s.nodes[n]; var node' := node.(refs := node.refs - 1, qref := Released, slot := Spent);
            if node.refs == 1 then forall u :: u in s.threads ==> s.threads[u].n != n
            else NodeOk(node') && PollerGuarantee(node, node')
  {
    assert Holds(s, TheNodes) && Holds(s, TheThreads);
    var node := s.nodes[n];
    assert NodeOk(node);
    if node.refs == 1 {
      NoHandles(node.handles);
      forall u | u in s.threads
        ensures s.threads[u].n != n
      {
        assert ThreadOk(s, u);
      }
    }
  }

  lemma ReleaseIsPollerStep(s: State, s': State, n: nat)
    requires n in s.nodes && Node(n) !in s.q.chain && InHand(s.poller, n) && !s.poller.PPush? && MarkerQueue.Inv(s.q)
    requires s' == ReleaseQueueRef(s, n).(poller := s'.poller) && PollerOk(s')
    requires Closing(s'.poller) ==> Closing(s.poller)
    requires var node := s.nodes[n]; var node' := node.(refs := node.refs - 1, qref := Released, slot := Spent);
             if node.refs == 1 then forall u :: u in s.threads ==> s.threads[u].n != n
             else !node.slot.Pushing? && NodeOk(node') && PollerGuarantee(node, node')
    requires forall r :: r in s.q.owed ==> !s.q.owed[r].actor.Poller?
    ensures PollerStepOk(s, s', n)
  {
    ReleaseOnly(s, s', n);
    SameDebts(s, s', n);
  }

  lemma ReleaseOnly(s: State, s': State, n: nat)
    requires n in s.nodes && Node(n) !in s.q.chain && InHand(s.poller, n) && !s.poller.PPush?
    requires s' == ReleaseQueueRef(s, n).(poller := s'.poller)
    requires Closing(s'.poller) ==> Closing(s.poller)
    requires var node := s.nodes[n]; var node' := node.(refs := node.refs - 1, qref := Released, slot := Spent);
             if node.refs == 1 then forall u :: u in s.threads ==> s.threads[u].n != n
             else !node.slot.Pushing? && NodeOk(node') && PollerGuarantee(node, node')
    ensures OnlyPoller(s, s', n) && NodeAfterPoller(s, s', n) && s'.q == s.q
  {

  }

  lemma DroppedNodeSafe(s: State, n: nat, seen: Word, want: int, c: Ctx)
    requires NodeReady(s)
    requires Safe(s) && s.poller == NodeSwap(n, seen, want, c) && seen.dropped
    ensures Safe(NodeStep(s))
  {
    assert Holds(s, TheQueue) && Holds(s, ThePoller);
    SafeNode(s, n);
    NoPollerDebt(s);
    QueueRefReleased(s, n);
    ReleaseIsPollerStep(s, NodeStep(s), n);
    PollerMove(s, NodeStep(s), n);
  }

  lemma DrainSafe(s: State)
    requires Safe(s) && s.poller.Drain? && Enabled(s, StepPoller)
    ensures Safe(StepOfPoller(s))
  {
    assert Holds(s, TheQueue) && Holds(s, ThePoller);
    var n := s.poller.p.id;
    SafeNode(s, n);
    NoPollerDebt(s);
    QueueRefCounted(s, n);
    QueueRefReleased(s, n);
    DrainMoves(s, ReleaseQueueRef(s, n).(poller := DqLoad(InDrop)), n);
  }

  lemma DrainMoves(s: State, s': State, n: nat)
    requires Safe(s) && s.poller == Drain(Node(n)) && n in s.nodes && Node(n) !in s.q.chain
    requires MarkerQueue.Inv(s.q) && PollerOk(s)
    requires s' == ReleaseQueueRef(s, n).(poller := DqLoad(InDrop))
    requires var node := s.nodes[n]; var node' := node.(refs := node.refs - 1, qref := Released, slot := Spent);
             if node.refs == 1 then forall u :: u in s.threads ==> s.threads[u].n != n
             else !node.slot.Pushing? && NodeOk(node') && PollerGuarantee(node, node')
    requires forall r :: r in s.q.owed ==> !s.q.owed[r].actor.Poller?
    ensures Safe(s')
  {
    ReleaseIsPollerStep(s, s', n);
    PollerMove(s, s', n);
  }

  lemma NodeStepSafe(s: State)
    requires NodeReady(s)
    requires Safe(s) && (s.poller.NodeLoad? || s.poller.NodeSwap? || s.poller.Deliver?)
    ensures Safe(NodeStep(s))
  {
    assert Holds(s, ThePoller);
    match s.poller
    case NodeLoad(_, _) => NodeLoadSafe(s);
    case Deliver(_, ready, _, _, _) =>
      if ready == 0 {
        DeliverNothingSafe(s);
      } else {
        DeliverSafe(s);
      }
    case NodeSwap(n, seen, want, c) =>
      if seen.dropped {
        DroppedNodeSafe(s, n, seen, want, c);
      } else if AfterPoll(seen) == seen {
        NodeNoSwapSafe(s, n, seen, want, c);
      } else if s.nodes[n].word != seen {
        NodeRetrySafe(s, n, seen, want, c);
      } else {
        NodeSwapSafe(s, n, seen, want, c);
      }
  }

  lemma StepPollerSafe(s: State)
    requires Safe(s) && Enabled(s, StepPoller)
    ensures Safe(StepOfPoller(s))
  {
    assert Holds(s, ThePoller);
    match s.poller
    case DqLoad(c) => DqLoadSafe(s, c);
    case DqMarker(c) => DqMarkerSafe(s, c);
    case DqHead(c) => DqHeadSafe(s, c);
    case DqRetry(c) => DqRetrySafe(s, c);
    case ClearReset(c) => ClearResetSafe(s, c);
    case ClearSwap(c) => ClearSwapSafe(s, c);
    case PPush(_, _, _) => PollerPushSafe(s);
    case Drain(_) => DrainSafe(s);
    case PrepTail => PrepTailSafe(s);
    case PrepSwap => PrepSwapSafe(s);
    case _ => NodeStepSafe(s);
  }
}
