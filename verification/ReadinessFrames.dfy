/** Rely and guarantee: what a step of one actor leaves alone, and that this is enough for the others. */
module ReadinessFrames {
  import opened ReadinessWord
  import opened MarkerQueue
  import opened Readiness
  import opened ReadinessInvariant

  // ---------- what the others may do to the node thread `t` works on ----------

  ghost predicate NodeRely(node: ReadinessNode, node': ReadinessNode, t: nat, pc: Pc) {
    && HandleOk(node', t, pc)
    && (node.slot == Pushing(t) ==> node'.slot == Pushing(t))
    && (node.qref == Counting(t) ==> node'.qref == Counting(t))
    && (node.bound ==> node'.bound)
    && (pc.DropFlag? && !node.word.dropped ==> !node'.word.dropped)
    && (node.word.dropped ==> node'.word.dropped)
    && (node.locked && node.holder == t ==>
          && node'.locked && node'.holder == t && node'.word.wr == node.word.wr
          && (node'.word.rd == node.word.rd || node'.word.rd == node.word.wr)
          && node'.token0 == node.token0 && node'.token1 == node.token1 && node'.token2 == node.token2)
  }

  ghost predicate QueueRely(q: Queue, q': Queue, actor: Actor, p: Ptr, pushing: bool) {
    && (pushing && p !in q.chain ==> q'.Next(p) == q.Next(p))
    && (forall prev :: prev in q.owed && q.owed[prev].actor == actor ==>
          prev in q'.owed && q'.owed[prev] == q.owed[prev])
    && (q.head == Closed ==> q'.head == Closed)
  }

  lemma ThreadKept(q: Queue, q': Queue, node: ReadinessNode, node': ReadinessNode, t: nat, pc: Pc)
    requires PcOk(q, node, t, pc)
    requires NodeRely(node, node', t, pc)
    requires QueueRely(q, q', Producer(t), Node(pc.n), OnTheWay(pc))
    requires OnTheWay(pc) ==> Node(pc.n) !in q.chain
    ensures PcOk(q', node', t, pc)
  {
  }

  // ---------- what a thread's step guarantees ----------

  /** Thread `t` changed node `n` from `node` to `node'`. */
  ghost predicate ThreadGuarantee(node: ReadinessNode, node': ReadinessNode, t: nat, closed: bool) {
    && (forall h :: h in node.handles && node.handles[h] != Dropping(t) ==>
          h in node'.handles && node'.handles[h] == node.handles[h])
    && (forall h :: h in node'.handles ==> h in node.handles && node'.handles[h] == node.handles[h])
    && (node.locked && node.holder != t ==>
          && node'.locked && node'.holder == node.holder && node'.word.wr == node.word.wr
          && node'.token0 == node.token0 && node'.token1 == node.token1 && node'.token2 == node.token2)
    && (node'.locked ==> node'.holder == t || (node.locked && node'.holder == node.holder))
    && node'.word.rd == node.word.rd
    && node'.Token(node.word.rd) == node.Token(node.word.rd)
    && (node.slot != Pushing(t) && node.slot != Idle ==> node'.slot == node.slot)
    && (node'.slot != node.slot ==>
          node'.slot == Pushing(t) || (node.slot == Pushing(t) && (node'.slot == Listed || node'.slot == Spent)))
    && (node.qref.Counting? && node.qref.tid != t ==> node'.qref == node.qref)
    && (node'.qref.Counting? ==> node'.qref.tid == t || node'.qref == node.qref)
    && (node.bound ==> node'.bound)
    && (node.word.dropped ==> node'.word.dropped)
    && (node'.word.dropped && !node.word.dropped ==> 0 in node.handles && node.handles[0] == Dropping(t))
    && (node'.qref.Released? ==> node.qref.Released? || closed)
    && (node'.qref.Unbound? ==> node.qref.Unbound?)
  }

  /** The queue changed at the hands of thread `t`, which works on node `n`. */
  ghost predicate QueueGuarantee(q: Queue, q': Queue, actor: Actor, p: Ptr) {
    && MarkerQueue.Inv(q')
    && q'.tail == q.tail
    && (q'.head == q.head || (q'.head == p && q.head != Closed))
    && (q'.chain == q.chain || (q'.chain == q.chain + [p] && p !in q.chain && q.head != Closed))
    && (forall r :: r !in q.chain && r != p ==> q'.Next(r) == q.Next(r))
    && (forall prev :: prev in q.owed && q.owed[prev].actor != actor ==>
          prev in q'.owed && q'.owed[prev] == q.owed[prev])
    && (forall prev :: prev in q'.owed && q'.owed[prev].actor != actor ==>
          prev in q.owed && q'.owed[prev] == q.owed[prev])
  }

  lemma PassKept(chain: seq<Ptr>, chain': seq<Ptr>, c: Ctx, hand: Ptr, p: Ptr)
    requires PassOk(chain, c, hand)
    requires chain' == chain || (chain' == chain + [p] && p !in chain && p != hand)
    ensures PassOk(chain', c, hand)
  {
    if c.InPass? && chain' != chain {
      forall j: nat | j < |chain'|
        ensures Behind(chain', c, j)
      {
        if j < |chain| {
          assert Behind(chain, c, j);
          assert chain'[..j + 1] == chain[..j + 1];
        }
      }
    }
  }

  // ---------- a step of a thread ----------

  /** Thread `t`, working on node `n`, stepped from `s` to `s'` and touched nothing else. */
  ghost predicate OnlyThread(s: State, s': State, t: nat, n: nat) {
    && Doing(s, t, n) && n in s.nodes
    && (forall m :: m != n ==> (m in s'.nodes <==> m in s.nodes) && (m in s.nodes ==> s'.nodes[m] == s.nodes[m]))
    && (forall u :: u != t ==>
          (u in s'.threads <==> u in s.threads) && (u in s.threads ==> s'.threads[u] == s.threads[u]))
    && s'.poller == s.poller
    && QueueGuarantee(s.q, s'.q, Producer(t), Node(n))
    && (s'.q.chain != s.q.chain || s'.q.Next(Node(n)) != s.q.Next(Node(n)) ==>
          s.nodes[n].slot == Pushing(t) || Node(n) in s.q.chain)
  }

  /** What the step must establish about its own node and thread. */
  ghost predicate ThreadStepOk(s: State, s': State, t: nat, n: nat) {
    && OnlyThread(s, s', t, n)
    && n in s'.nodes
    && ThreadGuarantee(s.nodes[n], s'.nodes[n], t, s.q.head == Closed)
    && NodeOk(s'.nodes[n])
    && Backed(s', n, s'.nodes[n])
    && (t in s'.threads ==> s'.threads[t].n == n && ThreadOk(s', t))
    && (forall p :: p in s'.q.owed && s'.q.owed[p].actor == Producer(t) ==> OwedBacked(s', p))
    && (s'.q.chain != s.q.chain ==> s.nodes[n].slot == Pushing(t))
    && WakerOk(s')
    && (s.poller == Select(true) && s'.q.head != Sleep ==> s'.pipe || s'.waker.Some?)
  }

  lemma GuaranteeIsRely(node: ReadinessNode, node': ReadinessNode, t: nat, closed: bool, u: nat, pc: Pc)
    requires ThreadGuarantee(node, node', t, closed) && u != t && HandleOk(node, u, pc)
    ensures NodeRely(node, node', u, pc)
  {
  }

  lemma OtherThreadKept(s: State, s': State, t: nat, n: nat, u: nat)
    requires OnlyThread(s, s', t, n) && u in s.threads && u != t && ThreadOk(s, u)
    requires n in s'.nodes && ThreadGuarantee(s.nodes[n], s'.nodes[n], t, s.q.head == Closed)
    requires OnTheWay(s.threads[u]) ==> Node(s.threads[u].n) !in s.q.chain
    ensures ThreadOk(s', u)
  {
    var pc := s.threads[u];
    if pc.n == n {
      GuaranteeIsRely(s.nodes[n], s'.nodes[n], t, s.q.head == Closed, u, pc);
    }
    ThreadKept(s.q, s'.q, s.nodes[pc.n], s'.nodes[pc.n], u, pc);
  }

  lemma OtherThreadsKept(s: State, s': State, t: nat, n: nat)
    requires ThreadsOk(s) && NodesOk(s) && ThreadStepOk(s, s', t, n)
    ensures ThreadsOk(s')
  {
    forall u | u in s'.threads
      ensures ThreadOk(s', u)
    {
      if u != t {
        assert ThreadOk(s, u);
        assert Backed(s, s.threads[u].n, s.nodes[s.threads[u].n]);
        OtherThreadKept(s, s', t, n, u);
      }
    }
  }

  lemma OtherNodeKept(s: State, s': State, t: nat, n: nat, m: nat)
    requires OnlyThread(s, s', t, n) && m in s.nodes && m != n && Backed(s, m, s.nodes[m])
    ensures Backed(s', m, s'.nodes[m])
  {
    assert Node(m) in s'.q.chain <==> Node(m) in s.q.chain;
  }

  lemma OtherNodesKept(s: State, s': State, t: nat, n: nat)
    requires NodesOk(s) && ThreadStepOk(s, s', t, n)
    ensures NodesOk(s')
  {
    forall m | m in s'.nodes
      ensures NodeOk(s'.nodes[m]) && Backed(s', m, s'.nodes[m])
    {
      if m != n {
        assert NodeOk(s.nodes[m]) && Backed(s, m, s.nodes[m]);
        OtherNodeKept(s, s', t, n, m);
      }
    }
  }

  lemma OtherLinksKept(s: State, s': State, t: nat, n: nat)
    requires QueueOk(s) && ThreadStepOk(s, s', t, n)
    ensures QueueOk(s')
  {
    forall p | p in s'.q.owed
      ensures OwedBacked(s', p)
    {
      if s'.q.owed[p].actor != Producer(t) {
        assert OwedBacked(s, p);
      }
    }
    forall m | Node(m) in s'.q.chain
      ensures m in s'.nodes
    {
      assert m == n || Node(m) in s.q.chain;
    }
  }

  lemma CtxKept(s: State, s': State, t: nat, n: nat, c: Ctx, hand: Ptr)
    requires QueueGuarantee(s.q, s'.q, Producer(t), Node(n)) && CtxOk(s, c, hand)
    requires s'.q.chain != s.q.chain ==> hand != Node(n)
    ensures CtxOk(s', c, hand)
  {
    PassKept(s.q.chain, s'.q.chain, c, hand, Node(n));
  }

  lemma PromiseKept(s: State, s': State, t: nat, n: nat, m: nat, pos: Bits2, want: int)
    requires OnlyThread(s, s', t, n) && n in s'.nodes
    requires ThreadGuarantee(s.nodes[n], s'.nodes[n], t, false)
    requires Promised(s, m, pos, want)
    ensures Promised(s', m, pos, want)
  {
  }

  /** The part of `ThreadStepOk` that matters to the poller. */
  ghost predicate PollerSees(s: State, s': State, t: nat, n: nat) {
    && OnlyThread(s, s', t, n)
    && n in s'.nodes
    && ThreadGuarantee(s.nodes[n], s'.nodes[n], t, s.q.head == Closed)
    && (s'.q.chain != s.q.chain ==> s.nodes[n].slot == Pushing(t))
    && (s.poller == Select(true) && s'.q.head != Sleep ==> s'.pipe || s'.waker.Some?)
  }

  lemma PollerPushKept(s: State, s': State, t: nat, n: nat)
    requires PollerSees(s, s', t, n) && s.poller.PPush? && PollerOk(s)
    ensures PollerOk(s')
  {
    var PPush(p, phase, after) := s.poller;
    match after
    case ToRetry(c) => CtxKept(s, s', t, n, c, Null);
    case ToDeliver(m, ready, pos, want, c) => PollerRequeueKept(s, s', t, n, p, phase, after);
    case ToDrain =>
  }

  lemma PollerRequeueKept(s: State, s': State, t: nat, n: nat, p: Ptr, phase: Phase, after: After)
    requires PollerSees(s, s', t, n) && s.poller == PPush(p, phase, after) && after.ToDeliver? && PollerOk(s)
    ensures PollerOk(s')
  {
    CtxKept(s, s', t, n, after.c, if phase.Link? then Null else p);
    PromiseKept(s, s', t, n, after.n, after.pos, after.want);
  }

  lemma PollerNodeKept(s: State, s': State, t: nat, n: nat)
    requires PollerSees(s, s', t, n) && PollerOk(s)
    requires s.poller.NodeLoad? || s.poller.NodeSwap? || s.poller.Deliver? || s.poller.Drain?
    ensures PollerOk(s')
  {
    match s.poller
    case NodeLoad(_, _) => PollerLoadKept(s, s', t, n);
    case NodeSwap(_, _, _, _) => PollerSwapKept(s, s', t, n);
    case Deliver(_, _, _, _, _) => PollerDeliverKept(s, s', t, n);
    case Drain(_) => PollerDrainKept(s, s', t, n);
  }

  lemma PollerLoadKept(s: State, s': State, t: nat, n: nat)
    requires PollerSees(s, s', t, n) && PollerOk(s) && s.poller.NodeLoad?
    ensures PollerOk(s')
  {
    CtxKept(s, s', t, n, s.poller.c, Null);
  }

  lemma PollerDrainKept(s: State, s': State, t: nat, n: nat)
    requires PollerSees(s, s', t, n) && PollerOk(s) && s.poller.Drain?
    ensures PollerOk(s')
  {
  }

  lemma PollerDeliverKept(s: State, s': State, t: nat, n: nat)
    requires PollerSees(s, s', t, n) && PollerOk(s) && s.poller.Deliver?
    ensures PollerOk(s')
  {
    CtxKept(s, s', t, n, s.poller.c, Null);
    PromiseKept(s, s', t, n, s.poller.n, s.poller.pos, s.poller.want);
  }

  lemma PollerSwapKept(s: State, s': State, t: nat, n: nat)
    requires PollerSees(s, s', t, n) && PollerOk(s) && s.poller.NodeSwap?
    ensures PollerOk(s')
  {
    CtxKept(s, s', t, n, s.poller.c, Null);
  }

  lemma PollerDequeueKept(s: State, s': State, t: nat, n: nat)
    requires PollerSees(s, s', t, n) && PollerOk(s)
    requires s.poller.DqLoad? || s.poller.DqMarker? || s.poller.DqHead? || s.poller.DqRetry?
    ensures PollerOk(s')
  {
    CtxKept(s, s', t, n, s.poller.c, Null);
  }

  lemma PollerKept(s: State, s': State, t: nat, n: nat)
    requires PollerSees(s, s', t, n) && PollerOk(s)
    ensures PollerOk(s')
  {
    if s.poller.NodeLoad? || s.poller.NodeSwap? || s.poller.Deliver? || s.poller.Drain? {
      PollerNodeKept(s, s', t, n);
    } else if s.poller.DqLoad? || s.poller.DqMarker? || s.poller.DqHead? || s.poller.DqRetry? {
      PollerDequeueKept(s, s', t, n);
    } else if s.poller.PPush? {
      PollerPushKept(s, s', t, n);
    }
  }

  lemma ThreadMove(s: State, s': State, t: nat, n: nat)
    requires Safe(s) && ThreadStepOk(s, s', t, n)
    ensures Safe(s')
  {
    assert Holds(s, TheQueue) && Holds(s, TheNodes) && Holds(s, TheThreads) && Holds(s, ThePoller);
    OtherThreadsKept(s, s', t, n);
    OtherNodesKept(s, s', t, n);
    OtherLinksKept(s, s', t, n);
    PollerKept(s, s', t, n);
    AllParts(s');
  }

  // ---------- steps that the poller does not notice ----------

  /** All the poller's own claims mention of a node. */
  ghost predicate AlikeToPoller(node: ReadinessNode, node': ReadinessNode) {
    && node'.word == node.word && node'.slot == node.slot && node'.qref == node.qref
    && node'.token0 == node.token0 && node'.token1 == node.token1 && node'.token2 == node.token2
  }

  /** The queue, the poller and the nodes it knows are as they were, but for the link of `p`, a node outside the
      queue. */
  ghost predicate Unnoticed(s: State, s': State, p: Ptr) {
    && s'.poller == s.poller && s'.pipe == s.pipe && s'.waker == s.waker
    && s'.q.chain == s.q.chain && s'.q.head == s.q.head && s'.q.tail == s.q.tail && s'.q.owed == s.q.owed
    && (forall r :: r != p ==> s'.q.Next(r) == s.q.Next(r))
    && (forall m :: m in s.nodes ==> m in s'.nodes && AlikeToPoller(s.nodes[m], s'.nodes[m]))
  }

  lemma UnnoticedPush(s: State, s': State, p: Ptr)
    requires Unnoticed(s, s', p) && PollerOk(s) && s.poller.PPush? && p != s.poller.p
    ensures PollerOk(s')
  {
  }

  lemma UnnoticedDequeue(s: State, s': State, p: Ptr)
    requires Unnoticed(s, s', p) && PollerOk(s)
    requires s.poller.DqLoad? || s.poller.DqMarker? || s.poller.DqHead? || s.poller.DqRetry?
    ensures PollerOk(s')
  {
  }

  lemma UnnoticedNode(s: State, s': State, p: Ptr)
    requires Unnoticed(s, s', p) && PollerOk(s)
    requires s.poller.NodeLoad? || s.poller.NodeSwap? || s.poller.Deliver? || s.poller.Drain?
    ensures PollerOk(s')
  {
  }

  lemma UnnoticedByPoller(s: State, s': State, p: Ptr)
    requires Unnoticed(s, s', p) && PollerOk(s) && (p.Node? || p == Null) && (p.Node? ==> p.id !in s.nodes)
    ensures PollerOk(s')
  {
    if s.poller.PPush? {
      UnnoticedPush(s, s', p);
    } else if s.poller.NodeLoad? || s.poller.NodeSwap? || s.poller.Deliver? || s.poller.Drain? {
      UnnoticedNode(s, s', p);
    } else if s.poller.DqLoad? || s.poller.DqMarker? || s.poller.DqHead? || s.poller.DqRetry? {
      UnnoticedDequeue(s, s', p);
    }
  }
}
