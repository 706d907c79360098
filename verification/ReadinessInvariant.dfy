/** The inductive invariant of the machine in `Readiness`, and the two frame lemmas that reduce its preservation
    to what a step does to the one node and the one actor it concerns. */
module ReadinessInvariant {
  import opened ReadinessWord
  import opened MarkerQueue
  import opened Readiness

  // ---------- nodes ----------

  /** What holds of a node by itself. */
  ghost predicate NodeOk(node: ReadinessNode) {
    var w := node.word;
    && node.refs == |node.handles| + (if node.qref.Held? then 1 else 0)
    && node.refs > 0
    && (w.queued <==> node.slot != Idle)
    && PositionsOk(w)
    && node.Token(w.wr) == node.current
    && (w.dropped ==> w.queued && (0 in node.handles ==> node.handles[0].Dropping?))
    && (node.bound <==> !node.qref.Unbound?)
    && (node.qref.Counting? ==> 0 in node.handles && node.handles[0].Live?)
    && (node.slot.Listed? || node.slot.Processing? ==> node.qref.Counting? || node.qref.Held?)
    && (node.qref.Released? ==> node.slot.Spent?)
    && (node.slot.Spent? ==> node.qref.Released? || (node.qref.Unbound? && w.dropped))
    && (!node.bound ==> w.interest == 0)
    && (Signals(w) && !IsEdge(w) && !w.dropped ==> w.queued)
    && (node.unseen ==> w.queued && Signals(w))
  }

  /** On its way to push: from the compare-exchange that set the queued bit to the head swap. */
  predicate OnTheWay(pc: Pc) {
    || pc.Route? || pc.GiveBack? || pc.UpdJob?
    || (pc.UpdUnlock? && pc.enqueue)
    || (pc.Push? && !pc.phase.Link?)
  }

  predicate DropsHandle(pc: Pc) {
    || pc.DropFlag? || pc.Release?
    || ((pc.Route? || pc.Push? || pc.GiveBack? || pc.Wake?) && pc.origin.FromDrop?)
  }

  predicate HoldsLock(pc: Pc) {
    pc.UpdLoad? || pc.UpdToken? || pc.UpdSwap? || pc.UpdUnlock?
  }

  /** The poller works on node `n`: from taking it off the list to dequeueing it or to the head swap that puts it
      back. */
  predicate InHand(pc: PollerPc, n: nat) {
    || ((pc.NodeLoad? || pc.Drain?) && pc.p == Node(n))
    || (pc.NodeSwap? && pc.n == n)
    || (pc.PPush? && pc.p == Node(n) && !pc.phase.Link?)
  }

  /** Every claim a node's auxiliary fields make about an actor is backed by what that actor is doing. */
  ghost predicate Backed(s: State, n: nat, node: ReadinessNode) {
    && (node.slot.Listed? <==> Node(n) in s.q.chain)
    && (node.slot.Pushing? ==> Doing(s, node.slot.tid, n) && OnTheWay(s.threads[node.slot.tid]))
    && (node.slot.Processing? ==> InHand(s.poller, n))
    && (node.qref.Counting? ==> Doing(s, node.qref.tid, n) && s.threads[node.qref.tid].UpdCount?)
    && (node.locked ==> Doing(s, node.holder, n) && HoldsLock(s.threads[node.holder]))
    && (forall h :: h in node.handles && node.handles[h].Dropping? ==>
          Doing(s, node.handles[h].tid, n) && DropsHandle(s.threads[node.handles[h].tid])
          && HandleOf(s.threads[node.handles[h].tid]) == h)
  }

  ghost predicate Doing(s: State, t: nat, n: nat) {
    t in s.threads && s.threads[t].n == n
  }

  // ---------- threads ----------

  ghost predicate HandleOk(node: ReadinessNode, t: nat, pc: Pc) {
    var h := HandleOf(pc);
    && h in node.handles
    && node.handles[h] == (if DropsHandle(pc) then Dropping(t) else Live)
    && (WillRegister(pc) ==> 0 in node.handles && node.handles[0] == Live)
    && (pc.SetLoad? || pc.SetSwap? ==> h != 0)
    && ((pc.Route? || pc.Push? || pc.GiveBack? || pc.Wake?) ==> if pc.origin.FromSet? then h != 0 else h == 0)
  }

  ghost predicate PhaseOk(q: Queue, actor: Actor, p: Ptr, phase: Phase) {
    match phase
    case Reset => true
    case Load => q.Next(p) == Null
    case Swap(prev) => q.Next(p) == Null && (prev == Closed ==> q.head == Closed)
    case Link(prev) => prev in q.owed && q.owed[prev] == Owed(actor, p)
  }

  predicate NeedsQueue(pc: Pc) {
    || pc.UpdCount? || pc.UpdLock? || HoldsLock(pc) || pc.UpdJob? || pc.Push? || pc.GiveBack?
    || (pc.Route? && pc.origin.FromSet?)
  }

  ghost predicate PcOk(q: Queue, node: ReadinessNode, t: nat, pc: Pc) {
    && HandleOk(node, t, pc)
    && (OnTheWay(pc) ==> node.slot == Pushing(t))
    && (HoldsLock(pc) ==> node.locked && node.holder == t)
    && (NeedsQueue(pc) ==> node.bound)
    && match pc
       case UpdCount(_, _) => node.qref == Counting(t)
       case UpdToken(_, _, seen) =>
         PositionsOk(seen) && seen.wr == node.word.wr && (node.word.rd == seen.rd || node.word.rd == seen.wr)
       case UpdSwap(_, args, _, base, pos) =>
         base == node.word.wr && pos != 3 && node.Token(pos) == args.token && (pos == base || pos != node.word.rd)
       case Route(_, _, origin) => !origin.FromUpdate? && (origin.FromDrop? ==> node.word.dropped)
       case DropFlag(_) => !node.word.dropped
       case Push(n, _, _, phase) => PhaseOk(q, Producer(t), Node(n), phase)
       case GiveBack(_, _, _) => q.head == Closed
       case _ => true
  }

  ghost predicate ThreadOk(s: State, t: nat)
    requires t in s.threads
  {
    var pc := s.threads[t];
    && pc.n in s.nodes
    && PcOk(s.q, s.nodes[pc.n], t, pc)
    && (BorrowsPoll(pc) ==> !Closing(s.poller))
  }

  // ---------- the poller ----------

  /** Between its head swap and its link store every push is somebody's. */
  ghost predicate OwedBacked(s: State, p: Ptr)
    requires p in s.q.owed
  {
    match s.q.owed[p].actor
    case Poller => s.poller.PPush? && s.poller.phase == Link(p) && s.poller.p == s.q.owed[p].node
    case Producer(t) =>
      t in s.threads && s.threads[t].Push? && s.threads[t].phase == Link(p) && Node(s.threads[t].n) == s.q.owed[p].node
  }

  /** If position `j` is a node this pass has put back, `until` is at `j` or before it. */
  ghost predicate Behind(chain: seq<Ptr>, c: Ctx, j: nat)
    requires c.InPass? && j < |chain|
  {
    chain[j].Node? && chain[j].id in c.requeued ==> c.until in chain[..j + 1]
  }

  /** What one pass has put back is behind `until`; `hand` is a node on its way back. */
  ghost predicate PassOk(chain: seq<Ptr>, c: Ctx, hand: Ptr) {
    c.InPass? ==>
      && (c.until == Null ==> c.requeued == {})
      && (c.until != Null ==> c.until.Node? && c.until.id in c.requeued)
      && (forall r :: r in c.requeued ==> Node(r) == hand || Node(r) in chain)
      && (forall j: nat :: j < |chain| ==> Behind(chain, c, j))
  }

  /** Inside the loop of `poll` there is room in the batch; the closed marker is in the queue exactly in the
      destructor. */
  ghost predicate CtxOk(s: State, c: Ctx, hand: Ptr) {
    && PassOk(s.q.chain, c, hand)
    && (c.InPass? ==> c.len < c.cap && s.q.head != Closed)
    && (c.InDrop? ==> s.q.head == Closed)
  }

  /** A node the queue's reference keeps alive. */
  ghost predicate Kept(s: State, n: nat) {
    n in s.nodes && (s.nodes[n].qref.Counting? || s.nodes[n].qref.Held?)
  }

  /** The poller will read the token at `pos`, and finds `want` there. */
  ghost predicate Promised(s: State, n: nat, pos: Bits2, want: int) {
    && Kept(s, n)
    && s.nodes[n].word.rd == pos
    && s.nodes[n].Token(pos) == want
  }

  /** The tail is no marker, or the closed marker alone; and not where the pass must stop. */
  ghost predicate TailOk(s: State, c: Ctx) {
    && (s.q.tail.Node? || (c.InDrop? && s.q.tail == Closed))
    && (c.InPass? ==> s.q.tail != c.until)
  }

  ghost predicate PushOk(s: State, p: Ptr, phase: Phase, after: After) {
    && PhaseOk(s.q, Poller, p, phase)
    && (!phase.Link? ==> p !in s.q.chain)
    && match after
       case ToRetry(c) => p == End && CtxOk(s, c, Null) && TailOk(s, c)
       case ToDeliver(n, ready, pos, want, c) =>
         && p == Node(n) && c.InPass? && CtxOk(s, c, if phase.Link? then Null else p)
         && Promised(s, n, pos, want) && n in c.requeued
         && (!phase.Link? ==> s.nodes[n].slot == Processing)
       case ToDrain => p == Closed && (phase.Link? ==> s.q.head == Closed)
  }

  ghost predicate PollerOk(s: State) {
    match s.poller
    case PrepSwap => s.q.tail == End && Sleep !in s.q.chain && s.q.Next(Sleep) == Null && s.q.head != Closed
    case Select(sleeping) =>
      && s.q.head != Closed
      && (sleeping ==> s.q.tail == Sleep && (s.q.head != Sleep ==> s.pipe || s.waker.Some?))
    case ClearReset(c) => s.q.tail == Sleep && (s.q.head == Closed <==> c.InDrop?)
    case ClearSwap(c) => s.q.tail == Sleep && (s.q.head == Closed <==> c.InDrop?) && s.q.Next(End) == Null
    case DqLoad(c) => CtxOk(s, c, Null)
    case DqMarker(c) => CtxOk(s, c, Null) && (s.q.tail.Node? || (c.InDrop? && s.q.tail == Closed))
    case DqHead(c) => CtxOk(s, c, Null) && TailOk(s, c)
    case DqRetry(c) => CtxOk(s, c, Null) && TailOk(s, c)
    case PPush(p, phase, after) => PushOk(s, p, phase, after)
    case NodeLoad(p, c) =>
      p.Node? && p.id in s.nodes && s.nodes[p.id].slot == Processing && CtxOk(s, c, Null) && c.InPass?
      && p.id !in c.requeued
    case NodeSwap(n, seen, want, c) =>
      && n in s.nodes && s.nodes[n].slot == Processing && CtxOk(s, c, Null) && c.InPass? && n !in c.requeued
      && seen.queued && PositionsOk(seen) && (seen.dropped ==> s.nodes[n].word.dropped)
      && s.nodes[n].word.rd == seen.rd
      && (seen.rd == seen.wr ==> s.nodes[n].Token(seen.rd) == want)
    case Deliver(n, ready, pos, want, c) => Promised(s, n, pos, want) && CtxOk(s, c, Null) && c.InPass?
    case Drain(p) => p.Node? && p.id in s.nodes && s.nodes[p.id].slot == Processing && s.q.head == Closed
    case Dead => s.q.head == Closed && Marker(s.q.tail)
    case _ => s.q.head != Closed
  }

  // ---------- everything ----------

  ghost predicate WakerOk(s: State) {
    s.waker.Some? ==>
      && s.waker.value in s.threads
      && var pc := s.threads[s.waker.value];
         pc.Wake? || (pc.Push? && pc.phase == Link(Sleep))
  }

  ghost predicate NodesOk(s: State) {
    forall n :: n in s.nodes ==> NodeOk(s.nodes[n]) && Backed(s, n, s.nodes[n])
  }

  ghost predicate ThreadsOk(s: State) {
    forall t :: t in s.threads ==> ThreadOk(s, t)
  }

  ghost predicate QueueOk(s: State) {
    && MarkerQueue.Inv(s.q)
    && (forall n :: Node(n) in s.q.chain ==> n in s.nodes)
    && (forall p :: p in s.q.owed ==> OwedBacked(s, p))
  }

  /** The parts of the invariant, by name: a proof looks at the parts it names and no others. */
  datatype Part = TheQueue | TheNodes | TheThreads | ThePoller | TheWaker

  ghost predicate Holds(s: State, part: Part) {
    match part
    case TheQueue => QueueOk(s)
    case TheNodes => NodesOk(s)
    case TheThreads => ThreadsOk(s)
    case ThePoller => PollerOk(s)
    case TheWaker => WakerOk(s)
  }

  ghost predicate Safe(s: State) {
    forall part :: Holds(s, part)
  }

  lemma AllParts(s: State)
    requires QueueOk(s) && NodesOk(s) && ThreadsOk(s) && PollerOk(s) && WakerOk(s)
    ensures Safe(s)
  {
    forall part
      ensures Holds(s, part)
    {
      match part
      case _ =>
    }
  }

  lemma SafeNode(s: State, n: nat)
    requires Safe(s) && n in s.nodes
    ensures NodeOk(s.nodes[n]) && Backed(s, n, s.nodes[n])
  {
    assert Holds(s, TheNodes);
  }

  lemma SafeThread(s: State, t: nat)
    requires Safe(s) && t in s.threads
    ensures ThreadOk(s, t)
  {
    assert Holds(s, TheThreads);
  }
}
