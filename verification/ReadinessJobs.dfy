/** `enqueue_job` (src/net/event_loop.rs:300-324): a fresh node, one `set_readiness`, one `register`. Its job is stored
    before the node can be seen, and reaches a batch once, in the order of the head swaps. */
module ReadinessJobs {
  import opened Arithmetic
  import opened ReadinessWord
  import opened MarkerQueue
  import opened Options
  import opened Readiness
  import opened ReadinessInvariant
  import opened ReadinessThreads
  import opened ReadinessPoller
  import opened ReadinessSafety
  import opened ReadinessTheorems

  // ---------- the life of a job's node ----------

  /** The word and token `enqueue_job` leaves for the poller. */
  predicate Armed(node: ReadinessNode) {
    var w := node.word;
    w.readiness == READABLE && w.interest == READABLE && w.opt == EDGE && w.queued && !w.dropped
    && node.current == JOB_TOKEN
  }

  predicate Unarmed(node: ReadinessNode) {
    node.word.interest == 0 && !node.word.queued && !node.word.dropped
  }

  /** What the thread inside `enqueue_job` is doing, and how far the node has come. */
  predicate MakingOk(node: ReadinessNode, job: int, pc: Pc) {
    match pc
    case SetLoad(_, h, ready, follow) =>
      h == 1 && ready == READABLE && follow == Register(JobArgs(job)) && Unarmed(node)
    case SetSwap(_, h, ready, follow, seen) =>
      h == 1 && ready == READABLE && follow == Register(JobArgs(job)) && Unarmed(node) && seen == node.word
    case UpdBind(_, args) => args == JobArgs(job) && Unarmed(node) && node.word.readiness == READABLE
    case UpdCount(_, args) => args == JobArgs(job) && Unarmed(node) && node.word.readiness == READABLE
    case UpdLock(_, args) => args == JobArgs(job) && Unarmed(node) && node.word.readiness == READABLE
    case UpdLoad(_, args) => args == JobArgs(job) && Unarmed(node) && node.word.readiness == READABLE
    case UpdToken(_, args, seen) =>
      args == JobArgs(job) && Unarmed(node) && node.word.readiness == READABLE && seen == node.word
    case UpdSwap(_, args, seen, _, _) =>
      args == JobArgs(job) && Unarmed(node) && node.word.readiness == READABLE && seen == node.word
    case UpdUnlock(_, args, enqueue) => args == JobArgs(job) && enqueue && Armed(node)
    case UpdJob(_, args) => args == JobArgs(job) && Armed(node)
    case Push(_, _, origin, phase) => origin == FromUpdate && !phase.Link? && Armed(node) && node.job == job
    case _ => false
  }

  predicate AfterSwap(pc: Pc) {
    (pc.Push? && pc.phase.Link? && pc.origin.FromUpdate?) || (pc.Wake? && pc.origin.FromUpdate?)
  }

  /** A job that waits: in the list, in the poller's hands, about to be delivered, or abandoned by the destructor. */
  predicate WaitingOk(node: ReadinessNode, n: nat, job: int, poller: PollerPc) {
    && node.job == job && !node.word.dropped
    && match node.slot
       case Listed => Armed(node) && !PollerUses(poller, n)
       case Processing =>
         Armed(node) && InHand(poller, n) && !poller.PPush? && (poller.NodeSwap? ==> poller.seen == node.word)
       case Idle => poller.Deliver? && poller.n == n && poller.ready == READABLE && poller.want == JOB_TOKEN
       case Spent => Closing(poller)
       case Pushing(_) => false
  }

  /** The job is gone from a node whose job was handed over, and the poller never again has an event to make of it:
      it may find the node dropped, and nothing else. */
  predicate HandedOk(node: ReadinessNode, n: nat, poller: PollerPc) {
    && node.job == NO_JOB
    && (node.word.queued ==> node.word.dropped)
    && !(poller.Deliver? && poller.n == n)
    && !(poller.PPush? && PollerUses(poller, n))
    && (poller.NodeSwap? && poller.n == n ==> poller.seen.dropped)
  }

  ghost predicate JobOk(s: State, n: nat)
    requires n in s.nodes
  {
    var node := s.nodes[n];
    match node.plan
    case Making(job, t) =>
      && Doing(s, t, n)
      && (forall u :: u in s.threads && s.threads[u].n == n ==> u == t)
      && MakingOk(node, job, s.threads[t])
      && !PollerUses(s.poller, n)
    case Waiting(job) =>
      && WaitingOk(node, n, job, s.poller)
      && (forall u :: u in s.threads && s.threads[u].n == n ==> AfterSwap(s.threads[u]))
    case Handed =>
      && HandedOk(node, n, s.poller)
      && (forall u :: u in s.threads && s.threads[u].n == n ==> AfterSwap(s.threads[u]) || DropsHandle(s.threads[u]))
    case Shared => true
  }

  // ---------- the jobs in flight, in order ----------

  function JobOf(nodes: map<nat, ReadinessNode>, p: Ptr): seq<int> {
    if p.Node? && p.id in nodes && nodes[p.id].plan.Waiting? then [nodes[p.id].plan.job] else []
  }

  function ListedJobs(nodes: map<nat, ReadinessNode>, chain: seq<Ptr>): seq<int> {
    if chain == [] then [] else JobOf(nodes, chain[0]) + ListedJobs(nodes, chain[1..])
  }

  /** The job of the node the poller has popped and not yet delivered. */
  function JobInHand(nodes: map<nat, ReadinessNode>, poller: PollerPc): seq<int> {
    match poller
    case NodeLoad(p, _) => JobOf(nodes, p)
    case NodeSwap(n, _, _, _) => JobOf(nodes, Node(n))
    case Deliver(n, _, _, _, _) => JobOf(nodes, Node(n))
    case _ => []
  }

  ghost predicate JobsInOrder(s: State) {
    && s.jobsDelivered <= s.jobsPushed
    && (!Closing(s.poller) ==>
          s.jobsPushed == s.jobsDelivered + JobInHand(s.nodes, s.poller) + ListedJobs(s.nodes, s.q.chain))
  }

  ghost predicate JobsOk(s: State) {
    && (forall n :: n in s.nodes ==> JobOk(s, n))
    && JobsInOrder(s)
  }

  lemma {:induction false} ListedJobsSame(nodes: map<nat, ReadinessNode>, nodes': map<nat, ReadinessNode>,
                                          chain: seq<Ptr>)
    requires forall p :: p in chain ==> JobOf(nodes', p) == JobOf(nodes, p)
    ensures ListedJobs(nodes', chain) == ListedJobs(nodes, chain)
  {
    if chain != [] {
      ListedJobsSame(nodes, nodes', chain[1..]);
    }
  }

  lemma {:induction false} ListedJobsAppend(nodes: map<nat, ReadinessNode>, chain: seq<Ptr>, p: Ptr)
    ensures ListedJobs(nodes, chain + [p]) == ListedJobs(nodes, chain) + JobOf(nodes, p)
  {
    if chain == [] {
      assert ListedJobs(nodes, [p]) == JobOf(nodes, p) + ListedJobs(nodes, [p][1..]);
    } else {
      assert (chain + [p])[1..] == chain[1..] + [p];
      ListedJobsAppend(nodes, chain[1..], p);
    }
  }

  // ---------- steps of threads ----------

  /** Thread `t` stepped, and touched no node but its own. */
  ghost predicate OwnStep(s: State, s': State, t: nat) {
    && t in s.threads && s'.poller == s.poller && s'.jobsDelivered == s.jobsDelivered
    && (forall u :: u != t ==>
          (u in s'.threads <==> u in s.threads) && (u in s.threads ==> s'.threads[u] == s.threads[u]))
    && (t in s'.threads ==> s'.threads[t].n == s.threads[t].n)
    && (forall m :: m != s.threads[t].n ==>
          (m in s'.nodes <==> m in s.nodes) && (m in s.nodes ==> s'.nodes[m] == s.nodes[m]))
  }

  lemma OtherJob(s: State, s': State, t: nat, n: nat)
    requires OwnStep(s, s', t) && n in s.nodes && n != s.threads[t].n && JobOk(s, n)
    ensures JobOk(s', n)
  {
  }

  lemma OwnMove(s: State, s': State, t: nat)
    requires JobsOk(s) && OwnStep(s, s', t)
    requires s.threads[t].n in s'.nodes ==> JobOk(s', s.threads[t].n)
    requires JobsInOrder(s')
    ensures JobsOk(s')
  {
    forall n | n in s'.nodes
      ensures JobOk(s', n)
    {
      if n != s.threads[t].n {
        OtherJob(s, s', t, n);
      }
    }
  }

  /** The plan of the thread's node is as it was, so the jobs in flight are. */
  lemma OrderKept(s: State, s': State, m: nat)
    requires JobsInOrder(s) && s'.poller == s.poller && s'.q.chain == s.q.chain
    requires s'.jobsPushed == s.jobsPushed && s'.jobsDelivered == s.jobsDelivered
    requires forall n :: n != m ==> JobOf(s'.nodes, Node(n)) == JobOf(s.nodes, Node(n))
    requires JobOf(s'.nodes, Node(m)) == JobOf(s.nodes, Node(m))
    ensures JobsInOrder(s')
  {
    forall p | p in s.q.chain
      ensures JobOf(s'.nodes, p) == JobOf(s.nodes, p)
    {
      if p.Node? {
        assert p == Node(p.id);
      }
    }
    ListedJobsSame(s.nodes, s'.nodes, s.q.chain);
  }

  lemma LocalJob(q: Queue, node: ReadinessNode, t: nat, pc: Pc, job: int)
    requires Mine(q, node, t, pc) && IsLocal(pc) && MakingOk(node, job, pc)
    requires !pc.UpdLock? || !node.locked
    ensures var o := LocalStep(node, t, pc);
            o.pc.Some? && o.pc.value.n == pc.n && MakingOk(o.node, job, o.pc.value)
  {
  }

  /** On a node whose job was handed over a thread flags it as dropped and routes it, if it takes a local step at
      all. */
  lemma LocalHanded(node: ReadinessNode, t: nat, pc: Pc)
    requires IsLocal(pc) && (AfterSwap(pc) || DropsHandle(pc))
    ensures var o := LocalStep(node, t, pc);
            && o.pc.Some? && DropsHandle(o.pc.value) && o.node.job == node.job
            && (o.node.word == node.word || o.node.word.dropped)
  {
  }

  lemma LocalKeepsPlan(node: ReadinessNode, t: nat, pc: Pc)
    requires IsLocal(pc)
    ensures LocalStep(node, t, pc).node.plan == node.plan
  {
  }

  /** Nobody else works on a node that is being made, so its update lock is free. */
  lemma MakerFindsUnlocked(s: State, t: nat)
    requires Here(s, t) && Backed(s, s.threads[t].n, s.nodes[s.threads[t].n]) && JobOk(s, s.threads[t].n)
    requires s.nodes[s.threads[t].n].plan.Making? && s.threads[t].UpdLock?
    ensures !s.nodes[s.threads[t].n].locked
  {
  }

  lemma LocalEffect(s: State, s': State, t: nat, m: nat, o: Outcome)
    requires Runs(s, t) && IsLocal(s.threads[t]) && s.threads[t].n == m && o == LocalStep(s.nodes[m], t, s.threads[t])
    requires o.pc.Some? ==> o.pc.value.n == m
    requires s' == ThreadStep(s, t)
    ensures OwnStep(s, s', t) && s'.nodes == s.nodes[m := o.node] && s'.q == s.q && s'.jobsPushed == s.jobsPushed
    ensures s'.threads == if o.pc.Some? then s.threads[t := o.pc.value] else s.threads - {t}
  {
  }

  lemma LocalKeepsNode(node: ReadinessNode, t: nat, pc: Pc)
    requires IsLocal(pc)
    ensures LocalStep(node, t, pc).pc.Some? ==> LocalStep(node, t, pc).pc.value.n == pc.n
  {
  }

  /** What a local step leaves of the node's claims, by the plan for it. */
  ghost predicate LocalKeepsJob(node: ReadinessNode, pc: Pc, o: Outcome) {
    && o.node.plan == node.plan
    && (o.pc.Some? ==> o.pc.value.n == pc.n)
    && (node.plan.Making? ==> o.pc.Some? && MakingOk(o.node, node.plan.job, o.pc.value))
    && (node.plan.Handed? ==>
          && o.pc.Some? && DropsHandle(o.pc.value) && o.node.job == node.job
          && (o.node.word == node.word || o.node.word.dropped))
  }

  lemma LocalOwnJob(s: State, s': State, t: nat, m: nat, o: Outcome)
    requires Here(s, t) && IsLocal(s.threads[t]) && s.threads[t].n == m && JobOk(s, m)
    requires OwnStep(s, s', t) && s'.nodes == s.nodes[m := o.node] && LocalKeepsJob(s.nodes[m], s.threads[t], o)
    requires s'.threads == if o.pc.Some? then s.threads[t := o.pc.value] else s.threads - {t}
    ensures JobOk(s', m)
  {
  }

  lemma LocalOwn(s: State, t: nat, m: nat, o: Outcome)
    requires Here(s, t) && IsLocal(s.threads[t]) && s.threads[t].n == m && JobOk(s, m) && Backed(s, m, s.nodes[m])
    requires o == LocalStep(s.nodes[m], t, s.threads[t])
    ensures LocalKeepsJob(s.nodes[m], s.threads[t], o)
  {
    var node := s.nodes[m];
    LocalKeepsNode(node, t, s.threads[t]);
    LocalKeepsPlan(node, t, s.threads[t]);
    if node.plan.Making? {
      if s.threads[t].UpdLock? {
        MakerFindsUnlocked(s, t);
      }
      LocalJob(s.q, node, t, s.threads[t], node.plan.job);
    } else if node.plan.Handed? {
      LocalHanded(node, t, s.threads[t]);
    }
  }

  lemma LocalJobs(s: State, t: nat)
    requires Safe(s) && JobsOk(s) && Runs(s, t) && IsLocal(s.threads[t])
    ensures JobsOk(ThreadStep(s, t))
  {
    var s' := ThreadStep(s, t);
    var m := s.threads[t].n;
    var o := LocalStep(s.nodes[m], t, s.threads[t]);
    SafeIsHere(s, t);
    LocalMoves(s, s', t, m, o);
  }

  lemma LocalMoves(s: State, s': State, t: nat, m: nat, o: Outcome)
    requires JobsOk(s) && Here(s, t) && IsLocal(s.threads[t]) && s.threads[t].n == m && Backed(s, m, s.nodes[m])
    requires o == LocalStep(s.nodes[m], t, s.threads[t]) && s' == ThreadStep(s, t)
    ensures JobsOk(s')
  {
    assert JobOk(s, m);
    LocalOwn(s, t, m, o);
    LocalEffect(s, s', t, m, o);
    LocalOwnJob(s, s', t, m, o);
    LocalOrder(s, s', m, o);
    OwnMove(s, s', t);
  }

  /** A local step keeps the jobs in flight in order: it keeps the plan of its node, and the list. */
  lemma LocalOrder(s: State, s': State, m: nat, o: Outcome)
    requires JobsInOrder(s) && m in s.nodes && o.node.plan == s.nodes[m].plan && s'.nodes == s.nodes[m := o.node]
    requires s'.poller == s.poller && s'.q == s.q
    requires s'.jobsPushed == s.jobsPushed && s'.jobsDelivered == s.jobsDelivered
    ensures JobsInOrder(s')
  {
    OrderKept(s, s', m);
  }

  /** A push that is not at its head swap. */
  lemma PushQuietEffect(s: State, s': State, t: nat, m: nat, pc: Option<Pc>)
    requires Runs(s, t) && s.threads[t].Push? && s.threads[t].n == m && s' == PushStep(s, t)
    requires s.threads[t].phase.Swap? ==> s.threads[t].phase.prev == Closed || s.q.head != s.threads[t].phase.prev
    requires pc == if t in s'.threads then Some(s'.threads[t]) else None
    ensures OwnStep(s, s', t) && s'.nodes == s.nodes && s'.q.chain == s.q.chain && s'.jobsPushed == s.jobsPushed
    ensures s.threads[t].phase.Link? && s.threads[t].origin.FromUpdate? && pc.Some? ==> AfterSwap(pc.value)
    ensures DropsHandle(s.threads[t]) && pc.Some? ==> DropsHandle(pc.value)
    ensures !s.threads[t].phase.Link? && s.threads[t].phase != Swap(Closed) ==>
              && pc.Some? && pc.value.Push? && pc.value.n == m && pc.value.origin == s.threads[t].origin
              && !pc.value.phase.Link?
  {
  }

  lemma PushQuietOwn(s: State, s': State, t: nat, m: nat, pc: Option<Pc>)
    requires Runs(s, t) && s.threads[t].Push? && s.threads[t].n == m && JobOk(s, m)
    requires OwnStep(s, s', t) && s'.nodes == s.nodes && pc == if t in s'.threads then Some(s'.threads[t]) else None
    requires s.threads[t].phase.Link? && s.threads[t].origin.FromUpdate? && pc.Some? ==> AfterSwap(pc.value)
    requires DropsHandle(s.threads[t]) && pc.Some? ==> DropsHandle(pc.value)
    requires !s.threads[t].phase.Link? && s.threads[t].phase != Swap(Closed) ==>
              && pc.Some? && pc.value.Push? && pc.value.n == m && pc.value.origin == s.threads[t].origin
              && !pc.value.phase.Link?
    requires s.threads[t].phase == Swap(Closed) ==> !s.threads[t].origin.FromUpdate?
    ensures JobOk(s', m)
  {
  }

  lemma PushQuietJobs(s: State, t: nat)
    requires Safe(s) && JobsOk(s) && Runs(s, t) && s.threads[t].Push?
    requires s.threads[t].phase.Swap? ==> s.threads[t].phase.prev == Closed || s.q.head != s.threads[t].phase.prev
    ensures JobsOk(PushStep(s, t))
  {
    var s' := PushStep(s, t);
    var m := s.threads[t].n;
    SafeIsHere(s, t);
    if s.threads[t].phase == Swap(Closed) {
      assert Holds(s, ThePoller);
      ClosedMeansClosing(s);
    }
    var pc := if t in s'.threads then Some(s'.threads[t]) else None;
    PushQuietEffect(s, s', t, m, pc);
    assert JobOk(s, m);
    PushQuietOwn(s, s', t, m, pc);
    OrderKept(s, s', m);
    OwnMove(s, s', t);
  }

  lemma PushSwapOwn(s: State, s': State, t: nat, n: nat, h: nat, origin: Origin, prev: Ptr)
    requires SwapEffect(s, s', t, n, h, origin, prev) && JobOk(s, n)
    ensures JobOk(s', n)
  {
  }

  lemma PushSwapOrder(s: State, s': State, t: nat, n: nat, h: nat, origin: Origin, prev: Ptr)
    requires SwapEffect(s, s', t, n, h, origin, prev) && JobOk(s, n) && JobsInOrder(s) && Node(n) !in s.q.chain
    requires s'.jobsDelivered == s.jobsDelivered
    requires s'.jobsPushed == s.jobsPushed + (if s.nodes[n].plan.Making? then [s.nodes[n].plan.job] else [])
    ensures JobsInOrder(s')
  {
    ListedJobsSame(s.nodes, s'.nodes, s.q.chain);
    ListedJobsAppend(s'.nodes, s.q.chain, Node(n));
    assert !s.nodes[n].plan.Waiting?;
    assert JobInHand(s'.nodes, s'.poller) == JobInHand(s.nodes, s.poller);
  }

  lemma PushSwapJobs(s: State, t: nat)
    requires Safe(s) && JobsOk(s) && Runs(s, t) && s.threads[t].Push? && s.threads[t].phase.Swap?
    requires s.threads[t].phase.prev != Closed && s.q.head == s.threads[t].phase.prev
    ensures JobsOk(PushStep(s, t))
  {
    var s' := PushStep(s, t);
    var Push(n, h, origin, Swap(prev)) := s.threads[t];
    NotListed(s, t);
    PushSwapEffect(s, s', t, n, h, origin, prev);
    assert JobOk(s, n);
    PushSwapOwn(s, s', t, n, h, origin, prev);
    PushSwapOrder(s, s', t, n, h, origin, prev);
    OwnMove(s, s', t);
  }

  predicate SameJob(node: ReadinessNode, node': ReadinessNode) {
    node'.plan == node.plan && node'.job == node.job && node'.word == node.word
  }

  lemma ReleaseEffect(s: State, s': State, t: nat, m: nat)
    requires Runs(s, t) && (s.threads[t].GiveBack? || s.threads[t].Wake? || s.threads[t].Release?)
    requires s.threads[t].n == m
    requires s' == ReleaseStep(s, t)
    ensures OwnStep(s, s', t) && s'.q == s.q && s'.jobsPushed == s.jobsPushed
    ensures m in s'.nodes ==> SameJob(s.nodes[m], s'.nodes[m])
    ensures s.threads[t].Wake? ==> s'.nodes == s.nodes
    ensures DropsHandle(s.threads[t]) && t in s'.threads ==> DropsHandle(s'.threads[t])
    ensures s.threads[t].Wake? && s.threads[t].origin.FromUpdate? ==> t !in s'.threads
  {
  }

  lemma ReleaseOwn(s: State, s': State, t: nat, m: nat)
    requires Runs(s, t) && (s.threads[t].GiveBack? || s.threads[t].Wake? || s.threads[t].Release?)
    requires s.threads[t].n == m
    requires OwnStep(s, s', t) && JobOk(s, m) && m in s'.nodes && SameJob(s.nodes[m], s'.nodes[m])
    requires s.threads[t].Wake? ==> s'.nodes == s.nodes
    requires DropsHandle(s.threads[t]) && t in s'.threads ==> DropsHandle(s'.threads[t])
    requires s.threads[t].Wake? && s.threads[t].origin.FromUpdate? ==> t !in s'.threads
    ensures JobOk(s', m)
  {
  }

  lemma ReleaseJobs(s: State, t: nat)
    requires JobsOk(s) && Runs(s, t) && (s.threads[t].GiveBack? || s.threads[t].Wake? || s.threads[t].Release?)
    ensures JobsOk(ReleaseStep(s, t))
  {
    var s' := ReleaseStep(s, t);
    var m := s.threads[t].n;
    ReleaseEffect(s, s', t, m);
    assert JobOk(s, m);
    if m in s'.nodes {
      ReleaseOwn(s, s', t, m);
    } else {
      assert !s.nodes[m].plan.Waiting?;
    }
    OrderKept(s, s', m);
    OwnMove(s, s', t);
  }

  lemma ThreadJobs(s: State, t: nat)
    requires Safe(s) && JobsOk(s) && Runs(s, t)
    ensures JobsOk(ThreadStep(s, t))
  {
    var pc := s.threads[t];
    if IsLocal(pc) {
      LocalJobs(s, t);
    } else if pc.Push? {
      if pc.phase.Swap? && pc.phase.prev != Closed && s.q.head == pc.phase.prev {
        PushSwapJobs(s, t);
      } else {
        PushQuietJobs(s, t);
      }
    } else {
      ReleaseJobs(s, t);
    }
  }

  // ---------- steps of the poller ----------

  /** The poller stepped, and neither before nor after uses a node other than `m`. */
  ghost predicate HandStep(s: State, s': State, m: nat) {
    && s'.threads == s.threads
    && (forall n :: n != m ==> (n in s'.nodes <==> n in s.nodes) && (n in s.nodes ==> s'.nodes[n] == s.nodes[n]))
    && (forall n :: n != m ==> !PollerUses(s.poller, n) && !PollerUses(s'.poller, n))
    && (Closing(s.poller) ==> Closing(s'.poller))
  }

  lemma UnusedJob(s: State, s': State, n: nat)
    requires s'.threads == s.threads && n in s.nodes && n in s'.nodes && s'.nodes[n] == s.nodes[n] && JobOk(s, n)
    requires !PollerUses(s.poller, n) && !PollerUses(s'.poller, n) && (Closing(s.poller) ==> Closing(s'.poller))
    ensures JobOk(s', n)
  {
  }

  lemma HandMove(s: State, s': State, m: nat)
    requires JobsOk(s) && HandStep(s, s', m)
    requires m in s'.nodes ==> JobOk(s', m)
    requires JobsInOrder(s')
    ensures JobsOk(s')
  {
    forall n | n in s'.nodes
      ensures JobOk(s', n)
    {
      if n != m {
        assert JobOk(s, n);
        UnusedJob(s, s', n);
      }
    }
  }

  /** The poller uses no node, before or after. */
  lemma IdleMove(s: State, s': State)
    requires JobsOk(s) && s'.nodes == s.nodes && s'.threads == s.threads
    requires s'.jobsPushed == s.jobsPushed && s'.jobsDelivered == s.jobsDelivered
    requires forall n :: !PollerUses(s.poller, n) && !PollerUses(s'.poller, n)
    requires Closing(s.poller) ==> Closing(s'.poller)
    requires ListedJobs(s.nodes, s'.q.chain) == ListedJobs(s.nodes, s.q.chain)
    ensures JobsOk(s')
  {
    if 0 in s.nodes {
      assert JobOk(s, 0);
      UnusedJob(s, s', 0);
    }
    NothingInHand(s.nodes, s.poller);
    NothingInHand(s'.nodes, s'.poller);
    HandMove(s, s', 0);
  }

  lemma NothingInHand(nodes: map<nat, ReadinessNode>, poller: PollerPc)
    requires forall n :: !PollerUses(poller, n)
    ensures JobInHand(nodes, poller) == []
  {
    if poller.NodeLoad? && poller.p.Node? {
      assert PollerUses(poller, poller.p.id);
    } else if poller.NodeSwap? || poller.Deliver? {
      assert PollerUses(poller, poller.n);
    }
  }

  lemma MarkersHoldNoJob(nodes: map<nat, ReadinessNode>, q: Queue, q': Queue)
    requires MarkerQueue.Inv(q)
    requires || q'.chain == q.chain
             || (q' == Advance(q) && Marker(q.tail) && q.Next(q.tail) != Null)
             || (exists p :: Marker(p) && q'.chain == q.chain + [p])
             || (q' == ReplaceMarker(q, q'.head) && Marker(q'.head) && q.head == q.tail && Marker(q.tail))
    ensures ListedJobs(nodes, q'.chain) == ListedJobs(nodes, q.chain)
  {
    if q'.chain != q.chain {
      if q' == Advance(q) && Marker(q.tail) && q.Next(q.tail) != Null {
        AdvanceInv(q);
      } else if p :| Marker(p) && q'.chain == q.chain + [p] {
        ListedJobsAppend(nodes, q.chain, p);
      } else {
        OneElement(q);
        assert q.chain[1..] == [] && q'.chain[1..] == [];
      }
    }
  }

  /** Whether the poller is about to take a node off the list. */
  predicate Pops(s: State) {
    && (s.poller.DqLoad? || s.poller.DqMarker? || s.poller.DqRetry?) && s.q.tail.Node? && s.q.Next(s.q.tail) != Null
    && !(!s.poller.DqRetry? && s.poller.c.InPass? && s.q.tail == s.poller.c.until)
  }

  /** A step of `dequeue_node` that takes no node off the list. */
  ghost predicate Searches(s: State, s': State) {
    && s'.nodes == s.nodes && s'.threads == s.threads && s'.jobsPushed == s.jobsPushed
    && s'.jobsDelivered == s.jobsDelivered
    && (Closing(s.poller) ==> Closing(s'.poller))
    && !s'.poller.NodeLoad? && !s'.poller.Drain? && !s'.poller.NodeSwap? && !s'.poller.Deliver?
    && (s'.poller.PPush? ==> s'.poller.p == End && s'.poller.after.ToRetry?)
    && (s'.q.chain == s.q.chain || (s'.q == Advance(s.q) && Marker(s.q.tail) && s.q.Next(s.q.tail) != Null))
  }

  lemma FirstLook(s: State, s': State, c: Ctx)
    requires s.poller == DqLoad(c) && !Pops(s) && s' == DequeueStep(s)
    requires s.q.tail.Node? || Marker(s.q.tail)
    ensures Searches(s, s')
  {
  }

  lemma LaterLook(s: State, s': State)
    requires s.poller.DqMarker? || s.poller.DqHead? || s.poller.DqRetry?
    requires !Pops(s) && s' == DequeueStep(s)
    requires s.q.tail.Node? || s.q.Next(s.q.tail) == Null
    requires s.poller.DqRetry? ==> !(s.poller.c.InPass? && s.q.tail == s.poller.c.until)
    ensures Searches(s, s')
  {
  }

  lemma SearchEffect(s: State, s': State)
    requires s.poller.DqLoad? || s.poller.DqMarker? || s.poller.DqHead? || s.poller.DqRetry?
    requires Searches(s, s')
    ensures forall n :: !PollerUses(s.poller, n) && !PollerUses(s'.poller, n)
  {
  }

  lemma SearchJobs(s: State)
    requires Safe(s) && JobsOk(s) && !Pops(s)
    requires s.poller.DqLoad? || s.poller.DqMarker? || s.poller.DqHead? || s.poller.DqRetry?
    ensures JobsOk(DequeueStep(s))
  {
    assert Holds(s, TheQueue) && Holds(s, ThePoller);
    var s' := DequeueStep(s);
    ClosedTail(s.q);
    assert s.q.chain[0] != Null;
    if s.poller.DqLoad? {
      FirstLook(s, s', s.poller.c);
    } else {
      LaterLook(s, s');
    }
    SearchEffect(s, s');
    MarkersHoldNoJob(s.nodes, s.q, s'.q);
    IdleMove(s, s');
  }

  lemma MarkerStepEffect(s: State, s': State)
    requires Enabled(s, StepPoller) && s' == StepOfPoller(s)
    requires s.poller.PrepTail? || s.poller.PrepSwap? || s.poller.ClearReset? || s.poller.ClearSwap?
    ensures s'.nodes == s.nodes && s'.threads == s.threads && s'.jobsPushed == s.jobsPushed
    ensures s'.jobsDelivered == s.jobsDelivered
    ensures forall n :: !PollerUses(s.poller, n) && !PollerUses(s'.poller, n)
    ensures Closing(s.poller) ==> Closing(s'.poller)
  {
  }

  lemma MarkerStepJobs(s: State)
    requires Safe(s) && JobsOk(s) && Enabled(s, StepPoller)
    requires s.poller.PrepTail? || s.poller.PrepSwap? || s.poller.ClearReset? || s.poller.ClearSwap?
    ensures JobsOk(StepOfPoller(s))
  {
    assert Holds(s, TheQueue) && Holds(s, ThePoller);
    var s' := StepOfPoller(s);
    MarkerAccess(s, s');
    MarkerStepEffect(s, s');
    MarkersHoldNoJob(s.nodes, s.q, s'.q);
    IdleMove(s, s');
  }

  /** A node still in the making is in none of the poller's places. */
  lemma MakingNotListed(s: State, n: nat)
    requires Safe(s) && n in s.nodes && JobOk(s, n) && s.nodes[n].plan.Making?
    ensures s.nodes[n].slot.Idle? || s.nodes[n].slot.Pushing?
  {
    SafeNode(s, n);
    SafeThread(s, s.nodes[n].plan.maker);
  }

  lemma PopResult(s: State, s': State, m: nat, c: Ctx)
    requires Pops(s) && s.poller.c == c && s.q.tail == Node(m) && m in s.nodes && s' == DequeueStep(s)
    ensures s' == s.(q := Advance(s.q), poller := Got(Node(m), c),
                     nodes := s.nodes[m := s.nodes[m].(slot := Processing)])
    ensures forall n :: !PollerUses(s.poller, n)
    ensures Closing(s.poller) <==> c.InDrop?
  {
  }

  lemma PopEffect(s: State, s': State, m: nat, c: Ctx)
    requires m in s.nodes && forall n :: !PollerUses(s.poller, n)
    requires s' == s.(q := Advance(s.q), poller := Got(Node(m), c),
                      nodes := s.nodes[m := s.nodes[m].(slot := Processing)])
    requires Closing(s.poller) <==> c.InDrop?
    ensures HandStep(s, s', m) && (Closing(s.poller) <==> Closing(s'.poller))
  {
  }

  lemma PopOwn(s: State, s': State, c: Ctx, m: nat)
    requires m in s.nodes && JobOk(s, m) && s.nodes[m].slot.Listed? && !s.nodes[m].plan.Making?
    requires s'.threads == s.threads && s'.nodes == s.nodes[m := s.nodes[m].(slot := Processing)]
    requires s'.poller == Got(Node(m), c)
    ensures JobOk(s', m)
  {
  }

  lemma PopOrder(s: State, s': State, c: Ctx, m: nat)
    requires JobsInOrder(s) && (Closing(s.poller) <==> Closing(s'.poller)) && JobInHand(s.nodes, s.poller) == []
    requires MarkerQueue.Inv(s.q) && s.q.tail == Node(m) && m in s.nodes && s.q.Next(s.q.tail) != Null
    requires s'.q == Advance(s.q)
    requires s'.nodes == s.nodes[m := s.nodes[m].(slot := Processing)] && s'.poller == Got(Node(m), c)
    requires s'.jobsPushed == s.jobsPushed && s'.jobsDelivered == s.jobsDelivered
    ensures JobsInOrder(s')
  {
    PopList(s.q, s.nodes, s'.nodes, m);
    assert c.InPass? || Closing(s'.poller);
  }

  lemma PopList(q: Queue, nodes: map<nat, ReadinessNode>, nodes': map<nat, ReadinessNode>, m: nat)
    requires MarkerQueue.Inv(q) && q.tail == Node(m) && q.Next(q.tail) != Null
    requires m in nodes && nodes' == nodes[m := nodes[m].(slot := Processing)]
    ensures JobOf(nodes', Node(m)) == JobOf(nodes, Node(m))
    ensures ListedJobs(nodes, q.chain) == JobOf(nodes, Node(m)) + ListedJobs(nodes', Advance(q).chain)
  {
    AdvanceInv(q);
    ListedJobsSame(nodes, nodes', Advance(q).chain);
  }

  lemma PopJobs(s: State)
    requires Safe(s) && JobsOk(s) && Pops(s)
    ensures JobsOk(DequeueStep(s))
  {
    assert Holds(s, TheQueue) && Holds(s, ThePoller);
    var s' := DequeueStep(s);
    var m := s.q.tail.id;
    assert s.q.chain[0] == Node(m);
    SafeNode(s, m);
    assert JobOk(s, m);
    if s.nodes[m].plan.Making? {
      MakingNotListed(s, m);
    }
    PopResult(s, s', m, s.poller.c);
    PopEffect(s, s', m, s.poller.c);
    PopOwn(s, s', s.poller.c, m);
    PopOrder(s, s', s.poller.c, m);
    HandMove(s, s', m);
  }

  /** A node the poller puts back, or is about to deliver after having put it back, is no job's. */
  lemma PutBackIsNoJob(s: State, n: nat)
    requires n in s.nodes && JobOk(s, n) && s.poller.PPush? && PollerUses(s.poller, n) && !Closing(s.poller)
    ensures s.nodes[n].plan.Shared?
  {
  }

  lemma RequeueEffect(s: State, s': State, m: nat)
    requires s.poller.PPush? && s' == PollerPushStep(s) && s.poller.phase != Swap(Closed)
    requires s.poller.after.ToDeliver? && s.poller.after.n == m && s.poller.p == Node(m)
    ensures HandStep(s, s', m)
    ensures m in s.nodes ==> m in s'.nodes && s'.nodes[m].plan == s.nodes[m].plan
    ensures s'.jobsPushed == s.jobsPushed && s'.jobsDelivered == s.jobsDelivered
    ensures s'.q.chain == s.q.chain || s'.q.chain == s.q.chain + [Node(m)]
    ensures !Closing(s.poller) && !Closing(s'.poller)
  {
  }

  lemma MarkerPushEffect(s: State, s': State)
    requires s.poller.PPush? && s' == PollerPushStep(s) && !s.poller.after.ToDeliver? && Marker(s.poller.p)
    ensures s'.nodes == s.nodes && s'.threads == s.threads && s'.jobsPushed == s.jobsPushed
    ensures s'.jobsDelivered == s.jobsDelivered
    ensures forall n :: !PollerUses(s.poller, n) && !PollerUses(s'.poller, n)
    ensures s'.q.chain == s.q.chain || s'.q.chain == s.q.chain + [s.poller.p]
    ensures Closing(s.poller) ==> Closing(s'.poller)
  {
  }

  lemma RequeueOrder(s: State, s': State, m: nat)
    requires JobsInOrder(s) && !Closing(s.poller) && !Closing(s'.poller) && s.poller.PPush?
    requires forall p :: JobOf(s'.nodes, p) == JobOf(s.nodes, p)
    requires s'.q.chain == s.q.chain || s'.q.chain == s.q.chain + [Node(m)]
    requires JobOf(s.nodes, Node(m)) == [] && JobInHand(s'.nodes, s'.poller) == []
    requires s'.jobsPushed == s.jobsPushed && s'.jobsDelivered == s.jobsDelivered
    ensures JobsInOrder(s')
  {
    ListedJobsSame(s.nodes, s'.nodes, s'.q.chain);
    if s'.q.chain != s.q.chain {
      ListedJobsAppend(s.nodes, s.q.chain, Node(m));
    }
  }

  lemma RequeueOwn(s: State, s': State, m: nat)
    requires HandStep(s, s', m) && m in s'.nodes && s'.nodes[m].plan.Shared?
    ensures JobOk(s', m)
    ensures JobInHand(s'.nodes, s'.poller) == []
  {
    Delivered(s', m);
  }

  lemma RequeueJobs(s: State, m: nat)
    requires JobsOk(s) && s.poller.PPush? && s.poller.phase != Swap(Closed) && m in s.nodes
    requires s.poller.after.ToDeliver? && s.poller.after.n == m && s.poller.p == Node(m)
    ensures JobsOk(PollerPushStep(s))
  {
    var s' := PollerPushStep(s);
    assert JobOk(s, m);
    PutBackIsNoJob(s, m);
    RequeueEffect(s, s', m);
    RequeueOwn(s, s', m);
    forall p
      ensures JobOf(s'.nodes, p) == JobOf(s.nodes, p)
    {
    }
    RequeueOrder(s, s', m);
    HandMove(s, s', m);
  }

  lemma MarkerPushJobs(s: State)
    requires JobsOk(s) && MarkerQueue.Inv(s.q) && s.poller.PPush? && !s.poller.after.ToDeliver? && Marker(s.poller.p)
    ensures JobsOk(PollerPushStep(s))
  {
    var s' := PollerPushStep(s);
    MarkerPushEffect(s, s');
    MarkersHoldNoJob(s.nodes, s.q, s'.q);
    IdleMove(s, s');
  }

  lemma PushFacts(s: State)
    requires PollerOk(s) && s.poller.PPush?
    ensures s.poller.after.ToDeliver? ==> s.poller.p == Node(s.poller.after.n) && s.poller.after.n in s.nodes
    ensures !s.poller.after.ToDeliver? ==> Marker(s.poller.p)
  {
  }

  lemma PushJobs(s: State)
    requires Safe(s) && JobsOk(s) && s.poller.PPush?
    ensures JobsOk(PollerPushStep(s))
  {
    assert Holds(s, TheQueue) && Holds(s, ThePoller);
    PushFacts(s);
    if s.poller.phase == Swap(Closed) {
      PollerFindsClosed(s, s.poller.p, s.poller.after);
    }
    if s.poller.after.ToDeliver? {
      RequeueJobs(s, s.poller.after.n);
    } else {
      MarkerPushJobs(s);
    }
  }

  lemma LoadStep(s: State, s': State, m: nat, c: Ctx)
    requires s.poller == NodeLoad(Node(m), c) && NodeReady(s) && s' == NodeStep(s)
    requires JobOk(s, m) && c.InPass? && s.nodes[m].word.queued
    ensures HandStep(s, s', m) && NodeStepSeen(s, s', m)
  {
  }

  /** What a turn of the loop does to the node in hand, as far as jobs go. */
  ghost predicate NodeStepSeen(s: State, s': State, m: nat)
    requires m in s.nodes
  {
    var plan := s.nodes[m].plan;
    && s'.q == s.q && s'.jobsPushed == s.jobsPushed && !Closing(s.poller) && !Closing(s'.poller)
    && (m in s'.nodes ==> JobOk(s', m))
    && (plan.Waiting? ==> m in s'.nodes)
    && (if s.poller.Deliver? && plan.Waiting? then
          s'.nodes[m].plan == Handed && s'.jobsDelivered == s.jobsDelivered + [plan.job]
        else
          && s'.jobsDelivered == s.jobsDelivered
          && (m in s'.nodes ==> s'.nodes[m].plan == plan)
          && (plan.Waiting? ==> JobInHand(s'.nodes, s'.poller) == [plan.job]))
  }

  lemma DropStep(s: State, s': State, n: nat, seen: Word, want: int, c: Ctx)
    requires s.poller == NodeSwap(n, seen, want, c) && NodeReady(s) && s' == NodeStep(s) && seen.dropped
    requires JobOk(s, n) && c.InPass?
    ensures HandStep(s, s', n) && NodeStepSeen(s, s', n)
  {
  }

  lemma SwapStepJob(s: State, s': State, n: nat, seen: Word, want: int, c: Ctx)
    requires s.poller == NodeSwap(n, seen, want, c) && NodeReady(s) && s' == NodeStep(s) && !seen.dropped
    requires AfterPoll(seen) != seen && s.nodes[n].word == seen
    requires JobOk(s, n) && c.InPass?
    ensures HandStep(s, s', n) && NodeStepSeen(s, s', n)
  {
    SwapStepHand(s, s', n, seen, want, c);
  }

  lemma SwapStepHand(s: State, s': State, n: nat, seen: Word, want: int, c: Ctx)
    requires s.poller == NodeSwap(n, seen, want, c) && NodeReady(s) && s' == NodeStep(s) && !seen.dropped
    requires AfterPoll(seen) != seen && s.nodes[n].word == seen && c.InPass?
    ensures HandStep(s, s', n)
  {
  }

  lemma NoSwapStep(s: State, s': State, n: nat, seen: Word, want: int, c: Ctx)
    requires s.poller == NodeSwap(n, seen, want, c) && NodeReady(s) && s' == NodeStep(s) && !seen.dropped
    requires AfterPoll(seen) == seen || s.nodes[n].word != seen
    requires JobOk(s, n) && c.InPass?
    ensures HandStep(s, s', n) && NodeStepSeen(s, s', n)
  {
  }

  lemma DeliverStep(s: State, s': State, m: nat)
    requires s.poller.Deliver? && s.poller.n == m && NodeReady(s) && s' == NodeStep(s)
    requires JobOk(s, m) && s.poller.c.InPass? && (s.nodes[m].slot.Idle? ==> !s.nodes[m].word.queued)
    ensures HandStep(s, s', m) && NodeStepSeen(s, s', m)
  {
  }

  lemma NodeStepEffect(s: State, s': State, m: nat)
    requires NodeReady(s) && PollerOk(s) && PollerUses(s.poller, m) && s' == NodeStep(s) && JobOk(s, m)
    requires s.nodes[m].word.queued <==> s.nodes[m].slot != Idle
    ensures HandStep(s, s', m) && NodeStepSeen(s, s', m)
  {
    match s.poller
    case NodeLoad(p, c) => LoadStep(s, s', m, c);
    case Deliver(_, _, _, _, c) => DeliverStep(s, s', m);
    case NodeSwap(n, seen, want, c) =>
      if seen.dropped {
        DropStep(s, s', n, seen, want, c);
      } else if AfterPoll(seen) != seen && s.nodes[n].word == seen {
        SwapStepJob(s, s', n, seen, want, c);
      } else {
        NoSwapStep(s, s', n, seen, want, c);
      }
  }

  lemma NodeStepOrder(s: State, s': State, m: nat)
    requires JobsInOrder(s) && !Closing(s.poller) && !Closing(s'.poller) && s'.q == s.q && s'.jobsPushed == s.jobsPushed
    requires m in s.nodes && Node(m) !in s.q.chain
    requires forall n :: n != m ==> JobOf(s'.nodes, Node(n)) == JobOf(s.nodes, Node(n))
    requires s'.jobsDelivered + JobInHand(s'.nodes, s'.poller) == s.jobsDelivered + JobInHand(s.nodes, s.poller)
    ensures JobsInOrder(s')
  {
    forall p | p in s.q.chain
      ensures JobOf(s'.nodes, p) == JobOf(s.nodes, p)
    {
      if p.Node? {
        assert p == Node(p.id);
      }
    }
    ListedJobsSame(s.nodes, s'.nodes, s.q.chain);
  }

  lemma HandJob(s: State, s': State, m: nat)
    requires NodeReady(s) && PollerUses(s.poller, m) && HandStep(s, s', m) && m in s.nodes
    requires !s.nodes[m].plan.Waiting? && (m in s'.nodes ==> !s'.nodes[m].plan.Waiting?)
    ensures JobInHand(s.nodes, s.poller) == [] && JobInHand(s'.nodes, s'.poller) == []
  {
    if s'.poller.NodeLoad? && s'.poller.p.Node? {
      assert PollerUses(s'.poller, s'.poller.p.id);
    } else if s'.poller.NodeSwap? || s'.poller.Deliver? {
      assert PollerUses(s'.poller, s'.poller.n);
    }
  }

  /** A job's node in the poller's hands is not in the list. */
  lemma HandNotListed(s: State, m: nat)
    requires NodeReady(s) && PollerUses(s.poller, m) && m in s.nodes && JobOk(s, m) && s.nodes[m].plan.Waiting?
    requires Backed(s, m, s.nodes[m])
    ensures Node(m) !in s.q.chain && JobInHand(s.nodes, s.poller) == [s.nodes[m].plan.job]
  {
  }

  lemma NodeStepJobs(s: State)
    requires Safe(s) && JobsOk(s) && NodeReady(s)
    ensures JobsOk(NodeStep(s))
  {
    assert Holds(s, ThePoller);
    var s' := NodeStep(s);
    var m := if s.poller.NodeLoad? then s.poller.p.id else s.poller.n;
    assert PollerUses(s.poller, m);
    SafeNode(s, m);
    assert JobOk(s, m);
    NodeStepEffect(s, s', m);
    NodeStepInOrder(s, s', m);
    HandMove(s, s', m);
  }

  lemma NodeStepInOrder(s: State, s': State, m: nat)
    requires NodeReady(s) && PollerUses(s.poller, m) && m in s.nodes && JobOk(s, m) && JobsInOrder(s)
    requires Backed(s, m, s.nodes[m])
    requires HandStep(s, s', m) && NodeStepSeen(s, s', m)
    ensures JobsInOrder(s')
  {
    if s.nodes[m].plan.Waiting? {
      HandNotListed(s, m);
      if s.poller.Deliver? {
        Delivered(s', m);
      }
      NodeStepOrder(s, s', m);
    } else {
      HandJob(s, s', m);
      OrderSame(s, s', m);
    }
  }

  lemma Delivered(s': State, m: nat)
    requires m in s'.nodes && !s'.nodes[m].plan.Waiting?
    requires forall n :: n != m ==> !PollerUses(s'.poller, n)
    ensures JobInHand(s'.nodes, s'.poller) == []
  {
    if s'.poller.NodeLoad? && s'.poller.p.Node? {
      assert PollerUses(s'.poller, s'.poller.p.id);
    } else if s'.poller.NodeSwap? || s'.poller.Deliver? {
      assert PollerUses(s'.poller, s'.poller.n);
    }
  }

  lemma OrderSame(s: State, s': State, m: nat)
    requires JobsInOrder(s) && !Closing(s.poller) && !Closing(s'.poller) && s'.q == s.q && s'.jobsPushed == s.jobsPushed
    requires s'.jobsDelivered == s.jobsDelivered && JobInHand(s'.nodes, s'.poller) == JobInHand(s.nodes, s.poller)
    requires forall n :: JobOf(s'.nodes, Node(n)) == JobOf(s.nodes, Node(n))
    ensures JobsInOrder(s')
  {
    forall p | p in s.q.chain
      ensures JobOf(s'.nodes, p) == JobOf(s.nodes, p)
    {
      if p.Node? {
        assert p == Node(p.id);
      }
    }
    ListedJobsSame(s.nodes, s'.nodes, s.q.chain);
  }

  lemma DrainJobs(s: State)
    requires JobsOk(s) && Enabled(s, StepPoller) && s.poller.Drain?
    ensures JobsOk(StepOfPoller(s))
  {
    var s' := StepOfPoller(s);
    var m := s.poller.p.id;
    assert JobOk(s, m);
    DrainOwn(s, s', m);
    HandMove(s, s', m);
  }

  lemma DrainOwn(s: State, s': State, m: nat)
    requires Enabled(s, StepPoller) && s.poller == Drain(Node(m)) && m in s.nodes && JobOk(s, m)
    requires s' == StepOfPoller(s)
    ensures HandStep(s, s', m) && (m in s'.nodes ==> JobOk(s', m))
    ensures s'.jobsPushed == s.jobsPushed && s'.jobsDelivered == s.jobsDelivered && Closing(s'.poller)
  {
  }

  lemma PollerJobs(s: State)
    requires Safe(s) && JobsOk(s) && Enabled(s, StepPoller)
    ensures JobsOk(StepOfPoller(s))
  {
    if s.poller.PrepTail? || s.poller.PrepSwap? || s.poller.ClearReset? || s.poller.ClearSwap? {
      MarkerStepJobs(s);
    } else if s.poller.PPush? {
      PushJobs(s);
    } else if s.poller.Drain? {
      DrainJobs(s);
    } else if s.poller.NodeLoad? || s.poller.NodeSwap? || s.poller.Deliver? {
      NodeStepJobs(s);
    } else if Pops(s) {
      PopJobs(s);
    } else {
      SearchJobs(s);
    }
  }

  lemma ChoiceJobs(s: State, l: Label)
    requires JobsOk(s) && Enabled(s, l)
    requires l.PollNoWait? || l.PollWait? || l.SelectNotified? || l.SelectOther? || l.SelectFails? || l.CleanPipe?
             || l.BeginPass? || l.DropPoll?
    ensures JobsOk(Do(s, l))
  {
    IdleMove(s, Do(s, l));
  }

  // ---------- calls and new nodes ----------

  /** A call that starts thread `t`, or none, on a node with no job under way, and changes at most its handles. */
  ghost predicate Called(s: State, s': State, t: nat, n: nat) {
    && n in s.nodes && t !in s.threads && !s.nodes[n].plan.Making? && !s.nodes[n].plan.Waiting?
    && s'.poller == s.poller && s'.q == s.q && s'.jobsPushed == s.jobsPushed && s'.jobsDelivered == s.jobsDelivered
    && n in s'.nodes && SameJob(s.nodes[n], s'.nodes[n])
    && (s.nodes[n].plan.Handed? && t in s'.threads ==> DropsHandle(s'.threads[t]))
    && (forall m :: m != n ==> (m in s'.nodes <==> m in s.nodes) && (m in s.nodes ==> s'.nodes[m] == s.nodes[m]))
    && (forall u :: u != t ==>
          (u in s'.threads <==> u in s.threads) && (u in s.threads ==> s'.threads[u] == s.threads[u]))
    && (t in s'.threads ==> s'.threads[t].n == n)
  }

  lemma CalledJob(s: State, s': State, t: nat, n: nat, m: nat)
    requires Called(s, s', t, n) && m in s.nodes && JobOk(s, m)
    ensures JobOk(s', m)
  {
  }

  lemma CalledJobs(s: State, s': State, t: nat, n: nat)
    requires JobsOk(s) && Called(s, s', t, n)
    ensures JobsOk(s')
  {
    forall m | m in s'.nodes
      ensures JobOk(s', m)
    {
      assert JobOk(s, m);
      CalledJob(s, s', t, n, m);
    }
    OrderKept(s, s', n);
  }

  lemma CallJobs(s: State, l: Label)
    requires JobsOk(s) && Enabled(s, l)
    requires l.Clone? || l.CallSet? || l.CallUpdate? || l.CallDropRegistration? || l.CallDropSetReadiness?
    ensures JobsOk(Do(s, l))
  {
    if l.Clone? {
      CloneJobs(s, l.n, l.h, l.copy);
    } else {
      CallEffect(s, l, Do(s, l));
      CalledJobs(s, Do(s, l), l.t, l.n);
    }
  }

  lemma CloneJobs(s: State, n: nat, h: nat, copy: nat)
    requires JobsOk(s) && Enabled(s, Clone(n, h, copy))
    ensures JobsOk(Do(s, Clone(n, h, copy)))
  {
    var t := Above(s.threads.Keys);
    assert t !in s.threads.Keys;
    CalledJobs(s, Do(s, Clone(n, h, copy)), t, n);
  }

  lemma CallEffect(s: State, l: Label, s': State)
    requires Enabled(s, l) && s' == Do(s, l)
    requires l.CallSet? || l.CallUpdate? || l.CallDropRegistration? || l.CallDropSetReadiness?
    ensures Called(s, s', l.t, l.n)
  {
  }

  /** Node `n` is new; thread `t`, if it is new too, works on it. */
  ghost predicate Created(s: State, s': State, t: nat, n: nat) {
    && n !in s.nodes && n in s'.nodes
    && s'.poller == s.poller && s'.q.chain == s.q.chain && s'.jobsPushed == s.jobsPushed
    && s'.jobsDelivered == s.jobsDelivered
    && (forall m :: m != n ==> (m in s'.nodes <==> m in s.nodes) && (m in s.nodes ==> s'.nodes[m] == s.nodes[m]))
    && (forall u :: u != t ==>
          (u in s'.threads <==> u in s.threads) && (u in s.threads ==> s'.threads[u] == s.threads[u]))
    && (t in s'.threads && t !in s.threads ==> s'.threads[t].n == n)
    && (t in s.threads ==> t in s'.threads && s'.threads[t] == s.threads[t])
    && !s'.nodes[n].plan.Waiting?
  }

  lemma CreatedJobs(s: State, s': State, t: nat, n: nat)
    requires JobsOk(s) && Created(s, s', t, n) && JobOk(s', n)
    ensures JobsOk(s')
  {
    forall m | m in s'.nodes
      ensures JobOk(s', m)
    {
      if m != n {
        assert JobOk(s, m);
        CreatedJob(s, s', t, n, m);
      }
    }
    OrderKept(s, s', n);
  }

  lemma CreatedJob(s: State, s': State, t: nat, n: nat, m: nat)
    requires Created(s, s', t, n) && m in s.nodes && JobOk(s, m)
    ensures JobOk(s', m)
  {
  }

  lemma NewJobs(s: State, l: Label)
    requires Safe(s) && JobsOk(s) && Enabled(s, l) && (l.New2? || l.NewPriv? || l.EnqueueJob?)
    ensures JobsOk(Do(s, l))
  {
    var t := if l.EnqueueJob? then l.t else 0;
    if l.EnqueueJob? {
      NewNodeUnused(s, l.n);
    }
    CreatedJobs(s, Do(s, l), t, l.n);
  }

  lemma NewNodeUnused(s: State, n: nat)
    requires Safe(s) && n !in s.nodes
    ensures !PollerUses(s.poller, n)
    ensures forall u :: u in s.threads ==> s.threads[u].n != n
  {
    assert Holds(s, ThePoller);
    forall u | u in s.threads
      ensures s.threads[u].n != n
    {
      SafeThread(s, u);
    }
  }

  // ---------- runs ----------

  lemma DoJobs(s: State, l: Label)
    requires Safe(s) && JobsOk(s) && Enabled(s, l)
    ensures JobsOk(Do(s, l))
  {
    match l
    case StepThread(t) => ThreadJobs(s, t);
    case StepPoller => PollerJobs(s);
    case _ => CallerJobs(s, l);
  }

  lemma CallerJobs(s: State, l: Label)
    requires Safe(s) && JobsOk(s) && Enabled(s, l) && !l.StepThread? && !l.StepPoller?
    ensures JobsOk(Do(s, l))
  {
    if l.New2? || l.NewPriv? || l.EnqueueJob? {
      NewJobs(s, l);
    } else if l.Clone? || l.CallSet? || l.CallUpdate? || l.CallDropRegistration? || l.CallDropSetReadiness? {
      CallJobs(s, l);
    } else {
      ChoiceJobs(s, l);
    }
  }

  lemma {:induction false} RunJobs(states: seq<State>, labels: seq<Label>, i: nat)
    requires Run(states, labels) && i < |states|
    ensures JobsOk(states[i])
  {
    if i == 0 {
      assert ListedJobs(map[], [End][1..]) == [];
    } else {
      RunJobs(states, labels, i - 1);
      RunSafe(states, labels, i - 1);
      DoJobs(states[i - 1], labels[i - 1]);
    }
  }

  lemma ReachableJobs(s: State)
    requires Reachable(s)
    ensures Safe(s) && JobsOk(s)
  {
    ReachableIsSafe(s);
    var states, labels :| EndsRun(s, states, labels);
    RunJobs(states, labels, |labels|);
  }

  // ---------- theorems ----------

  /** Jobs are delivered in the order of their head swaps, each as often as it was pushed; and on a live poller the
      jobs not yet delivered are the one in its hands and those in the list, so a drained queue has lost none. */
  lemma JobsDeliveredInOrder(s: State)
    requires Reachable(s)
    ensures s.jobsDelivered <= s.jobsPushed
    ensures !Closing(s.poller) ==>
              s.jobsPushed == s.jobsDelivered + JobInHand(s.nodes, s.poller) + ListedJobs(s.nodes, s.q.chain)
    ensures s.poller.Outside? && Data(s.q.chain) == [] ==> s.jobsDelivered == s.jobsPushed
  {
    ReachableJobs(s);
    if s.poller.Outside? && Data(s.q.chain) == [] {
      NoDataNoJobs(s.nodes, s.q.chain);
    }
  }

  lemma {:induction false} NoDataNoJobs(nodes: map<nat, ReadinessNode>, chain: seq<Ptr>)
    requires Data(chain) == []
    ensures ListedJobs(nodes, chain) == []
  {
    if chain != [] {
      NoDataNoJobs(nodes, chain[1..]);
    }
  }

  /** A job is stored before its node can be seen: while the job is being enqueued the node is not in the list, and
      from the head swap on the node holds it. */
  lemma JobStoredBeforeVisible(s: State, n: nat)
    requires Reachable(s) && n in s.nodes
    ensures s.nodes[n].plan.Making? ==> Node(n) !in s.q.chain && !PollerUses(s.poller, n)
    ensures s.nodes[n].plan.Waiting? ==> s.nodes[n].job == s.nodes[n].plan.job
  {
    ReachableJobs(s);
    assert JobOk(s, n);
    SafeNode(s, n);
    if s.nodes[n].plan.Making? {
      MakingNotListed(s, n);
    }
  }

  /** A call of `enqueue_job` that has returned has pushed its job: no node is still being made by a thread that runs
      nothing. So a thread's jobs are pushed in the order of its calls. */
  lemma ReturnedMeansPushed(s: State, t: nat, n: nat, job: int)
    requires Reachable(s) && n in s.nodes && s.nodes[n].plan == Making(job, t)
    ensures t in s.threads && s.threads[t].n == n
    ensures forall m, other :: m in s.nodes && s.nodes[m].plan == Making(other, t) ==> m == n
  {
    ReachableJobs(s);
    assert JobOk(s, n);
    forall m, other | m in s.nodes && s.nodes[m].plan == Making(other, t)
      ensures m == n
    {
      assert JobOk(s, m);
    }
  }

  /** The stages of a job: the head swap appends it to the jobs pushed, its delivery appends it to the jobs delivered
      and puts it in the batch with its token, and no step skips a stage or goes back. */
  lemma JobStages(s: State, l: Label, n: nat)
    requires Reachable(s) && Enabled(s, l) && n in s.nodes && n in Do(s, l).nodes
    ensures var s' := Do(s, l); var plan := s.nodes[n].plan; var plan' := s'.nodes[n].plan;
            match plan
            case Shared => plan' == Shared
            case Handed => plan' == Handed
            case Making(job, t) => plan' == plan || (plan' == Waiting(job) && s'.jobsPushed == s.jobsPushed + [job])
            case Waiting(job) =>
              || plan' == plan
              || (plan' == Handed && s'.jobsDelivered == s.jobsDelivered + [job]
                  && s'.events == s.events + [Event(n, READABLE, JOB_TOKEN, job)])
  {
    ReachableJobs(s);
    assert JobOk(s, n);
    if l.StepThread? {
      ThreadStages(s, l.t, n);
    } else if l.StepPoller? {
      PollerStages(s, n);
    }
  }

  lemma ThreadStages(s: State, t: nat, n: nat)
    requires Runs(s, t) && n in s.nodes && n in ThreadStep(s, t).nodes
    ensures var s' := ThreadStep(s, t); var plan := s.nodes[n].plan; var plan' := s'.nodes[n].plan;
            plan' == plan || (plan.Making? && plan' == Waiting(plan.job) && s'.jobsPushed == s.jobsPushed + [plan.job])
  {
    var pc := s.threads[t];
    if IsLocal(pc) {
      LocalKeepsPlan(s.nodes[pc.n], t, pc);
    }
  }

  lemma PollerStages(s: State, n: nat)
    requires Safe(s) && Enabled(s, StepPoller) && n in s.nodes && JobOk(s, n) && n in StepOfPoller(s).nodes
    ensures var s' := StepOfPoller(s); var plan := s.nodes[n].plan; var plan' := s'.nodes[n].plan;
            || plan' == plan
            || (plan.Waiting? && plan' == Handed && s'.jobsDelivered == s.jobsDelivered + [plan.job]
                && s'.events == s.events + [Event(n, READABLE, JOB_TOKEN, plan.job)])
  {
    if s.poller.Deliver? {
      assert Holds(s, ThePoller);
      DeliverStage(s, n);
    } else {
      PollerChangesNode(s, n);
    }
  }

  lemma DeliverStage(s: State, n: nat)
    requires NodeReady(s) && s.poller.Deliver? && PollerOk(s) && n in s.nodes && JobOk(s, n) && n in NodeStep(s).nodes
    ensures var s' := NodeStep(s); var plan := s.nodes[n].plan; var plan' := s'.nodes[n].plan;
            || plan' == plan
            || (plan.Waiting? && plan' == Handed && s'.jobsDelivered == s.jobsDelivered + [plan.job]
                && s'.events == s.events + [Event(n, READABLE, JOB_TOKEN, plan.job)])
  {
  }

  predicate IsPushed(s: State, s': State, n: nat) {
    && n in s.nodes && n in s'.nodes && s.nodes[n].plan.Making? && s'.nodes[n].plan == Waiting(s.nodes[n].plan.job)
    && s'.jobsPushed == s.jobsPushed + [s.nodes[n].plan.job]
  }

  predicate IsDelivered(s: State, s': State, n: nat) {
    && n in s.nodes && n in s'.nodes && s.nodes[n].plan.Waiting? && s'.nodes[n].plan == Handed
    && s'.jobsDelivered == s.jobsDelivered + [s.nodes[n].plan.job]
  }

  /** Nothing but a job reaching its next stage makes the lists grow. */
  lemma ListsGrowByStages(s: State, l: Label)
    requires Reachable(s) && Enabled(s, l)
    ensures Do(s, l).jobsPushed != s.jobsPushed ==> exists n :: IsPushed(s, Do(s, l), n)
    ensures Do(s, l).jobsDelivered != s.jobsDelivered ==> exists n :: IsDelivered(s, Do(s, l), n)
  {
    var s' := Do(s, l);
    if l.StepThread? {
      PushGrows(s, s', l.t);
    } else if l.StepPoller? && s.poller.Deliver? && s'.jobsDelivered != s.jobsDelivered {
      ReachableJobs(s);
      assert Holds(s, ThePoller);
      assert JobOk(s, s.poller.n);
      DeliveryGrows(s, s');
    } else if l.StepPoller? {
      ListsKept(s);
    }
  }

  lemma DeliveryGrows(s: State, s': State)
    requires NodeReady(s) && s.poller.Deliver? && JobOk(s, s.poller.n) && s' == NodeStep(s)
    ensures s'.jobsPushed == s.jobsPushed
    ensures s'.jobsDelivered != s.jobsDelivered ==> IsDelivered(s, s', s.poller.n)
  {
  }

  lemma PushGrows(s: State, s': State, t: nat)
    requires Runs(s, t) && s' == ThreadStep(s, t)
    ensures s'.jobsPushed != s.jobsPushed ==> exists n :: IsPushed(s, s', n)
    ensures s'.jobsDelivered == s.jobsDelivered
  {
    if s.threads[t].Push? && s'.jobsPushed != s.jobsPushed {
      assert IsPushed(s, s', s.threads[t].n);
    }
  }

  lemma ListsKept(s: State)
    requires Enabled(s, StepPoller)
    ensures StepOfPoller(s).jobsPushed == s.jobsPushed
    ensures !s.poller.Deliver? ==>
              StepOfPoller(s).jobsDelivered == s.jobsDelivered && StepOfPoller(s).events == s.events
  {
    if s.poller.PPush? {
      PushKeepsLists(s, StepOfPoller(s));
    } else if NodeReady(s) {
      NodeKeepsLists(s, StepOfPoller(s));
    }
  }

  lemma NodeKeepsLists(s: State, s': State)
    requires NodeReady(s) && s' == NodeStep(s)
    ensures s'.jobsPushed == s.jobsPushed
    ensures !s.poller.Deliver? ==> s'.jobsDelivered == s.jobsDelivered && s'.events == s.events
  {
    if s.poller.NodeSwap? {
      SwapKeepsLists(s, s');
    }
  }

  lemma SwapKeepsLists(s: State, s': State)
    requires NodeReady(s) && s.poller.NodeSwap? && s' == NodeStep(s)
    ensures s'.jobsPushed == s.jobsPushed && s'.jobsDelivered == s.jobsDelivered && s'.events == s.events
  {
  }

  lemma PushKeepsLists(s: State, s': State)
    requires s.poller.PPush? && s' == PollerPushStep(s)
    ensures s'.jobsPushed == s.jobsPushed && s'.jobsDelivered == s.jobsDelivered && s'.events == s.events
  {
  }

  /** On a live poller the node of a job that is under way is never freed. */
  lemma JobsNotForgotten(s: State, l: Label, n: nat)
    requires Reachable(s) && Enabled(s, l) && n in s.nodes
    ensures s.nodes[n].plan.Making? ==> n in Do(s, l).nodes
    ensures s.nodes[n].plan.Waiting? && !Closing(s.poller) ==> n in Do(s, l).nodes
    ensures Closing(s.poller) ==> Do(s, l).jobsDelivered == s.jobsDelivered
  {
    ReachableJobs(s);
    assert JobOk(s, n);
    if l.StepThread? {
      ThreadForgets(s, l.t, n);
    } else if l.StepPoller? {
      PollerForgets(s, n);
    }
  }

  lemma ThreadForgets(s: State, t: nat, n: nat)
    requires Runs(s, t) && n in s.nodes && JobOk(s, n)
    ensures s.nodes[n].plan.Making? || s.nodes[n].plan.Waiting? ==> n in ThreadStep(s, t).nodes
    ensures ThreadStep(s, t).jobsDelivered == s.jobsDelivered
  {
  }

  lemma PollerForgets(s: State, n: nat)
    requires Safe(s) && Enabled(s, StepPoller) && n in s.nodes && JobOk(s, n)
    ensures s.nodes[n].plan.Making? ==> n in StepOfPoller(s).nodes
    ensures s.nodes[n].plan.Waiting? && !Closing(s.poller) ==> n in StepOfPoller(s).nodes
    ensures Closing(s.poller) ==> StepOfPoller(s).jobsDelivered == s.jobsDelivered
  {
    PollerChangesNode(s, n);
  }
}
