/** The invariant holds in every state of every run. */
module ReadinessSafety {
  import opened Arithmetic
  import opened ReadinessWord
  import opened MarkerQueue
  import opened Options
  import opened Readiness
  import opened ReadinessInvariant
  import opened ReadinessFrames
  import opened ReadinessThreads
  import opened ReadinessPoller

  // ---------- calls ----------

  /** A call that starts thread `t`, or none, and changes at most the handles of node `n`. */
  ghost predicate CallOk(s: State, s': State, n: nat, node': ReadinessNode, t: nat, pc: Option<Pc>) {
    && n in s.nodes && t !in s.threads
    && s' == Put(s, n, node').(threads := if pc.Some? then s.threads[t := pc.value] else s.threads)
    && node' == s.nodes[n].(handles := node'.handles, refs := node'.refs)
    && NodeOk(node')
    && (pc.Some? ==> pc.value.n == n && PcOk(s.q, node', t, pc.value) && (BorrowsPoll(pc.value) ==> !Closing(s.poller)))
    && (forall u :: u in s.threads && s.threads[u].n == n ==> HandleOk(node', u, s.threads[u]))
    && (forall h :: h in node'.handles && node'.handles[h].Dropping? ==>
          || (h in s.nodes[n].handles && node'.handles[h] == s.nodes[n].handles[h])
          || (pc.Some? && node'.handles[h] == Dropping(t) && DropsHandle(pc.value) && HandleOf(pc.value) == h))
  }

  lemma CallThread(s: State, s': State, n: nat, node': ReadinessNode, t: nat, pc: Option<Pc>, u: nat)
    requires CallOk(s, s', n, node', t, pc) && u in s.threads && ThreadOk(s, u)
    ensures ThreadOk(s', u)
  {
  }

  lemma CallThreads(s: State, s': State, n: nat, node': ReadinessNode, t: nat, pc: Option<Pc>)
    requires ThreadsOk(s) && CallOk(s, s', n, node', t, pc)
    ensures ThreadsOk(s')
  {
    forall u | u in s'.threads
      ensures ThreadOk(s', u)
    {
      if u != t {
        CallThread(s, s', n, node', t, pc, u);
      }
    }
  }

  lemma CallNodes(s: State, s': State, n: nat, node': ReadinessNode, t: nat, pc: Option<Pc>)
    requires NodesOk(s) && CallOk(s, s', n, node', t, pc)
    ensures NodesOk(s')
  {
    forall m | m in s'.nodes
      ensures NodeOk(s'.nodes[m]) && Backed(s', m, s'.nodes[m])
    {
      NodeFacts(s, m);
      if m == n {
        CallOwnNode(s, s', n, node', t, pc);
      } else {
        CallOtherNode(s, s', n, node', t, pc, m);
      }
    }
  }

  lemma CallOwnNode(s: State, s': State, n: nat, node': ReadinessNode, t: nat, pc: Option<Pc>)
    requires CallOk(s, s', n, node', t, pc) && Backed(s, n, s.nodes[n])
    ensures Backed(s', n, s'.nodes[n])
  {
  }

  lemma CallOtherNode(s: State, s': State, n: nat, node': ReadinessNode, t: nat, pc: Option<Pc>, m: nat)
    requires CallOk(s, s', n, node', t, pc) && m in s.nodes && m != n && Backed(s, m, s.nodes[m])
    ensures Backed(s', m, s'.nodes[m])
  {
  }

  lemma CallQueue(s: State, s': State, n: nat, node': ReadinessNode, t: nat, pc: Option<Pc>)
    requires QueueOk(s) && CallOk(s, s', n, node', t, pc)
    ensures QueueOk(s')
  {
    forall p | p in s'.q.owed
      ensures OwedBacked(s', p)
    {
      assert OwedBacked(s, p);
    }
  }

  lemma CallPoller(s: State, s': State, n: nat, node': ReadinessNode, t: nat, pc: Option<Pc>)
    requires PollerOk(s) && WakerOk(s) && CallOk(s, s', n, node', t, pc)
    ensures PollerOk(s') && WakerOk(s')
  {
    CallUnnoticed(s, s', n, node', t, pc);
    UnnoticedByPoller(s, s', Null);
  }

  lemma CallUnnoticed(s: State, s': State, n: nat, node': ReadinessNode, t: nat, pc: Option<Pc>)
    requires CallOk(s, s', n, node', t, pc)
    ensures Unnoticed(s, s', Null)
  {
  }

  lemma CallMove(s: State, s': State, n: nat, node': ReadinessNode, t: nat, pc: Option<Pc>)
    requires Safe(s) && CallOk(s, s', n, node', t, pc)
    ensures Safe(s')
  {
    assert Holds(s, TheQueue) && Holds(s, TheNodes) && Holds(s, TheThreads) && Holds(s, ThePoller)
           && Holds(s, TheWaker);
    CallThreads(s, s', n, node', t, pc);
    CallNodes(s, s', n, node', t, pc);
    CallQueue(s, s', n, node', t, pc);
    CallPoller(s, s', n, node', t, pc);
    AllParts(s');
  }

  lemma SameSize(handles: map<nat, Use>, h: nat, use: Use)
    ensures h in handles ==> |handles[h := use]| == |handles|
    ensures h !in handles ==> |handles[h := use]| == |handles| + 1
  {
    assert handles[h := use].Keys == handles.Keys + {h};
    assert |handles[h := use]| == |handles[h := use].Keys| && |handles| == |handles.Keys|;
    if h in handles {
      assert handles.Keys + {h} == handles.Keys;
    }
  }

  lemma CloneSafe(s: State, n: nat, h: nat, copy: nat)
    requires Safe(s) && Enabled(s, Clone(n, h, copy))
    ensures Safe(Do(s, Clone(n, h, copy)))
  {
    var node := s.nodes[n];
    SafeNode(s, n);
    SameSize(node.handles, copy, Live);
    var t := Above(s.threads.Keys);
    assert t !in s.threads.Keys;
    HandlesKept(s, n, node.(refs := node.refs + 1, handles := node.handles[copy := Live]), copy);
    CallMove(s, Do(s, Clone(n, h, copy)), n, node.(refs := node.refs + 1, handles := node.handles[copy := Live]), t,
             None);
  }

  /** A handle that no thread borrows may change. */
  lemma HandlesKept(s: State, n: nat, node': ReadinessNode, h: nat)
    requires Safe(s) && n in s.nodes
    requires forall k :: k != h && k in s.nodes[n].handles ==>
               k in node'.handles && node'.handles[k] == s.nodes[n].handles[k]
    requires h in s.nodes[n].handles ==> forall u :: u in s.threads ==> !Borrows(s.threads[u], n, h)
    ensures forall u :: u in s.threads && s.threads[u].n == n ==> HandleOk(node', u, s.threads[u])
  {
    forall u | u in s.threads && s.threads[u].n == n
      ensures HandleOk(node', u, s.threads[u])
    {
      SafeThread(s, u);
    }
  }

  /** A call that changes no node. */
  lemma CallUnchanged(s: State, n: nat, t: nat, pc: Pc)
    requires Safe(s) && n in s.nodes && NodeOk(s.nodes[n]) && t !in s.threads && pc.n == n
    requires PcOk(s.q, s.nodes[n], t, pc) && (BorrowsPoll(pc) ==> !Closing(s.poller))
    requires forall u :: u in s.threads && s.threads[u].n == n ==> HandleOk(s.nodes[n], u, s.threads[u])
    ensures Safe(Goto(s, t, Some(pc)))
  {
    assert s.nodes[n := s.nodes[n]] == s.nodes;
    CallMove(s, Goto(s, t, Some(pc)), n, s.nodes[n], t, Some(pc));
  }

  lemma CallSetSafe(s: State, t: nat, n: nat, h: nat, ready: Bits4)
    requires Safe(s) && Enabled(s, CallSet(t, n, h, ready))
    ensures Safe(Do(s, CallSet(t, n, h, ready)))
  {
    SafeNode(s, n);
    HandlesKept(s, n, s.nodes[n], NoHandle(s.nodes[n]));
    CallUnchanged(s, n, t, SetLoad(n, h, ready, Return));
  }

  ghost function NoHandle(node: ReadinessNode): (h: nat)
    ensures h !in node.handles
  {
    var t := Above(node.handles.Keys);
    assert t !in node.handles.Keys;
    t
  }

  lemma CallUpdateSafe(s: State, t: nat, n: nat, args: Args)
    requires Safe(s) && Enabled(s, CallUpdate(t, n, args))
    ensures Safe(Do(s, CallUpdate(t, n, args)))
  {
    SafeNode(s, n);
    HandlesKept(s, n, s.nodes[n], NoHandle(s.nodes[n]));
    CallUnchanged(s, n, t, UpdBind(n, args));
  }

  lemma CallDropRegistrationSafe(s: State, t: nat, n: nat)
    requires Safe(s) && Enabled(s, CallDropRegistration(t, n))
    ensures Safe(Do(s, CallDropRegistration(t, n)))
  {
    var node := s.nodes[n];
    SafeNode(s, n);
    SameSize(node.handles, 0, Dropping(t));
    var node' := node.(handles := node.handles[0 := Dropping(t)]);
    HandlesKept(s, n, node', 0);
    NotCounting(s, n);
    CallMove(s, Do(s, CallDropRegistration(t, n)), n, node', t, Some(DropFlag(n)));
  }

  /** While no thread borrows the registration, none is inside `update`. */
  lemma NotCounting(s: State, n: nat)
    requires Safe(s) && n in s.nodes && forall u :: u in s.threads ==> !Borrows(s.threads[u], n, 0)
    ensures !s.nodes[n].qref.Counting?
  {
    SafeNode(s, n);
  }

  lemma CallDropSetReadinessSafe(s: State, t: nat, n: nat, h: nat)
    requires Safe(s) && Enabled(s, CallDropSetReadiness(t, n, h))
    ensures Safe(Do(s, CallDropSetReadiness(t, n, h)))
  {
    var node := s.nodes[n];
    SafeNode(s, n);
    SameSize(node.handles, h, Dropping(t));
    var node' := node.(handles := node.handles[h := Dropping(t)]);
    HandlesKept(s, n, node', h);
    CallMove(s, Do(s, CallDropSetReadiness(t, n, h)), n, node', t, Some(Release(n, h)));
  }

  // ---------- new nodes ----------

  ghost predicate CreateOk(s: State, s': State, n: nat, node: ReadinessNode, t: nat, pc: Option<Pc>) {
    && n !in s.nodes && t !in s.threads
    && s' == Put(s, n, node).(q := ResetLink(s.q, Node(n)),
                              threads := if pc.Some? then s.threads[t := pc.value] else s.threads)
    && NodeOk(node) && node.slot.Idle? && !node.locked && !node.qref.Counting?
    && (forall h :: h in node.handles ==> node.handles[h].Live?)
    && (pc.Some? ==> pc.value.n == n && PcOk(s'.q, node, t, pc.value) && (BorrowsPoll(pc.value) ==> !Closing(s.poller)))
  }

  lemma CreateThreads(s: State, s': State, n: nat, node: ReadinessNode, t: nat, pc: Option<Pc>)
    requires ThreadsOk(s) && CreateOk(s, s', n, node, t, pc)
    ensures ThreadsOk(s')
  {
    forall u | u in s'.threads
      ensures ThreadOk(s', u)
    {
      if u != t {
        assert ThreadOk(s, u);
        CreateThread(s, s', n, node, t, pc, u);
      }
    }
  }

  lemma CreateThread(s: State, s': State, n: nat, node: ReadinessNode, t: nat, pc: Option<Pc>, u: nat)
    requires CreateOk(s, s', n, node, t, pc) && u in s.threads && ThreadOk(s, u)
    ensures ThreadOk(s', u)
  {
  }

  lemma CreateNodes(s: State, s': State, n: nat, node: ReadinessNode, t: nat, pc: Option<Pc>)
    requires NodesOk(s) && CreateOk(s, s', n, node, t, pc) && Node(n) !in s.q.chain
    ensures NodesOk(s')
  {
    forall m | m in s'.nodes
      ensures NodeOk(s'.nodes[m]) && Backed(s', m, s'.nodes[m])
    {
      if m != n {
        NodeFacts(s, m);
        CreateOther(s, s', n, node, t, pc, m);
      }
    }
  }

  lemma CreateOther(s: State, s': State, n: nat, node: ReadinessNode, t: nat, pc: Option<Pc>, m: nat)
    requires CreateOk(s, s', n, node, t, pc) && m in s.nodes && Backed(s, m, s.nodes[m])
    ensures Backed(s', m, s'.nodes[m])
  {
  }

  lemma CreatePoller(s: State, s': State, n: nat, node: ReadinessNode, t: nat, pc: Option<Pc>)
    requires PollerOk(s) && WakerOk(s) && CreateOk(s, s', n, node, t, pc)
    ensures PollerOk(s') && WakerOk(s')
  {
    assert Unnoticed(s, s', Node(n));
    UnnoticedByPoller(s, s', Node(n));
  }

  lemma CreateQueue(s: State, s': State, n: nat, node: ReadinessNode, t: nat, pc: Option<Pc>)
    requires QueueOk(s) && CreateOk(s, s', n, node, t, pc)
    ensures QueueOk(s')
  {
    ResetLinkInv(s.q, Node(n));
    forall p | p in s'.q.owed
      ensures OwedBacked(s', p)
    {
      assert OwedBacked(s, p);
    }
  }

  lemma CreateMove(s: State, s': State, n: nat, node: ReadinessNode, t: nat, pc: Option<Pc>)
    requires Safe(s) && CreateOk(s, s', n, node, t, pc)
    ensures Safe(s')
  {
    assert Holds(s, TheQueue) && Holds(s, TheNodes) && Holds(s, TheThreads) && Holds(s, ThePoller)
           && Holds(s, TheWaker);
    assert Node(n) !in s.q.chain;
    CreateQueue(s, s', n, node, t, pc);
    CreateThreads(s, s', n, node, t, pc);
    CreateNodes(s, s', n, node, t, pc);
    CreatePoller(s, s', n, node, t, pc);
    AllParts(s');
  }

  lemma FreshNodeOk(word: Word, token: int, bound: bool, plan: Plan)
    requires !word.queued && !word.dropped && word.rd == 0 && word.wr == 0 && word.readiness == 0
             && (!bound ==> word.interest == 0)
    ensures NodeOk(FreshNode(word, token, bound, plan))
  {
    var one := map[0 := Live];
    assert |one| == 1;
    SameSize(one, 1, Live);
    assert one[1 := Live] == map[0 := Live, 1 := Live];
  }

  lemma New2Safe(s: State, n: nat)
    requires Safe(s) && Enabled(s, New2(n))
    ensures Safe(Do(s, New2(n)))
  {
    var t := Above(s.threads.Keys);
    assert t !in s.threads.Keys;
    FreshNodeOk(Fresh(0, 0), DEFAULT_TOKEN, false, Shared);
    CreateMove(s, Do(s, New2(n)), n, FreshNode(Fresh(0, 0), DEFAULT_TOKEN, false, Shared), t, None);
  }

  lemma NewPrivSafe(s: State, n: nat, token: int, interest: Bits4, opt: Bits4)
    requires Safe(s) && Enabled(s, NewPriv(n, token, interest, opt))
    ensures Safe(Do(s, NewPriv(n, token, interest, opt)))
  {
    var t := Above(s.threads.Keys);
    assert t !in s.threads.Keys;
    FreshNodeOk(Fresh(interest, opt), token, true, Shared);
    CreateMove(s, Do(s, NewPriv(n, token, interest, opt)), n, FreshNode(Fresh(interest, opt), token, true, Shared), t,
               None);
  }

  lemma EnqueueJobSafe(s: State, t: nat, n: nat, job: int)
    requires Safe(s) && Enabled(s, EnqueueJob(t, n, job))
    ensures Safe(Do(s, EnqueueJob(t, n, job)))
  {
    var node := FreshNode(Fresh(0, 0), DEFAULT_TOKEN, false, Making(job, t));
    var pc := SetLoad(n, 1, READABLE, Register(JobArgs(job)));
    FreshNodeOk(Fresh(0, 0), DEFAULT_TOKEN, false, Making(job, t));
    assert PcOk(ResetLink(s.q, Node(n)), node, t, pc);
    CreateMove(s, Do(s, EnqueueJob(t, n, job)), n, node, t, Some(pc));
  }

  // ---------- the poller's choices ----------

  lemma NoClosedMarker(q: Queue)
    requires MarkerQueue.Inv(q) && q.head != Closed
    ensures Closed !in q.chain
  {
  }

  lemma PollerChoiceOk(s: State, l: Label)
    requires PollerOk(s) && Enabled(s, l) && Closed !in s.q.chain && s.q.head != Closed
    requires l.PollNoWait? || l.PollWait? || l.SelectNotified? || l.SelectOther? || l.SelectFails? || l.CleanPipe?
             || l.BeginPass? || l.DropPoll?
    ensures PollerOk(Do(s, l))
  {
    if l.BeginPass? {
      BeginPassOk(s, l.len, l.cap);
    } else if l.DropPoll? {
      DropPollOk(s);
    }
  }

  lemma DropPollOk(s: State)
    requires PollerOk(s) && Enabled(s, DropPoll) && Closed !in s.q.chain
    ensures PollerOk(Do(s, DropPoll))
  {
  }

  lemma BeginPassOk(s: State, len: nat, cap: nat)
    requires PollerOk(s) && Enabled(s, BeginPass(len, cap))
    ensures PollerOk(Do(s, BeginPass(len, cap)))
  {
  }

  lemma PollerChoiceSafe(s: State, l: Label)
    requires Safe(s) && Enabled(s, l)
    requires l.PollNoWait? || l.PollWait? || l.SelectNotified? || l.SelectOther? || l.SelectFails? || l.CleanPipe?
             || l.BeginPass? || l.DropPoll?
    ensures Safe(Do(s, l))
  {
    assert Holds(s, TheQueue) && Holds(s, ThePoller);
    assert s.q.head != Closed;
    NoClosedMarker(s.q);
    PollerChoiceOk(s, l);
    PollerChoiceEffect(s, l, Do(s, l));
    CounterMove(s, Do(s, l));
  }

  lemma PollerChoiceEffect(s: State, l: Label, s': State)
    requires Enabled(s, l) && s' == Do(s, l)
    requires l.PollNoWait? || l.PollWait? || l.SelectNotified? || l.SelectOther? || l.SelectFails? || l.CleanPipe?
             || l.BeginPass? || l.DropPoll?
    ensures s'.threads == s.threads && s'.waker == s.waker && s'.nodes == s.nodes && s'.q == s.q
    ensures forall m :: !InHand(s.poller, m)
    ensures !(s.poller.PPush? && s.poller.phase.Link?)
    ensures Closing(s'.poller) ==> forall u :: u in s.threads ==> !BorrowsPoll(s.threads[u])
  {
  }

  // ---------- runs ----------

  lemma DoSafe(s: State, l: Label)
    requires Safe(s) && Enabled(s, l)
    ensures Safe(Do(s, l))
  {
    match l
    case Clone(n, h, copy) => CloneSafe(s, n, h, copy);
    case CallSet(t, n, h, ready) => CallSetSafe(s, t, n, h, ready);
    case CallUpdate(t, n, args) => CallUpdateSafe(s, t, n, args);
    case CallDropRegistration(t, n) => CallDropRegistrationSafe(s, t, n);
    case CallDropSetReadiness(t, n, h) => CallDropSetReadinessSafe(s, t, n, h);
    case StepThread(t) => ThreadStepSafe(s, t);
    case StepPoller => StepPollerSafe(s);
    case New2(n) => New2Safe(s, n);
    case NewPriv(n, token, interest, opt) => NewPrivSafe(s, n, token, interest, opt);
    case EnqueueJob(t, n, job) => EnqueueJobSafe(s, t, n, job);
    case _ => PollerChoiceSafe(s, l);
  }

  lemma InitSafe()
    ensures Safe(INIT)
  {
    EmptyInv();
    AllParts(INIT);
  }

  /** Every state of every run is safe. */
  lemma {:induction false} RunSafe(states: seq<State>, labels: seq<Label>, i: nat)
    requires Run(states, labels) && i < |states|
    ensures Safe(states[i])
  {
    if i == 0 {
      InitSafe();
    } else {
      RunSafe(states, labels, i - 1);
      DoSafe(states[i - 1], labels[i - 1]);
    }
  }
}
