/** The machine and the methods of `PollPass` agree: when no producer interferes, a pass of the machine, step by step,
    does to the queue, the nodes and the batch what `PollPass.Pass` says, and ends. */
module ReadinessAlone {
  import opened Options
  import opened ReadinessWord
  import opened MarkerQueue
  import opened Readiness
  import opened ReadinessInvariant
  import opened ReadinessPoller
  import opened ReadinessSafety
  import opened ReadinessTheorems
  import PollPass

  // ---------- runs of the poller alone ----------

  function Iterate<T>(step: T -> T, s: T, k: nat): T
    decreases k
  {
    if k == 0 then s else Iterate(step, step(s), k - 1)
  }

  lemma {:induction false} IterateSum<T>(step: T -> T, s: T, j: nat, k: nat)
    ensures Iterate(step, Iterate(step, s, j), k) == Iterate(step, s, j + k)
    decreases j
  {
    if j > 0 {
      IterateSum(step, step(s), j - 1, k);
    }
  }

  /** The poller's next step, if it has one. */
  function Next(s: State): State {
    if Enabled(s, StepPoller) then StepOfPoller(s) else s
  }

  /** The poller gets from `s` to `s'` by itself. */
  ghost predicate Reaches(s: State, s': State) {
    exists k: nat :: Iterate(Next, s, k) == s'
  }

  lemma ReachesSelf(s: State)
    ensures Reaches(s, s)
  {
    assert Iterate(Next, s, 0) == s;
  }

  lemma ReachesStep(s: State, s1: State, s': State)
    requires Enabled(s, StepPoller) && s1 == StepOfPoller(s) && Reaches(s1, s')
    ensures Reaches(s, s')
  {
    var k: nat :| Iterate(Next, s1, k) == s';
    assert Iterate(Next, s, k + 1) == Iterate(Next, Next(s), k);
  }

  lemma ReachesBoth(s: State, s1: State, s': State)
    requires Reaches(s, s1) && Reaches(s1, s')
    ensures Reaches(s, s')
  {
    var j: nat :| Iterate(Next, s, j) == s1;
    var k: nat :| Iterate(Next, s1, k) == s';
    IterateSum(Next, s, j, k);
    assert Iterate(Next, s, j + k) == s';
  }

  /** The invariant holds, and every link is stored. */
  ghost predicate Still(s: State) {
    Safe(s) && s.q.owed == map[]
  }

  /** Nodes that differ at most in their auxiliary fields. */
  predicate SameNode(a: ReadinessNode, b: ReadinessNode) {
    a.word == b.word && a.token0 == b.token0 && a.token1 == b.token1 && a.token2 == b.token2 && a.refs == b.refs
    && a.job == b.job
  }

  ghost predicate SameNodes(a: map<nat, ReadinessNode>, b: map<nat, ReadinessNode>) {
    a.Keys == b.Keys && forall n :: n in a ==> SameNode(a[n], b[n])
  }

  /** From `s` the poller gets to `s'` by itself, and has delivered nothing. */
  ghost predicate Silently(s: State, s': State) {
    Reaches(s, s') && Still(s') && s'.events == s.events && SameNodes(s.nodes, s'.nodes)
  }

  lemma SilentStep(s: State, s': State)
    requires Still(s) && Enabled(s, StepPoller) && s' == StepOfPoller(s) && s'.events == s.events
    requires SameNodes(s.nodes, s'.nodes)
    requires s'.q.owed == map[]
    ensures Silently(s, s')
  {
    StepPollerSafe(s);
    ReachesSelf(s');
    ReachesStep(s, s', s');
  }

  // ---------- going to sleep ----------

  /** A `poll` that may block: when no producer interferes, it sleeps exactly if the queue is empty, and then the sleep
      marker is the queue; otherwise the queue is left alone. */
  lemma PrepareAlone(s: State) returns (s': State)
    requires Reachable(s) && s.poller == Outside && s.q.owed == map[]
    ensures Reaches(Do(s, PollWait), s') && s'.poller == Select(Data(s.q.chain) == [])
    ensures s'.q.chain == (if Data(s.q.chain) == [] then [Sleep] else s.q.chain)
    ensures s'.nodes == s.nodes && s'.events == s.events
  {
    OutsideIsOpen(s);
    var s1 := Do(s, PollWait);
    s' := PreparesAlone(s1);
  }

  lemma OutsideIsOpen(s: State)
    requires Reachable(s) && s.poller == Outside
    ensures MarkerQueue.Inv(s.q) && s.q.head != Closed
  {
    ReachableIsSafe(s);
    assert Holds(s, TheQueue) && Holds(s, ThePoller);
  }

  lemma PreparesAlone(s: State) returns (s': State)
    requires s.poller == PrepTail && MarkerQueue.Inv(s.q) && s.q.head != Closed
    ensures Reaches(s, s') && s'.poller == Select(Data(s.q.chain) == [])
    ensures s'.q.chain == (if Data(s.q.chain) == [] then [Sleep] else s.q.chain)
    ensures s'.nodes == s.nodes && s'.events == s.events
  {
    EmptyOrNot(s.q);
    s' := StepOfPoller(s);
    ReachesSelf(s');
    ReachesStep(s, s', s');
    if s.q.tail == End {
      var s1 := s';
      s' := StepOfPoller(s1);
      ReachesSelf(s');
      ReachesStep(s1, s', s');
      ReachesBoth(s, s1, s');
    }
  }

  /** A queue that is not closed is empty exactly if it is one marker, head and tail. */
  lemma EmptyOrNot(q: Queue)
    requires MarkerQueue.Inv(q) && q.head != Closed
    ensures Data(q.chain) == [] <==> q.head == q.tail && !q.tail.Node?
    ensures Data(q.chain) == [] ==> q.chain == [q.tail] && (q.tail == End || q.tail == Sleep)
    ensures q.tail == End || q.tail == Sleep || q.tail.Node?
  {
    if |q.chain| > 1 {
      assert q.chain[1..][0] == q.chain[1];
    } else {
      assert q.chain[1..] == [];
    }
  }

  // ---------- a push ----------

  /** A push by the poller, from `Reset` to the store of the link. */
  lemma PushAlone(s: State, p: Ptr, after: After) returns (s': State)
    requires Still(s) && s.poller == PPush(p, Reset, after) && s.q.head != Closed
    requires p.Node? ==> p.id in s.nodes
    ensures Silently(s, s') && s'.poller == Resume(after) && s'.q == PollPass.Pushed(s.q, p)
  {
    var q := s.q;
    var s1 := StepOfPoller(s);
    StepPollerSafe(s);
    assert s1.q == ResetLink(q, p) && s1.poller == PPush(p, Load, after);
    var s2 := StepOfPoller(s1);
    StepPollerSafe(s1);
    assert s2.q == s1.q && s2.poller == PPush(p, Swap(q.head), after);
    var s3 := StepOfPoller(s2);
    StepPollerSafe(s2);
    assert s3.q == SwapHead(s1.q, p, Poller) && s3.poller == PPush(p, Link(q.head), after);
    s' := StepOfPoller(s3);
    PushedAlone(q, p);
    assert s'.q == StoreLink(s3.q, q.head, p);
    StepPollerSafe(s3);
    ReachesSelf(s');
    ReachesStep(s3, s', s');
    ReachesStep(s2, s3, s');
    ReachesStep(s1, s2, s');
    ReachesStep(s, s1, s');
  }

  lemma PushedAlone(q: Queue, p: Ptr)
    requires q.owed == map[]
    ensures StoreLink(SwapHead(ResetLink(q, p), p, Poller), q.head, p) == PollPass.Pushed(q, p)
  {
    assert q.owed[q.head := Owed(Poller, p)] - {q.head} == q.owed;
  }

  // ---------- dequeue_node ----------

  lemma PopAlone(s: State, c: Ctx) returns (s': State)
    requires Still(s) && Searching(s.poller, c) && c.InPass?
    requires s.q.tail.Node? && s.q.tail != c.until && s.q.Next(s.q.tail) != Null
    ensures Silently(s, s') && s'.poller == NodeLoad(s.q.tail, c)
    ensures Data(s.q.chain) == [s.q.tail.id] + Data(s'.q.chain)
  {
    assert Holds(s, TheQueue);
    AdvanceInv(s.q);
    s' := StepOfPoller(s);
    PopResult(s, s', c);
    SilentStep(s, s');
  }

  lemma PopResult(s: State, s': State, c: Ctx)
    requires Searching(s.poller, c) && c.InPass? && s.q.tail.Node? && s.q.tail != c.until && s.q.Next(s.q.tail) != Null
    requires s' == DequeueStep(s)
    ensures s' == s.(q := Advance(s.q), poller := NodeLoad(s.q.tail, c), nodes := Processed(s.nodes, s.q.tail))
    ensures SameNodes(s.nodes, s'.nodes)
  {
  }

  /** The last node is taken off after the end marker has been put behind it. */
  lemma LastAlone(s: State, c: Ctx) returns (s': State)
    requires Still(s) && s.poller == DqHead(c) && c.InPass? && s.q.tail.Node? && s.q.chain == [s.q.tail]
    requires s.q.tail != c.until
    ensures Silently(s, s') && s'.poller == NodeLoad(s.q.tail, c)
    ensures Data(s.q.chain) == [s.q.tail.id] + Data(s'.q.chain)
  {
    assert Holds(s, TheQueue);
    OneNode(s.q);
    var s1 := StepOfPoller(s);
    StepPollerSafe(s);
    var s2 := PushAlone(s1, End, ToRetry(c));
    EndBehind(s.q);
    s' := PopAlone(s2, c);
    ReachesBoth(s1, s2, s');
    ReachesStep(s, s1, s');
  }

  lemma OneNode(q: Queue)
    requires MarkerQueue.Inv(q) && q.chain == [q.tail] && q.tail.Node?
    ensures q.head == q.tail
  {
  }

  lemma EndBehind(q: Queue)
    requires MarkerQueue.Inv(q) && q.owed == map[] && q.chain == [q.tail] && q.tail.Node?
    ensures var q' := PollPass.Pushed(q, End);
            q'.tail == q.tail && q'.owed == map[] && q'.Next(q'.tail) == End && Data(q'.chain) == Data(q.chain)
  {
    DataAppend(q.chain, End);
  }

  lemma StopAlone(s: State, c: Ctx) returns (s': State)
    requires Still(s) && (s.poller == DqLoad(c) || s.poller == DqMarker(c)) && c.InPass? && s.q.tail.Node?
             && s.q.tail == c.until
    ensures Silently(s, s') && s'.poller == Outside && s'.q == s.q
  {
    s' := StepOfPoller(s);
    SilentStep(s, s');
  }

  /** `dequeue_node` from a tail that is a node. */
  lemma NodeAlone(s: State, c: Ctx) returns (s': State)
    requires Still(s) && (s.poller == DqLoad(c) || s.poller == DqMarker(c)) && c.InPass? && s.q.tail.Node?
    ensures Silently(s, s') && Data(s.q.chain) != [] && s.q.tail.id == Data(s.q.chain)[0]
    ensures s.q.tail == c.until ==> s'.poller == Outside && Data(s'.q.chain) == Data(s.q.chain)
    ensures s.q.tail != c.until ==> s'.poller == NodeLoad(s.q.tail, c) && Data(s'.q.chain) == Data(s.q.chain)[1..]
  {
    assert Holds(s, TheQueue) && Holds(s, ThePoller);
    assert s.q.chain[0] == s.q.tail;
    if s.q.tail == c.until {
      s' := StopAlone(s, c);
    } else if s.q.Next(s.q.tail) != Null {
      s' := PopAlone(s, c);
    } else {
      PollPass.AloneIfNull(s.q);
      s' := LookAndLast(s, c);
    }
  }

  lemma LookAndLast(s: State, c: Ctx) returns (s': State)
    requires Still(s) && (s.poller == DqLoad(c) || s.poller == DqMarker(c)) && c.InPass? && s.q.tail.Node?
    requires s.q.tail != c.until && s.q.Next(s.q.tail) == Null && s.q.chain == [s.q.tail]
    ensures Silently(s, s') && s'.poller == NodeLoad(s.q.tail, c)
    ensures Data(s.q.chain) == [s.q.tail.id] + Data(s'.q.chain)
  {
    var s1 := StepOfPoller(s);
    StepPollerSafe(s);
    s' := LastAlone(s1, c);
    ReachesStep(s, s1, s');
  }

  /** `clear_sleep_marker`. */
  lemma ClearAlone(s: State, c: Ctx) returns (s': State)
    requires Still(s) && s.poller == ClearReset(c) && c.InPass?
    ensures Silently(s, s') && s'.poller == Outside && Data(s'.q.chain) == Data(s.q.chain)
  {
    assert Holds(s, TheQueue) && Holds(s, ThePoller);
    assert s.q.chain[0] == Sleep;
    var s1 := StepOfPoller(s);
    SilentStep(s, s1);
    s' := StepOfPoller(s1);
    ClearResult(s1, s', c);
    SilentStep(s1, s');
    ReachesBoth(s, s1, s');
    if s.q.head == Sleep {
      OneElement(s.q);
    }
  }

  lemma ClearResult(s: State, s': State, c: Ctx)
    requires s.poller == ClearSwap(c) && c.InPass? && s' == DequeueStep(s)
    ensures s'.events == s.events && s'.nodes == s.nodes && s'.q.owed == s.q.owed && s'.poller == Outside
    ensures s.q.head != Sleep ==> s'.q.chain == s.q.chain
    ensures s.q.head == Sleep && s.q.chain == [Sleep] ==> Data(s'.q.chain) == Data(s.q.chain)
  {
    assert [Sleep][1..] == [] && [End][1..] == [];
  }

  /** `dequeue_node` from a marker with nothing behind it. */
  lemma EmptyAlone(s: State, c: Ctx) returns (s': State)
    requires Still(s) && s.poller == DqLoad(c) && c.InPass? && Marker(s.q.tail) && s.q.Next(s.q.tail) == Null
    ensures Silently(s, s') && s'.poller == Outside && Data(s.q.chain) == [] && Data(s'.q.chain) == []
  {
    assert Holds(s, TheQueue);
    PollPass.AloneIfNull(s.q);
    var s1 := StepOfPoller(s);
    SilentStep(s, s1);
    if s.q.tail == Sleep {
      s' := ClearAlone(s1, c);
      ReachesBoth(s, s1, s');
    } else {
      s' := s1;
    }
  }

  lemma SkipAlone(s: State, c: Ctx) returns (s': State)
    requires Still(s) && s.poller == DqLoad(c) && c.InPass? && Marker(s.q.tail) && s.q.Next(s.q.tail) != Null
    ensures Silently(s, s') && s'.poller == DqMarker(c) && s'.q.tail.Node? && Data(s'.q.chain) == Data(s.q.chain)
  {
    assert Holds(s, TheQueue);
    AdvanceInv(s.q);
    s' := StepOfPoller(s);
    SilentStep(s, s');
    assert Holds(s', ThePoller);
  }

  /** `dequeue_node` hands out the oldest node, unless there is none or it is `until`. */
  lemma DequeueAlone(s: State, c: Ctx) returns (s': State)
    requires Still(s) && s.poller == DqLoad(c) && c.InPass?
    ensures Silently(s, s')
    ensures var list := Data(s.q.chain);
            if list == [] || Node(list[0]) == c.until then s'.poller == Outside && Data(s'.q.chain) == list
            else s'.poller == NodeLoad(Node(list[0]), c) && Data(s'.q.chain) == list[1..]
  {
    assert Holds(s, TheQueue) && Holds(s, ThePoller);
    assert s.q.chain[0] == s.q.tail;
    if s.q.tail.Node? {
      s' := NodeAlone(s, c);
    } else if s.q.Next(s.q.tail) == Null {
      s' := EmptyAlone(s, c);
    } else {
      var s1 := SkipAlone(s, c);
      s' := NodeAlone(s1, c);
      ReachesBoth(s, s1, s');
    }
  }

  // ---------- a turn ----------

  lemma LoadAlone(s: State, n: nat, c: Ctx) returns (s': State)
    requires Still(s) && s.poller == NodeLoad(Node(n), c)
    ensures Silently(s, s') && n in s.nodes && s' == s.(poller := NodeSwap(n, s.nodes[n].word, s.nodes[n].current, c))
  {
    assert Holds(s, ThePoller);
    s' := StepOfPoller(s);
    SilentStep(s, s');
  }

  lemma DropAlone(s: State, n: nat, seen: Word, want: int, c: Ctx) returns (s': State)
    requires Still(s) && s.poller == NodeSwap(n, seen, want, c) && n in s.nodes && seen.dropped
    ensures Reaches(s, s') && Still(s') && s'.events == s.events && s'.q == s.q && s'.poller == Again(c)
    ensures SameNodes(PollPass.AfterRelease(s.nodes, n), s'.nodes)
  {
    s' := StepOfPoller(s);
    StepPollerSafe(s);
    ReachesSelf(s');
    ReachesStep(s, s', s');
  }

  lemma SwapAlone(s: State, n: nat, want: int, c: Ctx) returns (s': State)
    requires Still(s) && n in s.nodes && s.poller == NodeSwap(n, s.nodes[n].word, want, c) && want == s.nodes[n].current
    requires !s.nodes[n].word.dropped
    ensures Reaches(s, s') && Still(s') && s'.events == s.events && s'.q == s.q
    ensures s'.poller == Proceed(n, s.nodes[n].word, want, c)
    ensures SameNodes(s.nodes[n := s.nodes[n].(word := AfterPoll(s.nodes[n].word))], s'.nodes)
  {
    s' := StepOfPoller(s);
    SwapResultAlone(s, s', n, want, c);
    StepPollerSafe(s);
    ReachesSelf(s');
    ReachesStep(s, s', s');
  }

  lemma SwapResultAlone(s: State, s': State, n: nat, want: int, c: Ctx)
    requires n in s.nodes && s.poller == NodeSwap(n, s.nodes[n].word, want, c) && want == s.nodes[n].current
    requires !s.nodes[n].word.dropped && NodeReady(s) && s' == NodeStep(s)
    ensures s'.events == s.events && s'.q == s.q && s'.poller == Proceed(n, s.nodes[n].word, want, c)
    ensures SameNodes(s.nodes[n := s.nodes[n].(word := AfterPoll(s.nodes[n].word))], s'.nodes)
  {
    if AfterPoll(s.nodes[n].word) == s.nodes[n].word {
      KeptAlone(s, s', n, want, c);
      SameSlot(s.nodes, n, s.nodes[n].word, s.nodes[n].unseen, s.nodes[n].slot);
    } else {
      InstalledAlone(s, s', n, want, c);
      SameSlot(s.nodes, n, AfterPoll(s.nodes[n].word), false, s'.nodes[n].slot);
    }
  }

  lemma SameSlot(nodes: map<nat, ReadinessNode>, n: nat, next: Word, unseen: bool, slot: Slot)
    requires n in nodes
    ensures SameNodes(nodes[n := nodes[n].(word := next)],
                      nodes[n := nodes[n].(word := next, unseen := unseen, slot := slot)])
    ensures next == nodes[n].word && unseen == nodes[n].unseen && slot == nodes[n].slot ==>
              nodes[n := nodes[n].(word := next, unseen := unseen, slot := slot)] == nodes
  {
  }

  lemma InstalledAlone(s: State, s': State, n: nat, want: int, c: Ctx)
    requires n in s.nodes && s.poller == NodeSwap(n, s.nodes[n].word, want, c)
    requires AfterPoll(s.nodes[n].word) != s.nodes[n].word
    requires !s.nodes[n].word.dropped && want == s.nodes[n].current && NodeReady(s) && s' == NodeStep(s)
    ensures s'.events == s.events && s'.q == s.q && s'.poller == Proceed(n, s.nodes[n].word, want, c) && n in s'.nodes
    ensures s'.nodes == s.nodes[n := s.nodes[n].(word := AfterPoll(s.nodes[n].word), unseen := false,
                                                 slot := s'.nodes[n].slot)]
  {
  }

  lemma KeptAlone(s: State, s': State, n: nat, want: int, c: Ctx)
    requires n in s.nodes && s.poller == NodeSwap(n, s.nodes[n].word, want, c)
    requires AfterPoll(s.nodes[n].word) == s.nodes[n].word
    requires !s.nodes[n].word.dropped && NodeReady(s) && s' == NodeStep(s)
    ensures s'.events == s.events && s'.q == s.q && s'.nodes == s.nodes
    ensures s'.poller == Proceed(n, s.nodes[n].word, want, c)
  {
  }

  /** The poller puts the node back, if its word says so (lines 493-498). */
  lemma PutBackAlone(s: State, n: nat, seen: Word, want: int, c: Ctx) returns (s': State)
    requires Still(s) && s.poller == Proceed(n, seen, want, c) && c.InPass? && n in s.nodes
    ensures Silently(s, s')
    ensures var next := AfterPoll(seen);
            && s'.poller == Deliver(n, Effective(seen), next.rd, want, if next.queued then Requeue(c, n) else c)
            && Data(s'.q.chain) == Data(s.q.chain) + (if next.queued then [n] else [])
  {
    if AfterPoll(seen).queued {
      assert Holds(s, ThePoller);
      s' := PushAlone(s, Node(n), ToDeliver(n, Effective(seen), AfterPoll(seen).rd, want, Requeue(c, n)));
      DataAppend(s.q.chain, Node(n));
    } else {
      s' := s;
      ReachesSelf(s);
    }
  }

  /** The event goes into the batch (lines 499-503). */
  lemma DeliverAlone(s: State, n: nat, ready: Bits4, pos: Bits2, want: int, c: Ctx) returns (s': State)
    requires Still(s) && s.poller == Deliver(n, ready, pos, want, c) && c.InPass?
    ensures Reaches(s, s') && Still(s') && n in s.nodes && s'.q == s.q
    ensures ready == 0 ==> s'.poller == Again(c) && s'.events == s.events && s'.nodes == s.nodes
    ensures ready != 0 ==>
              && s'.poller == Again(c.(len := c.len + 1))
              && s'.events == s.events + [Event(n, ready, s.nodes[n].Token(pos), s.nodes[n].job)]
              && SameNodes(s.nodes[n := s.nodes[n].(job := NO_JOB)], s'.nodes)
  {
    assert Holds(s, ThePoller);
    s' := StepOfPoller(s);
    StepPollerSafe(s);
    ReachesSelf(s');
    ReachesStep(s, s', s');
  }

  /** The pass after the turn for node `n`. */
  function NextCtx(c: Ctx, n: nat, turn: PollPass.Turn): Ctx
    requires c.InPass?
  {
    var c1 := if turn.back then Requeue(c, n) else c;
    if turn.event.Some? then c1.(len := c1.len + 1) else c1
  }

  /** The turn of a node that is not dropped, in terms of what the poller does to it: `nodes1` once its word is in
      place, `nodes2` once it is put back. */
  lemma LiveTurn(nodes: map<nat, ReadinessNode>, n: nat, nodes1: map<nat, ReadinessNode>,
                 nodes2: map<nat, ReadinessNode>)
    requires n in nodes && !nodes[n].word.dropped
    requires SameNodes(nodes[n := nodes[n].(word := AfterPoll(nodes[n].word))], nodes1) && SameNodes(nodes1, nodes2)
    ensures n in nodes2
    ensures var turn := PollPass.TurnOf(nodes, n);
            var ready := Effective(nodes[n].word);
            var next := AfterPoll(nodes[n].word);
            && turn.back == next.queued
            && turn.event == (if ready == 0 then None
                              else Some(Event(n, ready, nodes2[n].Token(next.rd), nodes2[n].job)))
            && SameNodes(turn.nodes, if ready == 0 then nodes2 else nodes2[n := nodes2[n].(job := NO_JOB)])
  {
    var seen := nodes[n := nodes[n].(word := AfterPoll(nodes[n].word))];
    SameAgain(seen, nodes1, nodes2);
    SameUpdate(seen, nodes2, n);
  }

  lemma SameUpdate(a: map<nat, ReadinessNode>, b: map<nat, ReadinessNode>, n: nat)
    requires SameNodes(a, b) && n in a
    ensures n in b && SameNode(a[n], b[n]) && SameNodes(a[n := a[n].(job := NO_JOB)], b[n := b[n].(job := NO_JOB)])
  {
  }

  lemma SameAgain(a: map<nat, ReadinessNode>, b: map<nat, ReadinessNode>, c: map<nat, ReadinessNode>)
    requires SameNodes(a, b) && SameNodes(b, c)
    ensures SameNodes(a, c)
  {
  }

  /** What the poller has done by the end of a turn. */
  ghost predicate TurnDone(s: State, s': State, n: nat, c: Ctx, turn: PollPass.Turn)
    requires c.InPass?
  {
    && s'.poller == Again(NextCtx(c, n, turn))
    && s'.events == s.events + (if turn.event.Some? then [turn.event.value] else [])
    && SameNodes(turn.nodes, s'.nodes)
    && Data(s'.q.chain) == Data(s.q.chain) + (if turn.back then [n] else [])
  }

  /** The last step of a turn: the event goes into the batch. */
  lemma FinishTurn(s: State, s2: State, n: nat, ready: Bits4, pos: Bits2, want: int, c: Ctx,
                   turn: PollPass.Turn) returns (s': State)
    requires c.InPass? && Still(s2) && s2.poller == Deliver(n, ready, pos, want, if turn.back then Requeue(c, n) else c)
    requires s2.events == s.events && n in s2.nodes
    requires Data(s2.q.chain) == Data(s.q.chain) + (if turn.back then [n] else [])
    requires turn.event == (if ready == 0 then None else Some(Event(n, ready, s2.nodes[n].Token(pos), s2.nodes[n].job)))
    requires SameNodes(turn.nodes, if ready == 0 then s2.nodes else s2.nodes[n := s2.nodes[n].(job := NO_JOB)])
    ensures Reaches(s2, s') && Still(s') && TurnDone(s, s', n, c, turn)
  {
    s' := DeliverAlone(s2, n, ready, pos, want, if turn.back then Requeue(c, n) else c);
    if ready != 0 {
      SameAgain(turn.nodes, s2.nodes[n := s2.nodes[n].(job := NO_JOB)], s'.nodes);
    }
  }

  lemma LiveTurnAlone(s: State, n: nat, c: Ctx) returns (s': State)
    requires Still(s) && n in s.nodes && s.poller == NodeSwap(n, s.nodes[n].word, s.nodes[n].current, c) && c.InPass?
    requires !s.nodes[n].word.dropped
    ensures Reaches(s, s') && Still(s') && TurnDone(s, s', n, c, PollPass.TurnOf(s.nodes, n))
  {
    var seen, want := s.nodes[n].word, s.nodes[n].current;
    var s1 := SwapAlone(s, n, want, c);
    var s2 := PutBackAlone(s1, n, seen, want, c);
    LiveTurn(s.nodes, n, s1.nodes, s2.nodes);
    s' := FinishTurn(s, s2, n, Effective(seen), AfterPoll(seen).rd, want, c, PollPass.TurnOf(s.nodes, n));
    ReachesBoth(s, s1, s2);
    ReachesBoth(s, s2, s');
  }

  lemma TurnAlone(s: State, n: nat, c: Ctx) returns (s': State)
    requires Still(s) && s.poller == NodeLoad(Node(n), c) && c.InPass?
    ensures Reaches(s, s') && Still(s') && n in s.nodes && TurnDone(s, s', n, c, PollPass.TurnOf(s.nodes, n))
  {
    var s1 := LoadAlone(s, n, c);
    if s.nodes[n].word.dropped {
      s' := DropAlone(s1, n, s.nodes[n].word, s.nodes[n].current, c);
    } else {
      s' := LiveTurnAlone(s1, n, c);
    }
    ReachesBoth(s, s1, s');
  }

  // ---------- a pass ----------

  lemma TurnSame(a: map<nat, ReadinessNode>, b: map<nat, ReadinessNode>, n: nat)
    requires SameNodes(a, b) && n in a
    ensures n in b && SameNodes(PollPass.TurnOf(a, n).nodes, PollPass.TurnOf(b, n).nodes)
    ensures PollPass.TurnOf(a, n).back == PollPass.TurnOf(b, n).back
    ensures PollPass.TurnOf(a, n).event == PollPass.TurnOf(b, n).event
  {
  }

  /** A pass does not depend on the auxiliary fields. */
  lemma {:induction false} PassSame(a: map<nat, ReadinessNode>, b: map<nat, ReadinessNode>, todo: seq<nat>, room: nat)
    requires SameNodes(a, b)
    ensures var p, r := PollPass.Pass(a, todo, room), PollPass.Pass(b, todo, room);
            p.events == r.events && p.back == r.back && p.rest == r.rest && SameNodes(p.nodes, r.nodes)
    decreases todo
  {
    if todo != [] && room > 0 && todo[0] in a {
      var n := todo[0];
      var s, t := PollPass.TurnOf(a, n), PollPass.TurnOf(b, n);
      var room' := if s.event.Some? then room - 1 else room;
      TurnSame(a, b, n);
      PassSame(s.nodes, t.nodes, todo[1..], room');
      PollPass.PassStep(a, todo, room, s, room');
      PollPass.PassStep(b, todo, room, t, room');
    }
  }

  /** The turn that follows `dequeue_node`, in terms of the nodes before it. */
  lemma NextTurnAlone(s: State, s1: State, n: nat, c: Ctx) returns (s': State)
    requires Silently(s, s1) && n in s.nodes && s1.poller == NodeLoad(Node(n), c) && c.InPass?
    ensures Reaches(s, s') && Still(s') && TurnDone(s1, s', n, c, PollPass.TurnOf(s.nodes, n))
  {
    s' := TurnAlone(s1, n, c);
    TurnSame(s.nodes, s1.nodes, n);
    TurnDoneSame(s1, s', n, c, PollPass.TurnOf(s1.nodes, n), PollPass.TurnOf(s.nodes, n));
    ReachesBoth(s, s1, s');
  }

  lemma TurnDoneSame(s: State, s': State, n: nat, c: Ctx, turn: PollPass.Turn, turn': PollPass.Turn)
    requires c.InPass? && TurnDone(s, s', n, c, turn)
    requires turn'.back == turn.back && turn'.event == turn.event && SameNodes(turn'.nodes, turn.nodes)
    ensures TurnDone(s, s', n, c, turn')
  {
    SameAgain(turn'.nodes, turn.nodes, s'.nodes);
  }

  /** One turn of a pass leaves the pass in order. */
  /** The first node of `todo` has had its turn. */
  ghost predicate Turned(s: State, s': State, c: Ctx, c': Ctx, todo: seq<nat>, back: seq<nat>, back': seq<nat>,
                         turn: PollPass.Turn)
    requires c.InPass? && todo != [] && todo[0] in s.nodes
  {
    && turn == PollPass.TurnOf(s.nodes, todo[0]) && SameNodes(turn.nodes, s'.nodes)
    && c'.InPass? && c'.len <= c'.cap && c'.cap - c'.len == c.cap - c.len - (if turn.event.Some? then 1 else 0)
    && s'.events == s.events + (if turn.event.Some? then [turn.event.value] else [])
    && back' == (if turn.back then back + [todo[0]] else back)
  }

  lemma VisitAlone(s: State, s1: State, c: Ctx, todo: seq<nat>, back: seq<nat>)
      returns (s': State, turn: PollPass.Turn, c': Ctx, back': seq<nat>)
    requires Silently(s, s1) && todo != [] && todo[0] in s.nodes && s1.poller == NodeLoad(Node(todo[0]), c)
    requires c.InPass? && c.len < c.cap
    requires PollPass.InPassOrder(s.nodes, todo, back, c.until) && Data(s1.q.chain) == todo[1..] + back
    ensures Reaches(s, s') && Still(s') && Turned(s, s', c, c', todo, back, back', turn)
    ensures s'.poller == Again(c') && Data(s'.q.chain) == todo[1..] + back'
    ensures PollPass.InPassOrder(s'.nodes, todo[1..], back', c'.until)
  {
    s' := NextTurnAlone(s, s1, todo[0], c);
    turn := PollPass.TurnOf(s.nodes, todo[0]);
    c' := NextCtx(c, todo[0], turn);
    back' := if turn.back then back + [todo[0]] else back;
    PollPass.TurnKeeps(s.nodes, todo, back, c.until);
    OrderSame(turn.nodes, s'.nodes, todo[1..], back', c'.until);
  }

  datatype DonePart = TheBatch | TheNodesLeft | TheListLeft

  /** What the poller has done by the end of a pass that began with `todo` to visit and `back` put back. */
  ghost predicate PassDone(s: State, s': State, todo: seq<nat>, back: seq<nat>, room: nat) {
    s'.poller == Outside && forall part :: PassDid(s, s', todo, back, room, part)
  }

  ghost predicate PassDid(s: State, s': State, todo: seq<nat>, back: seq<nat>, room: nat, part: DonePart) {
    var r := PollPass.Pass(s.nodes, todo, room);
    match part
    case TheBatch => s'.events == s.events + r.events
    case TheNodesLeft => SameNodes(r.nodes, s'.nodes)
    case TheListLeft => Data(s'.q.chain) == r.rest + (back + r.back)
  }

  lemma NothingLeft(s: State, s': State, todo: seq<nat>, back: seq<nat>, room: nat)
    requires (todo == [] || room == 0) && s'.poller == Outside && s'.events == s.events && SameNodes(s.nodes, s'.nodes)
    requires Data(s'.q.chain) == todo + back
    ensures PassDone(s, s', todo, back, room)
  {
    assert back + [] == back && s.events + [] == s.events;
    forall part
      ensures PassDid(s, s', todo, back, room, part)
    {
      match part
      case _ =>
    }
  }

  lemma OneTurnMore(s: State, s2: State, s': State, todo: seq<nat>, back: seq<nat>, room: nat, turn: PollPass.Turn,
                    room': nat)
    requires todo != [] && room > 0 && todo[0] in s.nodes && turn == PollPass.TurnOf(s.nodes, todo[0])
    requires room' == if turn.event.Some? then room - 1 else room
    requires s2.events == s.events + (if turn.event.Some? then [turn.event.value] else [])
    requires SameNodes(turn.nodes, s2.nodes)
    requires PassDone(s2, s', todo[1..], if turn.back then back + [todo[0]] else back, room')
    ensures PassDone(s, s', todo, back, room)
  {
    PassSame(turn.nodes, s2.nodes, todo[1..], room');
    PollPass.PassStep(s.nodes, todo, room, turn, room');
    var events := if turn.event.Some? then [turn.event.value] else [];
    var more := if turn.back then [todo[0]] else [];
    var r1, r2 := PollPass.Pass(turn.nodes, todo[1..], room'), PollPass.Pass(s2.nodes, todo[1..], room');
    var back' := if turn.back then back + [todo[0]] else back;
    assert PassDid(s2, s', todo[1..], back', room', TheBatch) && PassDid(s2, s', todo[1..], back', room', TheNodesLeft)
           && PassDid(s2, s', todo[1..], back', room', TheListLeft);
    assert back' == back + more;
    SameAgain(r1.nodes, r2.nodes, s'.nodes);
    MoreOf(s.events, events, r2.events);
    MoreOf(back, more, r2.back);
    forall part
      ensures PassDid(s, s', todo, back, room, part)
    {
      match part
      case _ =>
    }
  }

  lemma MoreOf<T>(a: seq<T>, b: seq<T>, c: seq<T>)
    ensures a + b + c == a + (b + c)
  {
  }

  /** What is left of a pass of the machine, from a point at which `todo` is still to be visited and `back` has been put
      back behind it. */
  lemma {:induction false} RestAlone(s: State, c: Ctx, todo: seq<nat>, back: seq<nat>) returns (s': State)
    requires Still(s) && c.InPass? && c.len <= c.cap && s.poller == Again(c) && Data(s.q.chain) == todo + back
    requires PollPass.InPassOrder(s.nodes, todo, back, c.until)
    ensures Reaches(s, s') && PassDone(s, s', todo, back, c.cap - c.len)
    decreases |todo|, 1
  {
    if c.cap <= c.len {
      s' := s;
      ReachesSelf(s);
      NothingLeft(s, s', todo, back, c.cap - c.len);
    } else {
      var s1 := DequeueAlone(s, c);
      NextAlone(s, s1, c, todo, back);
      if todo == [] {
        s' := s1;
        assert todo + back == back;
        NothingLeft(s, s', todo, back, c.cap - c.len);
      } else {
        s' := TurnAndRest(s, s1, c, todo, back);
      }
    }
  }

  lemma {:induction false} TurnAndRest(s: State, s1: State, c: Ctx, todo: seq<nat>, back: seq<nat>) returns (s': State)
    requires Silently(s, s1) && todo != [] && todo[0] in s.nodes && s1.poller == NodeLoad(Node(todo[0]), c)
    requires c.InPass? && c.len < c.cap
    requires PollPass.InPassOrder(s.nodes, todo, back, c.until) && Data(s1.q.chain) == todo[1..] + back
    ensures Reaches(s, s') && PassDone(s, s', todo, back, c.cap - c.len)
    decreases |todo|, 0
  {
    var s2, turn, c', back' := VisitAlone(s, s1, c, todo, back);
    s' := RestAlone(s2, c', todo[1..], back');
    ReachesBoth(s, s2, s');
    TurnedThenDone(s, s2, s', c, c', todo, back, back', turn);
  }

  lemma TurnedThenDone(s: State, s2: State, s': State, c: Ctx, c': Ctx, todo: seq<nat>, back: seq<nat>,
                       back': seq<nat>, turn: PollPass.Turn)
    requires c.InPass? && c.len < c.cap && todo != [] && todo[0] in s.nodes
    requires Turned(s, s2, c, c', todo, back, back', turn) && PassDone(s2, s', todo[1..], back', c'.cap - c'.len)
    ensures PassDone(s, s', todo, back, c.cap - c.len)
  {
    OneTurnMore(s, s2, s', todo, back, c.cap - c.len, turn, c'.cap - c'.len);
  }

  lemma OrderSame(a: map<nat, ReadinessNode>, b: map<nat, ReadinessNode>, todo: seq<nat>, back: seq<nat>, until: Ptr)
    requires a.Keys == b.Keys && PollPass.InPassOrder(a, todo, back, until)
    ensures PollPass.InPassOrder(b, todo, back, until)
  {
    PollPass.InOrder(a, todo, back, until);
    PollPass.InOrder(b, todo, back, until);
  }

  /** What `dequeue_node` does to the list in the middle of a pass. */
  lemma NextAlone(s: State, s1: State, c: Ctx, todo: seq<nat>, back: seq<nat>)
    requires c.InPass? && Data(s.q.chain) == todo + back && PollPass.InPassOrder(s.nodes, todo, back, c.until)
    requires var list := Data(s.q.chain);
             if list == [] || Node(list[0]) == c.until then s1.poller == Outside && Data(s1.q.chain) == list
             else s1.poller == NodeLoad(Node(list[0]), c) && Data(s1.q.chain) == list[1..]
    ensures todo == [] ==> s1.poller == Outside && Data(s1.q.chain) == back
    ensures todo != [] ==>
              s1.poller == NodeLoad(Node(todo[0]), c) && todo[0] in s.nodes && Data(s1.q.chain) == todo[1..] + back
  {
    PollPass.InOrder(s.nodes, todo, back, c.until);
    if todo != [] {
      assert (todo + back)[0] == todo[0] && (todo + back)[1..] == todo[1..] + back;
      if back != [] {
        assert (todo + back)[|todo|] == back[0];
      }
    } else {
      assert todo + back == back;
    }
  }

  /** The list of a safe state has no node twice, and only nodes that are there. */
  lemma ListInOrder(s: State)
    requires Safe(s)
    ensures PollPass.InPassOrder(s.nodes, Data(s.q.chain), [], Null) && Data(s.q.chain) + [] == Data(s.q.chain)
  {
    assert Holds(s, TheQueue);
    var list := Data(s.q.chain);
    PollPass.DataDistinct(s.q.chain);
    forall n | n in list
      ensures n in s.nodes
    {
      DataMembers(s.q.chain, n);
    }
    assert list + [] == list;
    PollPass.InOrder(s.nodes, list, [], Null);
  }

  /** A pass of the machine that no producer interferes with, from any reachable state in which every link is stored,
      ends, and does to the queue, the nodes and the batch what `Pass` says. */
  lemma MachinePassIsPass(s: State, len: nat, cap: nat) returns (s': State)
    requires Reachable(s) && Enabled(s, BeginPass(len, cap)) && s.q.owed == map[]
    ensures Reaches(Do(s, BeginPass(len, cap)), s') && PassDone(s, s', Data(s.q.chain), [], cap - len)
  {
    var s1 := Do(s, BeginPass(len, cap));
    ReachableIsSafe(s);
    DoSafe(s, BeginPass(len, cap));
    PassBegins(s, s1, InPass(Null, len, cap, {}));
    s' := BegunAlone(s1, InPass(Null, len, cap, {}));
    SameStart(s, s1, s', Data(s.q.chain), [], cap - len);
  }

  lemma PassBegins(s: State, s1: State, c: Ctx)
    requires c.InPass? && c.until == Null && c.requeued == {} && Enabled(s, BeginPass(c.len, c.cap))
    requires s1 == Do(s, BeginPass(c.len, c.cap))
    ensures s1 == s.(poller := s1.poller)
    ensures s1.poller == if c.len < c.cap then DqLoad(c) else if s.q.tail == Sleep then ClearReset(c) else Leave(c)
  {
  }

  lemma BegunAlone(s: State, c: Ctx) returns (s': State)
    requires Still(s) && c.InPass? && c.until == Null && c.len <= c.cap
    requires s.poller == if c.len < c.cap then DqLoad(c) else if s.q.tail == Sleep then ClearReset(c) else Leave(c)
    ensures Reaches(s, s') && PassDone(s, s', Data(s.q.chain), [], c.cap - c.len)
  {
    ListInOrder(s);
    if c.len < c.cap {
      s' := RestAlone(s, c, Data(s.q.chain), []);
    } else {
      s' := FullAlone(s, c);
      NothingLeft(s, s', Data(s.q.chain), [], 0);
    }
  }

  lemma FullAlone(s: State, c: Ctx) returns (s': State)
    requires Still(s) && c.InPass? && s.poller == (if s.q.tail == Sleep then ClearReset(c) else Leave(c))
    ensures Silently(s, s') && s'.poller == Outside && Data(s'.q.chain) == Data(s.q.chain)
  {
    if s.q.tail == Sleep {
      s' := ClearAlone(s, c);
    } else {
      s' := s;
      ReachesSelf(s);
    }
  }

  lemma SameStart(s: State, s1: State, s': State, todo: seq<nat>, back: seq<nat>, room: nat)
    requires PassDone(s1, s', todo, back, room) && s1.nodes == s.nodes && s1.events == s.events
    ensures PassDone(s, s', todo, back, room)
  {
    forall part
      ensures PassDid(s, s', todo, back, room, part)
    {
      assert PassDid(s1, s', todo, back, room, part);
    }
  }
}
