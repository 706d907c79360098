/** A run in which the destructor of the queue abandons a node: dropping the `Poll` does not give every reference
    back. */
module ReadinessLeak {
  import opened ReadinessWord
  import opened MarkerQueue
  import opened Readiness
  import opened ReadinessTheorems

  const TOKEN := 5

  /** Node 0, registered for readability, as a thread is about to push it. */
  const WORD := Word(READABLE, READABLE, EDGE, 0, 0, true, false)
  const PUSHED_NODE := FreshNode(Fresh(READABLE, EDGE), TOKEN, true, Shared).(word := WORD, unseen := true)

  /** Thread 1 is about to call `set_readiness` on node 0. */
  const CALLED :=
    INIT.(q := ResetLink(MarkerQueue.EMPTY, Node(0)),
          nodes := map[0 := FreshNode(Fresh(READABLE, EDGE), TOKEN, true, Shared)],
          threads := map[1 := SetLoad(0, 1, READABLE, Return)])

  /** Thread 1 runs `set_readiness` on node 0 and is about to push it. */
  const BEFORE_PUSH :=
    INIT.(q := ResetLink(MarkerQueue.EMPTY, Node(0)), nodes := map[0 := PUSHED_NODE.(slot := Pushing(1))],
          threads := map[1 := Push(0, 1, FromSet(Return), Reset)])

  /** It has loaded the head. */
  const BEFORE_SWAP :=
    BEFORE_PUSH.(q := ResetLink(BEFORE_PUSH.q, Node(0)), threads := map[1 := Push(0, 1, FromSet(Return), Swap(End))])

  /** It has swapped the head, and not yet linked the node. */
  const MID_LINK :=
    INIT.(q := SwapHead(ResetLink(ResetLink(MarkerQueue.EMPTY, Node(0)), Node(0)), Node(0), Producer(1)),
          nodes := map[0 := PUSHED_NODE.(slot := Listed)],
          threads := map[1 := Push(0, 1, FromSet(Return), Link(End))])

  /** The destructor is about to swap the head for the closed marker. */
  const CLOSING := MID_LINK.(q := ResetLink(MID_LINK.q, Closed), poller := PPush(Closed, Swap(Node(0)), ToDrain))

  /** The destructor has pushed the closed marker. */
  const CLOSED :=
    MID_LINK.(q := StoreLink(SwapHead(ResetLink(MID_LINK.q, Closed), Closed, Poller), Node(0), Closed),
              poller := DqLoad(InDrop))

  lemma InitReachable()
    ensures Reachable(INIT)
  {
    assert EndsRun(INIT, [INIT], []);
  }

  lemma CallBegins()
    ensures Reachable(CALLED)
  {
    InitReachable();
    var create := NewPriv(0, TOKEN, READABLE, EDGE);
    StepIsReachable(INIT, create);
    var s1 := Do(INIT, create);
    var call := CallSet(1, 0, 1, READABLE);
    StepIsReachable(s1, call);
    assert Do(s1, call) == CALLED;
  }

  lemma PushBegins()
    ensures Reachable(BEFORE_PUSH)
  {
    CallBegins();
    var s2 := CALLED;
    StepIsReachable(s2, StepThread(1));
    var s3 := Do(s2, StepThread(1));
    assert s3.threads[1] == SetSwap(0, 1, READABLE, Return, Fresh(READABLE, EDGE));
    StepIsReachable(s3, StepThread(1));
    var s4 := Do(s3, StepThread(1));
    assert WithReadiness(Fresh(READABLE, EDGE), READABLE) == WORD;
    assert s4.threads[1] == Route(0, 1, FromSet(Return));
    StepIsReachable(s4, StepThread(1));
    assert Do(s4, StepThread(1)).threads == BEFORE_PUSH.threads;
    assert Do(s4, StepThread(1)) == BEFORE_PUSH;
  }

  lemma PushLoadsHead()
    ensures Reachable(BEFORE_SWAP)
  {
    PushBegins();
    var s1 := BEFORE_PUSH;
    StepIsReachable(s1, StepThread(1));
    var s2 := Do(s1, StepThread(1));
    StepIsReachable(s2, StepThread(1));
    var s3 := Do(s2, StepThread(1));
    assert s3 == BEFORE_SWAP;
  }

  lemma PushStopsMidLink()
    ensures Reachable(MID_LINK)
  {
    PushLoadsHead();
    var s3 := BEFORE_SWAP;
    StepIsReachable(s3, StepThread(1));
    assert Do(s3, StepThread(1)).threads == MID_LINK.threads;
    assert Do(s3, StepThread(1)).nodes == MID_LINK.nodes;
    assert Do(s3, StepThread(1)) == MID_LINK;
  }

  lemma DestructorBegins()
    ensures Reachable(CLOSING)
  {
    PollIsDropped();
    var s2 := MID_LINK.(poller := PPush(Closed, Reset, ToDrain));
    StepIsReachable(s2, StepPoller);
    var s3 := Do(s2, StepPoller);
    StepIsReachable(s3, StepPoller);
    assert Do(s3, StepPoller) == CLOSING;
  }

  lemma PollIsDropped()
    ensures Reachable(MID_LINK.(poller := PPush(Closed, Reset, ToDrain)))
  {
    PushStopsMidLink();
    StepIsReachable(MID_LINK, DropPoll);
  }

  lemma DestructorCloses()
    ensures Reachable(CLOSED)
  {
    DestructorBegins();
    StepIsReachable(CLOSING, StepPoller);
    var s5 := Do(CLOSING, StepPoller);
    assert s5.nodes == MID_LINK.nodes;
    StepIsReachable(s5, StepPoller);
    assert Do(s5, StepPoller) == CLOSED;
  }

  /** The destructor can end with a node in the queue whose reference it never gives back. */
  lemma DestructorLeaks()
    ensures exists s ::
              Reachable(s) && s.poller == Dead && 0 in s.nodes && Node(0) in s.q.chain && s.nodes[0].qref.Held?
  {
    DestructorCloses();
    StepIsReachable(CLOSED, StepPoller);
    ClosedIsDead();
  }

  lemma ClosedIsDead()
    ensures Enabled(CLOSED, StepPoller)
    ensures var s := Do(CLOSED, StepPoller);
            s.poller == Dead && 0 in s.nodes && Node(0) in s.q.chain && s.nodes[0].qref.Held?
  {
    var s := Do(CLOSED, StepPoller);
    assert s.q.chain == [End, Node(0), Closed];
    assert s.q.chain[1] == Node(0);
  }
}
