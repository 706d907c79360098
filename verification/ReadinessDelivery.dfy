/** What reaches the batch: tokens, readiness, level-triggered nodes; and the source's own assertions. */
module ReadinessDelivery {
  import opened ReadinessWord
  import opened MarkerQueue
  import opened Options
  import opened Readiness
  import opened ReadinessInvariant
  import opened ReadinessThreads
  import opened ReadinessPoller
  import opened ReadinessTheorems

  // ---------- tokens ----------

  /** A thread's compare-exchange on node `n`'s word, in `set_readiness` or `update`, is about to succeed. */
  predicate Installs(s: State, l: Label, n: nat) {
    && l.StepThread? && Runs(s, l.t) && s.threads[l.t].n == n
    && var pc := s.threads[l.t];
       (pc.SetSwap? && !pc.seen.dropped && s.nodes[n].word == pc.seen) || (pc.UpdSwap? && s.nodes[n].word == pc.seen)
  }

  predicate Updating(s: State, l: Label, n: nat) {
    Installs(s, l, n) && s.threads[l.t].UpdSwap?
  }

  /** What the compare-exchange of an `update` leaves. */
  function Registered(word: Word, pc: Pc): Word
    requires pc.UpdSwap?
  {
    WithRegistration(word, pc.pos, pc.args.interest, pc.args.opt)
  }

  /** A step changes a node's word, its write position or its current token only in the ways listed. */
  lemma WordChanges(s: State, l: Label, n: nat)
    requires Reachable(s) && Enabled(s, l) && n in s.nodes && n in Do(s, l).nodes
    ensures var node := s.nodes[n]; var node' := Do(s, l).nodes[n];
            && (Updating(s, l, n) ==> node'.current == s.threads[l.t].args.token
                                      && node'.word == Registered(node.word, s.threads[l.t]))
            && (!Updating(s, l, n) ==> node'.current == node.current && node'.word.wr == node.word.wr)
            && (Installs(s, l, n) && !Updating(s, l, n) ==>
                  node'.word == WithReadiness(node.word, s.threads[l.t].ready))
            && (Acts(s, l, n) ==> node'.word == AfterPoll(node.word))
            && (!Installs(s, l, n) && !Acts(s, l, n) ==>
                  node'.word == node.word || node'.word == FlaggedDropped(node.word))
  {
    ReachableIsSafe(s);
    if l.StepThread? {
      ThreadWordChanges(s, l, n);
    } else if l.StepPoller? {
      PollerWordChanges(s, l, n);
    } else {
      CallsKeepWord(s, l, n);
    }
  }

  lemma CallsKeepWord(s: State, l: Label, n: nat)
    requires Enabled(s, l) && !l.StepThread? && !l.StepPoller? && n in s.nodes && n in Do(s, l).nodes
    ensures Do(s, l).nodes[n].word == s.nodes[n].word && Do(s, l).nodes[n].current == s.nodes[n].current
  {
  }

  lemma ThreadWordChanges(s: State, l: Label, n: nat)
    requires l.StepThread? && Runs(s, l.t) && n in s.nodes && n in ThreadStep(s, l.t).nodes
    ensures var node := s.nodes[n]; var node' := ThreadStep(s, l.t).nodes[n];
            && (Updating(s, l, n) ==> node'.current == s.threads[l.t].args.token
                                      && node'.word == Registered(node.word, s.threads[l.t]))
            && (!Updating(s, l, n) ==> node'.current == node.current && node'.word.wr == node.word.wr)
            && (Installs(s, l, n) && !Updating(s, l, n) ==>
                  node'.word == WithReadiness(node.word, s.threads[l.t].ready))
            && (!Installs(s, l, n) ==> node'.word == node.word || node'.word == FlaggedDropped(node.word))
  {
    var pc := s.threads[l.t];
    if IsLocal(pc) {
      LocalWordChanges(s.nodes[pc.n], l.t, pc);
    } else if pc.Push? {
      PushKeeps(s, ThreadStep(s, l.t), l.t, n);
    } else {
      ReleaseKeeps(s, ThreadStep(s, l.t), l.t, n);
    }
  }

  lemma ReleaseKeeps(s: State, s': State, t: nat, n: nat)
    requires Runs(s, t) && (s.threads[t].GiveBack? || s.threads[t].Wake? || s.threads[t].Release?)
    requires n in s.nodes && s' == ReleaseStep(s, t) && n in s'.nodes
    ensures s'.nodes[n].word == s.nodes[n].word && s'.nodes[n].current == s.nodes[n].current
    ensures s'.nodes[n].unseen == s.nodes[n].unseen
  {
  }

  lemma LocalWordChanges(node: ReadinessNode, t: nat, pc: Pc)
    requires IsLocal(pc)
    ensures var node' := LocalStep(node, t, pc).node;
            if pc.SetSwap? && !pc.seen.dropped && node.word == pc.seen then
              node'.word == WithReadiness(node.word, pc.ready) && node'.current == node.current
            else if pc.UpdSwap? && node.word == pc.seen then
              node'.word == WithRegistration(node.word, pc.pos, pc.args.interest, pc.args.opt)
              && node'.current == pc.args.token
            else node'.current == node.current && (node'.word == node.word || node'.word == FlaggedDropped(node.word))
  {
  }

  lemma PollerWordChanges(s: State, l: Label, n: nat)
    requires Safe(s) && l.StepPoller? && Enabled(s, l) && n in s.nodes && n in StepOfPoller(s).nodes
    ensures var node := s.nodes[n]; var node' := StepOfPoller(s).nodes[n];
            && node'.current == node.current && node'.word.wr == node.word.wr
            && (Acts(s, l, n) ==> node'.word == AfterPoll(node.word))
            && (!Acts(s, l, n) ==> node'.word == node.word)
  {
    PollerChangesNode(s, n);
  }

  /** The token the poller is committed to deliver, once it has seen a state of node `n`. */
  function Wanted(pc: PollerPc): Option<(nat, int)> {
    match pc
    case NodeSwap(n, _, want, _) => Some((n, want))
    case Deliver(n, _, _, want, _) => Some((n, want))
    case PPush(_, _, after) => if after.ToDeliver? then Some((after.n, after.want)) else None
    case _ => None
  }

  /** The poller commits to the token of the last `update` at the moment of the read or of the successful
      compare-exchange whose state it acts on, and keeps to it. */
  lemma TokenCommitted(s: State, l: Label, n: nat, want: int)
    requires Reachable(s) && Enabled(s, l) && Wanted(Do(s, l).poller) == Some((n, want))
    ensures Wanted(s.poller) == Some((n, want)) || (l.StepPoller? && n in s.nodes && want == s.nodes[n].current)
    ensures Acts(s, l, n) ==> want == s.nodes[n].current
    ensures Do(s, l).poller.NodeSwap? && Do(s, l).poller != s.poller ==> Do(s, l).poller.seen == s.nodes[n].word
  {
    if l.StepPoller? {
      if s.poller.PPush? {
        PushCommits(s, Do(s, l));
      } else if NodeReady(s) {
        TurnCommits(s, Do(s, l), n, want);
      } else if s.poller.PrepTail? || s.poller.PrepSwap? || s.poller.Drain? {
      } else {
        DequeueCommits(s, Do(s, l));
      }
    }
  }

  lemma PushCommits(s: State, s': State)
    requires s.poller.PPush? && s' == PollerPushStep(s)
    ensures Wanted(s'.poller) == Wanted(s.poller) || Wanted(s'.poller).None?
    ensures !s'.poller.NodeSwap?
  {
  }

  lemma DequeueCommits(s: State, s': State)
    requires s.poller.DqLoad? || s.poller.DqMarker? || s.poller.DqHead? || s.poller.DqRetry?
             || s.poller.ClearReset? || s.poller.ClearSwap?
    requires s' == DequeueStep(s)
    ensures Wanted(s'.poller).None?
  {
    if s.poller.DqLoad? {
      LoadCommits(s, s');
    }
  }

  lemma LoadCommits(s: State, s': State)
    requires s.poller.DqLoad? && s' == DequeueStep(s)
    ensures Wanted(s'.poller).None?
  {
  }

  lemma TurnCommits(s: State, s': State, n: nat, want: int)
    requires NodeReady(s) && s' == NodeStep(s) && Wanted(s'.poller) == Some((n, want))
    ensures Wanted(s.poller) == Some((n, want)) || (n in s.nodes && want == s.nodes[n].current)
    ensures Acts(s, StepPoller, n) ==> want == s.nodes[n].current
    ensures s'.poller.NodeSwap? && s'.poller != s.poller ==> s'.poller.seen == s.nodes[n].word
  {
    if s.poller.NodeSwap? {
      SwapCommits(s, s', n, want);
    }
  }

  lemma SwapCommits(s: State, s': State, n: nat, want: int)
    requires NodeReady(s) && s.poller.NodeSwap? && s' == NodeStep(s) && Wanted(s'.poller) == Some((n, want))
    ensures Wanted(s.poller) == Some((n, want)) || (n in s.nodes && want == s.nodes[n].current)
    ensures Acts(s, StepPoller, n) ==> want == s.nodes[n].current
    ensures s'.poller.NodeSwap? && s'.poller != s.poller ==> s'.poller.seen == s.nodes[n].word
  {
    SwapResult(s, s', s.poller.c);
  }

  /** Where the poller goes from its look at a node's word. */
  lemma SwapResult(s: State, s': State, c: Ctx)
    requires NodeReady(s) && s.poller.NodeSwap? && s.poller.c == c && s' == NodeStep(s)
    ensures s'.events == s.events
    ensures var n := s.poller.n; var seen := s.poller.seen; var node := s.nodes[n];
            || (s'.poller == Again(c) && seen.dropped)
            || (s'.poller == NodeSwap(n, node.word, node.current, c) && !Acts(s, StepPoller, n))
            || (s'.poller == Proceed(n, seen, s.poller.want, c) && !Acts(s, StepPoller, n))
            || (s'.poller == Proceed(n, seen, node.current, c) && Acts(s, StepPoller, n))
  {
  }

  /** The entry pushed to the batch carries that token, although `update` may have run since. */
  lemma TokenDelivered(s: State)
    requires Reachable(s) && s.poller.Deliver? && s.poller.ready != 0
    ensures Enabled(s, StepPoller)
    ensures Do(s, StepPoller).events
            == s.events + [Event(s.poller.n, s.poller.ready, s.poller.want, s.nodes[s.poller.n].job)]
  {
    ReachableIsSafe(s);
    assert Holds(s, ThePoller);
  }

  /** The slot `update` writes a token to is neither the one in use nor any the poller may be about to read. */
  lemma WriterAvoidsReader(s: State, t: nat)
    requires Reachable(s) && t in s.threads && s.threads[t].UpdToken?
    ensures var pc := s.threads[t];
            && PositionsOk(pc.seen) && pc.n in s.nodes
            && var pos := NextTokenPos(pc.seen); var node := s.nodes[pc.n];
               && pos != node.word.wr && pos != node.word.rd
               && (s.poller.Deliver? && s.poller.n == pc.n ==> s.poller.pos != pos)
               && (s.poller.PPush? && s.poller.after.ToDeliver? && s.poller.after.n == pc.n ==>
                     s.poller.after.pos != pos)
               && (s.poller.NodeSwap? && s.poller.n == pc.n ==> s.poller.seen.rd != pos)
  {
    ReachableIsSafe(s);
    SafeThread(s, t);
    assert Holds(s, ThePoller);
  }

  /** Positions stay in range, and only the holder of `update_lock` moves the write position. */
  lemma WritePositionUnderLock(s: State, l: Label, n: nat)
    requires Reachable(s) && Enabled(s, l) && n in s.nodes && n in Do(s, l).nodes
    ensures PositionsOk(s.nodes[n].word)
    ensures Do(s, l).nodes[n].word.wr != s.nodes[n].word.wr ==>
              Updating(s, l, n) && s.nodes[n].locked && s.nodes[n].holder == l.t
  {
    ReachableIsSafe(s);
    SafeNode(s, n);
    WordChanges(s, l, n);
    if Updating(s, l, n) {
      SafeThread(s, l.t);
    }
  }

  // ---------- readiness ----------

  /** A level-triggered node with effective readiness is queued until it is dropped. */
  lemma LevelStaysQueued(s: State, n: nat)
    requires Reachable(s) && n in s.nodes
    requires !s.nodes[n].word.dropped && !IsEdge(s.nodes[n].word) && Signals(s.nodes[n].word)
    ensures s.nodes[n].word.queued
  {
    ReachableIsSafe(s);
    SafeNode(s, n);
  }

  /** Readiness signalled since the poller last acted on the node. */
  predicate Unseen(s: State, n: nat) {
    n in s.nodes && s.nodes[n].unseen
  }

  /** A successful compare-exchange of a producer that leaves effective readiness leaves the node queued and its
      readiness unseen; unseen readiness stays, and keeps the node queued, until a producer takes it back or the
      poller acts on that very word and is bound to deliver its effective readiness, or the node is freed. */
  lemma NoLostReadiness(s: State, l: Label, n: nat)
    requires Reachable(s) && Enabled(s, l) && n in s.nodes && n in Do(s, l).nodes
    ensures Installs(s, l, n) && Signals(Do(s, l).nodes[n].word) ==>
              Do(s, l).nodes[n].word.queued && Unseen(Do(s, l), n)
    ensures Unseen(s, n) ==> s.nodes[n].word.queued && Signals(s.nodes[n].word)
    ensures Unseen(s, n) && !Unseen(Do(s, l), n) ==>
              || (Installs(s, l, n) && !Signals(Do(s, l).nodes[n].word))
              || (Acts(s, l, n) && WillDeliver(Do(s, l).poller, n, Effective(s.nodes[n].word)))
  {
    ReachableIsSafe(s);
    SafeNode(s, n);
    if l.StepThread? {
      ThreadUnseen(s, l, n);
    } else if l.StepPoller? {
      PollerUnseen(s, l, n);
    }
  }

  /** A node that has been signalled and not yet been acted on keeps the poller from sleeping: while the poller is
      blocked, the pipe holds a byte, or a thread will write one, or the node itself is on its way into the queue. */
  lemma SignalReachesPoller(s: State, n: nat)
    requires Reachable(s) && s.poller == Select(true)
    requires Unseen(s, n) && !s.nodes[n].qref.Released?
    ensures || s.pipe
            || (exists t ::
                  t in s.threads && (s.threads[t].Wake? || (s.threads[t].Push? && s.threads[t].phase == Link(Sleep))))
            || (exists t :: Carries(s, t, n))
  {
    ReachableIsSafe(s);
    SafeNode(s, n);
    QueuedBitIsOneSlot(s, n);
    if Node(n) in s.q.chain {
      if s.q.head == Sleep {
        SleepsOnEmptyQueue(s);
        assert false;
      }
      NoLostWakeup(s);
    }
  }

  predicate WillDeliver(pc: PollerPc, n: nat, ready: Bits4) {
    || (pc.Deliver? && pc.n == n && pc.ready == ready)
    || (pc.PPush? && pc.after.ToDeliver? && pc.after.n == n && pc.after.ready == ready)
  }

  lemma ThreadUnseen(s: State, l: Label, n: nat)
    requires l.StepThread? && Runs(s, l.t) && n in s.nodes && n in ThreadStep(s, l.t).nodes
    ensures Installs(s, l, n) ==> ThreadStep(s, l.t).nodes[n].unseen == Signals(ThreadStep(s, l.t).nodes[n].word)
    ensures Installs(s, l, n) && Signals(ThreadStep(s, l.t).nodes[n].word) ==> ThreadStep(s, l.t).nodes[n].word.queued
    ensures !Installs(s, l, n) ==> ThreadStep(s, l.t).nodes[n].unseen == s.nodes[n].unseen
  {
    var pc := s.threads[l.t];
    if pc.Push? {
      PushKeeps(s, ThreadStep(s, l.t), l.t, n);
    } else if !IsLocal(pc) {
      ReleaseKeeps(s, ThreadStep(s, l.t), l.t, n);
    }
  }

  lemma PollerUnseen(s: State, l: Label, n: nat)
    requires Safe(s) && l.StepPoller? && Enabled(s, l) && n in s.nodes && n in StepOfPoller(s).nodes
    ensures Acts(s, l, n) ==> WillDeliver(StepOfPoller(s).poller, n, Effective(s.nodes[n].word))
    ensures !Acts(s, l, n) ==> StepOfPoller(s).nodes[n].unseen == s.nodes[n].unseen
  {
    PollerChangesNode(s, n);
  }

  /** The queued bit is cleared only by the poller acting on that very word, of an edge-triggered node or of one
      without effective readiness; and acting on an armed edge-and-oneshot node clears its interest. */
  lemma QueuedClearedByPoller(s: State, l: Label, n: nat)
    requires Reachable(s) && Enabled(s, l) && n in s.nodes && n in Do(s, l).nodes
    ensures s.nodes[n].word.queued && !Do(s, l).nodes[n].word.queued ==>
              Acts(s, l, n) && (IsEdge(s.nodes[n].word) || !Signals(s.nodes[n].word))
    ensures Acts(s, l, n) && IsEdge(s.nodes[n].word) && IsOneshot(s.nodes[n].word) && Signals(s.nodes[n].word) ==>
              Do(s, l).nodes[n].word.interest == 0
    ensures s.nodes[n].word.interest == 0 && !Updating(s, l, n) ==> Do(s, l).nodes[n].word.interest == 0
  {
    WordChanges(s, l, n);
    if Installs(s, l, n) {
      ReachableIsSafe(s);
      SafeThread(s, l.t);
    }
  }

  // ---------- one pass ----------

  function CtxOf(pc: PollerPc): Option<Ctx> {
    match pc
    case DqLoad(c) => Some(c)
    case DqMarker(c) => Some(c)
    case DqHead(c) => Some(c)
    case DqRetry(c) => Some(c)
    case NodeLoad(_, c) => Some(c)
    case NodeSwap(_, _, _, c) => Some(c)
    case Deliver(_, _, _, _, c) => Some(c)
    case PPush(_, _, after) => if after.ToDrain? then None else Some(after.c)
    case _ => None
  }

  predicate InThePass(pc: PollerPc) {
    CtxOf(pc).Some? && CtxOf(pc).value.InPass?
  }

  /** A node that a pass has put back is not handed out again in that pass, whatever the producers do; every node put
      back is remembered to the end of the pass; and the batch never outgrows its capacity. */
  lemma RequeuedOncePerPass(s: State, l: Label)
    requires Reachable(s) && Enabled(s, l)
    ensures s.poller.NodeLoad? ==>
              InThePass(s.poller) && s.poller.p.Node? && s.poller.p.id !in CtxOf(s.poller).value.requeued
    ensures s.poller.PPush? && s.poller.p.Node? ==>
              InThePass(s.poller) && s.poller.p.id in CtxOf(s.poller).value.requeued
    ensures InThePass(s.poller) && InThePass(Do(s, l).poller) ==>
              var c, c' := CtxOf(s.poller).value, CtxOf(Do(s, l).poller).value;
              c.requeued <= c'.requeued && c'.cap == c.cap && c'.len - c.len == |Do(s, l).events| - |s.events|
    ensures InThePass(s.poller) ==> CtxOf(s.poller).value.len < CtxOf(s.poller).value.cap
    ensures !InThePass(s.poller) ==> Do(s, l).events == s.events
    ensures |Do(s, l).events| <= |s.events| + 1
  {
    ReachableIsSafe(s);
    assert Holds(s, ThePoller);
    InThePassIsInPass(s);
    if l.StepPoller? {
      PollerPass(s);
    } else {
      ChoicePass(s, l);
    }
  }

  lemma InThePassIsInPass(s: State)
    requires PollerOk(s)
    ensures s.poller.NodeLoad? ==>
              InThePass(s.poller) && s.poller.p.Node? && s.poller.p.id !in CtxOf(s.poller).value.requeued
    ensures s.poller.PPush? && s.poller.p.Node? ==>
              InThePass(s.poller) && s.poller.p.id in CtxOf(s.poller).value.requeued
    ensures InThePass(s.poller) ==> CtxOf(s.poller).value.len < CtxOf(s.poller).value.cap
    ensures s.poller.NodeSwap? || s.poller.Deliver? ==> InThePass(s.poller)
  {
  }

  /** One step of a pass, or outside one. */
  ghost predicate PassMove(s: State, s': State) {
    && (InThePass(s.poller) && InThePass(s'.poller) ==>
          var c, c' := CtxOf(s.poller).value, CtxOf(s'.poller).value;
          c.requeued <= c'.requeued && c'.cap == c.cap && c'.len - c.len == |s'.events| - |s.events|)
    && (!InThePass(s.poller) ==> s'.events == s.events)
    && |s'.events| <= |s.events| + 1
  }

  lemma ChoicePass(s: State, l: Label)
    requires Enabled(s, l) && !l.StepPoller?
    ensures PassMove(s, Do(s, l))
  {
  }

  lemma PollerPass(s: State)
    requires Enabled(s, StepPoller)
             && (s.poller.NodeLoad? || s.poller.NodeSwap? || s.poller.Deliver? ==> InThePass(s.poller))
    ensures PassMove(s, StepOfPoller(s))
  {
    if s.poller.PPush? {
      PushPass(s, StepOfPoller(s));
    } else if s.poller.NodeLoad? || s.poller.NodeSwap? || s.poller.Deliver? {
      TurnPass(s, StepOfPoller(s));
    } else if !s.poller.PrepTail? && !s.poller.PrepSwap? && !s.poller.Drain? {
      DequeuePass(s, StepOfPoller(s));
    }
  }

  lemma PushPass(s: State, s': State)
    requires s.poller.PPush? && s' == PollerPushStep(s)
    ensures PassMove(s, s')
  {
    if s.poller.phase.Swap? {
      PushSwapPass(s, s');
    }
  }

  lemma PushSwapPass(s: State, s': State)
    requires s.poller.PPush? && s.poller.phase.Swap? && s' == PollerPushStep(s)
    ensures PassMove(s, s')
  {
  }

  lemma TurnPass(s: State, s': State)
    requires NodeReady(s) && InThePass(s.poller) && s' == NodeStep(s)
    ensures PassMove(s, s')
  {
    if s.poller.NodeSwap? {
      SwapPass(s, s');
    }
  }

  lemma SwapPass(s: State, s': State)
    requires NodeReady(s) && s.poller.NodeSwap? && InThePass(s.poller) && s' == NodeStep(s)
    ensures PassMove(s, s')
  {
    SwapResult(s, s', s.poller.c);
  }

  lemma DequeuePass(s: State, s': State)
    requires s.poller.DqLoad? || s.poller.DqMarker? || s.poller.DqHead? || s.poller.DqRetry?
             || s.poller.ClearReset? || s.poller.ClearSwap?
    requires s' == DequeueStep(s)
    ensures PassMove(s, s')
  {
  }

  // ---------- the source's assertions ----------

  /** The `debug_assert!`s and `unreachable!`s of src/poll.rs on the lines named below hold whenever they are evaluated.
      Of the others, lines 65 and 66 can fail (`ReadinessWord.NewKeepsItsArguments`), and lines 826 and 849 compare the
      sizes of two types, and a pointer with itself. */
  lemma AssertionsHold(s: State)
    requires Reachable(s)
    ensures forall t :: t in s.threads ==> ThreadAsserts(s, t)
    ensures PollerAsserts(s)
  {
    ReachableIsSafe(s);
    forall t | t in s.threads
      ensures ThreadAsserts(s, t)
    {
      ThreadAssertsHold(s, t);
    }
    PollerAssertsHold(s);
  }

  ghost predicate ThreadAsserts(s: State, t: nat)
    requires t in s.threads
  {
    var pc := s.threads[t];
    && pc.n in s.nodes
    && var node := s.nodes[pc.n];
       && (pc.GiveBack? ==> node.refs >= 2)                                     // line 336
       && (pc.Push? ==> node.bound)                                             // line 232
       && (pc.Push? && pc.phase.Link? ==> s.q.Next(pc.phase.prev) == Null)      // line 348
       && (pc.DropFlag? ==> !node.word.dropped)                                 // line 208
       && (pc.UpdLoad? ==> node.word.wr != 3)                                   // line 425
       && (pc.UpdToken? ==> PositionsOk(pc.seen))                               // lines 140, 148, 156, 159, 867
       && (Updates(pc) ==> !node.word.dropped)                                  // lines 111, 872
       && (pc.UpdSwap? ==> node.word.wr == pc.base)                             // line 883
  }

  ghost predicate PollerAsserts(s: State) {
    match s.poller
    case PrepSwap =>                                                            // lines 523-527, 533
      && s.q.head != Sleep
      && (s.q.head == End ==> s.q.tail == End && s.q.Next(End) == Null)
    case ClearSwap(_) => s.q.head != End                                        // lines 367, 371
    case PPush(p, Swap(prev), _) => prev == Closed ==> p == End                 // lines 333-336
    case PPush(_, Link(prev), _) => s.q.Next(prev) == Null                      // line 348
    case NodeSwap(_, seen, _, _) => seen.queued                                 // lines 115, 468
    case Deliver(_, _, pos, _, _) => pos != 3                                   // line 425
    case Drain(p) => p.Node? && p.id in s.nodes && s.nodes[p.id].word.queued    // line 553
    case _ => true
  }

  lemma OwedIsNull(q: Queue, prev: Ptr)
    requires MarkerQueue.Inv(q) && prev in q.owed
    ensures q.Next(prev) == Null
  {
    var i :| 0 <= i < |q.chain| && q.chain[i] == prev;
    assert LinkAt(q, i);
  }

  lemma ThreadAssertsHold(s: State, t: nat)
    requires Safe(s) && t in s.threads
    ensures ThreadAsserts(s, t)
  {
    var pc := s.threads[t];
    SafeThread(s, t);
    SafeIsHere(s, t);
    if pc.GiveBack? {
      assert Holds(s, ThePoller);
      ClosedMeansClosing(s);
      QueueRefCounted(s, pc.n);
      GivenBackNode(s.q, s.nodes[pc.n], t, pc);
    } else if pc.Push? && pc.phase.Link? {
      assert Holds(s, TheQueue);
      OwedIsNull(s.q, pc.phase.prev);
    }
  }

  lemma PollerAssertsHold(s: State)
    requires Safe(s)
    ensures PollerAsserts(s)
  {
    assert Holds(s, TheQueue) && Holds(s, ThePoller);
    match s.poller
    case PrepSwap => assert s.q.head in s.q.chain;
    case ClearSwap(_) => assert s.q.head in s.q.chain;
    case PPush(p, Swap(prev), after) =>
      if prev == Closed {
        PollerFindsClosed(s, p, after);
      }
    case PPush(p, Link(prev), after) => OwedIsNull(s.q, prev);
    case Drain(p) => SafeNode(s, p.id);
    case Deliver(n, _, _, _, _) => SafeNode(s, n);
    case _ =>
  }
}
