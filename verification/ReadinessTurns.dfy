/** What the poller makes of a node (src/poll.rs:461-503), over whole runs: every event it pushes was true of the node
    while the poller had it in hand, and what it leaves in the word is what the next call finds. */
module ReadinessTurns {
  import opened ReadinessWord
  import opened MarkerQueue
  import opened Readiness
  import opened ReadinessInvariant
  import opened ReadinessTheorems
  import opened ReadinessDelivery
  import opened ReadinessBatch

  // ---------- one turn ----------

  /** The poller has decided on what to report of node `n`: it reads the token at `pos` next, or puts the node back
      first. */
  predicate Reports(pc: PollerPc, n: nat, ready: Bits4, pos: Bits2) {
    || (pc.Deliver? && pc.n == n && pc.ready == ready && pc.pos == pos)
    || (pc.PPush? && pc.after.ToDeliver? && pc.after.n == n && pc.after.ready == ready && pc.after.pos == pos)
  }

  /** The poller loads the word. */
  lemma TurnLoads(s: State, n: nat)
    requires Reachable(s) && Enabled(s, StepPoller) && s.poller.NodeLoad? && s.poller.p == Node(n)
    ensures var s' := StepOfPoller(s);
            && s'.poller.NodeSwap? && s'.poller.n == n && s'.poller.seen == s.nodes[n].word
            && s'.nodes == s.nodes && s'.events == s.events
  {
  }

  /** The poller looks again at a word that has changed; or it reports exactly the bits of readiness that the interest
      asks for, with the token of the last write position, and leaves a polled word behind. The node goes back if it is
      level-triggered and has something to report. */
  ghost predicate Decides(s: State, s': State, n: nat, seen: Word)
    requires n in s.nodes
  {
    && n in s'.nodes && s'.events == s.events
    && if s'.poller.NodeSwap? then
         && s.nodes[n].word != seen && !HasPolled(seen, seen)
         && s'.poller.n == n && s'.poller.seen == s.nodes[n].word && s'.nodes == s.nodes
       else
         && ReportsCommon(s'.poller, n, seen)
         && (s'.poller.PPush? <==> seen.opt & 1 == 0 && seen.readiness & seen.interest != 0)
         && (if HasPolled(seen, seen) then s'.nodes == s.nodes
             else s.nodes[n].word == seen && HasPolled(seen, s'.nodes[n].word))
  }

  ghost predicate ReportsCommon(pc: PollerPc, n: nat, w: Word) {
    exists ready: Bits4 :: IsCommon(ready, w.readiness, w.interest) && Reports(pc, n, ready, w.wr)
  }

  /** What a turn decides by the word it has seen, if that is not dropped. */
  lemma TurnDecides(s: State, n: nat)
    requires Reachable(s) && Enabled(s, StepPoller) && s.poller.NodeSwap? && s.poller.n == n && !s.poller.seen.dropped
    ensures n in s.nodes && Decides(s, StepOfPoller(s), n, s.poller.seen)
  {
    ReachableIsSafe(s);
    assert Holds(s, ThePoller);
    TurnStep(s, StepOfPoller(s), n, s.poller.seen, s.poller.want, s.poller.c);
    TurnMeans(s, StepOfPoller(s), n, s.poller.seen);
  }

  lemma TurnMeans(s: State, s': State, n: nat, seen: Word)
    requires seen.queued && n in s.nodes && TurnTaken(s, s', n, seen)
    ensures Decides(s, s', n, seen)
  {
    AfterPollMeans(seen, seen);
    AfterPollMeans(seen, AfterPoll(seen));
    EffectiveIsCommon(seen, Effective(seen));
    if !s'.poller.NodeSwap? {
      assert Reports(s'.poller, n, Effective(seen), seen.wr);
    }
  }

  ghost predicate TurnTaken(s: State, s': State, n: nat, seen: Word)
    requires n in s.nodes
  {
    && n in s'.nodes && s'.events == s.events
    && (if AfterPoll(seen) == seen || s.nodes[n].word != seen then s'.nodes == s.nodes
        else s'.nodes[n].word == AfterPoll(seen))
    && (if AfterPoll(seen) != seen && s.nodes[n].word != seen then
          s'.poller.NodeSwap? && s'.poller.n == n && s'.poller.seen == s.nodes[n].word
        else
          && Reports(s'.poller, n, Effective(seen), seen.wr) && !s'.poller.NodeSwap?
          && (s'.poller.PPush? <==> AfterPoll(seen).queued))
  }

  lemma TurnStep(s: State, s': State, n: nat, seen: Word, want: int, c: Ctx)
    requires s.poller == NodeSwap(n, seen, want, c) && NodeReady(s) && s' == NodeStep(s) && !seen.dropped
    ensures TurnTaken(s, s', n, seen)
  {
    AfterPollReads(seen);
  }

  lemma AfterPollReads(w: Word)
    ensures AfterPoll(w).rd == w.wr
  {
    AfterPollMeans(w, AfterPoll(w));
  }

  // ---------- events of whole runs ----------

  /** From `m` to `i` the poller has node `n` in hand. */
  ghost predicate InHandSince(states: seq<State>, n: nat, m: nat, i: nat) {
    m <= i < |states| && forall k :: m <= k <= i ==> PollerUses(states[k].poller, n)
  }

  /** At `m` the word was `w`, and the poller has had the node in hand ever since. */
  ghost predicate WasWord(states: seq<State>, n: nat, w: Word, i: nat) {
    exists m :: 0 <= m <= i && WordAt(states, n, w, m, i)
  }

  ghost predicate WordAt(states: seq<State>, n: nat, w: Word, m: nat, i: nat) {
    InHandSince(states, n, m, i) && n in states[m].nodes && states[m].nodes[n].word == w
  }

  /** The readiness was what the node signalled, undropped, at some time since the poller has had it in hand. */
  ghost predicate WasSignalled(states: seq<State>, n: nat, ready: Bits4, i: nat) {
    exists w :: WasWord(states, n, w, i) && !w.dropped && IsCommon(ready, w.readiness, w.interest)
  }

  lemma StillWord(states: seq<State>, n: nat, w: Word, i: nat)
    requires WasWord(states, n, w, i) && i + 1 < |states| && PollerUses(states[i + 1].poller, n)
    ensures WasWord(states, n, w, i + 1)
  {
    var m :| 0 <= m <= i && WordAt(states, n, w, m, i);
    assert WordAt(states, n, w, m, i + 1);
  }

  lemma StillSignalled(states: seq<State>, n: nat, ready: Bits4, i: nat)
    requires WasSignalled(states, n, ready, i) && i + 1 < |states| && PollerUses(states[i + 1].poller, n)
    ensures WasSignalled(states, n, ready, i + 1)
  {
    var w :| WasWord(states, n, w, i) && !w.dropped && IsCommon(ready, w.readiness, w.interest);
    StillWord(states, n, w, i);
  }

  /** What the poller has seen, and what it will report, was so. */
  ghost predicate Truthful(states: seq<State>, i: nat)
    requires i < |states|
  {
    match states[i].poller
    case NodeSwap(n, seen, _, _) => WasWord(states, n, seen, i)
    case Deliver(n, ready, _, _, _) => WasSignalled(states, n, ready, i)
    case PPush(_, _, after) => after.ToDeliver? ==> WasSignalled(states, after.n, after.ready, i)
    case _ => true
  }

  lemma {:induction false} PollerIsTruthful(states: seq<State>, labels: seq<Label>, i: nat)
    requires Run(states, labels) && i < |states|
    ensures Truthful(states, i)
  {
    if i > 0 {
      PollerIsTruthful(states, labels, i - 1);
      StaysTruthful(states, labels, i - 1);
    }
  }

  lemma StaysTruthful(states: seq<State>, labels: seq<Label>, i: nat)
    requires Run(states, labels) && i < |labels| && Truthful(states, i)
    ensures Truthful(states, i + 1)
  {
    var s, l := states[i], labels[i];
    assert Enabled(s, l) && states[i + 1] == Do(s, l);
    RunReaches(states, labels, i);
    if l.StepPoller? {
      if s.poller.NodeLoad? {
        LoadIsTruthful(states, labels, i);
      } else if s.poller.NodeSwap? && !s.poller.seen.dropped {
        SwapIsTruthful(states, labels, i);
      } else {
        PushIsTruthful(states, labels, i);
      }
    } else {
      OthersLeavePoller(s, l);
      SamePollerIsTruthful(states, i);
    }
  }

  lemma OthersLeavePoller(s: State, l: Label)
    requires Enabled(s, l) && !l.StepPoller?
    ensures Do(s, l).poller == s.poller || (!Do(s, l).poller.NodeSwap? && !Do(s, l).poller.Deliver?
                                            && (Do(s, l).poller.PPush? ==> !Do(s, l).poller.after.ToDeliver?))
  {
  }

  lemma SamePollerIsTruthful(states: seq<State>, i: nat)
    requires i + 1 < |states| && Truthful(states, i)
    requires var pc, pc' := states[i].poller, states[i + 1].poller;
             pc' == pc || (!pc'.NodeSwap? && !pc'.Deliver? && (pc'.PPush? ==> !pc'.after.ToDeliver?))
    ensures Truthful(states, i + 1)
  {
    match states[i + 1].poller
    case NodeSwap(n, seen, _, _) => StillWord(states, n, seen, i);
    case Deliver(n, ready, _, _, _) => StillSignalled(states, n, ready, i);
    case PPush(_, _, after) =>
      if after.ToDeliver? {
        StillSignalled(states, after.n, after.ready, i);
      }
    case _ =>
  }

  lemma LoadIsTruthful(states: seq<State>, labels: seq<Label>, i: nat)
    requires Run(states, labels) && i < |labels| && labels[i].StepPoller? && states[i].poller.NodeLoad?
    ensures Truthful(states, i + 1)
  {
    RunReaches(states, labels, i);
    var s := states[i];
    assert Enabled(s, StepPoller);
    var n := s.poller.p.id;
    TurnLoads(s, n);
    assert WordAt(states, n, s.nodes[n].word, i, i);
    StillWord(states, n, s.nodes[n].word, i);
  }

  lemma SwapIsTruthful(states: seq<State>, labels: seq<Label>, i: nat)
    requires Run(states, labels) && i < |labels| && labels[i].StepPoller? && Truthful(states, i)
    requires states[i].poller.NodeSwap? && !states[i].poller.seen.dropped
    ensures Truthful(states, i + 1)
  {
    RunReaches(states, labels, i);
    var s := states[i];
    assert Enabled(s, StepPoller) && states[i + 1] == StepOfPoller(s);
    var n, seen := s.poller.n, s.poller.seen;
    TurnDecides(s, n);
    if states[i + 1].poller.NodeSwap? {
      assert WordAt(states, n, s.nodes[n].word, i, i);
      StillWord(states, n, s.nodes[n].word, i);
    } else {
      var ready: Bits4 :| IsCommon(ready, seen.readiness, seen.interest)
                          && Reports(states[i + 1].poller, n, ready, seen.wr);
      StillWord(states, n, seen, i);
      assert WasSignalled(states, n, ready, i + 1);
    }
  }

  /** The push of the node in between, and every other step, reports nothing new. */
  lemma PushIsTruthful(states: seq<State>, labels: seq<Label>, i: nat)
    requires Run(states, labels) && i < |labels| && labels[i].StepPoller? && Truthful(states, i)
    requires !states[i].poller.NodeLoad? && !(states[i].poller.NodeSwap? && !states[i].poller.seen.dropped)
    ensures Truthful(states, i + 1)
  {
    assert Enabled(states[i], StepPoller) && states[i + 1] == StepOfPoller(states[i]);
    NothingNewReported(states[i], states[i + 1]);
    var pc' := states[i + 1].poller;
    if pc'.Deliver? {
      StillSignalled(states, pc'.n, pc'.ready, i);
    } else if pc'.PPush? && pc'.after.ToDeliver? {
      StillSignalled(states, pc'.after.n, pc'.after.ready, i);
    }
  }

  lemma NothingNewReported(s: State, s': State)
    requires Enabled(s, StepPoller) && s' == StepOfPoller(s)
    requires !s.poller.NodeLoad? && !(s.poller.NodeSwap? && !s.poller.seen.dropped)
    ensures !s'.poller.NodeSwap?
    ensures s'.poller.Deliver? ==>
              && s.poller.PPush? && s.poller.after.ToDeliver?
              && s.poller.after.n == s'.poller.n && s.poller.after.ready == s'.poller.ready
    ensures s'.poller.PPush? && s'.poller.after.ToDeliver? ==> s.poller.PPush? && s.poller.after == s'.poller.after
  {
    if s.poller.PPush? {
      PushReportsTheSame(s, s');
    } else if NodeReady(s) {
      TurnEnds(s, s');
    } else if !s.poller.Drain? && !s.poller.PrepTail? && !s.poller.PrepSwap? {
      SearchReportsNothing(s, s');
    }
  }

  lemma SearchReportsNothing(s: State, s': State)
    requires s.poller.DqLoad? || s.poller.DqMarker? || s.poller.DqHead? || s.poller.DqRetry?
             || s.poller.ClearReset? || s.poller.ClearSwap?
    requires s' == DequeueStep(s)
    ensures !s'.poller.NodeSwap? && !s'.poller.Deliver? && (s'.poller.PPush? ==> !s'.poller.after.ToDeliver?)
  {
    if s.poller.DqLoad? {
      LookReportsNothing(s, s', s.poller.c);
    }
  }

  lemma LookReportsNothing(s: State, s': State, c: Ctx)
    requires s.poller == DqLoad(c) && s' == DequeueStep(s)
    ensures !s'.poller.NodeSwap? && !s'.poller.Deliver? && !s'.poller.PPush?
  {
    assert s'.poller in {ClearReset(c), DqMarker(c), DqHead(c), Outside, Dead} || s'.poller == Got(s.q.tail, c);
  }

  lemma PushReportsTheSame(s: State, s': State)
    requires s.poller.PPush? && s' == PollerPushStep(s)
    ensures !s'.poller.NodeSwap?
    ensures s'.poller.Deliver? ==>
              && s.poller.after.ToDeliver?
              && s.poller.after.n == s'.poller.n && s.poller.after.ready == s'.poller.ready
    ensures s'.poller.PPush? && s'.poller.after.ToDeliver? ==> s.poller.after == s'.poller.after
  {
  }

  lemma TurnEnds(s: State, s': State)
    requires NodeReady(s) && s' == NodeStep(s)
    requires !s.poller.NodeLoad? && !(s.poller.NodeSwap? && !s.poller.seen.dropped)
    ensures !s'.poller.NodeSwap? && !s'.poller.Deliver? && !s'.poller.PPush?
  {
  }

  /** Every event is true: while the poller had the node in hand there was a time at which the node was not dropped and
      signalled exactly the bits of the event, of which there is one at least. */
  lemma EventsAreTrue(states: seq<State>, labels: seq<Label>, i: nat)
    requires Run(states, labels) && i < |labels| && states[i + 1].events != states[i].events
    ensures |states[i + 1].events| == |states[i].events| + 1
    ensures var e := states[i + 1].events[|states[i].events|];
            && states[i + 1].events == states[i].events + [e]
            && e.ready != 0 && WasSignalled(states, e.n, e.ready, i)
  {
    PollerIsTruthful(states, labels, i);
    RunReaches(states, labels, i);
    EventsOfJobs(states[i], labels[i]);
    var s := states[i];
    assert labels[i] == StepPoller && s.poller.Deliver? && states[i + 1] == StepOfPoller(s);
    DeliverPushes(s, states[i + 1]);
  }

  lemma DeliverPushes(s: State, s': State)
    requires s.poller.Deliver? && s.poller.n in s.nodes && s' == NodeStep(s)
    ensures if s.poller.ready == 0 then s'.events == s.events
            else
              && |s'.events| == |s.events| + 1 && s'.events == s.events + [s'.events[|s.events|]]
              && s'.events[|s.events|].n == s.poller.n && s'.events[|s.events|].ready == s.poller.ready
  {
  }

  // ---------- interest over whole runs ----------

  ghost predicate Lives(states: seq<State>, n: nat, i: nat, j: nat) {
    i <= j < |states| && forall k :: i <= k <= j ==> n in states[k].nodes
  }

  /** No `update` takes effect on the node from `i` up to `j`. */
  ghost predicate NotUpdated(states: seq<State>, labels: seq<Label>, n: nat, i: nat, j: nat)
    requires |states| == |labels| + 1
  {
    forall k :: i <= k < j && k < |labels| ==> !Updating(states[k], labels[k], n)
  }

  /** But for an `update`, interest and options stay, except that a poll which disarms the node clears the interest; and
      it clears it exactly if the node is edge-triggered and oneshot, and signalled something. */
  lemma InterestStep(s: State, l: Label, n: nat)
    requires Reachable(s) && Enabled(s, l) && n in s.nodes && n in Do(s, l).nodes && !Updating(s, l, n)
    ensures var w := s.nodes[n].word; var w' := Do(s, l).nodes[n].word;
            && w'.opt == w.opt
            && w'.interest == (if Acts(s, l, n) && Disarms(w) then 0 else w.interest)
            && (Acts(s, l, n) ==> HasPolled(w, w'))
            && (Installs(s, l, n) ==> HasReadiness(w, w', s.threads[l.t].ready))
  {
    WordChanges(s, l, n);
    var w := s.nodes[n].word;
    AfterPollMeans(w, AfterPoll(w));
    if Installs(s, l, n) {
      var ready := s.threads[l.t].ready;
      WithReadinessMeans(w, ready, WithReadiness(w, ready));
    }
    FlaggedDroppedMeans(w, FlaggedDropped(w));
  }

  lemma {:induction false} NoInterestStays(states: seq<State>, labels: seq<Label>, n: nat, i: nat, j: nat)
    requires Run(states, labels) && Lives(states, n, i, j) && NotUpdated(states, labels, n, i, j)
    requires states[i].nodes[n].word.interest == 0
    ensures states[j].nodes[n].word.interest == 0
  {
    if i < j {
      NoInterestStays(states, labels, n, i, j - 1);
      RunReaches(states, labels, j - 1);
      assert states[j - 1 + 1] == Do(states[j - 1], labels[j - 1]);
      InterestStep(states[j - 1], labels[j - 1], n);
    }
  }

  /** A deregistered node, and any other whose last `update` asked for nothing, keeps quiet: until the next `update` no
      `set_readiness` queues it. */
  lemma DeregisteredStaysQuiet(states: seq<State>, labels: seq<Label>, n: nat, i: nat, j: nat)
    requires Run(states, labels) && i < j < |labels| && Lives(states, n, i, j + 1)
    requires Updating(states[i], labels[i], n) && states[i].threads[labels[i].t].args.interest == 0
    requires NotUpdated(states, labels, n, i + 1, j + 1)
    ensures states[j].nodes[n].word.interest == 0
    ensures Installs(states[j], labels[j], n) ==>
              (states[j + 1].nodes[n].word.queued <==> states[j].nodes[n].word.queued)
  {
    RunReaches(states, labels, i);
    UpdatedInterest(states[i], labels[i], n);
    NoInterestStays(states, labels, n, i + 1, j);
    RunReaches(states, labels, j);
    assert states[j + 1] == Do(states[j], labels[j]);
    InterestStep(states[j], labels[j], n);
  }

  lemma UpdatedInterest(s: State, l: Label, n: nat)
    requires Reachable(s) && Enabled(s, l) && n in s.nodes && n in Do(s, l).nodes && Updating(s, l, n)
    ensures Do(s, l).nodes[n].word.interest == s.threads[l.t].args.interest
  {
    WordChanges(s, l, n);
    var pc := s.threads[l.t];
    WithRegistrationMeans(s.nodes[n].word, pc.pos, pc.args.interest, pc.args.opt,
                          WithRegistration(s.nodes[n].word, pc.pos, pc.args.interest, pc.args.opt));
  }

  lemma {:induction false} ArmedStays(states: seq<State>, labels: seq<Label>, n: nat, i: nat, j: nat)
    requires Run(states, labels) && Lives(states, n, i, j) && NotUpdated(states, labels, n, i, j)
    requires states[i].nodes[n].word.opt & 4 == 0
    ensures states[j].nodes[n].word.interest == states[i].nodes[n].word.interest
    ensures states[j].nodes[n].word.opt == states[i].nodes[n].word.opt
  {
    if i < j {
      ArmedStays(states, labels, n, i, j - 1);
      RunReaches(states, labels, j - 1);
      assert states[j - 1 + 1] == Do(states[j - 1], labels[j - 1]);
      InterestStep(states[j - 1], labels[j - 1], n);
    }
  }

  /** An edge-triggered node without oneshot is off the queue once the poller has acted on it, but still armed: until
      the next `update`, the next `set_readiness` that meets its interest queues it again. */
  lemma EdgeStaysArmed(states: seq<State>, labels: seq<Label>, n: nat, i: nat, j: nat)
    requires Run(states, labels) && i < j < |labels| && Lives(states, n, i, j + 1)
    requires Acts(states[i], labels[i], n)
    requires var w := states[i].nodes[n].word; w.opt & 1 != 0 && w.opt & 4 == 0
    requires NotUpdated(states, labels, n, i + 1, j + 1) && Installs(states[j], labels[j], n)
    requires states[j].threads[labels[j].t].ready & states[i].nodes[n].word.interest != 0
    ensures !states[i + 1].nodes[n].word.queued && states[j + 1].nodes[n].word.queued
  {
    RunReaches(states, labels, i);
    InterestStep(states[i], labels[i], n);
    ArmedStays(states, labels, n, i + 1, j);
    RunReaches(states, labels, j);
    assert states[j + 1] == Do(states[j], labels[j]);
    InterestStep(states[j], labels[j], n);
  }
}
