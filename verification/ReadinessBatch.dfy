/** The jobs of `enqueue_job` in the batches that `poll` fills (src/poll.rs:501-502): which events carry one, and that
    no two do. A job is a closure that `enqueue_job` has just allocated (src/net/event_loop.rs:308-311), so no caller
    of `register` passes the same one. */
module ReadinessBatch {
  import opened Lists
  import opened MarkerQueue
  import opened Readiness
  import opened ReadinessInvariant
  import opened ReadinessTheorems
  import opened ReadinessJobs

  // ---------- one step ----------

  /** The step in which the poller hands over the job of node `n`, and the event it makes of it. */
  predicate HandsOver(s: State, s': State, n: nat) {
    && IsDelivered(s, s', n) && s.poller.Deliver? && s.poller.n == n
    && s'.events == s.events + [Event(n, READABLE, JOB_TOKEN, s.nodes[n].plan.job)]
    && s'.nodes[n].job == NO_JOB
  }

  /** A step adds at most one event. It is about the node in the poller's hands, and if that is the node of a job the
      step is the one that hands the job over: before it such a node makes no event, and after it neither. */
  lemma EventsOfJobs(s: State, l: Label)
    requires Reachable(s) && Enabled(s, l)
    ensures var s' := Do(s, l);
            || (s'.events == s.events && s'.jobsDelivered == s.jobsDelivered)
            || (&& l.StepPoller? && s.poller.Deliver? && s.poller.n in s.nodes
                && if s.nodes[s.poller.n].plan.Shared? then OwnEvent(s, s', s.poller.n)
                   else HandsOver(s, s', s.poller.n))
  {
    ReachableJobs(s);
    if l.StepThread? {
      ThreadCarries(s, l.t);
    } else if l.StepPoller? {
      if s.poller.Deliver? {
        assert Holds(s, ThePoller);
        assert JobOk(s, s.poller.n);
        SafeNode(s, s.poller.n);
        DeliverMakes(s, Do(s, l), s.poller.n);
      } else {
        ListsKept(s);
      }
    }
  }

  /** An event for a node its owner registered, with the job that owner gave. */
  predicate OwnEvent(s: State, s': State, n: nat) {
    && n in s.nodes && s'.jobsDelivered == s.jobsDelivered
    && |s'.events| == |s.events| + 1 && s'.events[..|s.events|] == s.events
    && s'.events[|s.events|].n == n && s'.events[|s.events|].job == s.nodes[n].job
  }

  lemma DeliverMakes(s: State, s': State, n: nat)
    requires NodeReady(s) && s.poller.Deliver? && s.poller.n == n && s' == NodeStep(s)
    requires JobOk(s, n) && PollerOk(s) && NodeOk(s.nodes[n])
    ensures || (s'.events == s.events && s'.jobsDelivered == s.jobsDelivered)
            || (if s.nodes[n].plan.Shared? then OwnEvent(s, s', n) else HandsOver(s, s', n))
  {
  }

  /** A node whose job was handed over stays so. It holds no job, is queued only to be dropped, and the poller has no
      event to make of it. */
  lemma HandedForGood(s: State, l: Label, n: nat)
    requires Reachable(s) && Enabled(s, l) && n in s.nodes && s.nodes[n].plan.Handed?
    ensures s.nodes[n].job == NO_JOB && (s.nodes[n].word.queued ==> s.nodes[n].word.dropped)
    ensures s.poller.NodeSwap? && s.poller.n == n ==> s.poller.seen.dropped
    ensures !(s.poller.Deliver? && s.poller.n == n)
    ensures n in Do(s, l).nodes ==> Do(s, l).nodes[n].plan.Handed?
  {
    ReachableJobs(s);
    assert JobOk(s, n);
    if n in Do(s, l).nodes {
      JobStages(s, l, n);
    }
  }

  // ---------- whole runs ----------

  /** The jobs of the `enqueue_job` calls so far. */
  function Enqueued(labels: seq<Label>): seq<int> {
    if labels == [] then []
    else
      var last := labels[|labels| - 1];
      Enqueued(labels[..|labels| - 1]) + (if last.EnqueueJob? then [last.job] else [])
  }

  /** `jobs` are the closures that `enqueue_job` allocates: one for each call, and nobody registers with them. */
  ghost predicate Allocates(labels: seq<Label>, jobs: set<int>) {
    && Distinct(Enqueued(labels))
    && (forall job :: job in Enqueued(labels) ==> job in jobs)
    && NO_JOB !in jobs
    && (forall i :: 0 <= i < |labels| && labels[i].CallUpdate? ==> labels[i].args.job !in jobs)
  }

  /** The jobs among `jobs` that events carry, in the order of the events. */
  function JobsIn(events: seq<Event>, jobs: set<int>): seq<int> {
    if events == [] then []
    else
      var last := events[|events| - 1];
      JobsIn(events[..|events| - 1], jobs) + (if last.job in jobs then [last.job] else [])
  }

  // ---------- the invariant of a run ----------

  /** The job a thread has still to register with. */
  function Cargo(pc: Pc): int {
    match pc
    case SetLoad(_, _, _, follow) => CargoOf(follow)
    case SetSwap(_, _, _, follow, _) => CargoOf(follow)
    case UpdBind(_, args) => args.job
    case UpdCount(_, args) => args.job
    case UpdLock(_, args) => args.job
    case UpdLoad(_, args) => args.job
    case UpdToken(_, args, _) => args.job
    case UpdSwap(_, args, _, _, _) => args.job
    case UpdUnlock(_, args, _) => args.job
    case UpdJob(_, args) => args.job
    case DropFlag(_) => NO_JOB
    case Route(_, _, origin) => CargoOfOrigin(origin)
    case Push(_, _, origin, _) => CargoOfOrigin(origin)
    case GiveBack(_, _, origin) => CargoOfOrigin(origin)
    case Wake(_, _, origin) => CargoOfOrigin(origin)
    case Release(_, _) => NO_JOB
  }

  function CargoOf(follow: Follow): int {
    if follow.Register? then follow.args.job else NO_JOB
  }

  function CargoOfOrigin(origin: Origin): int {
    if origin.FromSet? then CargoOf(origin.follow) else NO_JOB
  }

  /** What the jobs of one run's calls are doing in a state of it. */
  ghost predicate NodeTagged(node: ReadinessNode, jobs: set<int>, made: seq<int>, pushed: seq<int>) {
    && (node.plan.Shared? ==> node.job !in jobs)
    && (node.plan.Making? ==> node.plan.job in made && node.plan.job !in pushed)
    && (node.plan.Waiting? ==> node.plan.job in jobs)
  }

  ghost predicate ThreadTagged(s: State, t: nat, jobs: set<int>)
    requires t in s.threads
  {
    var n := s.threads[t].n;
    n in s.nodes && s.nodes[n].plan.Shared? ==> Cargo(s.threads[t]) !in jobs
  }

  predicate SameMaking(nodes: map<nat, ReadinessNode>, n: nat, m: nat)
    requires n in nodes && m in nodes
  {
    nodes[n].plan.Making? && nodes[m].plan.Making? && nodes[n].plan.job == nodes[m].plan.job
  }

  ghost predicate InTheMaking(nodes: map<nat, ReadinessNode>, job: int) {
    exists n :: n in nodes && MakesJob(nodes[n], job)
  }

  predicate MakesJob(node: ReadinessNode, job: int) {
    node.plan.Making? && node.plan.job == job
  }

  ghost predicate Tagged(s: State, jobs: set<int>, made: seq<int>) {
    && (forall n :: n in s.nodes ==> NodeTagged(s.nodes[n], jobs, made, s.jobsPushed))
    && (forall n, m :: n in s.nodes && m in s.nodes && SameMaking(s.nodes, n, m) ==> n == m)
    && (forall t :: t in s.threads ==> ThreadTagged(s, t, jobs))
    && (forall job :: job in s.jobsPushed ==> job in made)
    && (forall job :: job in made ==> job in s.jobsPushed || InTheMaking(s.nodes, job))
    && Distinct(s.jobsPushed)
    && JobsIn(s.events, jobs) == s.jobsDelivered
    && (forall i :: 0 <= i < |s.events| && s.events[i].job in jobs ==>
          s.events[i].ready == READABLE && s.events[i].token == JOB_TOKEN)
  }

  // ---------- what a step does to it ----------

  /** The job in a node that callers registered changes only to nothing or to the one a thread registers with. */
  lemma SharedJobChange(s: State, l: Label, n: nat)
    requires Reachable(s) && Enabled(s, l) && n in s.nodes && n in Do(s, l).nodes && s.nodes[n].plan.Shared?
    ensures var job' := Do(s, l).nodes[n].job;
            || job' == s.nodes[n].job || job' == NO_JOB
            || (l.StepThread? && Runs(s, l.t) && s.threads[l.t].n == n && job' == Cargo(s.threads[l.t]))
  {
    if l.StepThread? {
      ThreadCarries(s, l.t);
    } else if l.StepPoller? {
      ReachableIsSafe(s);
      PollerChangesNode(s, n);
    }
  }

  /** A new node holds no job, and is its callers' or `enqueue_job`'s. */
  lemma NewNode(s: State, l: Label, n: nat)
    requires Enabled(s, l) && n !in s.nodes && n in Do(s, l).nodes
    ensures var node' := Do(s, l).nodes[n];
            && node'.job == NO_JOB && !l.StepThread? && !l.StepPoller?
            && (node'.plan.Shared? || (l.EnqueueJob? && l.n == n && node'.plan == Making(l.job, l.t)))
  {
    if l.StepThread? {
      ThreadCarries(s, l.t);
    } else if l.StepPoller? {
      PollerLeaves(s);
    }
  }

  /** The poller adds no node and moves no other thread. */
  lemma PollerLeaves(s: State)
    requires Enabled(s, StepPoller)
    ensures StepOfPoller(s).threads == s.threads && forall n :: n in StepOfPoller(s).nodes ==> n in s.nodes
  {
    if s.poller.PPush? {
      PutsBackOrDrops(s, PollerPushStep(s));
    } else if NodeReady(s) {
      TurnLeaves(s, NodeStep(s));
    } else if !s.poller.Drain? && !s.poller.PrepTail? && !s.poller.PrepSwap? {
      DequeueLeaves(s, DequeueStep(s));
    }
  }

  lemma PutsBackOrDrops(s: State, s': State)
    requires s.poller.PPush? && s' == PollerPushStep(s)
    ensures s'.threads == s.threads && forall n :: n in s'.nodes ==> n in s.nodes
  {
  }

  lemma DequeueLeaves(s: State, s': State)
    requires s.poller.DqLoad? || s.poller.DqMarker? || s.poller.DqHead? || s.poller.DqRetry?
             || s.poller.ClearReset? || s.poller.ClearSwap?
    requires s' == DequeueStep(s)
    ensures s'.threads == s.threads && forall n :: n in s'.nodes ==> n in s.nodes
  {
    assert s'.nodes == s.nodes || s'.nodes == Processed(s.nodes, s.q.tail);
  }

  lemma TurnLeaves(s: State, s': State)
    requires NodeReady(s) && s' == NodeStep(s)
    ensures s'.threads == s.threads && forall n :: n in s'.nodes ==> n in s.nodes
  {
  }

  /** A thread keeps to its node and to its job, adds no node, and puts no job into a node but its own into its own. */
  ghost predicate KeepsToItself(s: State, s': State, t: nat) {
    && t in s.threads
    && (forall u :: u != t ==>
          (u in s'.threads <==> u in s.threads) && (u in s.threads ==> s'.threads[u] == s.threads[u]))
    && (t in s'.threads ==> KeepsCargo(s.threads[t], s'.threads[t]))
    && (forall n :: n in s'.nodes ==> n in s.nodes && (s'.nodes[n].job == s.nodes[n].job
                                                       || (n == s.threads[t].n
                                                           && s'.nodes[n].job == Cargo(s.threads[t]))))
    && s'.events == s.events && s'.jobsDelivered == s.jobsDelivered
  }

  predicate KeepsCargo(pc: Pc, pc': Pc) {
    pc'.n == pc.n && (Cargo(pc') == Cargo(pc) || Cargo(pc') == NO_JOB)
  }

  lemma ThreadCarries(s: State, t: nat)
    requires Runs(s, t)
    ensures KeepsToItself(s, ThreadStep(s, t), t)
  {
    var pc := s.threads[t];
    if IsLocal(pc) {
      var o := LocalStep(s.nodes[pc.n], t, pc);
      LocalCarries(s.nodes[pc.n], t, pc);
      LocalResult(s, ThreadStep(s, t), t, o);
    } else if pc.Push? {
      PushResult(s, PushStep(s, t), t);
      PushCarries(s, PushStep(s, t), t);
    } else {
      ReleaseCarries(s, ReleaseStep(s, t), t);
    }
  }

  lemma LocalCarries(node: ReadinessNode, t: nat, pc: Pc)
    requires IsLocal(pc)
    ensures var o := LocalStep(node, t, pc);
            && (o.pc.Some? ==> KeepsCargo(pc, o.pc.value))
            && (o.node.job == node.job || o.node.job == Cargo(pc))
  {
    if pc.SetLoad? || pc.SetSwap? {
      SetCarries(node, t, pc);
    } else if Updates(pc) {
      UpdateCarries(node, t, pc);
    } else {
      RouteCarries(node, t, pc);
    }
  }

  lemma SetCarries(node: ReadinessNode, t: nat, pc: Pc)
    requires pc.SetLoad? || pc.SetSwap?
    ensures var o := SetStep(node, t, pc);
            (o.pc.Some? ==> KeepsCargo(pc, o.pc.value)) && o.node.job == node.job
  {
  }

  lemma UpdateCarries(node: ReadinessNode, t: nat, pc: Pc)
    requires Updates(pc)
    ensures var o := UpdateStep(node, t, pc);
            && (o.pc.Some? ==> KeepsCargo(pc, o.pc.value))
            && (o.node.job == node.job || o.node.job == Cargo(pc))
  {
  }

  lemma RouteCarries(node: ReadinessNode, t: nat, pc: Pc)
    requires pc.DropFlag? || pc.Route?
    ensures var o := RouteStep(node, t, pc);
            (o.pc.Some? ==> KeepsCargo(pc, o.pc.value)) && o.node.job == node.job
  {
  }

  lemma LocalResult(s: State, s': State, t: nat, o: Outcome)
    requires Runs(s, t) && IsLocal(s.threads[t]) && o == LocalStep(s.nodes[s.threads[t].n], t, s.threads[t])
    requires o.pc.Some? ==> KeepsCargo(s.threads[t], o.pc.value)
    requires o.node.job == s.nodes[s.threads[t].n].job || o.node.job == Cargo(s.threads[t])
    requires s' == Goto(Put(s, s.threads[t].n, o.node), t, o.pc)
    ensures KeepsToItself(s, s', t)
  {
  }

  ghost predicate Pushes(s: State, s': State, t: nat)
    requires Runs(s, t)
  {
    var n := s.threads[t].n;
    && (s'.nodes == s.nodes || s'.nodes == s.nodes[n := InList(s.nodes[n])])
    && (forall u :: u != t ==>
          (u in s'.threads <==> u in s.threads) && (u in s.threads ==> s'.threads[u] == s.threads[u]))
    && (t in s'.threads ==> KeepsCargo(s.threads[t], s'.threads[t]))
    && s'.events == s.events && s'.jobsDelivered == s.jobsDelivered
  }

  lemma PushResult(s: State, s': State, t: nat)
    requires Runs(s, t) && s.threads[t].Push? && s' == PushStep(s, t)
    ensures Pushes(s, s', t)
  {
    PushOthers(s, s', t);
    PushKeepsCargo(s, s', t);
    PushNodes(s, s', t);
  }

  lemma PushOthers(s: State, s': State, t: nat)
    requires Runs(s, t) && s.threads[t].Push? && s' == PushStep(s, t)
    ensures forall u :: u != t ==>
              (u in s'.threads <==> u in s.threads) && (u in s.threads ==> s'.threads[u] == s.threads[u])
  {
  }

  lemma PushKeepsCargo(s: State, s': State, t: nat)
    requires Runs(s, t) && s.threads[t].Push? && s' == PushStep(s, t)
    ensures t in s'.threads ==> KeepsCargo(s.threads[t], s'.threads[t])
  {
  }

  lemma PushNodes(s: State, s': State, t: nat)
    requires Runs(s, t) && s.threads[t].Push? && s' == PushStep(s, t)
    ensures s'.nodes == s.nodes || s'.nodes == s.nodes[s.threads[t].n := InList(s.nodes[s.threads[t].n])]
    ensures s'.events == s.events && s'.jobsDelivered == s.jobsDelivered
  {
  }

  lemma PushCarries(s: State, s': State, t: nat)
    requires Runs(s, t) && Pushes(s, s', t)
    ensures KeepsToItself(s, s', t)
  {
  }

  lemma ReleaseCarries(s: State, s': State, t: nat)
    requires Runs(s, t) && (s.threads[t].GiveBack? || s.threads[t].Wake? || s.threads[t].Release?)
    requires s' == ReleaseStep(s, t)
    ensures KeepsToItself(s, s', t)
  {
  }

  // ---------- it holds in every run ----------

  /** The jobs made so far, once step `l` has been taken. */
  function MadeAfter(made: seq<int>, l: Label): seq<int> {
    made + (if l.EnqueueJob? then [l.job] else [])
  }

  /** What `Allocates` asks of the next label. */
  ghost predicate Fits(made: seq<int>, l: Label, jobs: set<int>) {
    && NO_JOB !in jobs
    && (forall job :: job in MadeAfter(made, l) ==> job in jobs)
    && (l.EnqueueJob? ==> l.job !in made)
    && (l.CallUpdate? ==> l.args.job !in jobs)
  }

  ghost predicate PushedSo(s: State, s': State) {
    s'.jobsPushed == s.jobsPushed || exists n :: IsPushed(s, s', n)
  }

  lemma OldNodeTagged(s: State, l: Label, jobs: set<int>, made: seq<int>, n: nat)
    requires Reachable(s) && Enabled(s, l) && Tagged(s, jobs, made) && Fits(made, l, jobs)
    requires n in s.nodes && n in Do(s, l).nodes
    ensures NodeTagged(Do(s, l).nodes[n], jobs, MadeAfter(made, l), Do(s, l).jobsPushed)
  {
    var s' := Do(s, l);
    JobStages(s, l, n);
    ListsGrowByStages(s, l);
    assert NodeTagged(s.nodes[n], jobs, made, s.jobsPushed);
    if s.nodes[n].plan.Shared? {
      SharedJobChange(s, l, n);
      if l.StepThread? && Runs(s, l.t) && s.threads[l.t].n == n {
        assert ThreadTagged(s, l.t, jobs);
      }
    } else if s'.nodes[n].plan.Making? {
      StillUnpushed(s, s', n);
    }
  }

  /** A job still being made is not the one that is pushed. */
  lemma StillUnpushed(s: State, s': State, n: nat)
    requires forall n, m :: n in s.nodes && m in s.nodes && SameMaking(s.nodes, n, m) ==> n == m
    requires PushedSo(s, s') && n in s.nodes && n in s'.nodes && s.nodes[n].plan.Making? && s'.nodes[n].plan.Making?
    requires s.nodes[n].plan.job !in s.jobsPushed
    ensures s.nodes[n].plan.job !in s'.jobsPushed
  {
    if s'.jobsPushed != s.jobsPushed {
      var m :| IsPushed(s, s', m);
      if s.nodes[m].plan.job == s.nodes[n].plan.job {
        assert SameMaking(s.nodes, n, m);
      }
    }
  }

  lemma NewNodeTagged(s: State, l: Label, jobs: set<int>, made: seq<int>, n: nat)
    requires Reachable(s) && Enabled(s, l) && Tagged(s, jobs, made) && Fits(made, l, jobs)
    requires n !in s.nodes && n in Do(s, l).nodes
    ensures NodeTagged(Do(s, l).nodes[n], jobs, MadeAfter(made, l), Do(s, l).jobsPushed)
  {
    NewNode(s, l, n);
    CallsPushNothing(s, l);
  }

  lemma CallsPushNothing(s: State, l: Label)
    requires Enabled(s, l) && !l.StepThread? && !l.StepPoller?
    ensures Do(s, l).jobsPushed == s.jobsPushed
  {
  }

  /** Jobs in the making stay different from one another. */
  lemma MakingsDiffer(s: State, l: Label, jobs: set<int>, made: seq<int>, n: nat, m: nat)
    requires Reachable(s) && Enabled(s, l) && Tagged(s, jobs, made) && Fits(made, l, jobs)
    requires n in Do(s, l).nodes && m in Do(s, l).nodes && SameMaking(Do(s, l).nodes, n, m)
    ensures n == m
  {
    WasMaking(s, l, n);
    WasMaking(s, l, m);
    if n in s.nodes {
      assert NodeTagged(s.nodes[n], jobs, made, s.jobsPushed);
    }
    if m in s.nodes {
      assert NodeTagged(s.nodes[m], jobs, made, s.jobsPushed);
    }
    if n in s.nodes && m in s.nodes {
      assert SameMaking(s.nodes, n, m);
    }
  }

  lemma WasMaking(s: State, l: Label, n: nat)
    requires Reachable(s) && Enabled(s, l) && n in Do(s, l).nodes && Do(s, l).nodes[n].plan.Making?
    ensures if n in s.nodes then s.nodes[n].plan == Do(s, l).nodes[n].plan
            else l.EnqueueJob? && l.n == n && Do(s, l).nodes[n].plan.job == l.job
  {
    if n in s.nodes {
      JobStages(s, l, n);
    } else {
      NewNode(s, l, n);
    }
  }

  lemma ThreadsStayTagged(s: State, l: Label, jobs: set<int>, made: seq<int>, t: nat)
    requires Reachable(s) && Enabled(s, l) && Tagged(s, jobs, made) && Fits(made, l, jobs)
    requires t in Do(s, l).threads
    ensures ThreadTagged(Do(s, l), t, jobs)
  {
    var s' := Do(s, l);
    if t in s.threads {
      ReachableIsSafe(s);
      SafeThread(s, t);
      assert ThreadTagged(s, t, jobs);
      OldThreadKeeps(s, l, t);
      if s.threads[t].n in s'.nodes {
        JobStages(s, l, s.threads[t].n);
      }
    } else {
      NewThreadCarries(s, l, t);
    }
  }

  lemma OldThreadKeeps(s: State, l: Label, t: nat)
    requires Enabled(s, l) && t in s.threads && t in Do(s, l).threads
    ensures KeepsCargo(s.threads[t], Do(s, l).threads[t])
  {
    if l.StepThread? {
      ThreadCarries(s, l.t);
    } else if l.StepPoller? {
      PollerLeaves(s);
    }
  }

  /** A call starts with the job it was given, on a node its callers registered, or `enqueue_job` with its own. */
  lemma NewThreadCarries(s: State, l: Label, t: nat)
    requires Enabled(s, l) && t !in s.threads && t in Do(s, l).threads
    ensures var pc := Do(s, l).threads[t];
            || Cargo(pc) == NO_JOB || (l.CallUpdate? && Cargo(pc) == l.args.job)
            || (pc.n in Do(s, l).nodes && Do(s, l).nodes[pc.n].plan.Making?)
  {
    if l.StepThread? {
      ThreadCarries(s, l.t);
    } else if l.StepPoller? {
      PollerLeaves(s);
    }
  }

  lemma PushedStaysDistinct(s: State, l: Label, jobs: set<int>, made: seq<int>)
    requires Reachable(s) && Enabled(s, l) && Tagged(s, jobs, made)
    ensures Distinct(Do(s, l).jobsPushed) && (forall job :: job in Do(s, l).jobsPushed ==> job in MadeAfter(made, l))
  {
    ListsGrowByStages(s, l);
    var s' := Do(s, l);
    if s'.jobsPushed != s.jobsPushed {
      var n :| IsPushed(s, s', n);
      assert NodeTagged(s.nodes[n], jobs, made, s.jobsPushed);
    }
  }

  /** No job is forgotten before its push. */
  lemma MadeStays(s: State, l: Label, jobs: set<int>, made: seq<int>, job: int)
    requires Reachable(s) && Enabled(s, l) && Tagged(s, jobs, made) && job in MadeAfter(made, l)
    ensures job in Do(s, l).jobsPushed || InTheMaking(Do(s, l).nodes, job)
  {
    if job in made {
      PushedOnlyGrows(s, l);
      if job !in s.jobsPushed {
        var n :| n in s.nodes && MakesJob(s.nodes[n], job);
        JobsNotForgotten(s, l, n);
        JobStages(s, l, n);
        assert MakesJob(Do(s, l).nodes[n], job) || job in Do(s, l).jobsPushed;
      }
    } else {
      assert MakesJob(Do(s, l).nodes[l.n], job);
    }
  }

  lemma PushedOnlyGrows(s: State, l: Label)
    requires Reachable(s) && Enabled(s, l)
    ensures s.jobsPushed <= Do(s, l).jobsPushed
  {
    ListsGrowByStages(s, l);
  }

  lemma EventsStayTagged(s: State, l: Label, jobs: set<int>, made: seq<int>)
    requires Reachable(s) && Enabled(s, l) && Tagged(s, jobs, made)
    ensures JobsIn(Do(s, l).events, jobs) == Do(s, l).jobsDelivered
    ensures forall i :: 0 <= i < |Do(s, l).events| && Do(s, l).events[i].job in jobs ==>
              Do(s, l).events[i].ready == READABLE && Do(s, l).events[i].token == JOB_TOKEN
  {
    EventsOfJobs(s, l);
    var s' := Do(s, l);
    if s'.events != s.events || s'.jobsDelivered != s.jobsDelivered {
      assert NodeTagged(s.nodes[s.poller.n], jobs, made, s.jobsPushed);
      assert s'.events[..|s'.events| - 1] == s.events;
    }
  }

  lemma StepStaysTagged(s: State, l: Label, jobs: set<int>, made: seq<int>)
    requires Reachable(s) && Enabled(s, l) && Tagged(s, jobs, made) && Fits(made, l, jobs)
    ensures Tagged(Do(s, l), jobs, MadeAfter(made, l))
  {
    var s' := Do(s, l);
    forall n | n in s'.nodes
      ensures NodeTagged(s'.nodes[n], jobs, MadeAfter(made, l), s'.jobsPushed)
    {
      if n in s.nodes {
        OldNodeTagged(s, l, jobs, made, n);
      } else {
        NewNodeTagged(s, l, jobs, made, n);
      }
    }
    forall n, m | n in s'.nodes && m in s'.nodes && SameMaking(s'.nodes, n, m)
      ensures n == m
    {
      MakingsDiffer(s, l, jobs, made, n, m);
    }
    forall t | t in s'.threads
      ensures ThreadTagged(s', t, jobs)
    {
      ThreadsStayTagged(s, l, jobs, made, t);
    }
    forall job | job in MadeAfter(made, l)
      ensures job in s'.jobsPushed || InTheMaking(s'.nodes, job)
    {
      MadeStays(s, l, jobs, made, job);
    }
    PushedStaysDistinct(s, l, jobs, made);
    EventsStayTagged(s, l, jobs, made);
  }

  lemma {:induction false} EnqueuedPrefix(labels: seq<Label>, i: nat)
    requires i <= |labels|
    ensures Enqueued(labels[..i]) <= Enqueued(labels)
  {
    if i < |labels| {
      assert labels[..|labels| - 1][..i] == labels[..i];
      EnqueuedPrefix(labels[..|labels| - 1], i);
    } else {
      assert labels[..i] == labels;
    }
  }

  lemma NextFits(labels: seq<Label>, jobs: set<int>, i: nat)
    requires Allocates(labels, jobs) && i < |labels|
    ensures Fits(Enqueued(labels[..i]), labels[i], jobs)
    ensures Enqueued(labels[..i + 1]) == MadeAfter(Enqueued(labels[..i]), labels[i])
  {
    assert labels[..i + 1][..i] == labels[..i];
    EnqueuedPrefix(labels, i + 1);
    var made := Enqueued(labels[..i]);
    var more := Enqueued(labels[..i + 1]);
    forall k | 0 <= k < |more|
      ensures more[k] in jobs && (k < |made| ==> made[k] == more[k] && (|made| < |more| ==> more[k] != more[|made|]))
    {
      assert more[k] == Enqueued(labels)[k];
    }
    assert labels[i].EnqueueJob? ==> more[|made|] == labels[i].job;
  }

  lemma RunReaches(states: seq<State>, labels: seq<Label>, i: nat)
    requires Run(states, labels) && i < |states|
    ensures Reachable(states[i])
  {
    assert EndsRun(states[i], states[..i + 1], labels[..i]);
  }

  lemma {:induction false} RunTagged(states: seq<State>, labels: seq<Label>, jobs: set<int>, i: nat)
    requires Run(states, labels) && Allocates(labels, jobs) && i < |states|
    ensures Tagged(states[i], jobs, Enqueued(labels[..i]))
  {
    if i > 0 {
      RunTagged(states, labels, jobs, i - 1);
      NextFits(labels, jobs, i - 1);
      RunReaches(states, labels, i - 1);
      StepStaysTagged(states[i - 1], labels[i - 1], jobs, Enqueued(labels[..i - 1]));
    }
  }

  // ---------- theorems ----------

  lemma {:induction false} JobsInApart(events: seq<Event>, jobs: set<int>, i: nat, j: nat)
    requires i < j < |events| && events[i].job in jobs && events[j].job in jobs && Distinct(JobsIn(events, jobs))
    ensures events[i].job != events[j].job
  {
    var rest := events[..|events| - 1];
    var inRest := JobsIn(rest, jobs);
    assert forall a :: 0 <= a < |inRest| ==> inRest[a] == JobsIn(events, jobs)[a];
    if j < |rest| {
      JobsInApart(rest, jobs, i, j);
    } else {
      JobsInHas(rest, jobs, i);
      var a :| 0 <= a < |inRest| && inRest[a] == events[i].job;
      assert JobsIn(events, jobs)[|inRest|] == events[j].job;
    }
  }

  lemma {:induction false} JobsInHas(events: seq<Event>, jobs: set<int>, i: nat)
    requires i < |events| && events[i].job in jobs
    ensures events[i].job in JobsIn(events, jobs)
  {
    if i < |events| - 1 {
      JobsInHas(events[..|events| - 1], jobs, i);
    }
  }

  /** The jobs that the events of a run carry are those delivered: a prefix of the jobs pushed, in the order of the head
      swaps. No two events carry the same job, and the event of a job is readable and has the token of jobs. */
  lemma EachJobInOneEvent(states: seq<State>, labels: seq<Label>, jobs: set<int>, i: nat)
    requires Run(states, labels) && Allocates(labels, jobs) && i < |states|
    ensures var s := states[i];
            && JobsIn(s.events, jobs) == s.jobsDelivered && s.jobsDelivered <= s.jobsPushed && Distinct(s.jobsPushed)
            && (forall a, b :: 0 <= a < b < |s.events| && s.events[a].job in jobs && s.events[b].job in jobs ==>
                  s.events[a].job != s.events[b].job)
            && (forall a :: 0 <= a < |s.events| && s.events[a].job in jobs ==>
                  s.events[a].ready == READABLE && s.events[a].token == JOB_TOKEN)
  {
    var s := states[i];
    RunTagged(states, labels, jobs, i);
    RunReaches(states, labels, i);
    JobsDeliveredInOrder(s);
    forall a, b | 0 <= a < b < |s.events| && s.events[a].job in jobs && s.events[b].job in jobs
      ensures s.events[a].job != s.events[b].job
    {
      JobsInApart(s.events, jobs, a, b);
    }
  }

  /** Once every `enqueue_job` has made its push and a live poller has drained the queue, the events carry each job
      enqueued, and each once. */
  lemma DrainedDeliversAll(states: seq<State>, labels: seq<Label>, jobs: set<int>, i: nat)
    requires Run(states, labels) && Allocates(labels, jobs) && i < |states|
    requires states[i].poller.Outside? && Data(states[i].q.chain) == []
    requires forall n :: n in states[i].nodes ==> !states[i].nodes[n].plan.Making?
    ensures var delivered := JobsIn(states[i].events, jobs);
            Distinct(delivered) && forall job :: job in delivered <==> job in Enqueued(labels[..i])
  {
    EachJobInOneEvent(states, labels, jobs, i);
    RunTagged(states, labels, jobs, i);
    RunReaches(states, labels, i);
    JobsDeliveredInOrder(states[i]);
  }
}
