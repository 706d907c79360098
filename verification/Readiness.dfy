/** The readiness queue and its nodes (src/poll.rs:213-557, 634-670, 786-1056) as a step machine: any number of
    threads that hold `Registration` and `SetReadiness` handles, and the one thread inside `Poll`. A step is one
    load, store, read-modify-write or compare-exchange; what only its own thread can see is folded into it. */
module Readiness {
  import opened ReadinessWord
  import opened MarkerQueue
  import opened Options

  // ---------- nodes ----------

  /** A handle on a node is usable, or thread `tid` is dropping it. Handle 0 is the `Registration`. */
  datatype Use = Live | Dropping(tid: nat)

  /** The reference the queue holds on a node: the node has no queue yet; it has one, but thread `tid` has still to
      count the reference (line 834); the reference is counted; it has been given back. */
  datatype QueueRef = Unbound | Counting(tid: nat) | Held | Released

  /** What the queued bit stands for: nothing; a position in the list; thread `tid` on its way to push the node;
      the poller working on it; or nothing any more, the bit being stuck for good. */
  datatype Slot = Idle | Listed | Pushing(tid: nat) | Processing | Spent

  /** What may be done with a node's handles: anything; or, for a node of `enqueue_job`, nothing but the calls of
      thread `maker`, then nothing while its job waits, then only dropping them with the delivered closure. */
  datatype Plan = Shared | Making(job: int, maker: nat) | Waiting(job: int) | Handed

  const NO_JOB := 0

  /** Two of the values a `TokenEntry` can take: what `new2` starts from, and what `enqueue_job` registers. */
  const DEFAULT_TOKEN := 0
  const JOB_TOKEN := 1
  const READABLE: Bits4 := 1

  /** The fields up to `job` are those of the source's `ReadinessNode`. The others are auxiliary: no guard of a
      step reads them, except for the rules of ownership that the borrow checker enforces on handles. */
  datatype ReadinessNode = ReadinessNode(
    word: Word, token0: int, token1: int, token2: int, locked: bool, bound: bool, refs: int, job: int,
    handles: map<nat, Use>, qref: QueueRef, slot: Slot, holder: nat, current: int, unseen: bool, plan: Plan)
  {
    function Token(pos: Bits2): int {
      if pos == 0 then token0 else if pos == 1 then token1 else token2
    }

    function WithToken(pos: Bits2, token: int): ReadinessNode {
      if pos == 0 then this.(token0 := token) else if pos == 1 then this.(token1 := token) else this.(token2 := token)
    }
  }

  // ---------- threads ----------

  datatype Args = Args(token: int, interest: Bits4, opt: Bits4, job: int)

  function JobArgs(job: int): Args {
    Args(JOB_TOKEN, READABLE, EDGE, job)
  }

  /** What a thread does after `set_readiness`: nothing, or the `register` call of `enqueue_job`. */
  datatype Follow = Return | Register(args: Args)

  datatype Origin = FromSet(follow: Follow) | FromUpdate | FromDrop

  /** The accesses of `enqueue_node`: reset the node's link, load the head, swap the head, store the link. */
  datatype Phase = Reset | Load | Swap(prev: Ptr) | Link(prev: Ptr)

  datatype Pc =
    | SetLoad(n: nat, h: nat, ready: Bits4, follow: Follow)
    | SetSwap(n: nat, h: nat, ready: Bits4, follow: Follow, seen: Word)
    | UpdBind(n: nat, args: Args)
    | UpdCount(n: nat, args: Args)
    | UpdLock(n: nat, args: Args)
    | UpdLoad(n: nat, args: Args)
    | UpdToken(n: nat, args: Args, seen: Word)
    | UpdSwap(n: nat, args: Args, seen: Word, base: Bits2, pos: Bits2)
    | UpdUnlock(n: nat, args: Args, enqueue: bool)
    | UpdJob(n: nat, args: Args)
    | DropFlag(n: nat)
    | Route(n: nat, h: nat, origin: Origin)
    | Push(n: nat, h: nat, origin: Origin, phase: Phase)
    | GiveBack(n: nat, h: nat, origin: Origin)
    | Wake(n: nat, h: nat, origin: Origin)
    | Release(n: nat, h: nat)

  // ---------- the poller ----------

  /** Who called `dequeue_node`: `poll`, with its locals, or the destructor. `requeued` is auxiliary: the nodes
      this pass has put back. */
  datatype Ctx = InPass(until: Ptr, len: nat, cap: nat, requeued: set<nat>) | InDrop

  datatype After =
    | ToRetry(c: Ctx)
    | ToDeliver(n: nat, ready: Bits4, pos: Bits2, want: int, c: Ctx)
    | ToDrain

  /** `want` is auxiliary: the token of the last `update` before the state the poller acted on. */
  datatype PollerPc =
    | Outside
    | PrepTail
    | PrepSwap
    | Select(sleeping: bool)
    | Cleanup
    | PassReady
    | ClearReset(c: Ctx)
    | ClearSwap(c: Ctx)
    | DqLoad(c: Ctx)
    | DqMarker(c: Ctx)
    | DqHead(c: Ctx)
    | DqRetry(c: Ctx)
    | PPush(p: Ptr, phase: Phase, after: After)
    | NodeLoad(p: Ptr, c: Ctx)
    | NodeSwap(n: nat, seen: Word, want: int, c: Ctx)
    | Deliver(n: nat, ready: Bits4, pos: Bits2, want: int, c: Ctx)
    | Drain(p: Ptr)
    | Dead

  datatype Event = Event(n: nat, ready: Bits4, token: int, job: int)

  /** `pipe` says that the awakener's pipe holds a byte. `waker` is auxiliary: the thread whose head swap replaced the
      sleep marker and that has not run `wakeup` yet. `events` is everything ever pushed to a batch, `jobsPushed` the
      jobs of `enqueue_job` in the order of their head swaps, `jobsDelivered` those that reached a batch. */
  datatype State = State(q: Queue, nodes: map<nat, ReadinessNode>, threads: map<nat, Pc>, poller: PollerPc,
                         pipe: bool, waker: Option<nat>, events: seq<Event>,
                         jobsPushed: seq<int>, jobsDelivered: seq<int>)

  const INIT := State(MarkerQueue.EMPTY, map[], map[], Outside, false, None, [], [], [])

  // ---------- pieces of steps ----------

  function Finish(n: nat, h: nat, origin: Origin): Option<Pc> {
    match origin
    case FromSet(Return) => None
    case FromSet(Register(args)) => Some(UpdBind(n, args))
    case FromUpdate => None
    case FromDrop => Some(Release(n, h))
  }

  function Goto(s: State, t: nat, pc: Option<Pc>): State {
    s.(threads := if pc.Some? then s.threads[t := pc.value] else s.threads - {t})
  }

  function Put(s: State, n: nat, node: ReadinessNode): State {
    s.(nodes := s.nodes[n := node])
  }

  /** `release_node` on the queue's reference: the node is freed with its last reference. */
  function ReleaseQueueRef(s: State, n: nat): State
    requires n in s.nodes
  {
    var node := s.nodes[n];
    if node.refs == 1 then s.(nodes := s.nodes - {n})
    else Put(s, n, node.(refs := node.refs - 1, qref := Released, slot := Spent))
  }

  /** `release_node` on handle `h`. */
  function ReleaseHandle(s: State, n: nat, h: nat): State
    requires n in s.nodes
  {
    var node := s.nodes[n];
    if node.refs == 1 then s.(nodes := s.nodes - {n})
    else Put(s, n, node.(refs := node.refs - 1, handles := node.handles - {h}))
  }

  // ---------- thread steps ----------

  predicate Runs(s: State, t: nat) {
    t in s.threads && s.threads[t].n in s.nodes
  }

  predicate Updates(pc: Pc) {
    pc.UpdBind? || pc.UpdCount? || pc.UpdLock? || pc.UpdLoad? || pc.UpdToken? || pc.UpdSwap? || pc.UpdUnlock?
    || pc.UpdJob?
  }

  /** Steps that touch nothing but one node: what becomes of the node, and where the thread goes. */
  datatype Outcome = Outcome(node: ReadinessNode, pc: Option<Pc>)

  predicate IsLocal(pc: Pc) {
    pc.SetLoad? || pc.SetSwap? || Updates(pc) || pc.DropFlag? || pc.Route?
  }

  /** A successful compare-exchange in `set_readiness` (lines 803-815). */
  function SetReadiness(node: ReadinessNode, t: nat, pc: Pc): Outcome
    requires pc.SetSwap?
  {
    var next := WithReadiness(pc.seen, pc.ready);
    var changed := node.(word := next, unseen := Signals(next));
    if !pc.seen.queued && next.queued then
      Outcome(changed.(slot := Pushing(t)), Some(Route(pc.n, pc.h, FromSet(pc.follow))))
    else Outcome(changed, Finish(pc.n, pc.h, FromSet(pc.follow)))
  }

  /** A successful compare-exchange in `update` (lines 873-882). */
  function Reregister(node: ReadinessNode, t: nat, pc: Pc): Outcome
    requires pc.UpdSwap?
  {
    var next := WithRegistration(pc.seen, pc.pos, pc.args.interest, pc.args.opt);
    var changed := node.(word := next, unseen := Signals(next), current := pc.args.token);
    if !pc.seen.queued && next.queued then
      Outcome(changed.(slot := Pushing(t)), Some(UpdUnlock(pc.n, pc.args, true)))
    else Outcome(changed, Some(UpdUnlock(pc.n, pc.args, false)))
  }

  function SetStep(node: ReadinessNode, t: nat, pc: Pc): Outcome
    requires pc.SetLoad? || pc.SetSwap?
  {
    match pc
    case SetLoad(n, h, ready, follow) => Outcome(node, Some(SetSwap(n, h, ready, follow, node.word)))
    case SetSwap(n, h, ready, follow, seen) =>
      if seen.dropped then Outcome(node, Finish(n, h, FromSet(follow)))
      else if node.word != seen then Outcome(node, Some(SetSwap(n, h, ready, follow, node.word)))
      else SetReadiness(node, t, pc)
  }

  function UpdateStep(node: ReadinessNode, t: nat, pc: Pc): Outcome
    requires Updates(pc)
  {
    match pc
    case UpdBind(n, args) =>
      if !node.bound then Outcome(node.(bound := true, qref := Counting(t)), Some(UpdCount(n, args)))
      else Outcome(node, Some(UpdLock(n, args)))
    case UpdCount(n, args) =>
      Outcome(node.(refs := node.refs + 1, qref := Held), Some(UpdLock(n, args)))
    case UpdLock(n, args) =>
      if node.locked then Outcome(node, None)
      else Outcome(node.(locked := true, holder := t), Some(UpdLoad(n, args)))
    case UpdLoad(n, args) =>
      var seen := node.word;
      if args.token == node.Token(seen.wr) then Outcome(node, Some(UpdSwap(n, args, seen, seen.wr, seen.wr)))
      else Outcome(node, Some(UpdToken(n, args, seen)))
    case UpdToken(n, args, seen) =>
      if !PositionsOk(seen) then Outcome(node, Some(pc)) else
        var pos := NextTokenPos(seen);
        Outcome(node.WithToken(pos, args.token), Some(UpdSwap(n, args, seen, seen.wr, pos)))
    case UpdSwap(n, args, seen, base, pos) =>
      if node.word != seen then Outcome(node, Some(UpdSwap(n, args, node.word, base, pos)))
      else Reregister(node, t, pc)
    case UpdUnlock(n, args, enqueue) =>
      Outcome(node.(locked := false), if enqueue then Some(UpdJob(n, args)) else None)
    case UpdJob(n, args) =>
      Outcome(node.(job := args.job), Some(Push(n, 0, FromUpdate, Reset)))
  }

  /** `flag_as_dropped`, and the test of `readiness_queue` in `enqueue_with_wakeup`. */
  function RouteStep(node: ReadinessNode, t: nat, pc: Pc): Outcome
    requires pc.DropFlag? || pc.Route?
  {
    match pc
    case DropFlag(n) =>
      var flagged := node.(word := FlaggedDropped(node.word));
      if node.word.queued then Outcome(flagged, Some(Release(n, 0)))
      else Outcome(flagged.(slot := Pushing(t)), Some(Route(n, 0, FromDrop)))
    case Route(n, h, origin) =>
      if node.bound then Outcome(node, Some(Push(n, h, origin, Reset)))
      else Outcome(node.(slot := Spent), Finish(n, h, origin))
  }

  function LocalStep(node: ReadinessNode, t: nat, pc: Pc): Outcome
    requires IsLocal(pc)
  {
    if pc.SetLoad? || pc.SetSwap? then SetStep(node, t, pc)
    else if Updates(pc) then UpdateStep(node, t, pc)
    else RouteStep(node, t, pc)
  }

  /** `wakeup` and `release_node`. */
  function ReleaseStep(s: State, t: nat): State
    requires Runs(s, t) && (s.threads[t].GiveBack? || s.threads[t].Wake? || s.threads[t].Release?)
  {
    match s.threads[t]
    case GiveBack(n, h, origin) =>
      Goto(ReleaseQueueRef(s, n), t, Finish(n, h, origin))
    case Wake(n, h, origin) =>
      Goto(s.(pipe := true, waker := if s.waker == Some(t) then None else s.waker), t, Finish(n, h, origin))
    case Release(n, h) =>
      Goto(ReleaseHandle(s, n, h), t, None)
  }

  /** Auxiliary: the head swap puts the node in the list. */
  function InList(node: ReadinessNode): ReadinessNode {
    node.(slot := Listed, plan := if node.plan.Making? then Waiting(node.plan.job) else node.plan)
  }

  /** `enqueue_node` by a handle's thread. */
  function PushStep(s: State, t: nat): State
    requires Runs(s, t) && s.threads[t].Push?
  {
    var Push(n, h, origin, phase) := s.threads[t];
    var node := s.nodes[n];
    match phase
    case Reset => Goto(s.(q := ResetLink(s.q, Node(n))), t, Some(Push(n, h, origin, Load)))
    case Load => Goto(s, t, Some(Push(n, h, origin, Swap(s.q.head))))
    case Swap(prev) =>
      if prev == Closed then Goto(s, t, Some(GiveBack(n, h, origin)))
      else if s.q.head != prev then Goto(s, t, Some(Push(n, h, origin, Swap(s.q.head))))
      else
        var listed := Put(s, n, InList(node));
        var counted := if node.plan.Making? then listed.(jobsPushed := s.jobsPushed + [node.plan.job]) else listed;
        Goto(counted.(q := SwapHead(s.q, Node(n), Producer(t)), waker := if prev == Sleep then Some(t) else s.waker),
             t, Some(Push(n, h, origin, Link(prev))))
    case Link(prev) =>
      Goto(s.(q := StoreLink(s.q, prev, Node(n))), t,
           if prev == Sleep then Some(Wake(n, h, origin)) else Finish(n, h, origin))
  }

  function ThreadStep(s: State, t: nat): State
    requires Runs(s, t)
  {
    var pc := s.threads[t];
    if IsLocal(pc) then
      var outcome := LocalStep(s.nodes[pc.n], t, pc);
      Goto(Put(s, pc.n, outcome.node), t, outcome.pc)
    else if pc.Push? then PushStep(s, t)
    else ReleaseStep(s, t)
  }

  // ---------- poller steps ----------

  /** `dequeue_node` returned `Empty`, or `poll` broke out of its loop. */
  function Leave(c: Ctx): PollerPc {
    if c.InPass? then Outside else Dead
  }

  /** `dequeue_node` returned `Inconsistent`. */
  function Inconsistent(c: Ctx): PollerPc {
    if c.InPass? then Outside else DqLoad(c)
  }

  /** `dequeue_node` returned `Data(p)`. */
  function Got(p: Ptr, c: Ctx): PollerPc {
    if c.InPass? then NodeLoad(p, c) else Drain(p)
  }

  /** The head of the loop in `poll`. */
  function Again(c: Ctx): PollerPc {
    if c.InPass? && c.cap <= c.len then Outside else DqLoad(c)
  }

  function Resume(after: After): PollerPc {
    match after
    case ToRetry(c) => DqRetry(c)
    case ToDeliver(n, ready, pos, want, c) => Deliver(n, ready, pos, want, c)
    case ToDrain => DqLoad(InDrop)
  }

  function Requeue(c: Ctx, n: nat): Ctx {
    match c
    case InPass(until, len, cap, requeued) =>
      InPass(if until == Null then Node(n) else until, len, cap, requeued + {n})
    case InDrop => c
  }

  /** `prepare_for_sleep`. */
  function PrepareStep(s: State): State
    requires s.poller.PrepTail? || s.poller.PrepSwap?
  {
    if s.poller.PrepTail? then
      if s.q.tail == Sleep then s.(poller := Select(s.q.head == Sleep))
      else if s.q.tail != End then s.(poller := Select(false))
      else s.(q := ResetLink(s.q, Sleep), poller := PrepSwap)
    else if s.q.head == End then s.(q := ReplaceMarker(s.q, Sleep), poller := Select(true))
    else s.(poller := Select(false))
  }

  /** `dequeue_node`, except for its push of the end marker, and `clear_sleep_marker`. */
  function DequeueStep(s: State): State
    requires s.poller.DqLoad? || s.poller.DqMarker? || s.poller.DqHead? || s.poller.DqRetry?
             || s.poller.ClearReset? || s.poller.ClearSwap?
  {
    var q := s.q;
    var next := q.Next(q.tail);
    match s.poller
    case DqLoad(c) =>
      if Marker(q.tail) then
        if next == Null then s.(poller := if q.tail == Sleep then ClearReset(c) else Leave(c))
        else s.(q := Advance(q), poller := DqMarker(c))
      else if c.InPass? && q.tail == c.until then s.(poller := Leave(c))
      else if next != Null then s.(q := Advance(q), poller := Got(q.tail, c), nodes := Processed(s.nodes, q.tail))
      else s.(poller := DqHead(c))
    case DqMarker(c) =>
      if c.InPass? && q.tail == c.until then s.(poller := Leave(c))
      else if next != Null then s.(q := Advance(q), poller := Got(q.tail, c), nodes := Processed(s.nodes, q.tail))
      else s.(poller := DqHead(c))
    case DqHead(c) =>
      if q.head != q.tail then s.(poller := Inconsistent(c))
      else s.(poller := PPush(End, Reset, ToRetry(c)))
    case DqRetry(c) =>
      if next != Null then s.(q := Advance(q), poller := Got(q.tail, c), nodes := Processed(s.nodes, q.tail))
      else s.(poller := Inconsistent(c))
    case ClearReset(c) => s.(q := ResetLink(q, End), poller := ClearSwap(c))
    case ClearSwap(c) =>
      if q.head == Sleep then s.(q := ReplaceMarker(q, End), poller := Leave(c)) else s.(poller := Leave(c))
  }

  /** Auxiliary: the node just taken off the list is the poller's. */
  function Processed(nodes: map<nat, ReadinessNode>, p: Ptr): map<nat, ReadinessNode> {
    if p.Node? && p.id in nodes then nodes[p.id := nodes[p.id].(slot := Processing)] else nodes
  }

  /** `enqueue_node` by the poller: the end marker, a level-triggered node, or the closed marker. */
  function PollerPushStep(s: State): State
    requires s.poller.PPush?
  {
    var PPush(p, phase, after) := s.poller;
    match phase
    case Reset => s.(q := ResetLink(s.q, p), poller := PPush(p, Load, after))
    case Load => s.(poller := PPush(p, Swap(s.q.head), after))
    case Swap(prev) =>
      if prev == Closed then
        (if p.Node? && p.id in s.nodes then ReleaseQueueRef(s, p.id).(poller := Resume(after))
         else s.(poller := Resume(after)))
      else if s.q.head != prev then s.(poller := PPush(p, Swap(s.q.head), after))
      else
        s.(q := SwapHead(s.q, p, Poller), poller := PPush(p, Link(prev), after),
           nodes := if p.Node? && p.id in s.nodes then s.nodes[p.id := s.nodes[p.id].(slot := Listed)] else s.nodes)
    case Link(prev) => s.(q := StoreLink(s.q, prev, p), poller := Resume(after))
  }

  predicate NodeReady(s: State) {
    || (s.poller.NodeLoad? && s.poller.p.Node? && s.poller.p.id in s.nodes)
    || ((s.poller.NodeSwap? || s.poller.Deliver?) && s.poller.n in s.nodes)
  }

  /** One turn of the loop in `poll` on the node in hand. */
  function NodeStep(s: State): State
    requires NodeReady(s)
  {
    match s.poller
    case NodeLoad(p, c) =>
      s.(poller := NodeSwap(p.id, s.nodes[p.id].word, s.nodes[p.id].current, c))
    case NodeSwap(n, seen, want, c) =>
      var node := s.nodes[n];
      var next := AfterPoll(seen);
      if seen.dropped then ReleaseQueueRef(s, n).(poller := Again(c))
      else if next == seen then s.(poller := Proceed(n, seen, want, c))
      else if node.word != seen then s.(poller := NodeSwap(n, node.word, node.current, c))
      else
        Put(s, n, node.(word := next, unseen := false, slot := if next.queued then Processing else Idle))
        .(poller := Proceed(n, seen, node.current, c))
    case Deliver(n, ready, pos, want, c) =>
      var node := s.nodes[n];
      if ready == 0 then s.(poller := Again(c))
      else
        var done := if node.plan.Waiting? then Handed else node.plan;
        Put(s, n, node.(job := NO_JOB, plan := done))
        .(events := s.events + [Event(n, ready, node.Token(pos), node.job)],
          jobsDelivered := if node.plan.Waiting? then s.jobsDelivered + [node.job] else s.jobsDelivered,
          poller := Again(if c.InPass? then c.(len := c.len + 1) else c))
  }

  function Proceed(n: nat, seen: Word, want: int, c: Ctx): PollerPc {
    var next := AfterPoll(seen);
    if next.queued then
      PPush(Node(n), Reset, ToDeliver(n, Effective(seen), next.rd, want, Requeue(c, n)))
    else Deliver(n, Effective(seen), next.rd, want, c)
  }

  // ---------- the machine ----------

  /** Does the thread borrow handle `h` of node `n`? */
  predicate Borrows(pc: Pc, n: nat, h: nat) {
    pc.n == n && (HandleOf(pc) == h || (h == 0 && WillRegister(pc)))
  }

  function HandleOf(pc: Pc): nat {
    match pc
    case SetLoad(_, h, _, _) => h
    case SetSwap(_, h, _, _, _) => h
    case Route(_, h, _) => h
    case Push(_, h, _, _) => h
    case GiveBack(_, h, _) => h
    case Wake(_, h, _) => h
    case Release(_, h) => h
    case _ => 0
  }

  predicate WillRegister(pc: Pc) {
    match pc
    case SetLoad(_, _, _, follow) => follow.Register?
    case SetSwap(_, _, _, follow, _) => follow.Register?
    case Route(_, _, origin) => origin.FromSet? && origin.follow.Register?
    case Push(_, _, origin, _) => origin.FromSet? && origin.follow.Register?
    case GiveBack(_, _, origin) => origin.FromSet? && origin.follow.Register?
    case Wake(_, _, origin) => origin.FromSet? && origin.follow.Register?
    case _ => false
  }

  /** Inside `update` or `enqueue_job`, a thread borrows the `Poll`. */
  predicate BorrowsPoll(pc: Pc) {
    || Updates(pc)
    || WillRegister(pc)
    || ((pc.Route? || pc.Push? || pc.GiveBack? || pc.Wake?) && pc.origin.FromUpdate?)
  }

  /** The destructor of the queue has begun. */
  predicate Closing(pc: PollerPc) {
    match pc
    case ClearReset(c) => c.InDrop?
    case ClearSwap(c) => c.InDrop?
    case DqLoad(c) => c.InDrop?
    case DqMarker(c) => c.InDrop?
    case DqHead(c) => c.InDrop?
    case DqRetry(c) => c.InDrop?
    case PPush(p, _, after) => after.ToDrain? || (after.ToRetry? && after.c.InDrop?)
    case Drain(_) => true
    case Dead => true
    case _ => false
  }

  datatype Label =
    | New2(n: nat)
    | NewPriv(n: nat, token: int, interest: Bits4, opt: Bits4)
    | EnqueueJob(t: nat, n: nat, job: int)
    | Clone(n: nat, h: nat, copy: nat)
    | CallSet(t: nat, n: nat, h: nat, ready: Bits4)
    | CallUpdate(t: nat, n: nat, args: Args)
    | CallDropRegistration(t: nat, n: nat)
    | CallDropSetReadiness(t: nat, n: nat, h: nat)
    | StepThread(t: nat)
    | PollNoWait
    | PollWait
    | SelectNotified
    | SelectOther
    | SelectFails
    | CleanPipe
    | BeginPass(len: nat, cap: nat)
    | StepPoller
    | DropPoll

  /** A node just allocated: `Registration::new2` (line 955) or `new_priv` (line 984). */
  function FreshNode(word: Word, token: int, bound: bool, plan: Plan): ReadinessNode {
    ReadinessNode(word, token, DEFAULT_TOKEN, DEFAULT_TOKEN, false, bound, if bound then 3 else 2, NO_JOB,
                  map[0 := Live, 1 := Live], if bound then Held else Unbound, Idle, 0, token, false, plan)
  }

  predicate Enabled(s: State, l: Label) {
    match l
    case New2(n) => n !in s.nodes
    case NewPriv(n, _, _, _) => n !in s.nodes && !Closing(s.poller)
    case EnqueueJob(t, n, job) => job != NO_JOB && t !in s.threads && n !in s.nodes && !Closing(s.poller)
    case Clone(n, h, copy) =>
      && n in s.nodes && h != 0 && h in s.nodes[n].handles && s.nodes[n].handles[h].Live?
      && copy !in s.nodes[n].handles && copy != 0 && s.nodes[n].plan.Shared?
    case CallSet(t, n, h, _) =>
      && t !in s.threads
      && n in s.nodes && h != 0 && h in s.nodes[n].handles && s.nodes[n].handles[h].Live? && s.nodes[n].plan.Shared?
    case CallUpdate(t, n, _) =>
      && t !in s.threads && !Closing(s.poller)
      && n in s.nodes && 0 in s.nodes[n].handles && s.nodes[n].handles[0].Live? && s.nodes[n].plan.Shared?
    case CallDropRegistration(t, n) =>
      && t !in s.threads
      && n in s.nodes && 0 in s.nodes[n].handles && s.nodes[n].handles[0].Live?
      && (s.nodes[n].plan.Shared? || s.nodes[n].plan.Handed?)
      && (forall u :: u in s.threads ==> !Borrows(s.threads[u], n, 0))
    case CallDropSetReadiness(t, n, h) =>
      && t !in s.threads
      && n in s.nodes && h != 0 && h in s.nodes[n].handles && s.nodes[n].handles[h].Live?
      && (s.nodes[n].plan.Shared? || s.nodes[n].plan.Handed?)
      && (forall u :: u in s.threads ==> !Borrows(s.threads[u], n, h))
    case StepThread(t) => Runs(s, t)
    case PollNoWait => s.poller == Outside
    case PollWait => s.poller == Outside
    case SelectNotified => s.poller.Select? && s.pipe
    case SelectOther => s.poller.Select?
    case SelectFails => s.poller.Select?
    case CleanPipe => s.poller == Cleanup
    case BeginPass(len, cap) => s.poller == PassReady && len <= cap
    case StepPoller =>
      || s.poller.PrepTail? || s.poller.PrepSwap?
      || s.poller.DqLoad? || s.poller.DqMarker? || s.poller.DqHead? || s.poller.DqRetry?
      || s.poller.ClearReset? || s.poller.ClearSwap? || s.poller.PPush?
      || NodeReady(s)
      || (s.poller.Drain? && s.poller.p.Node? && s.poller.p.id in s.nodes)
    case DropPoll => s.poller == Outside && (forall u :: u in s.threads ==> !BorrowsPoll(s.threads[u]))
  }

  function StepOfPoller(s: State): State
    requires Enabled(s, StepPoller)
  {
    if s.poller.PrepTail? || s.poller.PrepSwap? then PrepareStep(s)
    else if s.poller.PPush? then PollerPushStep(s)
    else if s.poller.NodeLoad? || s.poller.NodeSwap? || s.poller.Deliver? then NodeStep(s)
    else if s.poller.Drain? then ReleaseQueueRef(s, s.poller.p.id).(poller := DqLoad(InDrop))
    else DequeueStep(s)
  }

  function Do(s: State, l: Label): State
    requires Enabled(s, l)
  {
    match l
    case New2(n) => Put(s, n, FreshNode(Fresh(0, 0), DEFAULT_TOKEN, false, Shared)).(q := ResetLink(s.q, Node(n)))
    case NewPriv(n, token, interest, opt) =>
      Put(s, n, FreshNode(Fresh(interest, opt), token, true, Shared)).(q := ResetLink(s.q, Node(n)))
    case EnqueueJob(t, n, job) =>
      Goto(Put(s, n, FreshNode(Fresh(0, 0), DEFAULT_TOKEN, false, Making(job, t))).(q := ResetLink(s.q, Node(n))),
           t, Some(SetLoad(n, 1, READABLE, Register(JobArgs(job)))))
    case Clone(n, h, copy) =>
      var node := s.nodes[n];
      Put(s, n, node.(refs := node.refs + 1, handles := node.handles[copy := Live]))
    case CallSet(t, n, h, ready) => Goto(s, t, Some(SetLoad(n, h, ready, Return)))
    case CallUpdate(t, n, args) => Goto(s, t, Some(UpdBind(n, args)))
    case CallDropRegistration(t, n) =>
      Goto(Put(s, n, s.nodes[n].(handles := s.nodes[n].handles[0 := Dropping(t)])), t, Some(DropFlag(n)))
    case CallDropSetReadiness(t, n, h) =>
      Goto(Put(s, n, s.nodes[n].(handles := s.nodes[n].handles[h := Dropping(t)])), t, Some(Release(n, h)))
    case StepThread(t) => ThreadStep(s, t)
    case PollNoWait => s.(poller := Select(false))
    case PollWait => s.(poller := PrepTail)
    case SelectNotified => s.(poller := Cleanup)
    case SelectOther => s.(poller := PassReady)
    case SelectFails => s.(poller := Outside)
    case CleanPipe => s.(pipe := false, poller := PassReady)
    case BeginPass(len, cap) =>
      var c := InPass(Null, len, cap, {});
      s.(poller := if len < cap then DqLoad(c) else if s.q.tail == Sleep then ClearReset(c) else Leave(c))
    case StepPoller => StepOfPoller(s)
    case DropPoll => s.(poller := PPush(Closed, Reset, ToDrain))
  }

  /** A run: states and the labels between them. */
  ghost predicate Run(states: seq<State>, labels: seq<Label>) {
    && |states| == |labels| + 1
    && states[0] == INIT
    && forall i :: 0 <= i < |labels| ==> Enabled(states[i], labels[i]) && states[i + 1] == Do(states[i], labels[i])
  }
}
