/** One thread's view of the readiness queue (src/poll.rs:326-557): the methods as they are written, with their loops,
    while no producer interferes. A pass over the queue is `Pass`, a function of the list and the nodes. */
module PollPass {
  import opened Lists
  import opened Options
  import opened ReadinessWord
  import opened MarkerQueue
  import opened Readiness

  // ---------- what a pass does ----------

  /** The turn of the loop of `poll` for one node: what becomes of it, whether it goes back into the queue, and the
      event it yields. */
  datatype Turn = Turn(nodes: map<nat, ReadinessNode>, back: bool, event: Option<Event>)

  function AfterRelease(nodes: map<nat, ReadinessNode>, n: nat): map<nat, ReadinessNode>
    requires n in nodes
  {
    if nodes[n].refs == 1 then nodes - {n} else nodes[n := nodes[n].(refs := nodes[n].refs - 1)]
  }

  function TurnOf(nodes: map<nat, ReadinessNode>, n: nat): Turn
    requires n in nodes
  {
    var node := nodes[n];
    if node.word.dropped then Turn(AfterRelease(nodes, n), false, None)
    else
      var next := AfterPoll(node.word);
      var seen := node.(word := next);
      if Signals(node.word) then
        Turn(nodes[n := seen][n := seen.(job := NO_JOB)], next.queued,
             Some(Event(n, Effective(node.word), node.Token(next.rd), node.job)))
      else Turn(nodes[n := seen], next.queued, None)
  }

  /** The whole pass: `rest` is what the full batch leaves unvisited, `back` what is put back behind it. */
  datatype PassResult = PassResult(events: seq<Event>, back: seq<nat>, rest: seq<nat>, nodes: map<nat, ReadinessNode>)

  function Pass(nodes: map<nat, ReadinessNode>, todo: seq<nat>, room: nat): PassResult
    decreases todo
  {
    if todo == [] || room == 0 || todo[0] !in nodes then PassResult([], [], todo, nodes)
    else
      var turn := TurnOf(nodes, todo[0]);
      var r := Pass(turn.nodes, todo[1..], if turn.event.Some? then room - 1 else room);
      PassResult((if turn.event.Some? then [turn.event.value] else []) + r.events,
                 (if turn.back then [todo[0]] else []) + r.back, r.rest, r.nodes)
  }

  /** Whether a node in the queue yields an event. */
  predicate Ready(nodes: map<nat, ReadinessNode>, n: nat) {
    n in nodes && !nodes[n].word.dropped && Signals(nodes[n].word)
  }

  function ReadyOnes(nodes: map<nat, ReadinessNode>, todo: seq<nat>): seq<nat> {
    if todo == [] then []
    else (if Ready(nodes, todo[0]) then [todo[0]] else []) + ReadyOnes(nodes, todo[1..])
  }

  function Ids(events: seq<Event>): seq<nat> {
    seq(|events|, i requires 0 <= i < |events| => events[i].n)
  }

  lemma TurnLeavesOthers(nodes: map<nat, ReadinessNode>, n: nat, m: nat)
    requires n in nodes && m != n
    ensures m in TurnOf(nodes, n).nodes <==> m in nodes
    ensures m in nodes ==> TurnOf(nodes, n).nodes[m] == nodes[m]
  {
  }

  lemma {:induction false} ReadyOnesSame(nodes: map<nat, ReadinessNode>, nodes': map<nat, ReadinessNode>,
                                         todo: seq<nat>)
    requires forall n :: n in todo ==> (Ready(nodes', n) <==> Ready(nodes, n))
    ensures ReadyOnes(nodes', todo) == ReadyOnes(nodes, todo)
  {
    if todo != [] {
      ReadyOnesSame(nodes, nodes', todo[1..]);
    }
  }

  /** A turn yields an event exactly for a ready node, and the event is its own. */
  lemma TurnEvent(nodes: map<nat, ReadinessNode>, n: nat)
    requires n in nodes
    ensures TurnOf(nodes, n).event.Some? <==> Ready(nodes, n)
    ensures Ready(nodes, n) ==> TurnOf(nodes, n).event.value.n == n
  {
  }

  /** What a pass may deliver: the first ready nodes of the list, as many as there is room for, and less only if there
      are no more. */
  ghost predicate DeliversReady(ready: seq<nat>, room: nat, r: PassResult) {
    && Ids(r.events) <= ready && |r.events| <= room
    && (r.rest != [] ==> |r.events| == room)
    && (r.rest == [] ==> Ids(r.events) == ready)
  }

  lemma DeliversOneMore(ready: seq<nat>, room: nat, r: PassResult, event: Event, back: seq<nat>)
    requires room > 0 && DeliversReady(ready, room - 1, r)
    ensures DeliversReady([event.n] + ready, room, PassResult([event] + r.events, back, r.rest, r.nodes))
  {
    assert Ids([event] + r.events) == [event.n] + Ids(r.events);
  }

  lemma DeliversNoMore(ready: seq<nat>, room: nat, r: PassResult, back: seq<nat>)
    requires DeliversReady(ready, room, r)
    ensures DeliversReady([] + ready, room, PassResult([] + r.events, back, r.rest, r.nodes))
  {
    assert [] + r.events == r.events && [] + ready == ready;
  }

  lemma DeliversNothing(ready: seq<nat>, room: nat, todo: seq<nat>, nodes: map<nat, ReadinessNode>)
    requires (todo == [] ==> ready == []) && (todo == [] || room == 0)
    ensures DeliversReady(ready, room, PassResult([], [], todo, nodes))
  {
  }

  /** The nodes behind the one visited are as they were. */
  lemma RestAsBefore(nodes: map<nat, ReadinessNode>, todo: seq<nat>)
    requires todo != [] && Distinct(todo) && forall n :: n in todo ==> n in nodes
    ensures var turn := TurnOf(nodes, todo[0]); var rest := todo[1..];
            && Distinct(rest)
            && (forall m :: m in rest ==> m in turn.nodes && turn.nodes[m] == nodes[m])
            && ReadyOnes(turn.nodes, rest) == ReadyOnes(nodes, rest)
  {
    var rest := todo[1..];
    assert forall i :: 0 <= i < |rest| ==> rest[i] == todo[i + 1];
    forall m | m in rest
      ensures m in TurnOf(nodes, todo[0]).nodes && TurnOf(nodes, todo[0]).nodes[m] == nodes[m]
    {
      TurnLeavesOthers(nodes, todo[0], m);
    }
    ReadyOnesSame(nodes, TurnOf(nodes, todo[0]).nodes, rest);
  }

  /** A pass delivers each node at most once, in queue order: the first ready ones of the queue up to the room there is;
      and it stops early only when the batch is full. */
  lemma {:induction false} PassDeliversReady(nodes: map<nat, ReadinessNode>, todo: seq<nat>, room: nat)
    requires Distinct(todo) && forall n :: n in todo ==> n in nodes
    ensures DeliversReady(ReadyOnes(nodes, todo), room, Pass(nodes, todo, room))
    decreases todo
  {
    if todo == [] || room == 0 {
      DeliversNothing(ReadyOnes(nodes, todo), room, todo, nodes);
    } else {
      var n, rest := todo[0], todo[1..];
      var turn := TurnOf(nodes, n);
      var room' := if turn.event.Some? then room - 1 else room;
      RestAsBefore(nodes, todo);
      PassDeliversReady(turn.nodes, rest, room');
      PassStep(nodes, todo, room, turn, room');
      TurnEvent(nodes, n);
      var r, back := Pass(turn.nodes, rest, room'), Pass(nodes, todo, room).back;
      if turn.event.Some? {
        DeliversOneMore(ReadyOnes(nodes, rest), room, r, turn.event.value, back);
      } else {
        DeliversNoMore(ReadyOnes(nodes, rest), room, r, back);
      }
    }
  }

  predicate Level(nodes: map<nat, ReadinessNode>, n: nat) {
    Ready(nodes, n) && !IsEdge(nodes[n].word)
  }

  function LevelOnes(nodes: map<nat, ReadinessNode>, visited: seq<nat>): seq<nat> {
    if visited == [] then []
    else (if Level(nodes, visited[0]) then [visited[0]] else []) + LevelOnes(nodes, visited[1..])
  }

  lemma {:induction false} LevelOnesSame(nodes: map<nat, ReadinessNode>, nodes': map<nat, ReadinessNode>,
                                         visited: seq<nat>)
    requires forall n :: n in visited ==> (Level(nodes', n) <==> Level(nodes, n))
    ensures LevelOnes(nodes', visited) == LevelOnes(nodes, visited)
  {
    if visited != [] {
      LevelOnesSame(nodes, nodes', visited[1..]);
    }
  }

  /** The list is what has been visited and what the pass leaves; and what it puts back are the level-triggered ready
      nodes among the former, in their order. */
  ghost predicate PutsBack(nodes: map<nat, ReadinessNode>, todo: seq<nat>, visited: seq<nat>, r: PassResult) {
    todo == visited + r.rest && r.back == LevelOnes(nodes, visited)
  }

  lemma TurnBack(nodes: map<nat, ReadinessNode>, n: nat)
    requires n in nodes && nodes[n].word.queued
    ensures TurnOf(nodes, n).back <==> Level(nodes, n)
  {
  }

  lemma PutsBackOneMore(nodes: map<nat, ReadinessNode>, n: nat, rest: seq<nat>, visited: seq<nat>, r: PassResult,
                        events: seq<Event>)
    requires PutsBack(nodes, rest, visited, r)
    ensures PutsBack(nodes, [n] + rest, [n] + visited,
                     PassResult(events, (if Level(nodes, n) then [n] else []) + r.back, r.rest, r.nodes))
  {
    assert ([n] + visited)[1..] == visited;
  }

  /** Exactly the level-triggered nodes that are ready go back into the queue, in their order. */
  lemma {:induction false} PassPutsBackLevel(nodes: map<nat, ReadinessNode>, todo: seq<nat>,
                                             room: nat) returns (visited: seq<nat>)
    requires Distinct(todo) && forall n :: n in todo ==> n in nodes && nodes[n].word.queued
    ensures PutsBack(nodes, todo, visited, Pass(nodes, todo, room))
    decreases todo
  {
    if todo == [] || room == 0 {
      visited := [];
      assert [] + todo == todo;
    } else {
      var n, rest := todo[0], todo[1..];
      var turn := TurnOf(nodes, n);
      var room' := if turn.event.Some? then room - 1 else room;
      RestAsBefore(nodes, todo);
      visited := PassPutsBackLevel(turn.nodes, rest, room');
      var r := Pass(turn.nodes, rest, room');
      VisitedAsBefore(nodes, turn.nodes, rest, visited, r);
      PassStep(nodes, todo, room, turn, room');
      TurnBack(nodes, n);
      PutsBackOneMore(nodes, n, rest, visited, r, Pass(nodes, todo, room).events);
      visited := [n] + visited;
      assert todo == [n] + rest;
    }
  }

  lemma VisitedAsBefore(nodes: map<nat, ReadinessNode>, nodes': map<nat, ReadinessNode>, rest: seq<nat>,
                        visited: seq<nat>, r: PassResult)
    requires PutsBack(nodes', rest, visited, r)
    requires forall m :: m in rest ==> m in nodes && m in nodes' && nodes'[m] == nodes[m]
    ensures PutsBack(nodes, rest, visited, r)
  {
    forall m | m in visited
      ensures Level(nodes', m) <==> Level(nodes, m)
    {
      assert m in rest;
    }
    LevelOnesSame(nodes, nodes', visited);
  }

  // ---------- the queue ----------

  datatype Dequeue = Data(n: nat) | Empty | Inconsistent

  datatype QueuePart = TheShape | TheLinks | TheMarkers | TheRecord

  ghost predicate QueueHolds(q: Queue, part: QueuePart) {
    match part
    case TheShape => Shape(q)
    case TheLinks => 0 < |q.chain| && Linked(q)
    case TheMarkers => 0 < |q.chain| && MarkersPlaced(q)
    case TheRecord => q.pushed == q.popped + MarkerQueue.Data(q.chain)
  }

  /** The invariant of the queue, part by part. */
  ghost predicate Sound(q: Queue) {
    forall part :: QueueHolds(q, part)
  }

  lemma SoundIsInv(q: Queue)
    ensures Sound(q) <==> MarkerQueue.Inv(q)
  {
    if Sound(q) {
      assert QueueHolds(q, TheShape) && QueueHolds(q, TheLinks) && QueueHolds(q, TheMarkers)
             && QueueHolds(q, TheRecord);
    } else {
      var part :| !QueueHolds(q, part);
    }
  }

  /** A push that nobody interrupts. */
  function Pushed(q: Queue, p: Ptr): Queue {
    q.(head := p, next := q.next[p := Null][q.head := p], chain := q.chain + [p],
       pushed := if p.Node? then q.pushed + [p.id] else q.pushed)
  }

  lemma PushedInv(q: Queue, p: Ptr)
    requires MarkerQueue.Inv(q) && q.owed == map[] && q.head != Closed
    requires p != Null && p != Sleep && p !in q.chain && (p == End ==> q.tail.Node?)
    ensures MarkerQueue.Inv(Pushed(q, p))
    ensures MarkerQueue.Data(Pushed(q, p).chain) == MarkerQueue.Data(q.chain) + (if p.Node? then [p.id] else [])
    ensures Pushed(q, p).Next(q.head) == p
  {
    var r := ResetLink(q, p);
    ResetLinkInv(q, p);
    SwapHeadInv(r, p, Poller);
    StoreLinkInv(SwapHead(r, p, Poller), q.head, p);
    assert q.owed[q.head := Owed(Poller, p)] - {q.head} == q.owed;
    assert StoreLink(SwapHead(r, p, Poller), q.head, p) == Pushed(q, p);
  }

  class ReadinessQueue {
    var head: Ptr
    var tail: Ptr
    var next: map<Ptr, Ptr>
    var nodes: map<nat, ReadinessNode>

    ghost var chain: seq<Ptr>
    ghost var pushed: seq<nat>
    ghost var popped: seq<nat>

    ghost function View(): Queue
      reads this
    {
      Queue(head, tail, next, chain, map[], pushed, popped)
    }

    /** The nodes in the queue, oldest first. */
    ghost function Contents(): seq<nat>
      reads this
    {
      MarkerQueue.Data(chain)
    }

    ghost predicate Valid()
      reads this
    {
      Sound(View())
    }

    constructor ()
      ensures Valid() && Contents() == [] && nodes == map[] && head == End && fresh(this)
    {
      head := End;
      tail := End;
      next := map[];
      nodes := map[];
      chain := [End];
      pushed := [];
      popped := [];
      new;
      EmptyInv();
      assert View() == MarkerQueue.EMPTY;
      SoundIsInv(View());
    }

    function NextOf(p: Ptr): Ptr
      reads this
    {
      if p in next then next[p] else Null
    }

    /** `enqueue_node`: whether the poller must be woken. On a closed queue the node is released instead. */
    method EnqueueNode(p: Ptr) returns (wake: bool)
      requires Valid() && p != Null && p != Sleep && p !in chain
      requires p == End && head != Closed ==> tail.Node?
      requires p == Closed ==> head != Closed
      requires p.Node? ==> p.id in nodes
      modifies this
      ensures Valid()
      ensures old(head) != Closed ==>
                && head == p && tail == old(tail) && chain == old(chain) + [p] && nodes == old(nodes)
                && Contents() == old(Contents()) + (if p.Node? then [p.id] else [])
                && wake == (old(head) == Sleep) && NextOf(old(head)) == p
      ensures old(head) == Closed ==>
                && !wake && chain == old(chain) && head == old(head) && tail == old(tail)
                && nodes == (if p.Node? then AfterRelease(old(nodes), p.id) else old(nodes))
    {
      SoundIsInv(View());
      ghost var q := View();
      next := next[p := Null];
      var prev := head;
      if prev == Closed {
        ResetLinkInv(q, p);
        assert View() == ResetLink(q, p);
        SoundIsInv(View());
        if p != End && p.Node? {
          nodes := AfterRelease(nodes, p.id);
        }
        return false;
      }
      head := p;
      next := next[prev := p];
      chain := chain + [p];
      pushed := if p.Node? then pushed + [p.id] else pushed;
      PushedInv(q, p);
      assert View() == Pushed(q, p);
      SoundIsInv(View());
      wake := prev == Sleep;
    }

    /** `clear_sleep_marker`: if the queue is only the sleep marker, it becomes only the end marker. */
    method ClearSleepMarker()
      requires Valid()
      modifies this
      ensures Valid() && nodes == old(nodes) && Contents() == old(Contents())
      ensures chain == (if old(chain) == [Sleep] then [End] else old(chain))
              && (head == Closed <==> old(head) == Closed)
    {
      SoundIsInv(View());
      if tail != Sleep {
        return;
      }
      ghost var q := View();
      next := next[End := Null];
      ResetLinkInv(q, End);
      assert View() == ResetLink(q, End);
      SoundIsInv(View());
      if head == Sleep {
        ghost var r := View();
        ReplaceMarkerInv(r, End);
        head := End;
        tail := End;
        chain := [End];
        assert View() == ReplaceMarker(r, End);
        SoundIsInv(View());
      }
    }

    /** `tail_readiness` moves on. */
    method MoveTail()
      requires Valid() && NextOf(tail) != Null
      modifies `tail, `chain, `popped
      ensures Valid() && 1 < |old(chain)| && chain == old(chain)[1..] && tail == chain[0] && old(tail) !in chain
      ensures old(Contents()) == (if old(tail).Node? then [old(tail).id] else []) + Contents()
    {
      SoundIsInv(View());
      ghost var q := View();
      AdvanceInv(q);
      tail := NextOf(tail);
      chain := chain[1..];
      popped := if q.tail.Node? then popped + [q.tail.id] else popped;
      assert View() == Advance(q);
      SoundIsInv(View());
    }

    /** `dequeue_node`. Without interference it hands out the oldest node, unless there is none or the oldest is
        `until`; it finds the queue inconsistent only in the destructor, on reaching the closed marker. */
    method DequeueNode(until: Ptr) returns (r: Dequeue)
      requires Valid() && (until == Null || until.Node?)
      modifies this
      ensures Valid() && nodes == old(nodes) && (old(head) == Closed <==> head == Closed)
      ensures TookOldest(old(chain), until, r, chain)
      ensures r == Inconsistent ==> chain == [Closed] && |old(chain)| > 1
    {
      SoundIsInv(View());
      assert chain[0] == tail;
      if tail == End || tail == Sleep || tail == Closed {
        if NextOf(tail) == Null {
          AloneIfNull(View());
          ClearSleepMarker();
          return Empty;
        }
        MoveTail();
        SoundIsInv(View());
        assert tail in chain;
      }
      r := DequeueTail(until);
    }

    /** Lines 393-409: the tail is the oldest node, or the closed marker. */
    method DequeueTail(until: Ptr) returns (r: Dequeue)
      requires Valid() && (until == Null || until.Node?) && (tail.Node? || tail == Closed)
      modifies this
      ensures Valid() && nodes == old(nodes) && (old(head) == Closed <==> head == Closed)
      ensures TookOldest(old(chain), until, r, chain)
      ensures r == Inconsistent ==> chain == [Closed] && old(tail) == Closed
    {
      SoundIsInv(View());
      var oldest := tail;
      if oldest == until {
        return Empty;
      }
      if NextOf(oldest) != Null {
        MoveTail();
        return Data(oldest.id);
      }
      AloneIfNull(View());
      if head != oldest {
        return Inconsistent;
      }
      var _ := EnqueueNode(End);
      if NextOf(oldest) != Null {
        MoveTail();
        return Data(oldest.id);
      }
      return Inconsistent;
    }

    /** One turn of the loop of `poll` (lines 461-503): the node's word is brought up to date, the node put back if it
        stays queued, and its event made. `until` is the first node put back. */
    method Visit(n: nat, until: Ptr) returns (until': Ptr, event: Option<Event>)
      requires Valid() && head != Closed && n in nodes && Node(n) !in chain
      modifies this
      ensures Valid() && head != Closed
      ensures var turn := TurnOf(old(nodes), n);
              && nodes == turn.nodes && event == turn.event
              && Contents() == old(Contents()) + (if turn.back then [n] else [])
              && until' == if turn.back && until == Null then Node(n) else until
    {
      until' := until;
      event := None;
      var state := nodes[n].word;
      if state.dropped {
        nodes := AfterRelease(nodes, n);
        return;
      }
      var readiness := Effective(state);
      var after := AfterPoll(state);
      nodes := nodes[n := nodes[n].(word := after)];
      if after.queued {
        if until == Null {
          until' := Node(n);
        }
        var _ := EnqueueNode(Node(n));
      }
      if readiness != 0 {
        event := Some(Event(n, readiness, nodes[n].Token(after.rd), nodes[n].job));
        nodes := nodes[n := nodes[n].(job := NO_JOB)];
      }
    }

    /** `poll`. In one pass every node that was in the queue is visited at most once, and one put back is not visited
        again: the pass does to the queue, the nodes and the batch what `Pass` says, and ends. */
    method Poll(dst: seq<Event>, capacity: nat) returns (events: seq<Event>)
      requires Valid() && head != Closed && |dst| <= capacity
      requires forall n :: n in Contents() ==> n in nodes
      modifies this
      ensures Valid() && head != Closed
      ensures var r := Pass(old(nodes), old(Contents()), capacity - |dst|);
              events == dst + r.events && nodes == r.nodes && Contents() == r.rest + r.back
    {
      var until := Null;
      events := dst;
      ghost var todo, back, done := Contents(), [], [];
      ghost var room: nat := capacity - |dst|;
      ghost var whole := Pass(nodes, todo, room);
      ContentsDistinct(View());
      if |events| == capacity {
        ClearSleepMarker();
      }
      PassBegins(nodes, todo, room);
      while |events| < capacity
        invariant Valid() && head != Closed && room == capacity - |events|
        invariant Contents() == todo + back && InPassOrder(nodes, todo, back, until)
        invariant events == dst + done
        invariant Continues(whole, done, back, Pass(nodes, todo, room))
        decreases |todo|
      {
        ghost var before := chain;
        StopsAtNode(nodes, todo, back, until);
        var r := DequeueNode(until);
        NextTaken(before, chain, until, r, nodes, todo, back);
        if !r.Data? {
          break;
        }
        ghost var turn := TurnOf(nodes, r.n);
        TurnGoesOn(whole, done, back, nodes, todo, room, turn);
        TurnKeeps(nodes, todo, back, until);
        var event;
        until, event := Visit(r.n, until);
        if event.Some? {
          events := events + [event.value];
          done := done + [event.value];
          room := room - 1;
        }
        todo := todo[1..];
        back := if turn.back then back + [r.n] else back;
      }
      PassEnds(whole, done, back, nodes, todo, room);
    }

    /** `prepare_for_sleep`: the poller may block exactly if the queue is empty, and then whoever pushes next finds the
        sleep marker and wakes it. */
    method PrepareForSleep() returns (sleeps: bool)
      requires Valid() && head != Closed
      modifies this
      ensures Valid() && nodes == old(nodes) && Contents() == old(Contents())
      ensures sleeps <==> Contents() == []
      ensures sleeps ==> head == Sleep && tail == Sleep
    {
      SoundIsInv(View());
      EmptyIffMarker(View());
      if tail == Sleep {
        return head == Sleep;
      }
      if tail != End {
        return false;
      }
      ghost var q := View();
      NoSleepMarker(q);
      next := next[Sleep := Null];
      ResetLinkInv(q, Sleep);
      assert View() == ResetLink(q, Sleep);
      SoundIsInv(View());
      if head == End {
        ghost var r := View();
        ReplaceMarkerInv(r, Sleep);
        head := Sleep;
        tail := Sleep;
        chain := [Sleep];
        assert View() == ReplaceMarker(r, Sleep);
        SoundIsInv(View());
        return true;
      }
      return false;
    }

    /** The destructor: the queue is closed, and every node that was in it is released once. */
    method Close()
      requires Valid() && head != Closed
      requires forall n :: n in Contents() ==> n in nodes
      modifies this
      ensures Valid() && head == Closed && Contents() == []
      ensures nodes == AllReleased(old(nodes), old(Contents()))
    {
      ContentsDistinct(View());
      ghost var all := AllReleased(nodes, Contents());
      NoClosedMarker(View());
      var _ := EnqueueNode(Closed);
      assert old(Contents()) + [] == old(Contents());
      while true
        invariant Valid() && head == Closed
        invariant Distinct(Contents()) && forall n :: n in Contents() ==> n in nodes
        invariant AllReleased(nodes, Contents()) == all
        decreases |Contents()|, |chain|
      {
        ghost var left := Contents();
        var r := DequeueNode(Null);
        match r {
          case Empty => break;
          case Inconsistent =>
          case Data(n) =>
            nodes := AfterRelease(nodes, n);
            assert forall i :: 0 <= i < |left| - 1 ==> left[1..][i] == left[i + 1];
        }
      }
    }
  }

  datatype PassPart = TheEvents | TheLists | TheNodes

  /** What has been done of a pass, and what is left to do, make up the whole. */
  ghost predicate Continues(whole: PassResult, done: seq<Event>, back: seq<nat>, rest: PassResult) {
    forall part :: ContinuesPart(whole, done, back, rest, part)
  }

  ghost predicate ContinuesPart(whole: PassResult, done: seq<Event>, back: seq<nat>, rest: PassResult, part: PassPart) {
    match part
    case TheEvents => whole.events == done + rest.events
    case TheLists => whole.back == back + rest.back && whole.rest == rest.rest
    case TheNodes => whole.nodes == rest.nodes
  }

  lemma PassEnds(whole: PassResult, done: seq<Event>, back: seq<nat>, nodes: map<nat, ReadinessNode>, todo: seq<nat>,
                 room: nat)
    requires Continues(whole, done, back, Pass(nodes, todo, room)) && (todo == [] || room == 0)
    ensures whole == PassResult(done, back, todo, nodes)
  {
    var rest := Pass(nodes, todo, room);
    assert ContinuesPart(whole, done, back, rest, TheEvents) && ContinuesPart(whole, done, back, rest, TheLists)
           && ContinuesPart(whole, done, back, rest, TheNodes);
  }

  lemma PassStep(nodes: map<nat, ReadinessNode>, todo: seq<nat>, room: nat, turn: Turn, room': nat)
    requires todo != [] && room > 0 && todo[0] in nodes && turn == TurnOf(nodes, todo[0])
    requires room' == if turn.event.Some? then room - 1 else room
    ensures var r := Pass(turn.nodes, todo[1..], room');
            Pass(nodes, todo, room) == PassResult((if turn.event.Some? then [turn.event.value] else []) + r.events,
                                                  (if turn.back then [todo[0]] else []) + r.back, r.rest, r.nodes)
  {
  }

  lemma TurnContinues(whole: PassResult, done: seq<Event>, back: seq<nat>, rest: PassResult,
                      turn: Turn, n: nat, rest': PassResult)
    requires Continues(whole, done, back, rest)
    requires rest == PassResult((if turn.event.Some? then [turn.event.value] else []) + rest'.events,
                                (if turn.back then [n] else []) + rest'.back, rest'.rest, rest'.nodes)
    ensures Continues(whole, if turn.event.Some? then done + [turn.event.value] else done,
                      if turn.back then back + [n] else back, rest')
  {
    assert ContinuesPart(whole, done, back, rest, TheEvents) && ContinuesPart(whole, done, back, rest, TheLists)
           && ContinuesPart(whole, done, back, rest, TheNodes);
    var done' := if turn.event.Some? then done + [turn.event.value] else done;
    var back' := if turn.back then back + [n] else back;
    forall part
      ensures ContinuesPart(whole, done', back', rest', part)
    {
      match part
      case TheEvents => assert done' + rest'.events == whole.events;
      case TheLists => assert back' + rest'.back == whole.back;
      case TheNodes =>
    }
  }

  lemma TurnGoesOn(whole: PassResult, done: seq<Event>, back: seq<nat>,
                   nodes: map<nat, ReadinessNode>, todo: seq<nat>, room: nat, turn: Turn)
    requires todo != [] && room > 0 && todo[0] in nodes && turn == TurnOf(nodes, todo[0])
    requires Continues(whole, done, back, Pass(nodes, todo, room))
    ensures Continues(whole, if turn.event.Some? then done + [turn.event.value] else done,
                      if turn.back then back + [todo[0]] else back,
                      Pass(turn.nodes, todo[1..], if turn.event.Some? then room - 1 else room))
  {
    var room' := if turn.event.Some? then room - 1 else room;
    PassStep(nodes, todo, room, turn, room');
    TurnContinues(whole, done, back, Pass(nodes, todo, room), turn, todo[0], Pass(turn.nodes, todo[1..], room'));
  }

  datatype OrderPart = NoRepeats | Present | StopsHere

  /** What is still to do, and what has been put back behind it: no node twice, the former all there, and `until` the
      first of the latter. */
  ghost predicate InPassOrder(nodes: map<nat, ReadinessNode>, todo: seq<nat>, back: seq<nat>, until: Ptr) {
    forall part :: OrderOk(nodes, todo, back, until, part)
  }

  ghost predicate OrderOk(nodes: map<nat, ReadinessNode>, todo: seq<nat>, back: seq<nat>, until: Ptr, part: OrderPart) {
    match part
    case NoRepeats => Distinct(todo + back)
    case Present => forall n :: n in todo ==> n in nodes
    case StopsHere => until == if back == [] then Null else Node(back[0])
  }

  lemma InOrder(nodes: map<nat, ReadinessNode>, todo: seq<nat>, back: seq<nat>, until: Ptr)
    ensures InPassOrder(nodes, todo, back, until) <==>
              && Distinct(todo + back) && (forall n :: n in todo ==> n in nodes)
              && until == if back == [] then Null else Node(back[0])
  {
    if InPassOrder(nodes, todo, back, until) {
      assert OrderOk(nodes, todo, back, until, NoRepeats) && OrderOk(nodes, todo, back, until, Present)
             && OrderOk(nodes, todo, back, until, StopsHere);
    } else {
      var part :| !OrderOk(nodes, todo, back, until, part);
    }
  }

  lemma PassBegins(nodes: map<nat, ReadinessNode>, todo: seq<nat>, room: nat)
    requires Distinct(todo) && forall n :: n in todo ==> n in nodes
    ensures todo + [] == todo && InPassOrder(nodes, todo, [], Null)
    ensures Continues(Pass(nodes, todo, room), [], [], Pass(nodes, todo, room))
  {
    assert todo + [] == todo;
    InOrder(nodes, todo, [], Null);
    var whole := Pass(nodes, todo, room);
    forall part
      ensures ContinuesPart(whole, [], [], whole, part)
    {
      match part
      case _ =>
    }
  }

  lemma StopsAtNode(nodes: map<nat, ReadinessNode>, todo: seq<nat>, back: seq<nat>, until: Ptr)
    requires InPassOrder(nodes, todo, back, until)
    ensures until == Null || until.Node?
  {
    InOrder(nodes, todo, back, until);
  }

  /** The list starts with what is still to do, so that is what comes off it; it stops at what has been put back. */
  lemma NextTaken(chain: seq<Ptr>, chain': seq<Ptr>, until: Ptr, r: Dequeue,
                  nodes: map<nat, ReadinessNode>, todo: seq<nat>, back: seq<nat>)
    requires TookOldest(chain, until, r, chain') && MarkerQueue.Data(chain) == todo + back
    requires InPassOrder(nodes, todo, back, until)
    ensures r.Data? ==>
              && todo != [] && r.n == todo[0] && r.n in nodes && Node(r.n) !in chain'
              && MarkerQueue.Data(chain') == todo[1..] + back
    ensures !r.Data? ==> todo == [] && MarkerQueue.Data(chain') == todo + back
  {
    InOrder(nodes, todo, back, until);
    if todo != [] {
      assert (todo + back)[0] == todo[0] && (todo + back)[1..] == todo[1..] + back;
      if back != [] {
        assert (todo + back)[|todo|] == back[0];
      }
    } else {
      assert todo + back == back;
    }
  }

  lemma TurnKeeps(nodes: map<nat, ReadinessNode>, todo: seq<nat>, back: seq<nat>, until: Ptr)
    requires todo != [] && InPassOrder(nodes, todo, back, until) && todo[0] in nodes
    ensures var turn := TurnOf(nodes, todo[0]);
            var back' := if turn.back then back + [todo[0]] else back;
            && InPassOrder(turn.nodes, todo[1..], back', if turn.back && until == Null then Node(todo[0]) else until)
            && todo[1..] + back' == todo[1..] + back + (if turn.back then [todo[0]] else [])
  {
    var n, rest := todo[0], todo[1..];
    var turn := TurnOf(nodes, n);
    var back' := if turn.back then back + [n] else back;
    InOrder(nodes, todo, back, until);
    TurnKeepsDistinct(todo, back);
    forall m | m in rest
      ensures m in turn.nodes
    {
      var i :| 0 <= i < |rest| && rest[i] == m;
      assert (todo + back)[i + 1] == m && (todo + back)[0] == n;
      TurnLeavesOthers(nodes, n, m);
    }
    InOrder(turn.nodes, rest, back', if turn.back && until == Null then Node(n) else until);
  }

  lemma TurnKeepsDistinct(todo: seq<nat>, back: seq<nat>)
    requires todo != [] && Distinct(todo + back)
    ensures Distinct(todo[1..] + back) && Distinct(todo[1..] + (back + [todo[0]]))
    ensures todo[1..] + (back + [todo[0]]) == todo[1..] + back + [todo[0]]
  {
    var n, rest := todo[0], todo[1..];
    var all, turned := todo + back, rest + (back + [n]);
    assert forall i :: 0 <= i < |rest + back| ==> (rest + back)[i] == all[i + 1] && turned[i] == all[i + 1];
    assert turned[|rest + back|] == n && all[0] == n;
  }

  /** What comes off the list: its oldest node, unless there is none, or it is the one to stop at. */
  predicate TookOldest(chain: seq<Ptr>, until: Ptr, r: Dequeue, chain': seq<Ptr>) {
    var was, left := MarkerQueue.Data(chain), MarkerQueue.Data(chain');
    if was == [] || Node(was[0]) == until then !r.Data? && left == was
    else r == Data(was[0]) && left == was[1..] && Node(was[0]) !in chain'
  }

  function AllReleased(nodes: map<nat, ReadinessNode>, list: seq<nat>): map<nat, ReadinessNode> {
    if list == [] || list[0] !in nodes then nodes else AllReleased(AfterRelease(nodes, list[0]), list[1..])
  }

  /** Closing the queue gives back each reference once, and touches no other node. */
  lemma {:induction false} EachReleasedOnce(nodes: map<nat, ReadinessNode>, list: seq<nat>, n: nat)
    requires Distinct(list) && (forall m :: m in list ==> m in nodes) && n in nodes
    ensures var after := AllReleased(nodes, list);
            if n !in list then n in after && after[n] == nodes[n]
            else if nodes[n].refs == 1 then n !in after
            else n in after && after[n] == nodes[n].(refs := nodes[n].refs - 1)
  {
    if list != [] {
      var rest := list[1..];
      assert forall i :: 0 <= i < |rest| ==> rest[i] == list[i + 1];
      var after := AfterRelease(nodes, list[0]);
      if n in after {
        EachReleasedOnce(after, rest, n);
      } else {
        NotReturned(after, rest, n);
      }
    }
  }

  lemma {:induction false} NotReturned(nodes: map<nat, ReadinessNode>, list: seq<nat>, n: nat)
    requires n !in nodes
    ensures n !in AllReleased(nodes, list)
  {
    if list != [] && list[0] in nodes {
      NotReturned(AfterRelease(nodes, list[0]), list[1..], n);
    }
  }

  lemma NoClosedMarker(q: Queue)
    requires Sound(q) && q.head != Closed
    ensures Closed !in q.chain
  {
    SoundIsInv(q);
  }

  lemma ContentsDistinct(q: Queue)
    requires Sound(q)
    ensures Distinct(MarkerQueue.Data(q.chain))
  {
    SoundIsInv(q);
    DataDistinct(q.chain);
  }

  lemma NoSleepMarker(q: Queue)
    requires MarkerQueue.Inv(q) && q.tail != Sleep
    ensures Sleep !in q.chain
  {
  }

  /** An open queue is empty exactly if its only element is a marker. */
  lemma EmptyIffMarker(q: Queue)
    requires MarkerQueue.Inv(q) && q.head != Closed
    ensures MarkerQueue.Data(q.chain) == [] <==> q.head == q.tail && !q.tail.Node?
  {
    if |q.chain| == 1 {
      assert q.chain[1..] == [];
    } else {
      SoundIsInv(q);
      NoClosedMarker(q);
      assert q.chain[0] in q.chain && q.chain[1] in q.chain;
      assert q.chain[1..][0] == q.chain[1];
    }
  }

  /** With every link stored, only the last element of the queue has none. */
  lemma MoreIffNext(q: Queue)
    requires MarkerQueue.Inv(q) && q.owed == map[]
    ensures q.Next(q.tail) != Null <==> |q.chain| > 1
  {
    if |q.chain| > 1 {
      assert LinkAt(q, 0);
      assert q.chain[1] in q.chain;
    }
  }

  lemma AloneIfNull(q: Queue)
    requires MarkerQueue.Inv(q) && q.owed == map[] && q.Next(q.tail) == Null
    ensures q.chain == [q.tail] && q.head == q.tail
    ensures q.tail.Node? ==> MarkerQueue.Data(q.chain) == [q.tail.id]
    ensures !q.tail.Node? ==> MarkerQueue.Data(q.chain) == []
  {
    MoreIffNext(q);
    assert q.chain[1..] == [];
  }

  lemma {:induction false} DataDistinct(chain: seq<Ptr>)
    requires forall i, j :: 0 <= i < j < |chain| ==> chain[i] != chain[j]
    ensures Distinct(MarkerQueue.Data(chain))
  {
    if chain != [] {
      DataDistinct(chain[1..]);
      if chain[0].Node? {
        var rest := MarkerQueue.Data(chain[1..]);
        DataMembers(chain[1..], chain[0].id);
        assert chain[0].id !in rest;
      }
    }
  }
}
