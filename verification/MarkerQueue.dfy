/** The intrusive queue of src/poll.rs:278-411 as the pointers its atomic steps read and write, with the
    auxiliary fields that say what those pointers mean. Each function below is one atomic access; the
    lemma under it says that the access keeps the invariant and what it does to the FIFO the queue stands for. */
module MarkerQueue {

  /** A `*mut ReadinessNode`: null, one of the three markers, or a heap node. */
  datatype Ptr = Null | End | Sleep | Closed | Node(id: nat)

  /** Who performed a successful head swap: the thread inside `poll`, or another thread. */
  datatype Actor = Poller | Producer(tid: nat)

  /** A store `(*prev).next_readiness = node` that `actor` has still to perform (line 349). */
  datatype Owed = Owed(actor: Actor, node: Ptr)

  /** `head`, `tail` and `next` are the source's pointers. The rest is auxiliary, and no step reads it:
      `chain` lists the queue from tail to head, `owed` the links not yet stored, `pushed` the heap nodes
      in the order of their head swaps, `popped` those handed out by `dequeue_node`. */
  datatype Queue = Queue(head: Ptr, tail: Ptr, next: map<Ptr, Ptr>,
                         chain: seq<Ptr>, owed: map<Ptr, Owed>, pushed: seq<nat>, popped: seq<nat>)
  {
    function Next(p: Ptr): Ptr {
      if p in next then next[p] else Null
    }
  }

  predicate Marker(p: Ptr) {
    p == End || p == Sleep || p == Closed
  }

  const EMPTY := Queue(End, End, map[], [End], map[], [], [])

  // ---------- what the pointers mean ----------

  /** The FIFO a chain stands for: its heap nodes, tail first. */
  function Data(chain: seq<Ptr>): seq<nat> {
    if chain == [] then []
    else if chain[0].Node? then [chain[0].id] + Data(chain[1..])
    else Data(chain[1..])
  }

  ghost predicate Shape(q: Queue) {
    && 0 < |q.chain|
    && q.chain[0] == q.tail
    && q.chain[|q.chain| - 1] == q.head
    && (forall i, j :: 0 <= i < j < |q.chain| ==> q.chain[i] != q.chain[j])
    && Null !in q.chain
  }

  /** Position `i` is linked to the next one, or that link is owed. */
  ghost predicate LinkAt(q: Queue, i: nat)
    requires i + 1 < |q.chain|
  {
    var p := q.chain[i];
    if p in q.owed then q.owed[p].node == q.chain[i + 1] && q.Next(p) == Null
    else q.Next(p) == q.chain[i + 1]
  }

  ghost predicate Linked(q: Queue)
    requires 0 < |q.chain|
  {
    && (forall i: nat :: i + 1 < |q.chain| ==> LinkAt(q, i))
    && q.Next(q.chain[|q.chain| - 1]) == Null
    && q.chain[|q.chain| - 1] !in q.owed
    && (forall p :: p in q.owed ==> p in q.chain)
  }

  /** The sleep marker only waits at the tail, alone among the markers but for the closed marker, which ends the
      queue. */
  ghost predicate MarkersPlaced(q: Queue)
    requires 0 < |q.chain|
  {
    && (forall i :: 0 < i < |q.chain| ==> q.chain[i] != Sleep)
    && (forall i :: 0 <= i < |q.chain| - 1 ==> q.chain[i] != Closed)
    && (q.chain[0] == Sleep ==> End !in q.chain)
  }

  ghost predicate Inv(q: Queue) {
    && Shape(q)
    && Linked(q)
    && MarkersPlaced(q)
    && q.pushed == q.popped + Data(q.chain)
  }

  // ---------- the atomic accesses ----------

  /** `p.next_readiness.store(null)` before `p` is pushed (lines 328, 362, 517). */
  function ResetLink(q: Queue, p: Ptr): Queue {
    q.(next := q.next[p := Null])
  }

  /** A successful compare-exchange of `head_readiness` in `enqueue_node` (line 341). */
  function SwapHead(q: Queue, node: Ptr, actor: Actor): Queue {
    q.(head := node, chain := q.chain + [node], owed := q.owed[q.head := Owed(actor, node)],
       pushed := if node.Node? then q.pushed + [node.id] else q.pushed)
  }

  /** The store that completes a push (line 349). */
  function StoreLink(q: Queue, prev: Ptr, node: Ptr): Queue {
    q.(next := q.next[prev := node], owed := q.owed - {prev})
  }

  /** `tail_readiness` moves to its successor (lines 389, 397, 406). */
  function Advance(q: Queue): Queue {
    q.(tail := q.Next(q.tail), chain := if q.chain == [] then [] else q.chain[1..],
       popped := if q.tail.Node? then q.popped + [q.tail.id] else q.popped)
  }

  /** One marker replaces another as the only element: lines 519-529 and 363-368. */
  function ReplaceMarker(q: Queue, marker: Ptr): Queue {
    q.(head := marker, tail := marker, chain := [marker])
  }

  // ---------- lemmas ----------

  lemma {:induction false} DataAppend(s: seq<Ptr>, p: Ptr)
    ensures Data(s + [p]) == Data(s) + (if p.Node? then [p.id] else [])
  {
    if s == [] {
    } else {
      assert (s + [p])[1..] == s[1..] + [p];
      DataAppend(s[1..], p);
    }
  }

  lemma {:induction false} DataMembers(s: seq<Ptr>, n: nat)
    ensures n in Data(s) <==> Node(n) in s
  {
    if s != [] {
      DataMembers(s[1..], n);
    }
  }

  lemma EmptyInv()
    ensures Inv(EMPTY)
  {
  }

  /** Clearing the link of a node outside the queue changes nothing. */
  lemma ResetLinkInv(q: Queue, p: Ptr)
    requires Inv(q) && p !in q.chain
    ensures Inv(ResetLink(q, p))
  {
    var r := ResetLink(q, p);
    forall i: nat | i + 1 < |r.chain|
      ensures LinkAt(r, i)
    {
      assert LinkAt(q, i);
    }
  }

  /** A head swap appends to the FIFO. */
  lemma SwapHeadInv(q: Queue, node: Ptr, actor: Actor)
    requires Inv(q)
    requires node != Null && node != Sleep && node !in q.chain && q.Next(node) == Null
    requires q.head != Closed
    requires node == End ==> q.tail.Node?
    ensures Inv(SwapHead(q, node, actor))
    ensures Data(SwapHead(q, node, actor).chain) == Data(q.chain) + (if node.Node? then [node.id] else [])
  {
    DataAppend(q.chain, node);
    SwapHeadShape(q, node, actor);
    SwapHeadLinked(q, node, actor);
    SwapHeadMarkers(q, node, actor);
  }

  lemma SwapHeadShape(q: Queue, node: Ptr, actor: Actor)
    requires Shape(q) && node != Null && node !in q.chain
    ensures Shape(SwapHead(q, node, actor))
  {
    forall i, j | 0 <= i < j < |q.chain| + 1
      ensures (q.chain + [node])[i] != (q.chain + [node])[j]
    {
      if j == |q.chain| {
        assert q.chain[i] in q.chain;
      }
    }
  }

  lemma SwapHeadLinked(q: Queue, node: Ptr, actor: Actor)
    requires Shape(q) && Linked(q) && node !in q.chain && q.Next(node) == Null
    ensures Linked(SwapHead(q, node, actor))
  {
    var r := SwapHead(q, node, actor);
    forall i: nat | i + 1 < |r.chain|
      ensures LinkAt(r, i)
    {
      if i + 1 < |q.chain| {
        assert LinkAt(q, i);
        assert q.chain[i] != q.chain[|q.chain| - 1];
      }
    }
  }

  lemma SwapHeadMarkers(q: Queue, node: Ptr, actor: Actor)
    requires Shape(q) && MarkersPlaced(q) && q.head != Closed && node != Sleep
    requires node == End ==> q.tail.Node?
    ensures MarkersPlaced(SwapHead(q, node, actor))
  {
  }

  lemma StoreLinkInv(q: Queue, prev: Ptr, node: Ptr)
    requires Inv(q) && prev in q.owed && q.owed[prev].node == node
    ensures Inv(StoreLink(q, prev, node))
  {
    var r := StoreLink(q, prev, node);
    forall i: nat | i + 1 < |r.chain|
      ensures LinkAt(r, i)
    {
      assert LinkAt(q, i);
    }
  }

  /** Advancing over a heap node takes the oldest element off the FIFO; over a marker it takes nothing. */
  lemma AdvanceInv(q: Queue)
    requires Inv(q) && q.Next(q.tail) != Null
    ensures Inv(Advance(q))
    ensures 1 < |q.chain| && Advance(q).tail == q.chain[1]
    ensures q.tail.Node? ==> Data(q.chain) == [q.tail.id] + Data(Advance(q).chain)
    ensures !q.tail.Node? ==> Data(q.chain) == Data(Advance(q).chain)
    ensures q.tail != Closed && q.tail !in q.owed
  {
    assert |q.chain| > 1;
    assert LinkAt(q, 0);
    var r := Advance(q);
    forall i: nat | i + 1 < |r.chain|
      ensures LinkAt(r, i)
    {
      assert LinkAt(q, i + 1);
    }
    forall p | p in r.owed
      ensures p in r.chain
    {
      var i :| 0 <= i < |q.chain| && q.chain[i] == p;
      assert r.chain[i - 1] == p;
    }
  }

  /** Swapping the end marker for the sleep marker, or back, leaves the FIFO empty. */
  lemma ReplaceMarkerInv(q: Queue, marker: Ptr)
    requires Inv(q) && q.head == q.tail && Marker(q.tail)
    requires marker == End || marker == Sleep
    requires q.Next(marker) == Null
    ensures q.chain == [q.tail] && Data(q.chain) == []
    ensures Inv(ReplaceMarker(q, marker))
  {
    assert |q.chain| == 1;
  }
}
