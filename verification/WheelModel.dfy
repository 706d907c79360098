/** The hashed timing wheel of src/timer.rs:65-314 as a value: the fields of `Timer`, and beside them what they stand
    for. One lemma for each thing the methods of the class in `Wheel` do to it. */
module WheelModel {
  import opened Arithmetic
  import opened Lists
  import opened Ticks

  const TICK_MAX: nat := U64_MAX

  /** A `Token` inside the wheel: `EMPTY`, or a key of the slab. */
  datatype Link = Empty | At(key: nat)

  datatype EntryLinks = EntryLinks(tick: nat, prev: Link, next: Link)

  datatype Entry<T> = Entry(state: T, links: EntryLinks)

  datatype WheelEntry = WheelEntry(nextTick: nat, head: Link)

  /** The fields up to `next` are the source's. `lists` holds the keys of each slot in the order of the links, `at` is
      the position of `next` in the list of the current slot (its length, if `next` is `Empty`), and `late` holds the
      keys inserted for the tick the wheel was then at. */
  datatype Wheel<T> = Wheel(n: nat, entries: map<nat, Entry<T>>, slots: seq<WheelEntry>, tick: nat, next: Link,
                            lists: seq<seq<nat>>, at: nat, late: set<nat>)

  function LinkAt(list: seq<nat>, i: int): Link {
    if 0 <= i < |list| then At(list[i]) else Empty
  }

  function TickOf<T>(w: Wheel<T>, k: nat): nat
    requires k in w.entries
  {
    w.entries[k].links.tick
  }

  function SlotOf(t: nat, n: nat): (s: nat)
    requires n > 0
    ensures s < n
  {
    t % n
  }

  /** The list the cursor is in. */
  function Walk<T>(w: Wheel<T>): seq<nat>
    requires 0 < w.n == |w.lists|
  {
    w.lists[SlotOf(w.tick, w.n)]
  }

  // ---------- the invariant ----------

  /** The entry at position `i` is linked to its neighbours. */
  ghost predicate LinksAt<T>(entries: map<nat, Entry<T>>, list: seq<nat>, i: nat)
    requires i < |list|
  {
    && list[i] in entries
    && entries[list[i]].links.prev == LinkAt(list, i - 1)
    && entries[list[i]].links.next == LinkAt(list, i + 1)
  }

  /** `head` and the links of its entries are the doubly linked list `list`, without cycles. */
  ghost predicate ChainOk<T>(entries: map<nat, Entry<T>>, head: Link, list: seq<nat>) {
    && head == LinkAt(list, 0)
    && Distinct(list)
    && (forall i :: 0 <= i < |list| ==> list[i] in entries)
    && (forall i :: 0 <= i < |list| ==> LinksAt(entries, list, i))
  }

  ghost predicate SlotOk<T>(entries: map<nat, Entry<T>>, slot: WheelEntry, list: seq<nat>, s: nat, n: nat)
    requires n > 0
  {
    && ChainOk(entries, slot.head, list)
    && (forall i :: 0 <= i < |list| ==> SlotOf(entries[list[i]].links.tick, n) == s)
  }

  /** Every entry is in exactly the list of the slot of its tick. */
  ghost predicate Partition<T>(w: Wheel<T>)
    requires 0 < w.n == |w.lists| == |w.slots|
  {
    && (forall s :: 0 <= s < w.n ==> SlotOk(w.entries, w.slots[s], w.lists[s], s, w.n))
    && (forall k :: k in w.entries ==> k in w.lists[SlotOf(TickOf(w, k), w.n)])
  }

  ghost predicate Cursor<T>(w: Wheel<T>)
    requires 0 < w.n == |w.lists|
  {
    w.at <= |Walk(w)| && w.next == LinkAt(Walk(w), w.at)
  }

  /** The cached tick of slot `s` is a lower bound for the first `upTo` entries of its list. */
  ghost predicate CacheOk<T>(entries: map<nat, Entry<T>>, nextTick: nat, list: seq<nat>, upTo: nat)
  {
    forall i :: 0 <= i < upTo <= |list| && list[i] in entries ==> nextTick <= entries[list[i]].links.tick
  }

  /** Everything in the slot, but for the tail the cursor has still to visit. */
  function Known<T>(w: Wheel<T>, s: nat): nat
    requires 0 < w.n == |w.lists| && s < w.n
  {
    if s == SlotOf(w.tick, w.n) then w.at else |w.lists[s]|
  }

  predicate TicksFit(slots: seq<WheelEntry>) {
    forall s :: 0 <= s < |slots| ==> slots[s].nextTick <= TICK_MAX
  }

  ghost predicate Caches<T>(w: Wheel<T>)
    requires 0 < w.n == |w.lists| == |w.slots|
  {
    && TicksFit(w.slots)
    && (forall s :: 0 <= s < w.n ==> CacheOk(w.entries, w.slots[s].nextTick, w.lists[s], Known(w, s)))
  }

  /** Every cached tick is a lower bound for its whole slot. */
  ghost predicate FullySound<T>(w: Wheel<T>)
    requires 0 < w.n == |w.lists| == |w.slots|
  {
    forall s :: 0 <= s < w.n ==> CacheOk(w.entries, w.slots[s].nextTick, w.lists[s], |w.lists[s]|)
  }

  ghost predicate Unvisited<T>(w: Wheel<T>, k: nat)
    requires 0 < w.n == |w.lists| && w.at <= |Walk(w)|
  {
    k in Walk(w)[w.at..]
  }

  /** Where an entry stands on its way to delivery. One inserted for a later tick is ahead of the cursor, or at it; one
      inserted for the current tick has been missed, and is at most a lap behind. */
  ghost predicate TimingOk<T>(w: Wheel<T>, k: nat)
    requires 0 < w.n == |w.lists| && w.at <= |Walk(w)| && k in w.entries
  {
    var t := TickOf(w, k);
    && t <= TICK_MAX
    && (if k in w.late then
          && t <= w.tick <= t + w.n
          && (t == w.tick ==> !Unvisited(w, k))
          && (t + w.n == w.tick ==> Unvisited(w, k))
        else
          w.tick <= t && (t == w.tick ==> Unvisited(w, k)))
  }

  ghost predicate Timing<T>(w: Wheel<T>)
    requires 0 < w.n == |w.lists| && w.at <= |Walk(w)|
  {
    && w.late <= w.entries.Keys
    && w.tick <= TICK_MAX
    && (forall k :: k in w.entries ==> TimingOk(w, k))
  }

  ghost predicate WheelOk<T>(w: Wheel<T>) {
    && 0 < w.n == |w.lists| == |w.slots|
    && Partition(w)
    && Cursor(w)
    && Caches(w)
    && Timing(w)
  }

  /** The parts of the invariant, by name: a proof looks at the parts it names and no others. */
  datatype Part = TheSlots | TheCursor | TheCaches | TheTiming

  ghost predicate Holds<T>(w: Wheel<T>, part: Part)
    requires 0 < w.n == |w.lists| == |w.slots|
  {
    match part
    case TheSlots => Partition(w)
    case TheCursor => Cursor(w)
    case TheCaches => Caches(w)
    case TheTiming => w.at <= |Walk(w)| && Timing(w)
  }

  ghost predicate Sound<T>(w: Wheel<T>) {
    0 < w.n == |w.lists| == |w.slots| && forall part :: Holds(w, part)
  }

  lemma SoundIsOk<T>(w: Wheel<T>)
    ensures Sound(w) <==> WheelOk(w)
  {
    if Sound(w) {
      assert Holds(w, TheSlots) && Holds(w, TheCursor) && Holds(w, TheCaches) && Holds(w, TheTiming);
    }
    if WheelOk(w) {
      forall part
        ensures Holds(w, part)
      {
        match part
        case _ =>
      }
    }
  }

  // ---------- what the wheel stands for ----------

  /** The abstract timer: what is set, for when. */
  function Contents<T>(entries: map<nat, Entry<T>>): map<nat, (nat, T)> {
    map k | k in entries :: (entries[k].links.tick, entries[k].state)
  }

  function TicksOf<T>(entries: map<nat, Entry<T>>): map<nat, nat> {
    map k | k in entries :: entries[k].links.tick
  }

  /** The tick of the cursor at which entry `k` is handed out: its own, or the one a lap later. */
  function DueOf<T>(w: Wheel<T>, k: nat): nat
    requires k in w.entries
  {
    TickOf(w, k) + if k in w.late then w.n else 0
  }

  function DuesOf<T>(w: Wheel<T>): map<nat, nat> {
    map k | k in w.entries :: DueOf(w, k)
  }

  /** A wakeup at `t` is in time for everything set. */
  predicate Covers(t: nat, ticks: map<nat, nat>) {
    forall k :: k in ticks ==> t <= ticks[k]
  }

  // ---------- an empty wheel ----------

  lemma NewOk<T>(w: Wheel<T>)
    requires 0 < w.n == |w.lists| == |w.slots|
    requires w.entries == map[] && w.tick == 0 && w.next == Empty && w.at == 0 && w.late == {}
    requires forall s :: 0 <= s < w.n ==> w.slots[s] == WheelEntry(TICK_MAX, Empty) && w.lists[s] == []
    ensures Sound(w) && FullySound(w)
  {

    SoundIsOk(w);
  }

  // ---------- inserting ----------

  /** `insert` puts the entry at the head of its slot's list. */
  function Inserted<T>(w: Wheel<T>, key: nat, tick: nat, state: T): Wheel<T>
    requires 0 < w.n == |w.lists| == |w.slots|
  {
    var s := SlotOf(tick, w.n);
    var curr := w.slots[s];
    Wheel(w.n,
          WithPrev(w.entries[key := Entry(state, EntryLinks(tick, Empty, curr.head))], curr.head, At(key)),
          w.slots[s := WheelEntry(Min(tick, curr.nextTick), At(key))],
          w.tick, w.next,
          w.lists[s := [key] + w.lists[s]],
          if s == SlotOf(w.tick, w.n) then w.at + 1 else w.at,
          if tick == w.tick then w.late + {key} else w.late)
  }

  function Min(a: nat, b: nat): nat {
    if a <= b then a else b
  }

  function WithPrev<T>(entries: map<nat, Entry<T>>, l: Link, prev: Link): map<nat, Entry<T>> {
    if l.At? && l.key in entries then
      var e := entries[l.key];
      entries[l.key := e.(links := e.links.(prev := prev))]
    else entries
  }

  function WithNext<T>(entries: map<nat, Entry<T>>, l: Link, next: Link): map<nat, Entry<T>> {
    if l.At? && l.key in entries then
      var e := entries[l.key];
      entries[l.key := e.(links := e.links.(next := next))]
    else entries
  }

  /** Relinking changes no tick and no state. */
  lemma WithPrevContents<T>(entries: map<nat, Entry<T>>, l: Link, prev: Link)
    ensures var entries' := WithPrev(entries, l, prev);
            && entries'.Keys == entries.Keys && Contents(entries') == Contents(entries)
            && forall k :: k in entries ==> entries'[k].links.tick == entries[k].links.tick
  {
  }

  lemma WithNextContents<T>(entries: map<nat, Entry<T>>, l: Link, next: Link)
    ensures var entries' := WithNext(entries, l, next);
            && entries'.Keys == entries.Keys && Contents(entries') == Contents(entries)
            && forall k :: k in entries ==> entries'[k].links.tick == entries[k].links.tick
  {
  }

  lemma AddedContents<T>(entries: map<nat, Entry<T>>, key: nat, e: Entry<T>)
    ensures Contents(entries[key := e]) == Contents(entries)[key := (e.links.tick, e.state)]
  {
  }

  /** A chain none of whose entries changed. */
  lemma ChainFrame<T>(entries: map<nat, Entry<T>>, entries': map<nat, Entry<T>>, head: Link, list: seq<nat>)
    requires ChainOk(entries, head, list)
    requires forall k :: k in list ==> k in entries' && entries'[k] == entries[k]
    ensures ChainOk(entries', head, list)
  {
    forall i | 0 <= i < |list|
      ensures LinksAt(entries', list, i)
    {
      assert LinksAt(entries, list, i);
    }
  }

  lemma WithPrevAt<T>(entries: map<nat, Entry<T>>, l: Link, prev: Link, k: nat)
    requires k in entries
    ensures var entries' := WithPrev(entries, l, prev);
            && k in entries' && entries'[k].links.next == entries[k].links.next
            && entries'[k].links.prev == if l == At(k) then prev else entries[k].links.prev
  {
  }

  lemma WithNextAt<T>(entries: map<nat, Entry<T>>, l: Link, next: Link, k: nat)
    requires k in entries
    ensures var entries' := WithNext(entries, l, next);
            && k in entries' && entries'[k].links.prev == entries[k].links.prev
            && entries'[k].links.next == if l == At(k) then next else entries[k].links.next
  {
  }

  lemma LinkIsPosition(list: seq<nat>, i: int, j: nat)
    requires Distinct(list) && j < |list|
    ensures LinkAt(list, i) == At(list[j]) <==> i == j
  {
  }

  lemma ConsLink(list: seq<nat>, key: nat, i: int)
    ensures LinkAt([key] + list, i) == if i == 0 then At(key) else LinkAt(list, i - 1)
  {
  }

  lemma ChainInsertAt<T>(entries: map<nat, Entry<T>>, head: Link, list: seq<nat>, key: nat, tick: nat, state: T, i: nat)
    requires ChainOk(entries, head, list) && key !in entries && i <= |list|
    ensures var entries' := WithPrev(entries[key := Entry(state, EntryLinks(tick, Empty, head))], head, At(key));
            var list' := [key] + list;
            LinksAt(entries', list', i)
  {
    var added := entries[key := Entry(state, EntryLinks(tick, Empty, head))];
    ConsLink(list, key, i - 1);
    ConsLink(list, key, i + 1);
    if i == 0 {
      WithPrevAt(added, head, At(key), key);
    } else {
      var k := list[i - 1];
      assert added[k] == entries[k];
      assert LinksAt(entries, list, i - 1);
      WithPrevAt(added, head, At(key), k);
      LinkIsPosition(list, 0, i - 1);
    }
  }

  lemma ChainInsert<T>(entries: map<nat, Entry<T>>, head: Link, list: seq<nat>, key: nat, tick: nat, state: T)
    requires ChainOk(entries, head, list) && key !in entries
    ensures ChainOk(WithPrev(entries[key := Entry(state, EntryLinks(tick, Empty, head))], head, At(key)), At(key),
                    [key] + list)
  {
    var list' := [key] + list;
    var entries' := WithPrev(entries[key := Entry(state, EntryLinks(tick, Empty, head))], head, At(key));
    assert key !in list;
    forall i | 0 <= i < |list'|
      ensures LinksAt(entries', list', i)
    {
      ChainInsertAt(entries, head, list, key, tick, state, i);
    }
  }

  /** Lists of different slots have no key in common. */
  lemma ListsDisjoint<T>(w: Wheel<T>, s: nat, r: nat, k: nat)
    requires 0 < w.n == |w.lists| == |w.slots| && Partition(w)
    requires s < w.n && r < w.n && s != r && k in w.lists[s]
    ensures k !in w.lists[r]
  {
    assert SlotOk(w.entries, w.slots[s], w.lists[s], s, w.n) && SlotOk(w.entries, w.slots[r], w.lists[r], r, w.n);
  }

  lemma InsertedOwnSlot<T>(w: Wheel<T>, key: nat, tick: nat, state: T)
    requires 0 < w.n == |w.lists| == |w.slots| && Partition(w) && key !in w.entries
    ensures var w' := Inserted(w, key, tick, state); var s := SlotOf(tick, w.n);
            SlotOk(w'.entries, w'.slots[s], w'.lists[s], s, w.n)
  {
    var w' := Inserted(w, key, tick, state);
    var s := SlotOf(tick, w.n);
    assert SlotOk(w.entries, w.slots[s], w.lists[s], s, w.n);
    ChainInsert(w.entries, w.slots[s].head, w.lists[s], key, tick, state);
    InsertedEntries(w, key, tick, state);
    forall i | 0 <= i < |w'.lists[s]|
      ensures SlotOf(w'.entries[w'.lists[s][i]].links.tick, w.n) == s
    {
      if i > 0 {
        assert w'.lists[s][i] == w.lists[s][i - 1];
        assert w.entries[w.lists[s][i - 1]].links.tick == TickOf(w', w'.lists[s][i]);
      }
    }
  }

  lemma InsertedOtherSlot<T>(w: Wheel<T>, key: nat, tick: nat, state: T, r: nat)
    requires 0 < w.n == |w.lists| == |w.slots| && Partition(w) && key !in w.entries && r < w.n && r != SlotOf(tick, w.n)
    ensures var w' := Inserted(w, key, tick, state); SlotOk(w'.entries, w'.slots[r], w'.lists[r], r, w.n)
  {
    var w' := Inserted(w, key, tick, state);
    var s := SlotOf(tick, w.n);
    assert SlotOk(w.entries, w.slots[s], w.lists[s], s, w.n) && SlotOk(w.entries, w.slots[r], w.lists[r], r, w.n);
    forall k | k in w.lists[r]
      ensures k in w'.entries && w'.entries[k] == w.entries[k]
    {
      ListsDisjoint(w, r, s, k);
    }
    ChainFrame(w.entries, w'.entries, w.slots[r].head, w.lists[r]);
  }

  lemma InsertedPartition<T>(w: Wheel<T>, key: nat, tick: nat, state: T)
    requires 0 < w.n == |w.lists| == |w.slots| && Partition(w) && key !in w.entries
    ensures Partition(Inserted(w, key, tick, state))
  {
    var w' := Inserted(w, key, tick, state);
    InsertedEntries(w, key, tick, state);
    forall r | 0 <= r < w.n
      ensures SlotOk(w'.entries, w'.slots[r], w'.lists[r], r, w.n)
    {
      if r == SlotOf(tick, w.n) {
        InsertedOwnSlot(w, key, tick, state);
      } else {
        InsertedOtherSlot(w, key, tick, state, r);
      }
    }
    forall k | k in w'.entries
      ensures k in w'.lists[SlotOf(TickOf(w', k), w.n)]
    {
      InsertedMember(w, key, tick, state, k);
    }
  }

  lemma InsertedMember<T>(w: Wheel<T>, key: nat, tick: nat, state: T, k: nat)
    requires 0 < w.n == |w.lists| == |w.slots| && key !in w.entries && (k in w.entries || k == key)
    requires k in w.entries ==> k in w.lists[SlotOf(TickOf(w, k), w.n)]
    ensures var w' := Inserted(w, key, tick, state); k in w'.entries && k in w'.lists[SlotOf(TickOf(w', k), w.n)]
  {
    var w' := Inserted(w, key, tick, state);
    InsertedEntries(w, key, tick, state);
    var s := SlotOf(tick, w.n);
    assert w'.lists[s] == [key] + w.lists[s];
  }

  /** What an insertion does to the entries: one more, and only links of the others change. */
  lemma InsertedEntries<T>(w: Wheel<T>, key: nat, tick: nat, state: T)
    requires 0 < w.n == |w.lists| == |w.slots| && key !in w.entries
    ensures var w' := Inserted(w, key, tick, state);
            && w'.entries.Keys == w.entries.Keys + {key}
            && (forall k :: k in w.entries ==> TickOf(w', k) == TickOf(w, k))
            && TickOf(w', key) == tick
            && Contents(w'.entries) == Contents(w.entries)[key := (tick, state)]
  {
    var head := w.slots[SlotOf(tick, w.n)].head;
    var e := Entry(state, EntryLinks(tick, Empty, head));
    var added := w.entries[key := e];
    AddedContents(w.entries, key, e);
    WithPrevContents(added, head, At(key));
    assert forall k :: k in w.entries ==> added[k] == w.entries[k];
  }

  lemma InsertedCursor<T>(w: Wheel<T>, key: nat, tick: nat, state: T)
    requires 0 < w.n == |w.lists| == |w.slots| && Cursor(w)
    ensures var w' := Inserted(w, key, tick, state);
            Cursor(w') && Walk(w')[w'.at..] == Walk(w)[w.at..]
  {
  }

  lemma InsertedCache<T>(w: Wheel<T>, key: nat, tick: nat, state: T, r: nat, upTo: nat)
    requires 0 < w.n == |w.lists| == |w.slots| && Partition(w) && key !in w.entries && r < w.n
    requires upTo <= |w.lists[r]| && CacheOk(w.entries, w.slots[r].nextTick, w.lists[r], upTo)
    ensures var w' := Inserted(w, key, tick, state);
            CacheOk(w'.entries, w'.slots[r].nextTick, w'.lists[r], if r == SlotOf(tick, w.n) then upTo + 1 else upTo)
  {
    var w' := Inserted(w, key, tick, state);
    InsertedEntries(w, key, tick, state);
    assert SlotOk(w.entries, w.slots[r], w.lists[r], r, w.n);
    if r == SlotOf(tick, w.n) {
      forall i | 0 <= i < upTo + 1
        ensures w'.slots[r].nextTick <= TickOf(w', w'.lists[r][i])
      {
        if i > 0 {
          assert w'.lists[r][i] == w.lists[r][i - 1];
        }
      }
    }
  }

  lemma InsertedTiming<T>(w: Wheel<T>, key: nat, tick: nat, state: T)
    requires WheelOk(w) && key !in w.entries && w.tick <= tick <= TICK_MAX
    ensures var w' := Inserted(w, key, tick, state); Cursor(w') && Timing(w')
  {
    var w' := Inserted(w, key, tick, state);
    InsertedEntries(w, key, tick, state);
    InsertedCursor(w, key, tick, state);
    assert SlotOk(w.entries, w.slots[SlotOf(w.tick, w.n)], Walk(w), SlotOf(w.tick, w.n), w.n);
    forall k | k in w'.entries
      ensures TimingOk(w', k)
    {
      if k != key {
        assert TimingOk(w, k);
      }
    }
  }

  lemma InsertedOk<T>(w: Wheel<T>, key: nat, tick: nat, state: T)
    requires Sound(w) && key !in w.entries && w.tick <= tick <= TICK_MAX
    ensures var w' := Inserted(w, key, tick, state);
            Sound(w') && (FullySound(w) ==> FullySound(w'))
  {
    SoundIsOk(w);
    var w' := Inserted(w, key, tick, state);
    InsertedPartition(w, key, tick, state);
    InsertedTiming(w, key, tick, state);
    forall r | 0 <= r < w.n
      ensures CacheOk(w'.entries, w'.slots[r].nextTick, w'.lists[r], Known(w', r))
    {
      InsertedCache(w, key, tick, state, r, Known(w, r));
    }
    if FullySound(w) {
      forall r | 0 <= r < w.n
        ensures CacheOk(w'.entries, w'.slots[r].nextTick, w'.lists[r], |w'.lists[r]|)
      {
        InsertedCache(w, key, tick, state, r, |w.lists[r]|);
      }
    }
    SoundIsOk(w');
  }

  // ---------- removing ----------

  function Without(list: seq<nat>, i: nat): seq<nat>
    requires i < |list|
  {
    list[..i] + list[i + 1..]
  }

  /** `unlink` leaves the entry itself in the slab. */
  function Unlinked<T>(entries: map<nat, Entry<T>>, links: EntryLinks): map<nat, Entry<T>> {
    WithPrev(WithNext(entries, links.prev, links.next), links.next, links.prev)
  }

  /** `unlink` and then `remove`, of the entry at position `i` in the list of slot `s`. */
  function Removed<T>(w: Wheel<T>, s: nat, i: nat): Wheel<T>
    requires 0 < w.n == |w.lists| == |w.slots| && s < w.n && i < |w.lists[s]| && w.lists[s][i] in w.entries
  {
    var k := w.lists[s][i];
    var links := w.entries[k].links;
    Wheel(w.n,
          Unlinked(w.entries, links) - {k},
          if links.prev.Empty? then w.slots[s := w.slots[s].(head := links.next)] else w.slots,
          w.tick,
          if w.next == At(k) then links.next else w.next,
          w.lists[s := Without(w.lists[s], i)],
          if s == SlotOf(w.tick, w.n) && i < w.at then w.at - 1 else w.at,
          w.late - {k})
  }

  lemma UnlinkedContents<T>(entries: map<nat, Entry<T>>, links: EntryLinks)
    ensures var entries' := Unlinked(entries, links);
            && entries'.Keys == entries.Keys && Contents(entries') == Contents(entries)
            && forall k :: k in entries ==> entries'[k].links.tick == entries[k].links.tick
  {
    WithNextContents(entries, links.prev, links.next);
    WithPrevContents(WithNext(entries, links.prev, links.next), links.next, links.prev);
  }

  lemma RemovedEntries<T>(w: Wheel<T>, s: nat, i: nat)
    requires 0 < w.n == |w.lists| == |w.slots| && s < w.n && i < |w.lists[s]| && w.lists[s][i] in w.entries
    ensures var w' := Removed(w, s, i); var k := w.lists[s][i];
            && w'.entries.Keys == w.entries.Keys - {k}
            && (forall j :: j in w'.entries ==> TickOf(w', j) == TickOf(w, j))
            && Contents(w'.entries) == Contents(w.entries) - {k}
  {
    UnlinkedContents(w.entries, w.entries[w.lists[s][i]].links);
  }

  /** Taking position `i` out of a list, position by position. */
  lemma WithoutAt(list: seq<nat>, i: nat, j: nat)
    requires i < |list| && j < |list| - 1
    ensures |Without(list, i)| == |list| - 1
    ensures Without(list, i)[j] == list[if j < i then j else j + 1]
  {
  }

  lemma WithoutLink(list: seq<nat>, i: nat, j: int)
    requires i < |list|
    ensures LinkAt(Without(list, i), j) == LinkAt(list, if j < i then j else j + 1)
  {
    if 0 <= j < |list| - 1 {
      WithoutAt(list, i, j);
    }
  }

  lemma WithoutMembers(list: seq<nat>, i: nat)
    requires i < |list| && Distinct(list)
    ensures forall k :: k in Without(list, i) <==> k in list && k != list[i]
  {
    var rest := Without(list, i);
    forall k
      ensures k in rest <==> k in list && k != list[i]
    {
      if k in list && k != list[i] {
        var j :| 0 <= j < |list| && list[j] == k;
        assert rest[if j < i then j else j - 1] == k;
      }
      if k in rest {
        var j :| 0 <= j < |rest| && rest[j] == k;
        WithoutAt(list, i, j);
      }
    }
  }

  /** The links around position `i` of a chain are closed over it. */
  lemma UnlinkedLinks<T>(entries: map<nat, Entry<T>>, head: Link, list: seq<nat>, i: nat, j: nat)
    requires ChainOk(entries, head, list) && i < |list| && j < |list| && i != j
    ensures var links := entries[list[i]].links; var e := Unlinked(entries, links);
            && list[j] in e
            && e[list[j]].links.prev == (if j == i + 1 then links.prev else entries[list[j]].links.prev)
            && e[list[j]].links.next == (if j == i - 1 then links.next else entries[list[j]].links.next)
  {
    var links := entries[list[i]].links;
    assert LinksAt(entries, list, i);
    LinkIsPosition(list, i - 1, j);
    LinkIsPosition(list, i + 1, j);
    UnlinkedAt(entries, links, list[j]);
  }

  lemma UnlinkedAt<T>(entries: map<nat, Entry<T>>, links: EntryLinks, k: nat)
    requires k in entries
    ensures var e := Unlinked(entries, links);
            && k in e
            && e[k].links.prev == (if links.next == At(k) then links.prev else entries[k].links.prev)
            && e[k].links.next == (if links.prev == At(k) then links.next else entries[k].links.next)
  {
    WithNextAt(entries, links.prev, links.next, k);
    WithPrevAt(WithNext(entries, links.prev, links.next), links.next, links.prev, k);
  }

  lemma WithoutDistinct(list: seq<nat>, i: nat)
    requires i < |list| && Distinct(list)
    ensures Distinct(Without(list, i))
  {
    var rest := Without(list, i);
    forall a, b | 0 <= a < b < |rest|
      ensures rest[a] != rest[b]
    {
      WithoutAt(list, i, a);
      WithoutAt(list, i, b);
    }
  }

  lemma ChainRemoveLinks<T>(entries: map<nat, Entry<T>>, head: Link, list: seq<nat>, i: nat, j: nat)
    requires ChainOk(entries, head, list) && i < |list| && j < |Without(list, i)|
    ensures LinksAt(Unlinked(entries, entries[list[i]].links) - {list[i]}, Without(list, i), j)
  {
    var at := if j < i then j else j + 1;
    WithoutAt(list, i, j);
    UnlinkedLinks(entries, head, list, i, at);
    RelinkedAround(entries, head, list, i, at, j);
  }

  lemma RelinkedAround<T>(entries: map<nat, Entry<T>>, head: Link, list: seq<nat>, i: nat, at: nat, j: nat)
    requires ChainOk(entries, head, list) && i < |list| && at < |list| && at == (if j < i then j else j + 1)
    ensures var links := entries[list[i]].links; var here := entries[list[at]].links;
            && (if at == i + 1 then links.prev else here.prev) == LinkAt(Without(list, i), j - 1)
            && (if at == i - 1 then links.next else here.next) == LinkAt(Without(list, i), j + 1)
            && list[at] != list[i]
  {
    assert LinksAt(entries, list, i) && LinksAt(entries, list, at);
    SkipLinks(list, i, at, j);
  }

  lemma SkipLinks(list: seq<nat>, i: nat, at: nat, j: nat)
    requires i < |list| && at < |list| && at == (if j < i then j else j + 1)
    ensures LinkAt(Without(list, i), j - 1) == (if at == i + 1 then LinkAt(list, i - 1) else LinkAt(list, at - 1))
    ensures LinkAt(Without(list, i), j + 1) == (if at == i - 1 then LinkAt(list, i + 1) else LinkAt(list, at + 1))
  {
    WithoutLink(list, i, j - 1);
    WithoutLink(list, i, j + 1);
  }

  lemma ChainRemove<T>(entries: map<nat, Entry<T>>, head: Link, list: seq<nat>, i: nat)
    requires ChainOk(entries, head, list) && i < |list|
    ensures var links := entries[list[i]].links;
            ChainOk(Unlinked(entries, links) - {list[i]},
                    if links.prev.Empty? then links.next else head, Without(list, i))
  {
    var rest := Without(list, i);
    var e := Unlinked(entries, entries[list[i]].links) - {list[i]};
    assert LinksAt(entries, list, i);
    WithoutLink(list, i, 0);
    WithoutDistinct(list, i);
    forall j | 0 <= j < |rest|
      ensures LinksAt(e, rest, j)
    {
      ChainRemoveLinks(entries, head, list, i, j);
    }
  }

  lemma RemovedOwnSlot<T>(w: Wheel<T>, s: nat, i: nat)
    requires 0 < w.n == |w.lists| == |w.slots| && Partition(w) && s < w.n && i < |w.lists[s]|
    requires w.lists[s][i] in w.entries
    ensures var w' := Removed(w, s, i); SlotOk(w'.entries, w'.slots[s], w'.lists[s], s, w.n)
  {
    var w' := Removed(w, s, i);
    assert SlotOk(w.entries, w.slots[s], w.lists[s], s, w.n);
    ChainRemove(w.entries, w.slots[s].head, w.lists[s], i);
    RemovedEntries(w, s, i);
    forall j | 0 <= j < |w'.lists[s]|
      ensures SlotOf(w'.entries[w'.lists[s][j]].links.tick, w.n) == s
    {
      WithoutAt(w.lists[s], i, j);
      assert w'.lists[s][j] in w'.entries;
      assert TickOf(w', w'.lists[s][j]) == TickOf(w, w'.lists[s][j]);
    }
  }

  /** The neighbours of an entry are in its list. */
  lemma Neighbours<T>(entries: map<nat, Entry<T>>, head: Link, list: seq<nat>, i: nat)
    requires ChainOk(entries, head, list) && i < |list|
    ensures var links := entries[list[i]].links;
            (links.prev.At? ==> links.prev.key in list) && (links.next.At? ==> links.next.key in list)
  {
    assert LinksAt(entries, list, i);
  }

  lemma RemovedOtherSlot<T>(w: Wheel<T>, s: nat, i: nat, r: nat)
    requires 0 < w.n == |w.lists| == |w.slots| && Partition(w) && s < w.n && i < |w.lists[s]|
    requires w.lists[s][i] in w.entries
    requires r < w.n && r != s
    ensures var w' := Removed(w, s, i); SlotOk(w'.entries, w'.slots[r], w'.lists[r], r, w.n)
  {
    var w' := Removed(w, s, i);
    assert SlotOk(w.entries, w.slots[s], w.lists[s], s, w.n) && SlotOk(w.entries, w.slots[r], w.lists[r], r, w.n);
    Neighbours(w.entries, w.slots[s].head, w.lists[s], i);
    forall k | k in w.lists[r]
      ensures k in w'.entries && w'.entries[k] == w.entries[k]
    {
      ListsDisjoint(w, r, s, k);
    }
    ChainFrame(w.entries, w'.entries, w.slots[r].head, w.lists[r]);
  }

  lemma RemovedPartition<T>(w: Wheel<T>, s: nat, i: nat)
    requires 0 < w.n == |w.lists| == |w.slots| && Partition(w) && s < w.n && i < |w.lists[s]|
    requires w.lists[s][i] in w.entries
    ensures Partition(Removed(w, s, i))
  {
    var w' := Removed(w, s, i);
    RemovedEntries(w, s, i);
    forall r | 0 <= r < w.n
      ensures SlotOk(w'.entries, w'.slots[r], w'.lists[r], r, w.n)
    {
      if r == s {
        RemovedOwnSlot(w, s, i);
      } else {
        RemovedOtherSlot(w, s, i, r);
      }
    }
    assert SlotOk(w.entries, w.slots[s], w.lists[s], s, w.n);
    WithoutMembers(w.lists[s], i);
    forall k | k in w'.entries
      ensures k in w'.lists[SlotOf(TickOf(w', k), w.n)]
    {
      RemovedMember(w, w', s, i, k);
    }
  }

  lemma RemovedMember<T>(w: Wheel<T>, w': Wheel<T>, s: nat, i: nat, k: nat)
    requires 0 < w.n == |w.lists| == |w.slots| && s < w.n && i < |w.lists[s]| && w'.n == w.n
    requires w'.lists == w.lists[s := Without(w.lists[s], i)]
    requires k in w.entries && k in w'.entries && k != w.lists[s][i] && TickOf(w', k) == TickOf(w, k)
    requires k in w.lists[SlotOf(TickOf(w, k), w.n)]
    requires forall j :: j in Without(w.lists[s], i) <==> j in w.lists[s] && j != w.lists[s][i]
    ensures k in w'.lists[SlotOf(TickOf(w', k), w.n)]
  {
  }

  /** The cursor moves with its entry, or on from the one removed. */
  lemma RemovedCursor<T>(w: Wheel<T>, s: nat, i: nat)
    requires 0 < w.n == |w.lists| == |w.slots| && Partition(w) && Cursor(w)
    requires s < w.n && i < |w.lists[s]| && w.lists[s][i] in w.entries
    ensures Cursor(Removed(w, s, i))
  {
    if s == SlotOf(w.tick, w.n) {
      assert SlotOk(w.entries, w.slots[s], w.lists[s], s, w.n);
      assert LinksAt(w.entries, w.lists[s], i);
      RemovedHere(w.lists[s], w.at, i, w.next, w.entries[w.lists[s][i]].links.next);
    } else {
      RemovedElsewhere(w, s, i);
    }
  }

  lemma RemovedElsewhere<T>(w: Wheel<T>, s: nat, i: nat)
    requires 0 < w.n == |w.lists| == |w.slots| && Partition(w) && Cursor(w)
    requires s < w.n && i < |w.lists[s]| && w.lists[s][i] in w.entries && s != SlotOf(w.tick, w.n)
    ensures Cursor(Removed(w, s, i))
  {
    var k := w.lists[s][i];
    ListsDisjoint(w, s, SlotOf(w.tick, w.n), k);
    assert w.next != At(k) by {
      if w.next.At? {
        assert Walk(w)[w.at] in Walk(w);
      }
    }
    var w' := Removed(w, s, i);
    assert Walk(w') == Walk(w) && w'.at == w.at && w'.next == w.next;
  }

  lemma RemovedHere(list: seq<nat>, at: nat, i: nat, next: Link, after: Link)
    requires i < |list| && at <= |list| && next == LinkAt(list, at) && after == LinkAt(list, i + 1)
    requires Distinct(list)
    ensures var at' := if i < at then at - 1 else at;
            at' <= |Without(list, i)| && (if next == At(list[i]) then after else next) == LinkAt(Without(list, i), at')
  {
    WithoutLink(list, i, if i < at then at - 1 else at);
    WithoutSize(list, i);
  }

  lemma WithoutSize(list: seq<nat>, i: nat)
    requires i < |list|
    ensures |Without(list, i)| == |list| - 1
  {
  }

  /** What the cursor has still to visit is as before, but for the entry removed. */
  lemma WithoutTail(list: seq<nat>, i: nat, at: nat, k: nat)
    requires i < |list| && at <= |list| && k != list[i]
    ensures var at' := if i < at then at - 1 else at;
            at' <= |Without(list, i)| && (k in Without(list, i)[at'..] <==> k in list[at..])
  {
    var rest := Without(list, i);
    var at' := if i < at then at - 1 else at;
    if k in list[at..] {
      var j :| at <= j < |list| && list[j] == k;
      var j' := if j < i then j else j - 1;
      assert rest[j'] == k && rest[at'..][j' - at'] == k;
    }
    if k in rest[at'..] {
      var j :| at' <= j < |rest| && rest[j] == k;
      var j' := if j < i then j else j + 1;
      assert list[j'] == k && list[at..][j' - at] == k;
    }
  }

  lemma RemovedTiming<T>(w: Wheel<T>, s: nat, i: nat)
    requires WheelOk(w) && s < w.n && i < |w.lists[s]| && w.lists[s][i] in w.entries
    ensures var w' := Removed(w, s, i); Cursor(w') && Timing(w')
  {
    var w' := Removed(w, s, i);
    RemovedCursor(w, s, i);
    RemovedEntries(w, s, i);
    forall k | k in w'.entries
      ensures TimingOk(w', k)
    {
      assert TimingOk(w, k) && TickOf(w', k) == TickOf(w, k);
      if s == SlotOf(w.tick, w.n) {
        WithoutTail(w.lists[s], i, w.at, k);
      }
      assert Unvisited(w', k) == Unvisited(w, k);
    }
  }

  lemma RemovedCache<T>(w: Wheel<T>, s: nat, i: nat, r: nat, upTo: nat)
    requires 0 < w.n == |w.lists| == |w.slots| && s < w.n && i < |w.lists[s]| && w.lists[s][i] in w.entries
    requires r < w.n && upTo <= |w.lists[r]| && CacheOk(w.entries, w.slots[r].nextTick, w.lists[r], upTo)
    ensures var w' := Removed(w, s, i);
            CacheOk(w'.entries, w'.slots[r].nextTick, w'.lists[r], if r == s && i < upTo then upTo - 1 else upTo)
  {
    var w' := Removed(w, s, i);
    RemovedEntries(w, s, i);
    var upTo' := if r == s && i < upTo then upTo - 1 else upTo;
    forall j | 0 <= j < upTo' <= |w'.lists[r]| && w'.lists[r][j] in w'.entries
      ensures w'.slots[r].nextTick <= w'.entries[w'.lists[r][j]].links.tick
    {
      if r == s {
        WithoutAt(w.lists[s], i, j);
      }
      assert TickOf(w', w'.lists[r][j]) == TickOf(w, w'.lists[r][j]);
    }
  }

  lemma RemovedOk<T>(w: Wheel<T>, s: nat, i: nat)
    requires Sound(w) && s < w.n && i < |w.lists[s]| && w.lists[s][i] in w.entries
    ensures var w' := Removed(w, s, i);
            Sound(w') && (FullySound(w) ==> FullySound(w'))
  {
    SoundIsOk(w);
    RemovedPartition(w, s, i);
    RemovedTiming(w, s, i);
    WithoutSize(w.lists[s], i);
    RemovedCaches(w, s, i);
    RemovedFullySound(w, s, i);
    SoundIsOk(Removed(w, s, i));
  }

  lemma RemovedCaches<T>(w: Wheel<T>, s: nat, i: nat)
    requires WheelOk(w) && s < w.n && i < |w.lists[s]| && w.lists[s][i] in w.entries
    ensures Caches(Removed(w, s, i))
  {
    var w' := Removed(w, s, i);
    WithoutSize(w.lists[s], i);
    forall r | 0 <= r < w.n
      ensures CacheOk(w'.entries, w'.slots[r].nextTick, w'.lists[r], Known(w', r))
    {
      RemovedCache(w, s, i, r, Known(w, r));
    }
  }

  lemma RemovedFullySound<T>(w: Wheel<T>, s: nat, i: nat)
    requires WheelOk(w) && s < w.n && i < |w.lists[s]| && w.lists[s][i] in w.entries
    ensures FullySound(w) ==> FullySound(Removed(w, s, i))
  {
    var w' := Removed(w, s, i);
    WithoutSize(w.lists[s], i);
    if FullySound(w) {
      forall r | 0 <= r < w.n
        ensures CacheOk(w'.entries, w'.slots[r].nextTick, w'.lists[r], |w'.lists[r]|)
      {
        RemovedCache(w, s, i, r, |w.lists[r]|);
      }
    }
  }

  // ---------- walking ----------

  /** The head of the list is about to be visited: its cached tick is found anew (lines 238-240). */
  function Reset<T>(w: Wheel<T>): Wheel<T>
    requires 0 < w.n == |w.lists| == |w.slots|
  {
    var s := SlotOf(w.tick, w.n);
    if w.next == w.slots[s].head then w.(slots := w.slots[s := w.slots[s].(nextTick := TICK_MAX)]) else w
  }

  /** Cached ticks changed, and nothing else. */
  ghost predicate OnlyCaches<T>(w: Wheel<T>, w': Wheel<T>) {
    && |w'.slots| == |w.slots| && w'.n == w.n && w'.entries == w.entries && w'.lists == w.lists
    && forall s :: 0 <= s < |w.slots| ==> w'.slots[s].head == w.slots[s].head
  }

  lemma PartitionFrame<T>(w: Wheel<T>, w': Wheel<T>)
    requires 0 < w.n == |w.lists| == |w.slots| && Partition(w) && OnlyCaches(w, w')
    ensures Partition(w')
  {
    forall r | 0 <= r < w.n
      ensures SlotOk(w'.entries, w'.slots[r], w'.lists[r], r, w.n)
    {
      assert SlotOk(w.entries, w.slots[r], w.lists[r], r, w.n);
    }
    forall k | k in w'.entries
      ensures k in w'.lists[SlotOf(TickOf(w', k), w.n)]
    {
      assert TickOf(w', k) == TickOf(w, k);
    }
  }

  lemma CursorStep<T>(w: Wheel<T>)
    requires 0 < w.n == |w.lists| == |w.slots| && Partition(w) && Cursor(w) && w.next.At?
    ensures w.at < |Walk(w)| && w.next.key == Walk(w)[w.at] && w.next.key in w.entries
    ensures w.entries[w.next.key].links.next == LinkAt(Walk(w), w.at + 1)
    ensures w.next == w.slots[SlotOf(w.tick, w.n)].head <==> w.at == 0
  {
    var s := SlotOf(w.tick, w.n);
    assert SlotOk(w.entries, w.slots[s], w.lists[s], s, w.n);
    assert LinksAt(w.entries, w.lists[s], w.at);
  }

  lemma ResetCache<T>(w: Wheel<T>, w': Wheel<T>, s: nat, r: nat)
    requires 0 < w.n == |w.lists| == |w.slots| && s == SlotOf(w.tick, w.n) && w.at == 0
    requires r < w.n && CacheOk(w.entries, w.slots[r].nextTick, w.lists[r], Known(w, r))
    requires w' == w.(slots := w.slots[s := w.slots[s].(nextTick := TICK_MAX)])
    ensures CacheOk(w'.entries, w'.slots[r].nextTick, w'.lists[r], Known(w', r))
  {
  }

  lemma ResetRest<T>(w: Wheel<T>, w': Wheel<T>, s: nat)
    requires 0 < w.n == |w.lists| == |w.slots| && s == SlotOf(w.tick, w.n) && w.at == 0
    requires Cursor(w) && Timing(w) && Caches(w)
    requires w' == w.(slots := w.slots[s := w.slots[s].(nextTick := TICK_MAX)])
    ensures Cursor(w') && Timing(w') && Caches(w')
  {
    assert Walk(w') == Walk(w);
    forall k | k in w'.entries
      ensures TimingOk(w', k)
    {
      assert TimingOk(w, k);
    }
    forall r | 0 <= r < w.n
      ensures CacheOk(w'.entries, w'.slots[r].nextTick, w'.lists[r], Known(w', r))
    {
      assert CacheOk(w.entries, w.slots[r].nextTick, w.lists[r], Known(w, r));
      ResetCache(w, w', s, r);
    }
  }

  lemma ResetOk<T>(w: Wheel<T>)
    requires Sound(w) && w.next.At?
    ensures Sound(Reset(w))
  {
    SoundIsOk(w);
    var w' := Reset(w);
    var s := SlotOf(w.tick, w.n);
    CursorStep(w);
    if w.next == w.slots[s].head {
      PartitionFrame(w, w');
      ResetRest(w, w', s);
    }
    SoundIsOk(w');
  }

  /** The entry at the cursor is for a later lap (lines 246-249). */
  function SteppedOver<T>(w: Wheel<T>): Wheel<T>
    requires 0 < w.n == |w.lists| == |w.slots| && w.next.At? && w.next.key in w.entries
  {
    var s := SlotOf(w.tick, w.n);
    var links := w.entries[w.next.key].links;
    w.(slots := w.slots[s := w.slots[s].(nextTick := Min(w.slots[s].nextTick, links.tick))], next := links.next,
       at := w.at + 1)
  }

  lemma SteppedOverTiming<T>(w: Wheel<T>, w': Wheel<T>, k: nat)
    requires 0 < w.n == |w.lists| && w.at < |Walk(w)| && Walk(w)[w.at] in w.entries && TickOf(w, Walk(w)[w.at]) > w.tick
    requires k in w.entries && TimingOk(w, k) && TimingOk(w, Walk(w)[w.at])
    requires w'.n == w.n && w'.entries == w.entries && w'.lists == w.lists && w'.late == w.late && w'.tick == w.tick
    requires w'.at == w.at + 1
    ensures TimingOk(w', k)
  {
    assert Walk(w)[w.at..] == [Walk(w)[w.at]] + Walk(w')[w'.at..];
  }

  /** The caches after the current slot's cached tick has been lowered to that of the entry visited. */
  lemma SteppedOverCaches<T>(w: Wheel<T>, w': Wheel<T>, s: nat, r: nat)
    requires 0 < w.n == |w.lists| == |w.slots| && s == SlotOf(w.tick, w.n) && w.at < |w.lists[s]|
    requires w.lists[s][w.at] in w.entries
    requires r < w.n && CacheOk(w.entries, w.slots[r].nextTick, w.lists[r], Known(w, r))
    requires w'.n == w.n && w'.entries == w.entries && w'.lists == w.lists && w'.tick == w.tick && w'.at == w.at + 1
    requires w'.slots == w.slots[s := w.slots[s].(nextTick := Min(w.slots[s].nextTick, TickOf(w, w.lists[s][w.at])))]
    ensures CacheOk(w'.entries, w'.slots[r].nextTick, w'.lists[r], Known(w', r))
  {
  }

  lemma SteppedOverOk<T>(w: Wheel<T>)
    requires Sound(w) && w.next.At? && w.next.key in w.entries && TickOf(w, w.next.key) > w.tick
    ensures Sound(SteppedOver(w)) && w.at < |Walk(w)|
  {
    SoundIsOk(w);
    var w' := SteppedOver(w);
    CursorStep(w);
    PartitionFrame(w, w');
    SteppedOverRest(w, w', SlotOf(w.tick, w.n));
    assert Cursor(w') by {
      assert Walk(w') == Walk(w);
    }
    SoundIsOk(w');
  }

  lemma SteppedOverRest<T>(w: Wheel<T>, w': Wheel<T>, s: nat)
    requires 0 < w.n == |w.lists| == |w.slots| && s == SlotOf(w.tick, w.n) && w.at < |w.lists[s]|
    requires w.lists[s][w.at] in w.entries
    requires Timing(w) && Caches(w) && TickOf(w, w.lists[s][w.at]) > w.tick
    requires w'.n == w.n && w'.entries == w.entries && w'.lists == w.lists && w'.late == w.late && w'.tick == w.tick
    requires w'.at == w.at + 1
    requires w'.slots == w.slots[s := w.slots[s].(nextTick := Min(w.slots[s].nextTick, TickOf(w, w.lists[s][w.at])))]
    ensures Timing(w') && Caches(w')
  {
    forall k | k in w'.entries
      ensures TimingOk(w', k)
    {
      assert TimingOk(w, k) && TimingOk(w, w.lists[s][w.at]);
      SteppedOverTiming(w, w', k);
    }
    forall r | 0 <= r < w.n
      ensures CacheOk(w'.entries, w'.slots[r].nextTick, w'.lists[r], Known(w', r))
    {
      assert CacheOk(w.entries, w.slots[r].nextTick, w.lists[r], Known(w, r));
      SteppedOverCaches(w, w', s, r);
    }
  }

  /** The slot is finished: on to the next tick (lines 230-235). */
  function Advanced<T>(w: Wheel<T>): Wheel<T>
    requires 0 < w.n == |w.lists| == |w.slots|
  {
    var s := SlotOf(w.tick + 1, w.n);
    w.(tick := w.tick + 1, next := w.slots[s].head, at := 0,
       slots := if w.slots[s].head.Empty? then w.slots[s := w.slots[s].(nextTick := TICK_MAX)] else w.slots)
  }

  lemma AllVisited<T>(w: Wheel<T>, k: nat)
    requires 0 < w.n == |w.lists| && w.at == |Walk(w)|
    ensures !Unvisited(w, k)
  {
  }

  lemma NoneVisited<T>(w: Wheel<T>, k: nat, s: nat)
    requires 0 < w.n == |w.lists| && w.at == 0 && s == SlotOf(w.tick, w.n) && k in w.lists[s]
    ensures Unvisited(w, k)
  {
    assert Walk(w)[0..] == Walk(w);
  }

  lemma SlotsLapApart(t: nat, n: nat)
    requires n > 0
    ensures SlotOf(t + n, n) == SlotOf(t, n)
  {
    LapApart(t, n);
  }

  lemma AdvancedTiming<T>(w: Wheel<T>, w': Wheel<T>, k: nat)
    requires 0 < w.n == |w.lists| && w.at == |Walk(w)| && k in w.entries && TimingOk(w, k)
    requires k in w.lists[SlotOf(TickOf(w, k), w.n)]
    requires w'.n == w.n && w'.entries == w.entries && w'.lists == w.lists && w'.late == w.late
    requires w'.tick == w.tick + 1 && w'.at == 0
    ensures TimingOk(w', k)
  {
    var t := TickOf(w, k);
    AllVisited(w, k);
    if t == w'.tick {
      NoneVisited(w', k, SlotOf(t, w.n));
    } else if t + w.n == w'.tick {
      SlotsLapApart(t, w.n);
      NoneVisited(w', k, SlotOf(t, w.n));
    }
  }

  lemma AdvancedOk<T>(w: Wheel<T>)
    requires Sound(w) && w.next.Empty? && w.tick < TICK_MAX
    ensures Sound(Advanced(w)) && FullySound(Advanced(w))
  {
    SoundIsOk(w);
    var w' := Advanced(w);
    var s := SlotOf(w.tick + 1, w.n);
    assert w.at == |Walk(w)|;
    PartitionFrame(w, w');
    forall r | 0 <= r < w.n
      ensures CacheOk(w'.entries, w'.slots[r].nextTick, w'.lists[r], |w'.lists[r]|)
    {
      assert SlotOk(w.entries, w.slots[r], w.lists[r], r, w.n);
      assert CacheOk(w.entries, w.slots[r].nextTick, w.lists[r], Known(w, r));
    }
    forall k | k in w'.entries
      ensures TimingOk(w', k)
    {
      assert TimingOk(w, k);
      AdvancedTiming(w, w', k);
    }
    SoundIsOk(w');
  }

  /** The entry at the cursor is due (lines 242-244): it was inserted for exactly this tick, or it is one that was
      inserted too late for its own tick, and then it is late by exactly one lap. */
  lemma DueExactly<T>(w: Wheel<T>)
    requires Sound(w) && w.next.At? && w.next.key in w.entries && TickOf(w, w.next.key) <= w.tick
    ensures var k := w.next.key;
            if k in w.late then w.tick == TickOf(w, k) + w.n else w.tick == TickOf(w, k)
  {
    SoundIsOk(w);
    var k := w.next.key;
    assert TimingOk(w, k);
    var s := SlotOf(w.tick, w.n);
    assert SlotOk(w.entries, w.slots[s], w.lists[s], s, w.n);
    assert Walk(w)[w.at..][0] == k;
    if k in w.late {
      SameSlot(TickOf(w, k), w.tick, w.n);
    }
  }

  // ---------- cached ticks that are found anew ----------

  /** The cached tick of slot `s` is no leftover: it is that of an entry in the slot, or none. */
  ghost predicate Attained<T>(w: Wheel<T>, s: nat)
    requires 0 < w.n == |w.lists| == |w.slots| && s < w.n
  {
    w.slots[s].nextTick == TICK_MAX || exists k ::
        k in w.lists[s] && k in w.entries && TickOf(w, k) == w.slots[s].nextTick
  }

  /** The cached ticks of the slots that the cursor has come to since tick `from` are found anew. */
  ghost predicate PassedAnew<T>(w: Wheel<T>, from: nat)
    requires 0 < w.n == |w.lists| == |w.slots|
  {
    forall t: nat :: from < t < w.tick ==> Attained(w, SlotOf(t, w.n))
  }

  /** The cursor has found the cached tick of its slot anew, or is at its head and about to. */
  ghost predicate FindsAnew<T>(w: Wheel<T>)
    requires 0 < w.n == |w.lists| == |w.slots|
  {
    (w.at == 0 && Walk(w) != []) || Attained(w, SlotOf(w.tick, w.n))
  }

  lemma HeadOfWalk<T>(w: Wheel<T>, s: nat)
    requires Sound(w) && s < w.n
    ensures w.slots[s].head == LinkAt(w.lists[s], 0)
    ensures w.next == LinkAt(Walk(w), w.at) && w.at <= |Walk(w)|
  {
    assert Holds(w, TheSlots) && Holds(w, TheCursor);
    assert SlotOk(w.entries, w.slots[s], w.lists[s], s, w.n);
  }

  lemma AttainedAdvanced<T>(w: Wheel<T>, s: nat)
    requires Sound(w) && s < w.n && w.next.Empty?
    ensures Attained(w, s) ==> Attained(Advanced(w), s)
    ensures FindsAnew(w) ==> Attained(w, SlotOf(w.tick, w.n))
    ensures FindsAnew(Advanced(w))
  {
    HeadOfWalk(w, SlotOf(w.tick + 1, w.n));
    if Attained(w, s) && w.slots[s].nextTick != TICK_MAX {
      var k :| k in w.lists[s] && k in w.entries && TickOf(w, k) == w.slots[s].nextTick;
      assert TickOf(Advanced(w), k) == TickOf(w, k);
    }
  }

  lemma AttainedReset<T>(w: Wheel<T>, s: nat)
    requires Sound(w) && s < w.n && w.next.At?
    ensures Attained(w, s) ==> Attained(Reset(w), s)
    ensures FindsAnew(w) ==> Attained(Reset(w), SlotOf(w.tick, w.n))
  {
    HeadOfWalk(w, SlotOf(w.tick, w.n));
    ResetKeepsAttained(w, s);
    ResetKeepsAttained(w, SlotOf(w.tick, w.n));
  }

  lemma ResetKeepsAttained<T>(w: Wheel<T>, s: nat)
    requires 0 < w.n == |w.lists| == |w.slots| && s < w.n
    ensures Attained(w, s) ==> Attained(Reset(w), s)
  {
    if Attained(w, s) && w.slots[s].nextTick != TICK_MAX {
      var k :| k in w.lists[s] && k in w.entries && TickOf(w, k) == w.slots[s].nextTick;
      assert TickOf(Reset(w), k) == TickOf(w, k);
    }
  }

  lemma AttainedSteppedOver<T>(w: Wheel<T>, s: nat)
    requires Sound(w) && s < w.n && w.next.At? && w.next.key in w.entries && Attained(w, s)
    ensures Attained(SteppedOver(w), s)
  {
    HeadOfWalk(w, s);
    var w' := SteppedOver(w);
    if w'.slots[s].nextTick == w.slots[s].nextTick && w.slots[s].nextTick != TICK_MAX {
      var k :| k in w.lists[s] && k in w.entries && TickOf(w, k) == w.slots[s].nextTick;
      assert TickOf(w', k) == TickOf(w, k);
    } else if w'.slots[s].nextTick != w.slots[s].nextTick {
      assert w.next.key in w'.lists[s] && TickOf(w', w.next.key) == w'.slots[s].nextTick;
    }
  }
}
