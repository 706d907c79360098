/** `Timer` of src/timer.rs: a slab of entries threaded into one doubly linked list per slot, and a cursor that can
    stop inside a list between calls. Its methods refine a map from token to tick and state. */
module Wheel {
  import opened Arithmetic
  import opened Bits
  import opened Lists
  import opened Options
  import opened Ticks
  import opened WheelModel

  datatype Timeout = Timeout(token: nat, tick: nat)

  /** What the timer shares with its wakeup thread and the poll, once it is registered: the tick the thread waits for,
      and whether readiness is set. */
  datatype Inner = Inner(wakeupState: nat, ready: bool)

  /** What `schedule_readiness` leaves behind. */
  function Scheduled(inner: Option<Inner>, tick: nat): Option<Inner> {
    match inner
    case None => None
    case Some(i) => Some(i.(wakeupState := Min(i.wakeupState, tick)))
  }

  function MinTick(wheel: seq<WheelEntry>): (m: nat)
    requires wheel != []
    ensures forall s :: 0 <= s < |wheel| ==> m <= wheel[s].nextTick
    ensures exists s :: 0 <= s < |wheel| && m == wheel[s].nextTick
  {
    if |wheel| == 1 then wheel[0].nextTick else Min(wheel[0].nextTick, MinTick(wheel[1..]))
  }

  /** The cursor is at an entry in a slot whose cached tick is the current one. */
  predicate AtCachedTick<T>(w: Wheel<T>)
    requires 0 < w.n == |w.slots|
  {
    w.next.At? && w.next.key in w.entries && w.slots[SlotOf(TickOf(w, w.next.key), w.n)].nextTick == w.tick
  }

  /** `next_tick`, of a wheel as a value. */
  function NextTickOf<T>(w: Wheel<T>): nat
    requires 0 < w.n == |w.slots|
  {
    if AtCachedTick(w) then w.tick else MinTick(w.slots)
  }

  /** Some slot's cached tick is `t` or earlier. */
  predicate Cached<T>(w: Wheel<T>, t: nat) {
    exists s :: 0 <= s < |w.slots| && w.slots[s].nextTick <= t
  }

  /** What the cursor has still to visit in its list is cached, and at a cached tick no late entry is behind the
      cursor. */
  ghost predicate Foreseen<T>(w: Wheel<T>)
    requires 0 < w.n == |w.lists| == |w.slots|
  {
    && w.at <= |Walk(w)|
    && (forall k :: k in w.entries && Unvisited(w, k) ==> Cached(w, TickOf(w, k)))
    && (AtCachedTick(w) ==> forall k :: k in w.entries && k in w.late ==> TickOf(w, k) == w.tick)
  }

  function Max(a: nat, b: nat): nat {
    if a <= b then b else a
  }

  class Timer<T> {
    const tickMs: nat
    const mask: nat
    var entries: map<nat, Entry<T>>
    var wheel: seq<WheelEntry>
    var tick: nat
    var next: Link
    var inner: Option<Inner>

    ghost var lists: seq<seq<nat>>
    ghost var at: nat
    ghost var late: set<nat>

    ghost function View(): Wheel<T>
      reads this
    {
      Wheel(mask + 1, entries, wheel, tick, next, lists, at, late)
    }

    ghost predicate Valid()
      reads this
    {
      IsPowerOfTwo(mask + 1) && Sound(View())
    }

    /** Every entry was inserted for a tick ahead of the cursor. */
    ghost predicate Timely()
      reads this
    {
      late == {}
    }

    constructor (tickMs: nat, numSlots: nat)
      ensures Valid() && FullySound(View()) && Timely()
      ensures this.tickMs == tickMs && numSlots <= mask + 1 && tick == 0 && inner == None
      ensures forall k :: numSlots <= Pow2(k) ==> mask + 1 <= Pow2(k)
      ensures Contents(entries) == map[]
    {
      var slots := NextPowerOfTwo(numSlots);
      this.tickMs := tickMs;
      mask := slots - 1;
      wheel := seq(slots, _ => WheelEntry(TICK_MAX, Empty));
      entries := map[];
      tick := 0;
      next := Empty;
      inner := None;
      lists := seq(slots, _ => []);
      at := 0;
      late := {};
      new;
      NewOk(View());
    }

    function SlotFor(tick: nat): (s: nat)
      requires IsPowerOfTwo(mask + 1)
      ensures s == SlotOf(tick, mask + 1)
    {
      MaskedSlot(mask, tick);
      BitAnd(mask, tick)
    }

    /** `set_timeout_at`: a deadline in the past is moved to the next tick, but one for the current tick is not. */
    method SetTimeoutAt(delayFromStart: Duration, state: T) returns (timeout: Timeout)
      requires Valid() && tickMs > 0 && tick < TICK_MAX
      modifies this
      ensures Valid() && tick == old(tick)
      ensures var t := DurationToTick(delayFromStart, tickMs); timeout.tick == if t < tick then tick + 1 else t
      ensures timeout.token !in old(entries)
      ensures Contents(entries) == old(Contents(entries))[timeout.token := (timeout.tick, state)]
      ensures late == old(late) + (if DurationToTick(delayFromStart, tickMs) == tick then {timeout.token} else {})
      ensures old(FullySound(View())) ==> FullySound(View())
      ensures inner == Scheduled(old(inner), timeout.tick)
    {
      var t := DurationToTick(delayFromStart, tickMs);
      TickBound(delayFromStart, tickMs);
      if t < tick {
        t := tick + 1;
      }
      timeout := Insert(t, state);
    }

    method Insert(t: nat, state: T) returns (timeout: Timeout)
      requires Valid() && tick <= t <= TICK_MAX
      modifies this
      ensures Valid() && tick == old(tick)
      ensures timeout.tick == t && timeout.token !in old(entries)
      ensures Contents(entries) == old(Contents(entries))[timeout.token := (t, state)]
      ensures late == old(late) + (if t == tick then {timeout.token} else {})
      ensures old(FullySound(View())) ==> FullySound(View())
      ensures inner == Scheduled(old(inner), t)
    {
      ghost var w := View();
      var slot := SlotFor(t);
      var curr := wheel[slot];
      SlotHead(w, slot);
      VacantKey(entries.Keys);
      var token: nat :| token !in entries.Keys;
      entries := entries[token := Entry(state, EntryLinks(t, Empty, curr.head))];
      if curr.head != Empty {
        var first := entries[curr.head.key];
        entries := entries[curr.head.key := first.(links := first.links.(prev := At(token)))];
      }
      wheel := wheel[slot := WheelEntry(Min(t, curr.nextTick), At(token))];
      lists := lists[slot := [token] + lists[slot]];
      at := if slot == SlotOf(tick, mask + 1) then at + 1 else at;
      late := if t == tick then late + {token} else late;
      assert View() == Inserted(w, token, t, state);
      InsertedOk(w, token, t, state);
      InsertedEntries(w, token, t, state);
      ScheduleReadiness(t);
      timeout := Timeout(token, t);
    }

    /** The entry at the token, if its tick is the timeout's, leaves the timer; otherwise nothing happens. */
    method CancelTimeout(timeout: Timeout) returns (state: Option<T>)
      requires Valid()
      modifies this
      ensures Valid() && tick == old(tick) && inner == old(inner)
      ensures timeout.token in old(entries) && old(entries)[timeout.token].links.tick == timeout.tick ==>
                && state == Some(old(entries)[timeout.token].state)
                && Contents(entries) == old(Contents(entries)) - {timeout.token}
                && late == old(late) - {timeout.token}
      ensures !(timeout.token in old(entries) && old(entries)[timeout.token].links.tick == timeout.tick) ==>
                state == None && View() == old(View())
      ensures old(FullySound(View())) ==> FullySound(View())
    {
      if timeout.token !in entries {
        return None;
      }
      var links := entries[timeout.token].links;
      if links.tick != timeout.tick {
        return None;
      }
      var taken := Take(links, timeout.token);
      state := Some(taken);
    }

    /** `unlink`, and `remove` from the slab (lines 214-215 and 243-244). */
    method Take(links: EntryLinks, token: nat) returns (state: T)
      requires Valid() && token in entries && links == entries[token].links
      modifies this
      ensures Valid() && tick == old(tick) && inner == old(inner) && state == old(entries)[token].state
      ensures Contents(entries) == old(Contents(entries)) - {token} && late == old(late) - {token}
      ensures old(FullySound(View())) ==> FullySound(View())
    {
      ghost var w := View();
      UnlinkedContents(entries, links);
      ContentsAt(entries);
      ContentsAt(Unlinked(entries, links));
      ghost var s, i := Unlink(links, token);
      state := entries[token].state;
      entries := entries - {token};
      RemovedOk(w, s, i);
      RemovedEntries(w, s, i);
    }

    /** The entry is closed over in its list, and the cursor moves on if it was there; it stays in the slab. */
    method Unlink(links: EntryLinks, token: nat) returns (ghost s: nat, ghost i: nat)
      requires Valid() && token in entries && links == entries[token].links
      modifies this
      ensures s < |old(lists)| && i < |old(lists)[s]| && old(lists)[s][i] == token
      ensures entries == Unlinked(old(entries), links)
      ensures Wheel(mask + 1, entries - {token}, wheel, tick, next, lists, at, late) == Removed(old(View()), s, i)
      ensures tick == old(tick) && inner == old(inner)
    {
      ghost var w := View();
      s, i := Position(w, token);
      if links.prev == Empty {
        var slot := SlotFor(links.tick);
        wheel := wheel[slot := wheel[slot].(head := links.next)];
      } else {
        var before := entries[links.prev.key];
        entries := entries[links.prev.key := before.(links := before.links.(next := links.next))];
      }
      if links.next != Empty {
        var after := entries[links.next.key];
        entries := entries[links.next.key := after.(links := after.links.(prev := links.prev))];
        if At(token) == next {
          next := links.next;
        }
      } else if At(token) == next {
        next := Empty;
      }
      lists := lists[s := Without(lists[s], i)];
      at := if s == SlotOf(tick, mask + 1) && i < at then at - 1 else at;
      late := late - {token};
    }

    /** `poll_to`, one entry at a time. An entry inserted ahead of the cursor is returned at exactly its tick; one
        inserted for the tick the wheel was then at is returned exactly one lap later. After `None` the cursor is past
        the target, and nothing that the cursor has met is left. */
    method PollTo(target: nat) returns (state: Option<T>, ghost key: nat)
      requires Valid() && tick < TICK_MAX && target < TICK_MAX
      modifies this
      ensures Valid() && old(tick) <= tick
      ensures state.Some? ==>
                && key in old(entries) && state.value == old(entries)[key].state
                && Contents(entries) == old(Contents(entries)) - {key} && late == old(late) - {key}
                && tick <= Max(target, old(tick)) && inner == old(inner)
                && tick == old(entries)[key].links.tick + (if key in old(late) then mask + 1 else 0)
      ensures state.None? ==>
                && Contents(entries) == old(Contents(entries)) && late == old(late)
                && tick == Max(target, old(tick)) + 1 && FullySound(View())
                && inner == (if old(inner).None? then None
                             else Scheduled(Some(old(inner).value.(ready := false)), NextTick()))
      ensures state.None? ==> PassedAnew(View(), old(tick))
      ensures state.None? ==> Covers(NextTick(), DuesOf(View())) && (late != {} ==> NextTick() <= tick)
      ensures state.Some? && key !in old(late) ==>
                (target < old(entries)[key].links.tick <==> target < old(tick))
      ensures state.None? ==>
                forall k :: k in entries ==>
                  Max(target, old(tick)) < entries[k].links.tick + (if k in late then mask + 1 else 0)
    {
      var targetTick := target;
      if targetTick < tick {
        targetTick := tick;
      }
      key := 0;
      while tick <= targetTick
        invariant Valid() && old(tick) <= tick <= targetTick + 1
        invariant entries == old(entries) && late == old(late) && inner == old(inner)
        invariant tick > targetTick ==> FullySound(View())
        invariant FoundAnew(View(), old(tick))
        decreases targetTick + 1 - tick, |Walk(View())| - at
      {
        var curr := next;
        if curr == Empty {
          AdvancedAnew(View(), old(tick));
          NextSlot();
        } else {
          AtCursor(View());
          ResetAnew(View(), old(tick));
          ResetAtHead(curr);
          var links := entries[curr.key].links;
          if links.tick <= tick {
            key := curr.key;
            DueExactly(View());
            var taken := Take(links, curr.key);
            state := Some(taken);
            return;
          } else {
            SteppedOverAnew(View(), old(tick));
            StepOver(links);
          }
        }
      }
      PastTarget(View(), targetTick);
      Rearm();
      state := None;
    }

    /** Readiness is cleared, and the wakeup thread told when to set it again (lines 253-258). */
    method Rearm()
      requires Valid()
      modifies `inner
      ensures inner == if old(inner).None? then None else Scheduled(Some(old(inner).value.(ready := false)), NextTick())
    {
      if inner.Some? {
        inner := Some(inner.value.(ready := false));
        ScheduleReadiness(NextTick());
      }
    }

    /** The cached tick is found anew from the head of the list on (lines 237-240). */
    method ResetAtHead(curr: Link)
      requires Valid() && curr == next
      modifies `wheel
      ensures View() == Reset(old(View()))
    {
      var slot := SlotFor(tick);
      if curr == wheel[slot].head {
        wheel := wheel[slot := wheel[slot].(nextTick := TICK_MAX)];
      }
    }

    /** The cursor leaves an entry of a later lap behind (lines 246-249). */
    method StepOver(links: EntryLinks)
      requires Valid() && next.At? && next.key in entries && links == entries[next.key].links
      modifies `wheel, `next, `at
      ensures View() == SteppedOver(old(View()))
    {
      var slot := SlotFor(tick);
      var nextTick := wheel[slot].nextTick;
      wheel := wheel[slot := wheel[slot].(nextTick := Min(nextTick, links.tick))];
      next := links.next;
      at := at + 1;
    }

    /** The cursor goes to the head of the next slot (lines 230-235). */
    method NextSlot()
      requires Valid()
      modifies `tick, `next, `wheel, `at
      ensures View() == Advanced(old(View()))
    {
      tick := tick + 1;
      var slot := SlotFor(tick);
      next := wheel[slot].head;
      if next == Empty {
        wheel := wheel[slot := wheel[slot].(nextTick := TICK_MAX)];
      }
      at := 0;
    }

    /** `schedule_readiness`. In this model nobody else moves the shared tick meanwhile, so that the first
        compare-exchange succeeds; the loop around it is part of the machine in `TimerWakeup`. */
    method ScheduleReadiness(t: nat)
      modifies `inner
      ensures inner == Scheduled(old(inner), t)
    {
      if inner.Some? && inner.value.wakeupState > t {
        inner := Some(inner.value.(wakeupState := t));
      }
    }

    /** The part of `register` that concerns the timer (lines 362-382): only once; and the wakeup thread is told of what
        is already set exactly if that is `Foreseen`. The tick at which the cursor comes to an entry is covered if the
        cached ticks are sound for whole slots, as they are unless the last poll returned an entry. */
    method Register() returns (ok: bool)
      requires Valid()
      modifies `inner
      ensures ok == old(inner).None?
      ensures inner == if ok then Scheduled(Some(Inner(TICK_MAX, false)), NextTick()) else old(inner)
      ensures ok ==> (Covers(inner.value.wakeupState, TicksOf(entries)) <==> Foreseen(View()))
      ensures ok && FullySound(View()) ==> Covers(inner.value.wakeupState, DuesOf(View()))
      ensures ok && FullySound(View()) && Timely() ==> Covers(inner.value.wakeupState, TicksOf(entries))
    {
      CoversExactly(View());
      NextTickBound(View());
      ok := inner.None?;
      if ok {
        inner := Some(Inner(TICK_MAX, false));
        ScheduleReadiness(NextTick());
      }
    }

    /** `next_tick`. Whenever the cached ticks are sound for whole slots, it is no later than the cursor comes to any
        entry; and a late entry, which the cursor has missed, makes it a tick that is no later than the cursor's. */
    function NextTick(): (t: nat)
      requires Valid()
      reads this
      ensures FullySound(View()) ==> Covers(t, DuesOf(View()))
      ensures FullySound(View()) && Timely() ==> Covers(t, TicksOf(entries))
      ensures FullySound(View()) && late != {} ==> t <= tick
      ensures t == NextTickOf(View())
    {
      NextTickBound(View());
      if next.At? && next.key in entries && wheel[SlotFor(entries[next.key].links.tick)].nextTick == tick then tick
      else MinTick(wheel)
    }
  }

  // ---------- facts the methods use ----------

  lemma MaskedSlot(mask: nat, tick: nat)
    requires IsPowerOfTwo(mask + 1)
    ensures BitAnd(mask, tick) == SlotOf(tick, mask + 1)
  {
    var k :| mask + 1 == Pow2(k);
    MaskIsRemainder(tick, k);
  }

  lemma TickBound(d: Duration, tickMs: nat)
    requires tickMs > 0
    ensures DurationToTick(d, tickMs) <= TICK_MAX
  {
    QuotientBound(Saturate(Millis(d) + tickMs / 2), tickMs);
  }

  lemma QuotientBound(a: nat, n: nat)
    requires n > 0
    ensures a / n <= a
  {
    DivBounds(a, n);
    DivMonotone(0, a, n);
    FactorBound(a / n, n);
  }

  lemma FactorBound(q: nat, n: nat)
    requires n > 0
    ensures q <= q * n
  {
    assert q * n == q * (n - 1) + q;
  }

  lemma VacantKey(keys: set<nat>)
    ensures exists k: nat :: k !in keys
  {
    var k := Above(keys);
    assert k !in keys;
  }

  lemma SlotHead<T>(w: Wheel<T>, s: nat)
    requires Sound(w) && s < w.n
    ensures w.slots[s].head.At? ==> w.slots[s].head.key in w.entries
  {
    SoundIsOk(w);
    assert SlotOk(w.entries, w.slots[s], w.lists[s], s, w.n);
  }

  lemma AtCursor<T>(w: Wheel<T>)
    requires Sound(w) && w.next.At?
    ensures w.next.key in w.entries && w.at < |Walk(w)|
  {
    SoundIsOk(w);
    CursorStep(w);
  }

  lemma PastTarget<T>(w: Wheel<T>, target: nat)
    requires Sound(w) && target < w.tick
    ensures forall k :: k in w.entries ==> target < w.entries[k].links.tick + (if k in w.late then w.n else 0)
  {
    SoundIsOk(w);
    forall k | k in w.entries
      ensures target < w.entries[k].links.tick + (if k in w.late then w.n else 0)
    {
      assert TimingOk(w, k);
    }
  }

  /** All the cached ticks that a poll begun at tick `from` answers for. */
  ghost predicate FoundAnew<T>(w: Wheel<T>, from: nat)
    requires 0 < w.n == |w.lists| == |w.slots|
  {
    PassedAnew(w, from) && (from < w.tick ==> FindsAnew(w))
  }

  /** The same when the head of the list has been looked at. */
  ghost predicate FoundHere<T>(w: Wheel<T>, from: nat)
    requires 0 < w.n == |w.lists| == |w.slots|
  {
    PassedAnew(w, from) && (from < w.tick ==> Attained(w, SlotOf(w.tick, w.n)))
  }

  lemma AdvancedAnew<T>(w: Wheel<T>, from: nat)
    requires Sound(w) && w.next.Empty? && w.tick < TICK_MAX && FoundAnew(w, from)
    ensures Sound(Advanced(w)) && FullySound(Advanced(w)) && FoundAnew(Advanced(w), from)
  {
    AdvancedOk(w);
    AttainedAdvanced(w, 0);
    forall t: nat | from < t < w.tick + 1
      ensures Attained(Advanced(w), SlotOf(t, w.n))
    {
      AttainedAdvanced(w, SlotOf(t, w.n));
    }
  }

  lemma ResetAnew<T>(w: Wheel<T>, from: nat)
    requires Sound(w) && w.next.At? && FoundAnew(w, from)
    ensures Sound(Reset(w)) && FoundHere(Reset(w), from)
  {
    ResetOk(w);
    AttainedReset(w, 0);
    forall t: nat | from < t < w.tick
      ensures Attained(Reset(w), SlotOf(t, w.n))
    {
      AttainedReset(w, SlotOf(t, w.n));
    }
  }

  lemma SteppedOverAnew<T>(w: Wheel<T>, from: nat)
    requires Sound(w) && w.next.At? && w.next.key in w.entries && TickOf(w, w.next.key) > w.tick && FoundHere(w, from)
    ensures Sound(SteppedOver(w)) && w.at < |Walk(w)| && FoundAnew(SteppedOver(w), from)
  {
    SteppedOverOk(w);
    forall t: nat | from < t <= w.tick
      ensures Attained(SteppedOver(w), SlotOf(t, w.n))
    {
      AttainedSteppedOver(w, SlotOf(t, w.n));
    }
  }

  /** Once all cached ticks are found anew, the least of them is exactly the earliest tick set, or none. */
  lemma ExactNextTick<T>(w: Wheel<T>)
    requires Sound(w) && FullySound(w) && forall s: nat :: s < w.n ==> Attained(w, s)
    ensures w.entries == map[] ==> MinTick(w.slots) == TICK_MAX
    ensures forall k :: k in w.entries ==> MinTick(w.slots) <= TickOf(w, k)
    ensures w.entries != map[] ==> exists k :: k in w.entries && TickOf(w, k) == MinTick(w.slots)
  {
    assert Holds(w, TheTiming);
    forall k | k in w.entries
      ensures MinTick(w.slots) <= TickOf(w, k)
    {
      MinTickBound(w, k);
    }
    var s :| 0 <= s < |w.slots| && MinTick(w.slots) == w.slots[s].nextTick;
    assert Attained(w, s);
    if w.slots[s].nextTick == TICK_MAX && w.entries != map[] {
      assert w.entries.Keys != {};
      var k :| k in w.entries.Keys;
      assert TimingOk(w, k);
      assert TickOf(w, k) == MinTick(w.slots);
    }
  }

  /** The first tick from `a` on in slot `s`. */
  lemma NextVisit(a: nat, s: nat, n: nat) returns (t: nat)
    requires s < n
    ensures a <= t < a + n && SlotOf(t, n) == s
  {
    DivBounds(a, n);
    var q := if a - a / n * n <= s then a / n else a / n + 1;
    assert (a / n + 1) * n == a / n * n + n;
    t := q * n + s;
    DivModUnique(t, n, q, s);
  }

  /** A poll that returns nothing and moves the cursor by more than a lap finds all cached ticks anew, whatever was
      cancelled before. */
  lemma LapFindsAnew<T>(w: Wheel<T>, from: nat)
    requires Sound(w) && FullySound(w) && PassedAnew(w, from) && from + w.n < w.tick
    ensures forall s: nat :: s < w.n ==> Attained(w, s)
  {
    forall s: nat | s < w.n
      ensures Attained(w, s)
    {
      var t := NextVisit(from + 1, s, w.n);
      assert Attained(w, SlotOf(t, w.n));
    }
  }

  /** Where an entry is. */
  ghost method Position<T>(w: Wheel<T>, k: nat) returns (s: nat, i: nat)
    requires Sound(w) && k in w.entries
    ensures s == SlotOf(TickOf(w, k), w.n) && i < |w.lists[s]| && w.lists[s][i] == k
    ensures var links := w.entries[k].links;
            && (links.prev.At? ==> links.prev.key in w.entries && links.prev.key != k)
            && (links.next.At? ==> links.next.key in w.entries && links.next.key != k)
            && (links.prev.At? && links.next.At? ==> links.prev != links.next)
  {
    SoundIsOk(w);
    s := SlotOf(TickOf(w, k), w.n);
    i :| 0 <= i < |w.lists[s]| && w.lists[s][i] == k;
    assert SlotOk(w.entries, w.slots[s], w.lists[s], s, w.n);
    assert LinksAt(w.entries, w.lists[s], i);
  }

  lemma NextTickBound<T>(w: Wheel<T>)
    requires Sound(w)
    ensures NextTickOf(w) <= TICK_MAX
    ensures FullySound(w) ==> Covers(NextTickOf(w), DuesOf(w))
    ensures FullySound(w) && w.late == {} ==> Covers(NextTickOf(w), TicksOf(w.entries))
    ensures FullySound(w) && w.late != {} ==> NextTickOf(w) <= w.tick
  {
    assert Holds(w, TheCaches) && Holds(w, TheTiming);
    if FullySound(w) {
      forall k | k in w.entries
        ensures NextTickOf(w) <= DueOf(w, k) && (k in w.late ==> NextTickOf(w) <= w.tick)
      {
        assert TimingOk(w, k);
        MinTickBound(w, k);
      }
      if k :| k in w.late {
        assert k in w.entries;
      }
    }
  }

  lemma MinTickBound<T>(w: Wheel<T>, k: nat)
    requires Sound(w) && FullySound(w) && k in w.entries
    ensures MinTick(w.slots) <= w.slots[SlotOf(TickOf(w, k), w.n)].nextTick <= TickOf(w, k)
  {
    SoundIsOk(w);
    var s := SlotOf(TickOf(w, k), w.n);
    assert k in w.lists[s];
    assert CacheOk(w.entries, w.slots[s].nextTick, w.lists[s], |w.lists[s]|);
  }

  /** The next tick covers everything set exactly if that is foreseen, whatever the cursor is in the middle of. */
  lemma CoversExactly<T>(w: Wheel<T>)
    requires Sound(w)
    ensures Covers(NextTickOf(w), TicksOf(w.entries)) <==> Foreseen(w)
  {
    if Foreseen(w) {
      var ticks := TicksOf(w.entries);
      forall k | k in ticks
        ensures NextTickOf(w) <= ticks[k]
      {
        ForeseenCovers(w, k);
      }
    } else {
      NotForeseen(w);
    }
  }

  lemma ForeseenCovers<T>(w: Wheel<T>, k: nat)
    requires Sound(w) && Foreseen(w) && k in w.entries
    ensures NextTickOf(w) <= TickOf(w, k)
  {
    assert Holds(w, TheTiming) && TimingOk(w, k);
    if !Unvisited(w, k) {
      VisitedIsCached(w, k);
    }
  }

  /** An entry the cursor has passed, or that is in another list, is cached. */
  lemma VisitedIsCached<T>(w: Wheel<T>, k: nat)
    requires Sound(w) && k in w.entries && w.at <= |Walk(w)| && !Unvisited(w, k)
    ensures Cached(w, TickOf(w, k))
  {
    assert Holds(w, TheSlots) && Holds(w, TheCaches);
    var s := SlotOf(TickOf(w, k), w.n);
    var i :| 0 <= i < |w.lists[s]| && w.lists[s][i] == k;
    assert CacheOk(w.entries, w.slots[s].nextTick, w.lists[s], Known(w, s));
  }

  lemma NotForeseen<T>(w: Wheel<T>)
    requires Sound(w) && !Foreseen(w)
    ensures !Covers(NextTickOf(w), TicksOf(w.entries))
  {
    assert Holds(w, TheTiming);
    var ticks := TicksOf(w.entries);
    if k :| k in w.entries && Unvisited(w, k) && !Cached(w, TickOf(w, k)) {
      assert k in ticks && TimingOk(w, k);
    } else {
      var k :| k in w.entries && k in w.late && TickOf(w, k) != w.tick;
      assert k in ticks && TimingOk(w, k);
    }
  }

  // ---------- draining ----------

  lemma ContentsAt<T>(entries: map<nat, Entry<T>>)
    ensures Contents(entries).Keys == entries.Keys
    ensures forall k :: k in entries ==> Contents(entries)[k] == (entries[k].links.tick, entries[k].state)
  {
  }

  lemma OneLess<T>(m: map<nat, T>, k: nat)
    requires k in m
    ensures |m - {k}| < |m|
  {
    assert (m - {k}).Keys == m.Keys - {k};
    assert |m - {k}| == |(m - {k}).Keys| && |m| == |m.Keys|;
  }

  datatype FiredPart = Matched | Ordered | Left

  /** What has come out of the timer so far: once each, in the order of the ticks, and none later than `tick`. */
  ghost predicate Fired<T>(was: map<nat, (nat, T)>, now: map<nat, (nat, T)>, keys: seq<nat>, fired: seq<T>, tick: nat) {
    |fired| == |keys| && forall part :: FiredOk(was, now, keys, fired, tick, part)
  }

  ghost predicate FiredOk<T>(was: map<nat, (nat, T)>, now: map<nat, (nat, T)>, keys: seq<nat>, fired: seq<T>, tick: nat,
                             part: FiredPart)
    requires |fired| == |keys|
  {
    match part
    case Matched =>
      Distinct(keys) && forall i :: 0 <= i < |keys| ==>
          keys[i] in was && was[keys[i]].1 == fired[i] && was[keys[i]].0 <= tick
    case Ordered =>
      forall i, j :: 0 <= i < j < |keys| && keys[i] in was && keys[j] in was ==> was[keys[i]].0 <= was[keys[j]].0
    case Left =>
      && (forall k :: k in was ==> k in keys || k in now)
      && (forall k :: k in now ==> k in was && now[k] == was[k] && k !in keys)
  }

  /** The tick of the last entry taken out, or `tick` if none was. */
  function LastFired<T>(was: map<nat, (nat, T)>, keys: seq<nat>, tick: nat): nat {
    if keys == [] || keys[|keys| - 1] !in was then tick else was[keys[|keys| - 1]].0
  }

  lemma FiredNone<T>(was: map<nat, (nat, T)>, tick: nat)
    ensures Fired(was, was, [], [], tick)
  {
    forall part
      ensures FiredOk(was, was, [], [], tick, part)
    {
      match part
      case _ =>
    }
  }

  lemma FiredOne<T>(was: map<nat, (nat, T)>, now: map<nat, (nat, T)>, keys: seq<nat>, fired: seq<T>, tick: nat,
                    key: nat, state: T, tick': nat)
    requires Fired(was, now, keys, fired, tick) && tick <= tick' && key in now && now[key] == (tick', state)
    ensures Fired(was, now - {key}, keys + [key], fired + [state], tick')
    ensures forall t :: LastFired(was, keys + [key], t) == tick'
  {
    assert FiredOk(was, now, keys, fired, tick, Matched) && FiredOk(was, now, keys, fired, tick, Ordered)
           && FiredOk(was, now, keys, fired, tick, Left);
    forall part
      ensures FiredOk(was, now - {key}, keys + [key], fired + [state], tick', part)
    {
      match part
      case _ =>
    }
  }

  lemma FiredNext<T>(was: map<nat, (nat, T)>, entries: map<nat, Entry<T>>, entries': map<nat, Entry<T>>,
                     keys: seq<nat>, fired: seq<T>, tick: nat, key: nat, tick': nat)
    requires Fired(was, Contents(entries), keys, fired, tick) && tick <= tick'
    requires key in entries && entries[key].links.tick == tick' && Contents(entries') == Contents(entries) - {key}
    ensures Fired(was, Contents(entries'), keys + [key], fired + [entries[key].state], tick')
    ensures |Contents(entries')| < |Contents(entries)|
    ensures forall t :: LastFired(was, keys + [key], t) == tick'
  {
    ContentsAt(entries);
    FiredOne(was, Contents(entries), keys, fired, tick, key, entries[key].state, tick');
    OneLess(Contents(entries), key);
  }

  /** Nothing that is left is due. */
  lemma AllFired<T>(was: map<nat, (nat, T)>, now: map<nat, (nat, T)>, keys: seq<nat>, fired: seq<T>, tick: nat,
                    target: nat,
                    entries: map<nat, Entry<T>>)
    requires Fired(was, now, keys, fired, tick) && tick <= target && now == Contents(entries)
    requires forall k :: k in entries ==> target < entries[k].links.tick
    ensures Fired(was, now, keys, fired, target)
    ensures forall k :: k in was ==> (k in keys <==> was[k].0 <= target)
  {
    ContentsAt(entries);
    assert FiredOk(was, now, keys, fired, tick, Matched) && FiredOk(was, now, keys, fired, tick, Ordered)
           && FiredOk(was, now, keys, fired, tick, Left);
    forall part
      ensures FiredOk(was, now, keys, fired, target, part)
    {
      match part
      case _ =>
    }
  }

  /** The loop `while let Some(t) = timer.poll()` of src/net/event_loop.rs:129-131; `clock` gives the target tick of
      each call of `poll`. If every entry was inserted ahead of the cursor, the loop takes out exactly the entries that
      are due at the last target, each once, in the order of their ticks. The last target is the clock's, or the tick of
      the last entry taken out, or the tick the wheel was at to begin with, whichever is latest. */
  method Drain<T>(timer: Timer<T>, clock: nat -> nat) returns (fired: seq<T>, ghost keys: seq<nat>, ghost target: nat)
    requires timer.Valid() && timer.Timely() && timer.tick < TICK_MAX && forall i :: clock(i) < TICK_MAX
    modifies timer
    ensures timer.Valid() && timer.Timely() && FullySound(timer.View())
    ensures timer.tick == target + 1
    ensures target == Max(clock(|fired|), LastFired(old(Contents(timer.entries)), keys, old(timer.tick)))
    ensures Fired(old(Contents(timer.entries)), Contents(timer.entries), keys, fired, target)
    ensures forall k :: k in old(Contents(timer.entries)) ==>
              (k in keys <==> old(Contents(timer.entries))[k].0 <= target)
  {
    fired, keys := [], [];
    ghost var was := Contents(timer.entries);
    FiredNone(was, timer.tick);
    while true
      invariant timer.Valid() && timer.Timely() && timer.tick < TICK_MAX
      invariant Fired(was, Contents(timer.entries), keys, fired, timer.tick)
      invariant LastFired(was, keys, old(timer.tick)) == timer.tick
      decreases |Contents(timer.entries)|
    {
      ghost var before := timer.tick;
      ghost var entries := timer.entries;
      target := Max(clock(|fired|), before);
      var state;
      ghost var key;
      state, key := timer.PollTo(clock(|fired|));
      if state == None {
        AllFired(was, Contents(timer.entries), keys, fired, before, target, timer.entries);
        return;
      }
      FiredNext(was, entries, timer.entries, keys, fired, before, key, timer.tick);
      fired := fired + [state.value];
      keys := keys + [key];
    }
  }

  // ---------- the clock ----------

  /** A call that returns nothing moves the cursor past its target even if the clock stands still, so an entry set for
      tick 2 is handed out by the third poll at tick 0. An entry comes out ahead of the clock exactly in this way:
      `PollTo` returns nothing later than its target unless the cursor was already past it. */
  method AheadOfTheClock() returns (deadline: nat, first: Option<int>, second: Option<int>, third: Option<int>)
    ensures deadline == 2 && first == None && second == None && third == Some(7)
  {
    var timer := new Timer<int>(1, 4);
    var timeout := timer.Insert(2, 7);
    deadline := timeout.tick;
    ContentsAt(timer.entries);
    assert Contents(timer.entries) == map[timeout.token := (2, 7)];
    assert timer.entries[timeout.token].links.tick == 2;
    ghost var key;
    first, key := timer.PollTo(0);
    ContentsAt(timer.entries);
    second, key := timer.PollTo(0);
    ContentsAt(timer.entries);
    third, key := timer.PollTo(0);
  }

  /** An entry set for the tick the wheel is at is missed by the current pass, and handed out one lap later: here for a
      delay that rounds to tick 0, on a new timer of four slots. */
  method OneLapLate() returns (deadline: nat, first: Option<int>, second: Option<int>)
    ensures deadline == 0 && first == None && second == Some(7)
  {
    var timer := new Timer<int>(1, 4);
    assert Pow2(2) == 4;
    var timeout := timer.SetTimeoutAt(0, 7);
    deadline := timeout.tick;
    ContentsAt(timer.entries);
    assert Contents(timer.entries) == map[timeout.token := (0, 7)];
    assert timer.entries[timeout.token].links.tick == 0;
    ghost var key;
    first, key := timer.PollTo(0);
    ContentsAt(timer.entries);
    second, key := timer.PollTo(4);
  }

  /** An entry inserted for the current tick has been missed, and keeps its slot's cached tick in the past. So the next
      tick is no later than the entry's, unless the cursor is at an entry in a slot whose cached tick is current. */
  lemma LateIsScheduledPast<T>(w: Wheel<T>, k: nat)
    requires Sound(w) && FullySound(w) && k in w.late
    ensures k in w.entries && TickOf(w, k) <= w.tick
    ensures MinTick(w.slots) <= TickOf(w, k) && NextTickOf(w) <= w.tick
    ensures !AtCachedTick(w) ==> NextTickOf(w) <= TickOf(w, k)
    ensures TickOf(w, k) < w.tick && (forall m :: m in w.entries ==> SameSlotAs(w, k, m)) ==>
              NextTickOf(w) <= TickOf(w, k)
  {
    assert Holds(w, TheTiming) && TimingOk(w, k);
    MinTickBound(w, k);
    if AtCachedTick(w) && TickOf(w, k) < w.tick {
      assert !SameSlotAs(w, k, w.next.key);
    }
  }

  predicate SameSlotAs<T>(w: Wheel<T>, k: nat, m: nat)
    requires w.n > 0 && k in w.entries && m in w.entries
  {
    SlotOf(TickOf(w, m), w.n) == SlotOf(TickOf(w, k), w.n)
  }

  /** Set in a timer of four slots: a late entry `a` for tick 1, and an entry `b` for tick 5. */
  ghost predicate TwoSet(timer: Timer<int>, a: nat, b: nat)
    reads timer
  {
    && timer.Valid() && timer.mask == 3 && a != b && timer.late == {a}
    && Contents(timer.entries) == map[a := (1, 7), b := (5, 8)]
  }

  lemma TwoEntries(entries: map<nat, Entry<int>>, a: nat, b: nat)
    requires a != b && Contents(entries) == map[a := (1, 7), b := (5, 8)]
    ensures entries.Keys == {a, b}
    ensures entries[a].links.tick == 1 && entries[a].state == 7 && entries[b].links.tick == 5 && entries[b].state == 8
  {
    ContentsAt(entries);
    assert Contents(entries).Keys == {a, b};
  }

  method SetTwo() returns (timer: Timer<int>, ghost a: nat, ghost b: nat)
    ensures fresh(timer) && TwoSet(timer, a, b) && timer.tick == 1
  {
    timer := new Timer<int>(1, 4);
    assert Pow2(2) == 4;
    var state;
    ghost var key;
    state, key := timer.PollTo(0);
    ContentsAt(timer.entries);
    var late := timer.Insert(1, 7);
    var other := timer.Insert(5, 8);
    a, b := late.token, other.token;
  }

  /** A drain at tick 1 that takes nothing out. */
  method DrainNothing(timer: Timer<int>, ghost a: nat, ghost b: nat) returns (wakeup: nat)
    requires TwoSet(timer, a, b) && 1 <= timer.tick <= 4
    modifies timer
    ensures TwoSet(timer, a, b) && timer.tick == old(timer.tick) + 1
    ensures wakeup <= 1
  {
    TwoEntries(timer.entries, a, b);
    var state;
    ghost var key;
    state, key := timer.PollTo(1);
    assert state == None;
    TwoEntries(timer.entries, a, b);
    LateIsScheduledPast(timer.View(), a);
    wakeup := timer.NextTick();
  }

  /** Both together: the clock stands at tick 1, where the cursor is, when an entry is set for tick 1 and one for tick
      5. Each of the four drains that follow finds nothing and schedules a tick no later than the clock's, which brings
      on the next drain at once. The fifth is four ticks ahead of the clock, and hands out both. */
  method RunsAhead() returns (wakeups: seq<nat>, first: Option<int>, second: Option<int>)
    ensures |wakeups| == 4 && forall i :: 0 <= i < |wakeups| ==> wakeups[i] <= 1
    ensures (first == Some(7) && second == Some(8)) || (first == Some(8) && second == Some(7))
  {
    var timer;
    ghost var a, b;
    timer, a, b := SetTwo();
    wakeups := [];
    while |wakeups| < 4
      invariant TwoSet(timer, a, b) && timer.tick == |wakeups| + 1 <= 5
      invariant forall i :: 0 <= i < |wakeups| ==> wakeups[i] <= 1
    {
      var wakeup := DrainNothing(timer, a, b);
      wakeups := wakeups + [wakeup];
    }
    first, second := TakeBoth(timer, a, b);
  }

  method TakeBoth(timer: Timer<int>, ghost a: nat, ghost b: nat) returns (first: Option<int>, second: Option<int>)
    requires TwoSet(timer, a, b) && timer.tick == 5
    modifies timer
    ensures (first == Some(7) && second == Some(8)) || (first == Some(8) && second == Some(7))
  {
    TwoEntries(timer.entries, a, b);
    ghost var key;
    first, key := timer.PollTo(1);
    ContentsAt(timer.entries);
    assert first.Some? && key in {a, b};
    ghost var left := if key == a then b else a;
    assert left in Contents(timer.entries) && timer.entries.Keys == {left};
    second, key := timer.PollTo(1);
    ContentsAt(timer.entries);
  }

  // ---------- in the middle of a walk ----------

  const EMPTY_WHEEL: Wheel<int> := Wheel(1, map[], [WheelEntry(TICK_MAX, Empty)], 0, Empty, [[]], 0, {})

  /** Two entries for tick 1, of which a poll has just handed out the first. */
  const MID_WALK: Wheel<int> :=
    Wheel(1, map[0 := Entry(7, EntryLinks(1, Empty, Empty))], [WheelEntry(TICK_MAX, At(0))], 1, At(0), [[0]], 0, {})

  lemma MidWalkIsReached()
    ensures var w1 := Inserted(Inserted(EMPTY_WHEEL, 0, 1, 7), 1, 1, 8);
            var w2 := Reset(Advanced(w1));
            && |w2.lists[0]| == 2 && w2.lists[0][0] in w2.entries && TickOf(w2, w2.lists[0][0]) <= w2.tick
            && Removed(w2, 0, 0) == MID_WALK
            && Sound(MID_WALK)
  {
    NewOk(EMPTY_WHEEL);
    InsertedOk(EMPTY_WHEEL, 0, 1, 7);
    var w0 := Inserted(EMPTY_WHEEL, 0, 1, 7);
    InsertedOk(w0, 1, 1, 8);
    var w1 := Inserted(w0, 1, 1, 8);
    AdvancedOk(w1);
    ResetOk(Advanced(w1));
    var w2 := Reset(Advanced(w1));
    assert w0.lists[0] == [0] && w1.lists[0] == [1, 0] && w2.lists[0] == [1, 0];
    RemovedOk(w2, 0, 0);
    assert Removed(w2, 0, 0).entries == MID_WALK.entries;
    assert Without([1, 0], 0) == [0];
  }

  /** Between two polls of one drain the cached ticks do not cover what the cursor has still to visit: an entry is due,
      and `next_tick` finds nothing. A timer registered then is not woken for it. */
  lemma MidWalkNotCovered()
    ensures Sound(MID_WALK) && MID_WALK.late == {} && !FullySound(MID_WALK) && !Foreseen(MID_WALK)
    ensures NextTickOf(MID_WALK) == TICK_MAX && !Covers(NextTickOf(MID_WALK), TicksOf(MID_WALK.entries))
  {
    MidWalkIsReached();
    var list := MID_WALK.lists[0];
    assert list[0] == 0 && |list| == 1 && MID_WALK.entries[list[0]].links.tick == 1;
    assert !CacheOk(MID_WALK.entries, MID_WALK.slots[0].nextTick, list, |list|);
    assert 0 in TicksOf(MID_WALK.entries);
    CoversExactly(MID_WALK);
  }
}
