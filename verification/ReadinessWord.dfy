/** The state word of a readiness node (src/poll.rs:15-174), twice: as the source packs it into one
    machine word, and as the record of its seven fields. The lemmas show that the two agree, so the rest
    of the project may speak of the record only. */
module ReadinessWord {

  // ---------- the record ----------

  type Bits4 = b: bv64 | b & 15 == b
  type Bits2 = b: bv64 | b & 3 == b

  /** One value of `ReadinessState`, field by field. Token positions have two bits, so 3 is representable. */
  datatype Word = Word(readiness: Bits4, interest: Bits4, opt: Bits4, rd: Bits2, wr: Bits2, queued: bool, dropped: bool)

  const EDGE: Bits4 := 1
  const ONESHOT: Bits4 := 4

  function Fresh(interest: Bits4, opt: Bits4): Word {
    Word(0, interest, opt, 0, 0, false, false)
  }

  function Effective(w: Word): Bits4 {
    w.readiness & w.interest
  }

  predicate Signals(w: Word) {
    Effective(w) != 0
  }

  predicate IsEdge(w: Word) {
    w.opt & EDGE == EDGE
  }

  predicate IsOneshot(w: Word) {
    w.opt & ONESHOT == ONESHOT
  }

  /** Neither position holds the value on which the source panics. */
  predicate PositionsOk(w: Word) {
    w.rd != 3 && w.wr != 3
  }

  /** The slot the next token is written to (`next_token_pos`): never a slot in use. */
  function NextTokenPos(w: Word): (pos: Bits2)
    requires PositionsOk(w)
    ensures pos != 3 && pos != w.rd && pos != w.wr
  {
    if w.wr == 0 then
      (if w.rd == 1 then 2 else if w.rd == 2 then 1 else 1)
    else if w.wr == 1 then
      (if w.rd == 0 then 2 else if w.rd == 2 then 0 else 2)
    else
      (if w.rd == 0 then 1 else if w.rd == 1 then 0 else 0)
  }

  function QueuedIfSignalling(w: Word): Word {
    if Signals(w) then w.(queued := true) else w
  }

  /** What `set_readiness` tries to install over `w`. */
  function WithReadiness(w: Word, ready: Bits4): Word {
    QueuedIfSignalling(w.(readiness := ready))
  }

  /** What `update` tries to install over `w`. */
  function WithRegistration(w: Word, pos: Bits2, interest: Bits4, opt: Bits4): Word {
    QueuedIfSignalling(w.(wr := pos, interest := interest, opt := opt))
  }

  /** An edge-triggered node leaves the queue, a level-triggered one only when nothing is signalled. */
  function Dequeued(w: Word): Word {
    if IsEdge(w) then
      (if IsOneshot(w) && Signals(w) then w.(queued := false, interest := 0) else w.(queued := false))
    else if !Signals(w) then w.(queued := false)
    else w
  }

  /** What the poller tries to install over a word that is not dropped. */
  function AfterPoll(w: Word): Word {
    var next := Dequeued(w);
    next.(rd := next.wr)
  }

  function FlaggedDropped(w: Word): Word {
    w.(dropped := true, queued := true)
  }

  // ---------- the updates, field by field ----------

  /** `r` has the bits that `a` and `b` have in common, of the four that there are. */
  predicate IsCommon(r: bv64, a: bv64, b: bv64) {
    && (r & 1 != 0 <==> a & 1 != 0 && b & 1 != 0)
    && (r & 2 != 0 <==> a & 2 != 0 && b & 2 != 0)
    && (r & 4 != 0 <==> a & 4 != 0 && b & 4 != 0)
    && (r & 8 != 0 <==> a & 8 != 0 && b & 8 != 0)
  }

  /** Effective readiness is what readiness and interest have in common, bit by bit (line 90). */
  lemma EffectiveIsCommon(w: Word, r: Bits4)
    ensures r == Effective(w) <==> IsCommon(r, w.readiness, w.interest)
    ensures Signals(w) <==> w.readiness & w.interest != 0
  {
  }

  /** A `set_readiness` has taken effect: the readiness is the one given, the node is queued if that meets the interest,
      and everything else is as it was. */
  predicate HasReadiness(w: Word, w': Word, ready: Bits4) {
    && w'.readiness == ready
    && w'.interest == w.interest && w'.opt == w.opt && w'.rd == w.rd && w'.wr == w.wr && w'.dropped == w.dropped
    && (w'.queued <==> w.queued || ready & w.interest != 0)
  }

  /** An `update` has taken effect: interest and options are those given, empty ones included, the token is looked up
      at `pos`, the node is queued if the interest meets the readiness, and everything else is as it was. */
  predicate HasRegistration(w: Word, w': Word, pos: Bits2, interest: Bits4, opt: Bits4) {
    && w'.interest == interest && w'.opt == opt && w'.wr == pos
    && w'.readiness == w.readiness && w'.rd == w.rd && w'.dropped == w.dropped
    && (w'.queued <==> w.queued || w.readiness & interest != 0)
  }

  /** Oneshot: the next delivery disarms the node. */
  predicate Disarms(w: Word) {
    w.opt & 1 != 0 && w.opt & 4 != 0 && w.readiness & w.interest != 0
  }

  /** The poller has acted on `w`: an edge-triggered node is off the queue, a level-triggered one exactly if nothing was
      signalled; the interest is gone exactly if the node is edge-triggered and oneshot and something was signalled; the
      current token is the one to read, and everything else is as it was. */
  predicate HasPolled(w: Word, w': Word) {
    && (w'.queued <==> w.queued && w.opt & 1 == 0 && w.readiness & w.interest != 0)
    && w'.interest == (if Disarms(w) then 0 else w.interest)
    && w'.rd == w.wr
    && w'.readiness == w.readiness && w'.opt == w.opt && w'.wr == w.wr && w'.dropped == w.dropped
  }

  predicate HasDropped(w: Word, w': Word) {
    && w'.dropped && w'.queued
    && w'.readiness == w.readiness && w'.interest == w.interest && w'.opt == w.opt && w'.rd == w.rd && w'.wr == w.wr
  }

  lemma WithReadinessMeans(w: Word, ready: Bits4, w': Word)
    ensures w' == WithReadiness(w, ready) <==> HasReadiness(w, w', ready)
  {
  }

  lemma WithRegistrationMeans(w: Word, pos: Bits2, interest: Bits4, opt: Bits4, w': Word)
    ensures w' == WithRegistration(w, pos, interest, opt) <==> HasRegistration(w, w', pos, interest, opt)
  {
  }

  lemma AfterPollMeans(w: Word, w': Word)
    ensures w' == AfterPoll(w) <==> HasPolled(w, w')
  {
    AfterPollHasPolled(w);
    if HasPolled(w, w') {
      PolledIsOne(w, w', AfterPoll(w));
    }
  }

  lemma AfterPollHasPolled(w: Word)
    ensures HasPolled(w, AfterPoll(w))
  {
    OptionBits(w.opt);
    if IsEdge(w) {
      EdgeHasPolled(w);
    }
  }

  lemma EdgeHasPolled(w: Word)
    requires w.opt & 1 != 0 && IsEdge(w) && (IsOneshot(w) <==> w.opt & 4 != 0)
    ensures HasPolled(w, AfterPoll(w))
  {
  }

  lemma OptionBits(opt: bv64)
    ensures opt & EDGE == EDGE <==> opt & 1 != 0
    ensures opt & ONESHOT == ONESHOT <==> opt & 4 != 0
  {
  }

  lemma PolledIsOne(w: Word, a: Word, b: Word)
    requires HasPolled(w, a) && HasPolled(w, b)
    ensures a == b
  {
  }

  lemma FlaggedDroppedMeans(w: Word, w': Word)
    ensures w' == FlaggedDropped(w) <==> HasDropped(w, w')
  {
  }

  /** Between a poll of an edge-triggered node without oneshot and the next `update` the interest stays, so the next
      readiness that meets it queues the node again. */
  lemma EdgeQueuesAgain(w: Word, ready: Bits4)
    requires w.opt & 1 != 0 && w.opt & 4 == 0 && ready & w.interest != 0
    ensures !AfterPoll(w).queued && WithReadiness(AfterPoll(w), ready).queued
  {
  }

  // ---------- the packed word ----------

  const READINESS_SHIFT: bv7 := 0
  const INTEREST_SHIFT: bv7 := 4
  const POLL_OPT_SHIFT: bv7 := 8
  const TOKEN_RD_SHIFT: bv7 := 12
  const TOKEN_WR_SHIFT: bv7 := 14
  const QUEUED_MASK: bv64 := 0x1_0000
  const DROPPED_MASK: bv64 := 0x2_0000
  const MASK_2: bv64 := 3
  const MASK_4: bv64 := 15

  function Get(w: bv64, mask: bv64, shift: bv7): bv64
    requires shift < 64
  {
    (w >> shift) & mask
  }

  function Set(w: bv64, val: bv64, mask: bv64, shift: bv7): bv64
    requires shift < 64
  {
    (w & !(mask << shift)) | (val << shift)
  }

  function Join(readiness: bv64, interest: bv64, opt: bv64, rd: bv64, wr: bv64, queued: bool, dropped: bool): bv64 {
    readiness | (interest << INTEREST_SHIFT) | (opt << POLL_OPT_SHIFT)
    | (rd << TOKEN_RD_SHIFT) | (wr << TOKEN_WR_SHIFT)
    | (if queued then QUEUED_MASK else 0) | (if dropped then DROPPED_MASK else 0)
  }

  function Pack(r: Word): bv64 {
    Join(r.readiness, r.interest, r.opt, r.rd, r.wr, r.queued, r.dropped)
  }

  predicate Queued(w: bv64) {
    w & QUEUED_MASK == QUEUED_MASK
  }

  predicate Dropped(w: bv64) {
    w & DROPPED_MASK == DROPPED_MASK
  }

  function Unpack(w: bv64): Word {
    Word(Get(w, MASK_4, READINESS_SHIFT), Get(w, MASK_4, INTEREST_SHIFT), Get(w, MASK_4, POLL_OPT_SHIFT),
         Get(w, MASK_2, TOKEN_RD_SHIFT), Get(w, MASK_2, TOKEN_WR_SHIFT), Queued(w), Dropped(w))
  }

  /** Nothing above the dropped bit. */
  predicate Meaningful(w: bv64) {
    w & !0x3_FFFF == 0
  }

  lemma SplitOfJoin(readiness: bv64, interest: bv64, opt: bv64, rd: bv64, wr: bv64, queued: bool, dropped: bool)
    requires readiness & MASK_4 == readiness && interest & MASK_4 == interest && opt & MASK_4 == opt
    requires rd & MASK_2 == rd && wr & MASK_2 == wr
    ensures var w := Join(readiness, interest, opt, rd, wr, queued, dropped);
            && Get(w, MASK_4, READINESS_SHIFT) == readiness
            && Get(w, MASK_4, INTEREST_SHIFT) == interest
            && Get(w, MASK_4, POLL_OPT_SHIFT) == opt
            && Get(w, MASK_2, TOKEN_RD_SHIFT) == rd
            && Get(w, MASK_2, TOKEN_WR_SHIFT) == wr
            && Queued(w) == queued && Dropped(w) == dropped && Meaningful(w)
  {
  }

  lemma JoinOfSplit(w: bv64, readiness: bv64, interest: bv64, opt: bv64, rd: bv64, wr: bv64, queued: bool,
                    dropped: bool)
    requires w & !0x3_FFFF == 0
    requires readiness == (w >> 0) & 15 && interest == (w >> 4) & 15 && opt == (w >> 8) & 15
    requires rd == (w >> 12) & 3 && wr == (w >> 14) & 3
    requires queued == (w & 0x1_0000 == 0x1_0000) && dropped == (w & 0x2_0000 == 0x2_0000)
    ensures w == Join(readiness, interest, opt, rd, wr, queued, dropped)
  {
  }

  lemma UnpackOfPack(a: Word)
    ensures Unpack(Pack(a)) == a && Meaningful(Pack(a))
  {
    SplitOfJoin(a.readiness, a.interest, a.opt, a.rd, a.wr, a.queued, a.dropped);
  }

  lemma PackOfUnpack(w: bv64)
    requires Meaningful(w)
    ensures Pack(Unpack(w)) == w
  {
    var u := Unpack(w);
    JoinOfSplit(w, u.readiness, u.interest, u.opt, u.rd, u.wr, u.queued, u.dropped);
  }

  /** Packing loses nothing, so comparing words compares records: the compare-exchange on the word in
      `AtomicState::compare_and_swap` is a compare-exchange on the record. */
  lemma WordCasIsRecordCas(a: Word, b: Word)
    ensures Pack(a) == Pack(b) <==> a == b
  {
    UnpackOfPack(a);
    UnpackOfPack(b);
  }

  // ---------- setters ----------

  predicate IsField(mask: bv64, shift: bv7) {
    (mask == MASK_4 && (shift == READINESS_SHIFT || shift == INTEREST_SHIFT || shift == POLL_OPT_SHIFT)) ||
    (mask == MASK_2 && (shift == TOKEN_RD_SHIFT || shift == TOKEN_WR_SHIFT))
  }

  /** `set` does not mask its argument: reading a field back returns what was written exactly when
      the value fits the mask, and then no other bit has changed. */
  lemma SetThenGet(w: bv64, val: bv64, mask: bv64, shift: bv7)
    requires IsField(mask, shift)
    ensures Get(Set(w, val, mask, shift), mask, shift) == val <==> val & mask == val
    ensures val & mask == val ==> Set(w, val, mask, shift) & !(mask << shift) == w & !(mask << shift)
  {
    if shift == 0 {
    } else if shift == 4 {
    } else if shift == 8 {
    } else if shift == 12 {
    } else {
    }
  }

  lemma SetOfGet(w: bv64, mask: bv64, shift: bv7)
    requires IsField(mask, shift)
    ensures Set(w, Get(w, mask, shift), mask, shift) == w
  {
    if shift == 0 {
    } else if shift == 4 {
    } else if shift == 8 {
    } else if shift == 12 {
    } else {
    }
  }

  /** Sixteen written to the readiness field lands in the interest field. */
  lemma UnmaskedSetSpills()
    ensures Unpack(Set(0, 16, MASK_4, READINESS_SHIFT)) == Fresh(1, 0)
  {
  }

  /** `ReadinessState::new`. */
  function PackedNew(interest: bv64, opt: bv64): bv64 {
    (interest << INTEREST_SHIFT) | (opt << POLL_OPT_SHIFT)
  }

  /** `new` does not mask either: the word it makes holds just its arguments exactly if both fit, which is what lines 65
      and 66 ask for. */
  lemma NewKeepsItsArguments(interest: bv64, opt: bv64)
    ensures interest & MASK_4 == interest <==> interest <= MASK_4
    ensures opt & MASK_4 == opt <==> opt <= MASK_4
    ensures interest <= MASK_4 && opt <= MASK_4 ==>
              && interest & 15 == interest && opt & 15 == opt
              && Unpack(PackedNew(interest, opt)) == Fresh(interest, opt)
    ensures interest > MASK_4 || opt > MASK_4 ==>
              || Get(PackedNew(interest, opt), MASK_4, INTEREST_SHIFT) != interest
              || Get(PackedNew(interest, opt), MASK_4, POLL_OPT_SHIFT) != opt
  {
    FitsIsMasked(interest);
    FitsIsMasked(opt);
    if interest <= MASK_4 && opt <= MASK_4 {
      NewIsFresh(interest, opt);
    } else {
      NothingReadsBack(PackedNew(interest, opt), interest, opt);
    }
  }

  lemma NothingReadsBack(w: bv64, interest: bv64, opt: bv64)
    requires interest > MASK_4 || opt > MASK_4
    ensures Get(w, MASK_4, INTEREST_SHIFT) != interest || Get(w, MASK_4, POLL_OPT_SHIFT) != opt
  {
    GetFits(w >> INTEREST_SHIFT);
    GetFits(w >> POLL_OPT_SHIFT);
  }

  lemma FitsIsMasked(v: bv64)
    ensures v & 15 == v <==> v <= 15
  {
  }

  lemma GetFits(v: bv64)
    ensures v & MASK_4 <= MASK_4
  {
  }

  lemma NewIsFresh(interest: bv64, opt: bv64)
    requires interest & 15 == interest && opt & 15 == opt
    ensures Unpack(PackedNew(interest, opt)) == Fresh(interest, opt)
  {
  }

  /** All the bits of `Ready::all()`. */
  const READY_ALL: bv64 := 0x6F

  /** A registration for `Ready::all()` fails line 65; without the assertion it loses interest bits, and sets options
      that nobody asked for. */
  lemma ReadyAllDoesNotFit()
    ensures !(READY_ALL <= MASK_4)
    ensures Unpack(PackedNew(READY_ALL, EDGE)).interest == 15 && Unpack(PackedNew(READY_ALL, 0)).opt == 6
  {
  }

  lemma SetReadinessField(w: bv64, val: bv64)
    requires val & MASK_4 == val
    ensures Unpack(Set(w, val, MASK_4, READINESS_SHIFT)) == Unpack(w).(readiness := val)
  {
  }

  lemma SetInterestField(w: bv64, val: bv64)
    requires val & MASK_4 == val
    ensures Unpack(Set(w, val, MASK_4, INTEREST_SHIFT)) == Unpack(w).(interest := val)
  {
  }

  lemma SetPollOptField(w: bv64, val: bv64)
    requires val & MASK_4 == val
    ensures Unpack(Set(w, val, MASK_4, POLL_OPT_SHIFT)) == Unpack(w).(opt := val)
  {
  }

  lemma SetReadPosField(w: bv64, val: bv64)
    requires val & MASK_2 == val
    ensures Unpack(Set(w, val, MASK_2, TOKEN_RD_SHIFT)) == Unpack(w).(rd := val)
  {
  }

  lemma SetWritePosField(w: bv64, val: bv64)
    requires val & MASK_2 == val
    ensures Unpack(Set(w, val, MASK_2, TOKEN_WR_SHIFT)) == Unpack(w).(wr := val)
  {
  }

  lemma SetQueuedFlag(w: bv64)
    ensures Unpack(w | QUEUED_MASK) == Unpack(w).(queued := true)
  {
  }

  lemma ClearQueuedFlag(w: bv64)
    ensures Unpack(w & !QUEUED_MASK) == Unpack(w).(queued := false)
  {
  }

  lemma SetDroppedFlag(w: bv64)
    ensures Unpack(w | (DROPPED_MASK | QUEUED_MASK)) == FlaggedDropped(Unpack(w))
  {
  }

  // ---------- the compound updates of the compare-exchange loops ----------

  function PackedEffective(w: bv64): bv64 {
    Get(w, MASK_4, READINESS_SHIFT) & Get(w, MASK_4, INTEREST_SHIFT)
  }

  function PackedQueuedIfSignalling(w: bv64): bv64 {
    if PackedEffective(w) != 0 then w | QUEUED_MASK else w
  }

  function PackedWithReadiness(w: bv64, ready: bv64): bv64 {
    PackedQueuedIfSignalling(Set(w, ready, MASK_4, READINESS_SHIFT))
  }

  function PackedWithRegistration(w: bv64, pos: bv64, interest: bv64, opt: bv64): bv64 {
    var moved := Set(w, pos, MASK_2, TOKEN_WR_SHIFT);
    PackedQueuedIfSignalling(Set(Set(moved, interest, MASK_4, INTEREST_SHIFT), opt, MASK_4, POLL_OPT_SHIFT))
  }

  function PackedDequeued(w: bv64): bv64 {
    var opt := Get(w, MASK_4, POLL_OPT_SHIFT);
    if opt & EDGE == EDGE then
      var dequeued := w & !QUEUED_MASK;
      if opt & ONESHOT == ONESHOT && PackedEffective(w) != 0 then Set(dequeued, 0, MASK_4, INTEREST_SHIFT) else dequeued
    else if PackedEffective(w) == 0 then w & !QUEUED_MASK
    else w
  }

  function PackedAfterPoll(w: bv64): bv64 {
    var next := PackedDequeued(w);
    Set(next, Get(next, MASK_2, TOKEN_WR_SHIFT), MASK_2, TOKEN_RD_SHIFT)
  }

  lemma QueuedIfSignallingOnBits(w: bv64)
    ensures Unpack(PackedQueuedIfSignalling(w)) == QueuedIfSignalling(Unpack(w))
  {
    SetQueuedFlag(w);
  }

  /** The bit manipulation of `set_readiness` (lines 803-806) computes the record update. */
  lemma WithReadinessOnBits(w: bv64, ready: Bits4)
    ensures Unpack(PackedWithReadiness(w, ready)) == WithReadiness(Unpack(w), ready)
  {
    SetReadinessField(w, ready);
    QueuedIfSignallingOnBits(Set(w, ready, MASK_4, READINESS_SHIFT));
  }

  /** The bit manipulation of `update` (lines 873-878) computes the record update. */
  lemma WithRegistrationOnBits(w: bv64, pos: Bits2, interest: Bits4, opt: Bits4)
    ensures Unpack(PackedWithRegistration(w, pos, interest, opt)) == WithRegistration(Unpack(w), pos, interest, opt)
  {
    var moved := Set(w, pos, MASK_2, TOKEN_WR_SHIFT);
    SetWritePosField(w, pos);
    SetInterestField(moved, interest);
    SetPollOptField(Set(moved, interest, MASK_4, INTEREST_SHIFT), opt);
    QueuedIfSignallingOnBits(Set(Set(moved, interest, MASK_4, INTEREST_SHIFT), opt, MASK_4, POLL_OPT_SHIFT));
  }

  lemma DequeuedOnBits(w: bv64)
    ensures Unpack(PackedDequeued(w)) == Dequeued(Unpack(w))
  {
    ClearQueuedFlag(w);
    SetInterestField(w & !QUEUED_MASK, 0);
  }

  /** The bit manipulation of the poll loop (lines 473-483) computes the record update. */
  lemma AfterPollOnBits(w: bv64)
    ensures Unpack(PackedAfterPoll(w)) == AfterPoll(Unpack(w))
  {
    var next := PackedDequeued(w);
    DequeuedOnBits(w);
    SetReadPosField(next, Get(next, MASK_2, TOKEN_WR_SHIFT));
  }

  /** What the three loops leave in the bits, read by the getters. */
  lemma LoopsOnBits(w: bv64, ready: Bits4, pos: Bits2, interest: Bits4, opt: Bits4)
    ensures HasReadiness(Unpack(w), Unpack(PackedWithReadiness(w, ready)), ready)
    ensures HasRegistration(Unpack(w), Unpack(PackedWithRegistration(w, pos, interest, opt)), pos, interest, opt)
    ensures HasPolled(Unpack(w), Unpack(PackedAfterPoll(w)))
  {
    WithReadinessOnBits(w, ready);
    WithReadinessMeans(Unpack(w), ready, Unpack(PackedWithReadiness(w, ready)));
    WithRegistrationOnBits(w, pos, interest, opt);
    WithRegistrationMeans(Unpack(w), pos, interest, opt, Unpack(PackedWithRegistration(w, pos, interest, opt)));
    AfterPollOnBits(w);
    AfterPollMeans(Unpack(w), Unpack(PackedAfterPoll(w)));
  }

  // ---------- every word is a packed record ----------

  /** The word of a new node is a packed record, and each update of the code takes the packed record to the packed
      updated record. So every word the code ever compares is a packed record. */
  lemma WordsStayPacked(a: Word, ready: Bits4, pos: Bits2, interest: Bits4, opt: Bits4)
    ensures PackedNew(interest, opt) == Pack(Fresh(interest, opt))
    ensures PackedWithReadiness(Pack(a), ready) == Pack(WithReadiness(a, ready))
    ensures PackedWithRegistration(Pack(a), pos, interest, opt) == Pack(WithRegistration(a, pos, interest, opt))
    ensures PackedAfterPoll(Pack(a)) == Pack(AfterPoll(a))
    ensures Pack(a) | (DROPPED_MASK | QUEUED_MASK) == Pack(FlaggedDropped(a))
  {
    UnpackOfPack(a);
    NewStaysPacked(interest, opt);
    ReadinessStaysPacked(Pack(a), ready);
    RegistrationStaysPacked(Pack(a), pos, interest, opt);
    AfterPollStaysPacked(Pack(a));
    DroppedStaysPacked(Pack(a));
  }

  lemma NewStaysPacked(interest: Bits4, opt: Bits4)
    ensures PackedNew(interest, opt) == Pack(Fresh(interest, opt))
  {
    NewIsFresh(interest, opt);
    NewIsMeaningful(interest, opt);
    PackOfUnpack(PackedNew(interest, opt));
  }

  lemma NewIsMeaningful(interest: Bits4, opt: Bits4)
    ensures Meaningful(PackedNew(interest, opt))
  {
  }

  lemma ReadinessStaysPacked(w: bv64, ready: Bits4)
    requires Meaningful(w)
    ensures PackedWithReadiness(w, ready) == Pack(WithReadiness(Unpack(w), ready))
  {
    SetStaysPacked(w, ready, MASK_4, READINESS_SHIFT);
    QueuedStaysPacked(Set(w, ready, MASK_4, READINESS_SHIFT));
    WithReadinessOnBits(w, ready);
    PackOfUnpack(PackedWithReadiness(w, ready));
  }

  lemma RegistrationStaysPacked(w: bv64, pos: Bits2, interest: Bits4, opt: Bits4)
    requires Meaningful(w)
    ensures PackedWithRegistration(w, pos, interest, opt) == Pack(WithRegistration(Unpack(w), pos, interest, opt))
  {
    var moved := Set(w, pos, MASK_2, TOKEN_WR_SHIFT);
    SetStaysPacked(w, pos, MASK_2, TOKEN_WR_SHIFT);
    SetStaysPacked(moved, interest, MASK_4, INTEREST_SHIFT);
    SetStaysPacked(Set(moved, interest, MASK_4, INTEREST_SHIFT), opt, MASK_4, POLL_OPT_SHIFT);
    QueuedStaysPacked(Set(Set(moved, interest, MASK_4, INTEREST_SHIFT), opt, MASK_4, POLL_OPT_SHIFT));
    WithRegistrationOnBits(w, pos, interest, opt);
    PackOfUnpack(PackedWithRegistration(w, pos, interest, opt));
  }

  lemma AfterPollStaysPacked(w: bv64)
    requires Meaningful(w)
    ensures PackedAfterPoll(w) == Pack(AfterPoll(Unpack(w)))
  {
    var next := PackedDequeued(w);
    SetStaysPacked(w & !QUEUED_MASK, 0, MASK_4, INTEREST_SHIFT);
    assert Meaningful(next);
    SetStaysPacked(next, Get(next, MASK_2, TOKEN_WR_SHIFT), MASK_2, TOKEN_RD_SHIFT);
    AfterPollOnBits(w);
    PackOfUnpack(PackedAfterPoll(w));
  }

  lemma DroppedStaysPacked(w: bv64)
    requires Meaningful(w)
    ensures w | (DROPPED_MASK | QUEUED_MASK) == Pack(FlaggedDropped(Unpack(w)))
  {
    SetDroppedFlag(w);
    PackOfUnpack(w | (DROPPED_MASK | QUEUED_MASK));
  }

  lemma SetStaysPacked(w: bv64, val: bv64, mask: bv64, shift: bv7)
    requires Meaningful(w) && IsField(mask, shift) && val & mask == val
    ensures Meaningful(Set(w, val, mask, shift))
  {
    if shift == 0 {
    } else if shift == 4 {
    } else if shift == 8 {
    } else if shift == 12 {
    } else {
    }
  }

  lemma QueuedStaysPacked(w: bv64)
    requires Meaningful(w)
    ensures Meaningful(PackedQueuedIfSignalling(w))
  {
  }
}
