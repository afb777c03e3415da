/** A hold owed to a slot whose flag cleared is served in order and never starved. */
module HoldLiveness {
  import opened Common
  import opened SlotOrder
  import opened HoldModel
  import opened HoldFacts
  import opened HoldLedger

  predicate WaitsForFlag(h: Hold, s: nat) {
    s in h.slots && h.slots[s].want && h.slots[s].why == Flag
  }

  /** Slots that may be served before s: they wait, and have waited at least as long. */
  function Ahead(h: Hold, s: nat): set<nat>
    requires s in h.slots
  {
    set x | x in h.slots && x != s && h.slots[x].want && h.slots[x].wantFrame <= h.slots[s].wantFrame
  }

  /** In this frame slot s is connected and active, the relay keeps up and the limits leave room. */
  ghost predicate Serviceable(h: Hold, inp: Input, csActive: int, s: nat, maxFrames: int) {
    && Streaming(inp) && inp.perFrame >= 1 && inp.maxFrames <= maxFrames
    && var t := TickOf(h, inp, csActive);
       Playing(t, s) && Survives(t, h, s) && !t.behind
  }

  // ---- the order of service ----------------------------------------------------------------

  lemma QueueIndex(t: Tick, slots: map<nat, Slot>, s: nat) returns (i: nat)
    requires s in slots && slots[s].want && Playing(t, s)
    ensures i < |Queue(t, slots)| && Queue(t, slots)[i] == s
  {
    QueueMembers(t, slots);
    var q := Queue(t, slots);
    assert s in q;
    i :| 0 <= i < |q| && q[i] == s;
  }

  /** Slot x waits with a flag, and asked before slot s. */
  predicate FlagBefore(slots: map<nat, Slot>, x: nat, s: nat) {
    && x in slots && s in slots && slots[x].why == Flag
    && (slots[x].wantFrame < slots[s].wantFrame || (slots[x].wantFrame == slots[s].wantFrame && x < s))
  }

  lemma BeforeFlag(slots: map<nat, Slot>, x: nat, s: nat)
    requires x in slots && s in slots && slots[s].why == Flag
    requires Before(QueueKeys(slots), x, s)
    ensures FlagBefore(slots, x, s)
  {}

  lemma SortedDistinct(q: seq<nat>, keys: map<nat, Key>)
    requires IsSorted(q, keys)
    ensures forall k, l :: 0 <= k < l < |q| ==> q[k] != q[l]
  {
    forall k, l | 0 <= k < l < |q| ensures q[k] != q[l] {
      assert Before(keys, q[k], q[l]);
    }
  }

  lemma EarlierInQueue(slots: map<nat, Slot>, q: seq<nat>, i: nat, x: nat)
    requires IsSorted(q, QueueKeys(slots)) && i < |q| && x in q[..i]
    ensures x in slots && q[i] in slots && Before(QueueKeys(slots), x, q[i])
  {
    hide Before;
    var k :| 0 <= k < i && q[k] == x;
  }

  /** A flag that stays in the queue: only flags before it start, and they use up the budget. */
  lemma StartedBefore(t: Tick, slots: map<nat, Slot>, running: int, s: nat)
    requires s in slots && slots[s].want && slots[s].why == Flag && Playing(t, s) && !t.behind
    requires s !in Started(t, slots, running)
    ensures running + |Started(t, slots, running)| >= t.perFrame
    ensures forall x :: x in Started(t, slots, running) ==> FlagBefore(slots, x, s)
  {
    hide Queue, Starting, Playing, IsSorted, QueueKeys, Before, FlagBefore;
    if running < t.perFrame {
      QueueMembers(t, slots);
      var i := QueueIndex(t, slots, s);
      var q := Queue(t, slots);
      SortedDistinct(q, QueueKeys(slots));
      StartingPassesOver(t, slots, q, t.perFrame - running, i);
      forall x | x in Started(t, slots, running) ensures FlagBefore(slots, x, s) {
        EarlierInQueue(slots, q, i, x);
        BeforeFlag(slots, x, s);
      }
    }
  }

  lemma RanWaits(t: Tick, p: Slot, x: nat)
    requires !(p.want && p.target.Some?)
    ensures AfterRun(t, p, x).want == p.want
    ensures p.want ==> AfterRun(t, p, x) == p
  {}

  /** The waiting flag when the queue is made. */
  lemma FlagInQueue(h: Hold, inp: Input, csActive: int, s: nat)
    requires Streaming(inp) && SlotsOk(h.slots, h.frameNo) && WaitsForFlag(h, s)
    requires var t := TickOf(h, inp, csActive); Playing(t, s) && Survives(t, h, s)
    ensures var t := TickOf(h, inp, csActive);
            && s in t.live && s in Ran(t, h, inp).slots && s in Prepared(t, h, inp).slots
            && Ran(t, h, inp).slots[s] == Prepared(t, h, inp).slots[s]
            && Ran(t, h, inp).slots[s].want && Ran(t, h, inp).slots[s].why == Flag
            && Ran(t, h, inp).slots[s].wantFrame == h.slots[s].wantFrame
  {
    hide Prepared, Ran, SlotsOk, TickOf, Playing, AfterRun;
    var t := TickOf(h, inp, csActive);
    FrameFacts(h, inp, csActive, s);
    RanSlots(t, h, inp);
    RanWaits(t, Prepared(t, h, inp).slots[s], s);
  }

  /** A slot that starts had been waiting when the frame began, or began to wait in it. */
  lemma StarterWaited(h: Hold, inp: Input, csActive: int, x: nat)
    requires Streaming(inp) && SlotsOk(h.slots, h.frameNo)
    requires var t := TickOf(h, inp, csActive);
             x in t.live && x in Ran(t, h, inp).slots && Ran(t, h, inp).slots[x].want
    ensures var t := TickOf(h, inp, csActive);
            var f := Ran(t, h, inp).slots[x].wantFrame;
            f == h.frameNo + 1 || (x in h.slots && h.slots[x].want && h.slots[x].wantFrame == f)
  {
    hide Prepared, Ran, SlotsOk, Playing, AfterRun, TickOf;
    var t := TickOf(h, inp, csActive);
    FrameFacts(h, inp, csActive, x);
    FrameSlot(h, inp, csActive, x);
    RanSlots(t, h, inp);
    RanWaits(t, Prepared(t, h, inp).slots[x], x);
  }

  /** A flag in the queue that does not start, whenever it was raised. */
  lemma QueuedFlagFirst(h: Hold, inp: Input, csActive: int, s: nat)
    requires Streaming(inp)
    requires var t, r := TickOf(h, inp, csActive), Ran(TickOf(h, inp, csActive), h, inp).slots;
             && s in r && r[s].want && r[s].why == Flag && Playing(t, s) && !t.behind
             && s !in StartedNow(t, h, inp)
    ensures var t := TickOf(h, inp, csActive);
            && |With(t, Prepared(t, h, inp).slots, Running)| + |StartedNow(t, h, inp)| >= inp.perFrame
            && forall x :: x in StartedNow(t, h, inp) ==> FlagBefore(Ran(t, h, inp).slots, x, s)
  {
    hide Prepared, Ran, With, Playing, Started, StartedNow, FlagBefore;
    var t := TickOf(h, inp, csActive);
    assert t.perFrame == inp.perFrame;
    hide TickOf;
    StartedIs(t, h, inp);
    StartedBefore(t, Ran(t, h, inp).slots, |With(t, Prepared(t, h, inp).slots, Running)|, s);
  }

  /** A flag that waits after the frame was in the queue, and did not start. */
  lemma LeftInQueue(t: Tick, was: Option<Slot>, x: nat, p: Slot, started: bool, st: Slot)
    requires AskedFrom(t, was, x, p) && LeavesAs(t, p, started, x, st) && st.want && st.why == Flag
    ensures !started && p.want && p.why == Flag && p.target.None? && Playing(t, x) && p.wantFrame == st.wantFrame
  {}

  /**
   Order of service, in every frame that leaves a flag waiting, also one raised in that frame: unless the
   relay is behind and nothing starts, the budget is used up; every hold that starts is a flag hold, and
   it asked before the one that waits (the lower slot first in the same frame).
   */
  lemma FlagsFirst(h: Hold, inp: Input, csActive: int, s: nat)
    requires Streaming(inp) && SlotsOk(h.slots, h.frameNo) && WaitsForFlag(Frame(h, inp, csActive), s)
    ensures var t, h' := TickOf(h, inp, csActive), Frame(h, inp, csActive);
            var r := Ran(t, h, inp).slots;
            && s in h'.slots && s in r && r[s].wantFrame == h'.slots[s].wantFrame && s !in StartedNow(t, h, inp)
            && (if t.behind then StartedNow(t, h, inp) == []
                else |With(t, Prepared(t, h, inp).slots, Running)| + |StartedNow(t, h, inp)| >= inp.perFrame)
            && forall x :: x in StartedNow(t, h, inp) ==> FlagBefore(r, x, s)
  {
    var t, h' := TickOf(h, inp, csActive), Frame(h, inp, csActive);
    assert s in h'.slots && h'.slots[s].want && h'.slots[s].why == Flag;
    hide *;
    FrameSlot(h, inp, csActive, s);
    FrameFacts(h, inp, csActive, s);
    LeftInQueue(t, Was(t, h, s), s, Prepared(t, h, inp).slots[s], s in StartedNow(t, h, inp), h'.slots[s]);
    RanSlots(t, h, inp);
    RanWaits(t, Prepared(t, h, inp).slots[s], s);
    if t.behind {
      StartedFacts(t, h, inp);
      SomeMember(StartedNow(t, h, inp));
    } else {
      QueuedFlagFirst(h, inp, csActive, s);
    }
  }

  lemma SomeMember(q: seq<nat>)
    ensures q != [] ==> exists x :: x in q
  {
    if q != [] {
      assert q[0] in q;
    }
  }

  /** The same for a flag that waited when the frame began. */
  lemma WaitingFlagFirst(h: Hold, inp: Input, csActive: int, s: nat)
    requires SlotsOk(h.slots, h.frameNo) && WaitsForFlag(h, s)
    requires Streaming(inp)
    requires var t := TickOf(h, inp, csActive);
             Playing(t, s) && Survives(t, h, s) && !t.behind && s !in StartedNow(t, h, inp)
    ensures var t := TickOf(h, inp, csActive);
            var r := Ran(t, h, inp).slots;
            && |With(t, Prepared(t, h, inp).slots, Running)| + |StartedNow(t, h, inp)| >= inp.perFrame
            && s in r && r[s].wantFrame == h.slots[s].wantFrame
            && forall x :: x in StartedNow(t, h, inp) ==> FlagBefore(r, x, s)
  {
    hide *;
    FlagInQueue(h, inp, csActive, s);
    QueuedFlagFirst(h, inp, csActive, s);
  }

  // ---- one frame of waiting --------------------------------------------------------------------

  lemma StillWaits(h: Hold, inp: Input, csActive: int, s: nat)
    requires SlotsOk(h.slots, h.frameNo) && WaitsForFlag(h, s) && Streaming(inp)
    requires var t := TickOf(h, inp, csActive); Playing(t, s) && Survives(t, h, s) && s !in StartedNow(t, h, inp)
    ensures var h' := Frame(h, inp, csActive);
            WaitsForFlag(h', s) && h'.slots[s].wantFrame == h.slots[s].wantFrame
  {
    hide Prepared, Ran, SlotsOk, TickOf, Playing, Frame, StartedNow;
    FrameFacts(h, inp, csActive, s);
  }

  /** A slot that leaves the frame with an old wait came in with it, and did not start. */
  lemma OldWait(t: Tick, was: Option<Slot>, x: nat, p: Slot, started: bool, st: Slot)
    requires AskedFrom(t, was, x, p) && LeavesAs(t, p, started, x, st)
    requires st.want && st.wantFrame < t.frameNo
    ensures !started && was.Some? && was.value.want && was.value.wantFrame == st.wantFrame
  {}

  lemma WasMeans(t: Tick, h: Hold, x: nat)
    ensures Was(t, h, x).Some? ==> x in h.slots && Was(t, h, x).value == h.slots[x]
  {}

  lemma WaitedBefore(h: Hold, inp: Input, csActive: int, x: nat)
    requires SlotsOk(h.slots, h.frameNo) && Streaming(inp)
    requires var h' := Frame(h, inp, csActive); x in h'.slots && h'.slots[x].want && h'.slots[x].wantFrame <= h.frameNo
    ensures x in h.slots && h.slots[x].want && h.slots[x].wantFrame == Frame(h, inp, csActive).slots[x].wantFrame
    ensures x !in StartedNow(TickOf(h, inp, csActive), h, inp)
  {
    hide *;
    var t := TickOf(h, inp, csActive);
    FrameSlot(h, inp, csActive, x);
    FrameFacts(h, inp, csActive, x);
    WasMeans(t, h, x);
    OldWait(t, Was(t, h, x), x, Prepared(t, h, inp).slots[x], x in StartedNow(t, h, inp), Frame(h, inp,
        csActive).slots[x]);
  }

  lemma AheadIs(h: Hold, s: nat, x: nat)
    requires s in h.slots
    ensures x in Ahead(h, s) <==>
            x in h.slots && x != s && h.slots[x].want && h.slots[x].wantFrame <= h.slots[s].wantFrame
  {}

  lemma WaitIsPast(h: Hold, s: nat)
    requires SlotsOk(h.slots, h.frameNo) && WaitsForFlag(h, s)
    ensures s in h.slots && h.slots[s].want && h.slots[s].wantFrame <= h.frameNo
  {}

  lemma AheadBefore(h: Hold, inp: Input, csActive: int, s: nat, x: nat)
    requires SlotsOk(h.slots, h.frameNo) && Streaming(inp) && WaitsForFlag(h, s)
    requires var h' := Frame(h, inp, csActive);
             && s in h.slots && s in h'.slots && h'.slots[s].wantFrame == h.slots[s].wantFrame && x in Ahead(h', s)
    ensures x in Ahead(h, s)
    ensures x !in StartedNow(TickOf(h, inp, csActive), h, inp)
  {
    hide *;
    WaitIsPast(h, s);
    AheadIs(Frame(h, inp, csActive), s, x);
    WaitedBefore(h, inp, csActive, x);
    AheadIs(h, s, x);
  }

  lemma FlagBeforeMeans(slots: map<nat, Slot>, x: nat, s: nat)
    requires FlagBefore(slots, x, s)
    ensures x in slots && s in slots && x != s && slots[x].wantFrame <= slots[s].wantFrame
  {}

  /** A hold that starts while flag s waits was ahead of s. */
  lemma StarterAhead(h: Hold, inp: Input, csActive: int, s: nat, x: nat)
    requires SlotsOk(h.slots, h.frameNo) && WaitsForFlag(h, s) && Streaming(inp)
    requires var t := TickOf(h, inp, csActive);
             && Playing(t, s) && Survives(t, h, s) && !t.behind && s !in StartedNow(t, h, inp)
             && x in StartedNow(t, h, inp)
    ensures s in h.slots && x in Ahead(h, s)
  {
    hide *;
    var t := TickOf(h, inp, csActive);
    WaitIsPast(h, s);
    WaitingFlagFirst(h, inp, csActive, s);
    StartedFacts(t, h, inp);
    RanSlots(t, h, inp);
    FlagBeforeMeans(Ran(t, h, inp).slots, x, s);
    StarterWaited(h, inp, csActive, x);
    AheadIs(h, s, x);
  }

  /** One frame of a waiting flag: it starts, or the slots ahead of it only get fewer. */
  lemma AheadShrinks(h: Hold, inp: Input, csActive: int, s: nat)
    requires SlotsOk(h.slots, h.frameNo) && WaitsForFlag(h, s) && Streaming(inp)
    requires var t := TickOf(h, inp, csActive);
             Playing(t, s) && Survives(t, h, s) && !t.behind && s !in StartedNow(t, h, inp)
    ensures var t, h' := TickOf(h, inp, csActive), Frame(h, inp, csActive);
            && s in h.slots && s in h'.slots && Ahead(h', s) <= Ahead(h, s)
            && (StartedNow(t, h, inp) != [] ==> |Ahead(h', s)| < |Ahead(h, s)|)
  {
    hide *;
    var t, h' := TickOf(h, inp, csActive), Frame(h, inp, csActive);
    WaitIsPast(h, s);
    StillWaits(h, inp, csActive, s);
    WaitsMeans(h', s);
    forall x | x in Ahead(h', s) ensures x in Ahead(h, s) {
      AheadBefore(h, inp, csActive, s, x);
    }
    if StartedNow(t, h, inp) != [] {
      var x := StartedNow(t, h, inp)[0];
      StarterAhead(h, inp, csActive, s, x);
      if x in Ahead(h', s) {
        AheadBefore(h, inp, csActive, s, x);
        assert false;
      }
      Fewer(Ahead(h', s), Ahead(h, s), x);
    }
  }

  lemma WaitsMeans(h: Hold, s: nat)
    requires WaitsForFlag(h, s)
    ensures s in h.slots && h.slots[s].want
  {}

  lemma Fewer(xs: set<nat>, ys: set<nat>, x: nat)
    requires xs <= ys && x in ys && x !in xs
    ensures |xs| < |ys|
  {
    assert ys == xs + (ys - xs);
    assert x in ys - xs;
  }

  /** All holds that run began at frame `since` or earlier. */
  predicate AllOld(h: Hold, since: int) {
    forall x :: x in h.slots && h.slots[x].target.Some? ==> h.slots[x].startFrame <= since
  }

  /** Frames without a start: the running holds only get older, and there is at least one. */
  lemma QuietFrame(h: Hold, inp: Input, csActive: int, s: nat, maxFrames: int, since: int)
    requires SlotsOk(h.slots, h.frameNo) && WaitsForFlag(h, s) && Serviceable(h, inp, csActive, s, maxFrames)
    requires AllOld(h, since) && StartedNow(TickOf(h, inp, csActive), h, inp) == []
    ensures AllOld(Frame(h, inp, csActive), since)
    ensures h.frameNo + 1 - since < maxFrames * HOLD_STALL_FACTOR
  {
    var t := TickOf(h, inp, csActive);
    WaitingFlagFirst(h, inp, csActive, s);
    PreparedKeys(t, h, inp);
    assert t.maxFrames == inp.maxFrames && t.frameNo == h.frameNo + 1;
    FrameSlot(h, inp, csActive, s);
    hide Prepared, Ran, TickOf, Playing, Frame, StartedNow, SlotsOk, With, Survives, AfterRun, AfterStart;
    forall x | x in Frame(h, inp, csActive).slots && Frame(h, inp, csActive).slots[x].target.Some?
      ensures Frame(h, inp, csActive).slots[x].startFrame <= since
    {
      QuietSlot(h, inp, csActive, x);
    }
    var x := SomeRunning(t, Prepared(t, h, inp).slots);
    PreparedStart(h, inp, csActive, x);
    assert t.frameNo - Prepared(t, h, inp).slots[x].startFrame < t.maxFrames * HOLD_STALL_FACTOR;
  }

  lemma SomeRunning(t: Tick, slots: map<nat, Slot>) returns (x: nat)
    requires |With(t, slots, Running)| >= 1
    ensures x in slots && OutcomeOf(t, slots[x], x) == Running && slots[x].target.Some?
    ensures t.frameNo - slots[x].startFrame < t.maxFrames * HOLD_STALL_FACTOR
  {
    assert With(t, slots, Running) != {};
    x :| x in With(t, slots, Running);
  }

  lemma PreparedStart(h: Hold, inp: Input, csActive: int, x: nat)
    requires Streaming(inp) && SlotsOk(h.slots, h.frameNo) && x in TickOf(h, inp, csActive).live
    requires var p := Prepared(TickOf(h, inp, csActive), h, inp).slots; x in p && p[x].target.Some?
    ensures x in h.slots && h.slots[x].target.Some?
    ensures Prepared(TickOf(h, inp, csActive), h, inp).slots[x].startFrame == h.slots[x].startFrame
  {
    hide Prepared, TickOf, Playing, Frame, StartedNow, SlotsOk, LeavesAs;
    FrameFacts(h, inp, csActive, x);
  }

  lemma QuietSlot(h: Hold, inp: Input, csActive: int, x: nat)
    requires Streaming(inp) && SlotsOk(h.slots, h.frameNo) && x in TickOf(h, inp, csActive).live
    requires StartedNow(TickOf(h, inp, csActive), h, inp) == []
    requires x in Frame(h, inp, csActive).slots && Frame(h, inp, csActive).slots[x].target.Some?
    ensures x in h.slots && h.slots[x].target.Some?
    ensures Frame(h, inp, csActive).slots[x].startFrame == h.slots[x].startFrame
  {
    hide Prepared, TickOf, Playing, Frame, StartedNow, SlotsOk;
    FrameFacts(h, inp, csActive, x);
  }

  // ---- no starvation ---------------------------------------------------------------------------

  ghost function StateAt(h: Hold, ins: seq<Input>, csActive: int, j: nat): Hold
    requires j <= |ins|
    decreases j
  {
    if j == 0 then h else StateAt(Frame(h, ins[0], csActive), ins[1..], csActive, j - 1)
  }

  /** Slot s starts its hold in frame j of the run. */
  ghost predicate StartsAt(h: Hold, ins: seq<Input>, csActive: int, j: nat, s: nat) {
    && j < |ins| && Streaming(ins[j])
    && var at := StateAt(h, ins, csActive, j);
       s in StartedNow(TickOf(at, ins[j], csActive), at, ins[j])
  }

  /** In every frame of the run, slot s can be served. */
  ghost predicate ServiceableRun(h: Hold, ins: seq<Input>, csActive: int, s: nat, maxFrames: int)
    decreases |ins|
  {
    ins != [] ==>
      && Serviceable(h, ins[0], csActive, s, maxFrames)
      && ServiceableRun(Frame(h, ins[0], csActive), ins[1..], csActive, s, maxFrames)
  }

  /** Slot s starts its hold in one of the first n frames of the run. */
  ghost predicate StartsWithin(h: Hold, ins: seq<Input>, csActive: int, s: nat, n: int) {
    exists j :: 0 <= j < n && StartsAt(h, ins, csActive, j, s)
  }

  lemma StartsNow(h: Hold, ins: seq<Input>, csActive: int, s: nat, n: int)
    requires ins != [] && Streaming(ins[0]) && s in StartedNow(TickOf(h, ins[0], csActive), h, ins[0]) && n >= 1
    ensures StartsWithin(h, ins, csActive, s, n)
  {
    hide StartedNow, TickOf;
    assert StartsAt(h, ins, csActive, 0, s);
  }

  lemma LaterStart(h: Hold, ins: seq<Input>, csActive: int, s: nat, m: int, n: int)
    requires ins != [] && StartsWithin(Frame(h, ins[0], csActive), ins[1..], csActive, s, m) && m + 1 <= n
    ensures StartsWithin(h, ins, csActive, s, n)
  {
    hide Frame, StartedNow, TickOf;
    var j :| 0 <= j < m && StartsAt(Frame(h, ins[0], csActive), ins[1..], csActive, j, s);
    assert ins[1..][j] == ins[j + 1];
    assert StartsAt(h, ins, csActive, j + 1, s);
  }

  /** Frames left when a slots are ahead and the last start was `age` frames ago. */
  function Deadline(k: nat, a: nat, age: nat): int {
    k * (a + 1) - age
  }

  /** One slot less ahead is k frames less to wait. */
  lemma {:induction false} FewerAhead(k: nat, a: nat, b: nat)
    requires b <= a
    ensures k * (b + 1) <= k * (a + 1)
    ensures b < a ==> k * (b + 1) + k <= k * (a + 1)
    decreases a
  {
    if b < a {
      FewerAhead(k, a - 1, b);
      assert k * (a + 1) == k * a + k;
    }
  }

  lemma DeadlineFalls(k: nat, a: nat, b: nat, age: nat)
    requires age < k && b <= a
    ensures Deadline(k, a, age) >= 1
    ensures Deadline(k, b, age + 1) + 1 <= Deadline(k, a, age)
    ensures b < a ==> Deadline(k, b, 0) + 1 <= Deadline(k, a, age)
  {
    FewerAhead(k, a, 0);
    FewerAhead(k, a, b);
  }

  lemma ServiceableMeans(h: Hold, ins: seq<Input>, csActive: int, s: nat, maxFrames: int)
    requires ins != [] && ServiceableRun(h, ins, csActive, s, maxFrames)
    ensures Serviceable(h, ins[0], csActive, s, maxFrames) && Streaming(ins[0])
    ensures var t := TickOf(h, ins[0], csActive); Playing(t, s) && Survives(t, h, s) && !t.behind
    ensures ServiceableRun(Frame(h, ins[0], csActive), ins[1..], csActive, s, maxFrames)
  {
    hide Frame, TickOf, Playing, Survives;
  }

  lemma OldNow(h: Hold)
    requires SlotsOk(h.slots, h.frameNo)
    ensures AllOld(h, h.frameNo)
  {}

  lemma NotMore(xs: set<nat>, ys: set<nat>)
    requires xs <= ys
    ensures |xs| <= |ys|
  {
    assert ys == xs + (ys - xs);
  }

  /** The wait is counted from the last start before it: `age` frames ago. */
  lemma {:induction false} ServedSoon(h: Hold, ins: seq<Input>, csActive: int, s: nat, maxFrames: nat, age: nat)
    requires SlotsOk(h.slots, h.frameNo) && s in h.slots && WaitsForFlag(h, s)
    requires ServiceableRun(h, ins, csActive, s, maxFrames)
    requires age < maxFrames * HOLD_STALL_FACTOR && AllOld(h, h.frameNo - age)
    requires |ins| >= Deadline(maxFrames * HOLD_STALL_FACTOR, |Ahead(h, s)|, age)
    ensures StartsWithin(h, ins, csActive, s, Deadline(maxFrames * HOLD_STALL_FACTOR, |Ahead(h, s)|, age))
    decreases |ins|
  {
    hide *;
    var k := maxFrames * HOLD_STALL_FACTOR;
    var a := |Ahead(h, s)|;
    DeadlineFalls(k, a, a, age);
    var inp := ins[0];
    var h' := Frame(h, inp, csActive);
    ServiceableMeans(h, ins, csActive, s, maxFrames);
    FrameSlotsOk(h, inp, csActive);
    if s in StartedNow(TickOf(h, inp, csActive), h, inp) {
      StartsNow(h, ins, csActive, s, Deadline(k, a, age));
    } else {
      StillWaits(h, inp, csActive, s);
      AheadShrinks(h, inp, csActive, s);
      NotMore(Ahead(h', s), Ahead(h, s));
      var b := |Ahead(h', s)|;
      DeadlineFalls(k, a, b, age);
      if StartedNow(TickOf(h, inp, csActive), h, inp) == [] {
        QuietFrame(h, inp, csActive, s, maxFrames, h.frameNo - age);
        ServedSoon(h', ins[1..], csActive, s, maxFrames, age + 1);
        LaterStart(h, ins, csActive, s, Deadline(k, b, age + 1), Deadline(k, a, age));
      } else {
        OldNow(h');
        ServedSoon(h', ins[1..], csActive, s, maxFrames, 0);
        LaterStart(h, ins, csActive, s, Deadline(k, b, 0), Deadline(k, a, age));
      }
    }
  }

  lemma FewAhead(h: Hold, s: nat, k: nat)
    requires s in h.slots
    ensures Deadline(k, |Ahead(h, s)|, 0) <= |h.slots| * k
  {
    AheadInside(h, s);
    hide *;
    Fewer(Ahead(h, s), h.slots.Keys, s);
    KeyCount(h.slots);
    Fits(k, |Ahead(h, s)|, |h.slots|);
  }

  lemma AheadInside(h: Hold, s: nat)
    requires s in h.slots
    ensures Ahead(h, s) <= h.slots.Keys && s !in Ahead(h, s)
  {}

  lemma KeyCount(slots: map<nat, Slot>)
    ensures |slots.Keys| == |slots|
  {}

  lemma Fits(k: nat, a: nat, n: nat)
    requires a < n
    ensures Deadline(k, a, 0) <= n * k
  {
    assert (n - a - 1) * k >= 0;
    assert n * k == (n - a - 1) * k + (a + 1) * k;
  }

  lemma StartsSooner(h: Hold, ins: seq<Input>, csActive: int, s: nat, m: int, n: int)
    requires StartsWithin(h, ins, csActive, s, m) && m <= n
    ensures StartsWithin(h, ins, csActive, s, n)
  {
    hide StartsAt;
  }

  /**
   No starvation: a waiting flag hold starts within (number of slots) * 4 * maxFrames frames, as long
   as its client stays connected and active and the relay keeps up, whatever the other slots do.
   */
  lemma FlagNeverStarves(h: Hold, ins: seq<Input>, csActive: int, s: nat, maxFrames: int)
    requires SlotsOk(h.slots, h.frameNo) && WaitsForFlag(h, s) && maxFrames >= 1
    requires ServiceableRun(h, ins, csActive, s, maxFrames)
    requires |ins| >= |h.slots| * (maxFrames * HOLD_STALL_FACTOR)
    ensures StartsWithin(h, ins, csActive, s, |h.slots| * (maxFrames * HOLD_STALL_FACTOR))
  {
    var k := maxFrames * HOLD_STALL_FACTOR;
    assert k > 0;
    hide *;
    OldNow(h);
    WaitsMeans(h, s);
    FewAhead(h, s, k);
    ServedSoon(h, ins, csActive, s, maxFrames, 0);
    StartsSooner(h, ins, csActive, s, Deadline(k, |Ahead(h, s)|, 0), |h.slots| * k);
  }
}
