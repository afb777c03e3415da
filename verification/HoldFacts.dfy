/** What one frame does to one slot, phase by phase. */
module HoldFacts {
  import opened Common
  import opened SlotOrder
  import opened HoldModel

  /** A slot never waits and holds at once, and its frame numbers are not in the future. */
  predicate SlotOk(st: Slot, frameNo: int) {
    && !(st.want && st.target.Some?)
    && (st.want ==> st.why != Unset && st.wantFrame <= frameNo)
    && (st.target.Some? ==> st.startFrame <= frameNo)
  }

  predicate SlotsOk(slots: map<nat, Slot>, frameNo: int) {
    forall x :: x in slots ==> SlotOk(slots[x], frameNo)
  }

  /** Slot x was watched before the frame and still has the same client. */
  predicate Survives(t: Tick, h: Hold, x: nat) {
    x in h.slots && x in t.live && h.slots[x].gen == t.live[x].gen
  }

  lemma KeptSlots(t: Tick, h: Hold, inp: Input)
    requires Streaming(inp)
    ensures Kept(t, h, inp).slots == h.slots - Stale(t, h.slots)
    ensures Kept(t, h, inp).slots.Keys <= t.live.Keys
    ensures forall x :: x in Kept(t, h, inp).slots <==> Survives(t, h, x)
    ensures forall x :: Survives(t, h, x) ==> Kept(t, h, inp).slots[x] == h.slots[x]
  {}

  /** How a slot looks after it was admitted: `was` is the slot before the frame, if it survives. */
  ghost predicate AdmittedFrom(t: Tick, was: Option<Slot>, x: nat, st: Slot) {
    && (x in t.live ==> st.gen == t.live[x].gen)
    && (st.target.Some? <==> was.Some? && was.value.target.Some? && Playing(t, x))
    && (st.target.Some? ==> st.target == was.value.target && st.startSeq == was.value.startSeq
                            && st.startFrame == was.value.startFrame)
    && (st.want ==> Playing(t, x) && st.why != Unset)
    && (st.want ==> st.wantFrame == t.frameNo || (was.Some? && was.value.want && st.wantFrame == was.value.wantFrame))
    && (was.Some? && was.value.want && Playing(t, x) ==>
          st.want && st.wantFrame == was.value.wantFrame && Rank(st.why) <= Rank(was.value.why))
    && !(st.want && st.target.Some?)
  }

  ghost function Was(t: Tick, h: Hold, x: nat): Option<Slot> {
    if Survives(t, h, x) then Some(h.slots[x]) else None
  }

  lemma AdmitFacts(t: Tick, h: Hold, inp: Input, x: nat)
    requires Streaming(inp) && x in t.live && SlotsOk(h.slots, t.frameNo)
    ensures var slots := AdmitSlots(t, Kept(t, h, inp).slots, t.live.Keys);
            x in slots && AdmittedFrom(t, Was(t, h, x), x, slots[x])
  {
    KeptSlots(t, h, inp);
    hide Kept;
  }

  /** The moved anchor of a slot that was resynced again, or the old one. */
  ghost predicate AskedFrom(t: Tick, was: Option<Slot>, x: nat, st: Slot) {
    && (x in t.live ==> st.gen == t.live[x].gen)
    && (st.target.Some? <==> was.Some? && was.value.target.Some? && Playing(t, x))
    && (st.target.Some? ==> (st.target == was.value.target || st.target == Some(t.clients[x].outgoing))
                            && st.startSeq == was.value.startSeq && st.startFrame == was.value.startFrame)
    && (st.want ==> Playing(t, x) && st.why != Unset)
    && (st.want ==> st.wantFrame == t.frameNo || (was.Some? && was.value.want && st.wantFrame == was.value.wantFrame))
    && (was.Some? && was.value.want && was.value.why == Flag && Playing(t, x) ==>
          st.want && st.wantFrame == was.value.wantFrame && st.why == Flag)
    && !(st.want && st.target.Some?)
  }

  lemma ClearedFacts(t: Tick, slots: map<nat, Slot>, cleared: set<nat>, was: Option<Slot>, x: nat)
    requires x in slots && AdmittedFrom(t, was, x, slots[x])
    ensures AskedFrom(t, was, x, ClearedSlots(t, slots, cleared)[x])
  {}

  lemma CounterFacts(t: Tick, slots: map<nat, Slot>, picked: set<nat>, was: Option<Slot>, x: nat)
    requires x in slots && AskedFrom(t, was, x, slots[x])
    requires x in picked ==> Playing(t, x)
    ensures AskedFrom(t, was, x, CounterSlots(t, slots, picked)[x])
  {}

  lemma FlagFacts(t: Tick, slots: map<nat, Slot>, was: Option<Slot>, x: nat)
    requires x in slots && AskedFrom(t, was, x, slots[x])
    ensures AskedFrom(t, was, x, FlagSlots(t, slots, t.live.Keys)[x])
  {}

  lemma WaitFacts(t: Tick, slots: map<nat, Slot>, was: Option<Slot>, x: nat)
    requires x in slots && AskedFrom(t, was, x, slots[x])
    ensures AskedFrom(t, was, x, WaitSlots(t, slots, slots.Keys)[x])
  {}

  lemma PickedPlay(t: Tick, slots: map<nat, Slot>, cleared: set<nat>, unexplained: int)
    ensures forall x :: x in Picked(t, slots, cleared, unexplained) ==> Playing(t, x)
  {
    var q := Sorted(Candidates(t, slots, cleared), AgeKeys(slots));
    forall x | x in Picked(t, slots, cleared, unexplained) ensures Playing(t, x) {
      assert x in q;
    }
  }

  ghost function PickedNow(t: Tick, h: Hold, inp: Input): set<nat>
    requires Streaming(inp)
  {
    var cleared := Cleared(t, Kept(t, h, inp).slots);
    Elements(Picked(t, Asked(t, h, inp).slots, cleared, EngineForced(h.link, inp.status.value) - |cleared|))
  }

  ghost function NotedSlots(t: Tick, h: Hold, inp: Input): map<nat, Slot>
    requires Streaming(inp)
  {
    FlagSlots(t, CounterSlots(t, Asked(t, h, inp).slots, PickedNow(t, h, inp)), t.live.Keys)
  }

  lemma PreparedSlots(t: Tick, h: Hold, inp: Input)
    requires Streaming(inp)
    ensures Prepared(t, h, inp).slots == WaitSlots(t, NotedSlots(t, h, inp), NotedSlots(t, h, inp).Keys)
    ensures Prepared(t, h, inp).frameNo == h.frameNo + 1
  {
    hide Cleared, Picked, FlagSlots, CounterSlots, WaitSlots, ClearedSlots, NextLink, AdmitSlots, AdmitTotals;
  }

  lemma AskedSlots(t: Tick, h: Hold, inp: Input)
    requires Streaming(inp)
    ensures Asked(t, h, inp).slots ==
            ClearedSlots(t, AdmitSlots(t, Kept(t, h, inp).slots, t.live.Keys), Cleared(t, Kept(t, h, inp).slots))
  {
    hide AdmitSlots, AdmitTotals, ClearedSlots, ClearedTotals, Cleared, Kept;
  }

  lemma KeysSame(t: Tick, slots: map<nat, Slot>, done: set<nat>)
    ensures ClearedSlots(t, slots, done).Keys == CounterSlots(t, slots, done).Keys == slots.Keys
    ensures FlagSlots(t, slots, t.live.Keys).Keys == slots.Keys == WaitSlots(t, slots, slots.Keys).Keys
  {}

  lemma AdmitKeys(t: Tick, slots: map<nat, Slot>)
    requires slots.Keys <= t.live.Keys
    ensures AdmitSlots(t, slots, t.live.Keys).Keys == t.live.Keys
  {}

  lemma PreparedKeys(t: Tick, h: Hold, inp: Input)
    requires Streaming(inp)
    ensures Prepared(t, h, inp).slots.Keys == Asked(t, h, inp).slots.Keys == NotedSlots(t, h, inp).Keys == t.live.Keys
  {
    hide Kept, Prepared, Asked, Cleared, PickedNow, AdmitSlots, ClearedSlots, CounterSlots, FlagSlots, WaitSlots;
    PreparedSlots(t, h, inp);
    AskedSlots(t, h, inp);
    KeptSlots(t, h, inp);
    AdmitKeys(t, Kept(t, h, inp).slots);
    KeysSame(t, AdmitSlots(t, Kept(t, h, inp).slots, t.live.Keys), Cleared(t, Kept(t, h, inp).slots));
    KeysSame(t, Asked(t, h, inp).slots, PickedNow(t, h, inp));
    KeysSame(t, CounterSlots(t, Asked(t, h, inp).slots, PickedNow(t, h, inp)), {});
    KeysSame(t, NotedSlots(t, h, inp), {});
  }

  lemma ElementsOf(q: seq<nat>)
    ensures forall x :: x in Elements(q) <==> x in q
  {}

  lemma PickedNowIs(t: Tick, h: Hold, inp: Input)
    requires Streaming(inp)
    ensures var cleared := Cleared(t, Kept(t, h, inp).slots);
            PickedNow(t, h, inp) ==
            Elements(Picked(t, Asked(t, h, inp).slots, cleared, EngineForced(h.link, inp.status.value) - |cleared|))
  {
    hide Cleared, Picked, Elements, Asked, Kept, EngineForced;
  }

  lemma PickedNowPlay(t: Tick, h: Hold, inp: Input)
    requires Streaming(inp)
    ensures forall x :: x in PickedNow(t, h, inp) ==> Playing(t, x)
  {
    hide Cleared, Kept, Asked, Picked, PickedNow, Playing, EngineForced, Elements;
    PickedNowIs(t, h, inp);
    var cleared := Cleared(t, Kept(t, h, inp).slots);
    var unexplained := EngineForced(h.link, inp.status.value) - |cleared|;
    PickedPlay(t, Asked(t, h, inp).slots, cleared, unexplained);
    ElementsOf(Picked(t, Asked(t, h, inp).slots, cleared, unexplained));
  }

  /** The slot as the running holds are looked at. */
  lemma PreparedFacts(t: Tick, h: Hold, inp: Input, x: nat)
    requires Streaming(inp) && x in t.live && SlotsOk(h.slots, t.frameNo)
    ensures x in Prepared(t, h, inp).slots
    ensures AskedFrom(t, Was(t, h, x), x, Prepared(t, h, inp).slots[x])
  {
    hide *;
    AdmitFacts(t, h, inp, x);
    PreparedKeys(t, h, inp);
    AskedSlots(t, h, inp);
    PreparedSlots(t, h, inp);
    PickedNowPlay(t, h, inp);
    var was := Was(t, h, x);
    ClearedFacts(t, AdmitSlots(t, Kept(t, h, inp).slots, t.live.Keys), Cleared(t, Kept(t, h, inp).slots), was, x);
    CounterFacts(t, Asked(t, h, inp).slots, PickedNow(t, h, inp), was, x);
    KeysSame(t, Asked(t, h, inp).slots, PickedNow(t, h, inp));
    FlagFacts(t, CounterSlots(t, Asked(t, h, inp).slots, PickedNow(t, h, inp)), was, x);
    assert NotedSlots(t, h, inp) == FlagSlots(t, CounterSlots(t, Asked(t, h, inp).slots, PickedNow(t, h, inp)),
        t.live.Keys) by {
      NotedIs(t, h, inp);
    }
    WaitFacts(t, NotedSlots(t, h, inp), was, x);
  }

  lemma NotedIs(t: Tick, h: Hold, inp: Input)
    requires Streaming(inp)
    ensures NotedSlots(t, h, inp) == FlagSlots(t, CounterSlots(t, Asked(t, h, inp).slots, PickedNow(t, h, inp)),
            t.live.Keys)
  {
    hide FlagSlots, CounterSlots, Asked, PickedNow;
  }

  // ---- the running and the starting holds ---------------------------------------------

  lemma RanSlots(t: Tick, h: Hold, inp: Input)
    requires Streaming(inp)
    ensures Ran(t, h, inp).slots.Keys == Prepared(t, h, inp).slots.Keys == t.live.Keys
    ensures forall x :: x in t.live ==> Ran(t, h, inp).slots[x] == AfterRun(t, Prepared(t, h, inp).slots[x], x)
  {
    hide Prepared, Ran, RunSlots, AfterRun;
    PreparedKeys(t, h, inp);
    RanIs(t, h, inp);
    RunSlotsAt(t, Prepared(t, h, inp).slots);
  }

  lemma RanIs(t: Tick, h: Hold, inp: Input)
    requires Streaming(inp)
    ensures Ran(t, h, inp).slots == RunSlots(t, Prepared(t, h, inp).slots, Prepared(t, h, inp).slots.Keys)
    ensures Ran(t, h, inp).totals ==
            RunTotals(t, Prepared(t, h, inp).slots, Prepared(t, h, inp).totals, Prepared(t, h, inp).slots.Keys)
  {
    hide RunSlots, RunTotals, Prepared;
  }

  lemma RunSlotsAt(t: Tick, slots: map<nat, Slot>)
    ensures RunSlots(t, slots, slots.Keys).Keys == slots.Keys
    ensures forall x :: x in slots ==> RunSlots(t, slots, slots.Keys)[x] == AfterRun(t, slots[x], x)
  {
    hide AfterRun;
  }

  lemma QueueMembers(t: Tick, slots: map<nat, Slot>)
    ensures var q := Queue(t, slots);
            && (forall x :: x in q <==> x in slots && slots[x].want && Playing(t, x))
            && (forall i :: 0 <= i < |q| ==> q[i] in slots)
            && IsSorted(q, QueueKeys(slots))
  {}

  /** Who starts: slots of the queue, each once, as long as there is room. */
  lemma {:induction false} StartingBounds(t: Tick, slots: map<nat, Slot>, q: seq<nat>, room: int)
    requires forall i :: 0 <= i < |q| ==> q[i] in slots
    requires forall i, j :: 0 <= i < j < |q| ==> q[i] != q[j]
    ensures var xs := Starting(t, slots, q, room);
            && |Elements(xs)| == |xs| <= Max(0, room)
            && Elements(xs) <= Elements(q)
  {
    var xs := Starting(t, slots, q, room);
    if q == [] || room <= 0 {
      assert Elements(xs) == {};
    } else {
      StartingBounds(t, slots, q[1..], if CoolingDown(t, slots[q[0]]) then room else room - 1);
      if CoolingDown(t, slots[q[0]]) {
        assert Elements(q[1..]) <= Elements(q);
      } else {
        var rest := Starting(t, slots, q[1..], room - 1);
        assert q[0] !in q[1..];
        assert Elements(xs) == {q[0]} + Elements(rest);
        assert q[0] !in Elements(rest);
      }
    }
  }

  /** A waiting flag that does not start finds no room, and only slots before it in the queue start. */
  lemma {:induction false} StartingPassesOver(t: Tick, slots: map<nat, Slot>, q: seq<nat>, room: int, i: nat)
    requires forall k :: 0 <= k < |q| ==> q[k] in slots
    requires forall k, l :: 0 <= k < l < |q| ==> q[k] != q[l]
    requires i < |q| && slots[q[i]].why == Flag && q[i] !in Starting(t, slots, q, room)
    ensures |Starting(t, slots, q, room)| == Max(0, room)
    ensures forall x :: x in Starting(t, slots, q, room) ==> x in q[..i]
  {
    if room > 0 && i > 0 {
      var rest, left := q[1..], if CoolingDown(t, slots[q[0]]) then room else room - 1;
      assert rest[i - 1] == q[i];
      StartingPassesOver(t, slots, rest, left, i - 1);
      assert rest[..i - 1] == q[..i][1..];
    }
  }

  /** What is known of the slots that start in a frame. */
  lemma StartedFacts(t: Tick, h: Hold, inp: Input)
    requires Streaming(inp)
    ensures var xs, r := StartedNow(t, h, inp), Ran(t, h, inp).slots;
            && |Elements(xs)| == |xs| <= Max(0, t.perFrame - |With(t, Prepared(t, h, inp).slots, Running)|)
            && (forall x :: x in xs ==> !t.behind && x in r && r[x].want && Playing(t, x))
  {
    hide *;
    var r := Ran(t, h, inp).slots;
    var running := |With(t, Prepared(t, h, inp).slots, Running)|;
    StartedIs(t, h, inp);
    StartedBounds(t, r, running);
  }

  lemma StartedIs(t: Tick, h: Hold, inp: Input)
    requires Streaming(inp)
    ensures StartedNow(t, h, inp) == Started(t, Ran(t, h, inp).slots, |With(t, Prepared(t, h, inp).slots, Running)|)
  {
    hide Ran, Prepared, With, Started;
  }

  lemma StartedBounds(t: Tick, slots: map<nat, Slot>, running: int)
    ensures var xs := Started(t, slots, running);
            && |Elements(xs)| == |xs| <= Max(0, t.perFrame - running)
            && (forall x :: x in xs ==> !t.behind && x in slots && slots[x].want && Playing(t, x))
  {
    hide Queue, Playing, CoolingDown;
    QueueMembers(t, slots);
    if !(t.behind || running >= t.perFrame) {
      StartingBounds(t, slots, Queue(t, slots), t.perFrame - running);
    } else {
      assert Elements([]) == {};
    }
  }

  lemma ForcingIs(h: Hold, inp: Input, csActive: int)
    requires Streaming(inp)
    ensures var t := TickOf(h, inp, csActive);
            Forcing(h, inp, csActive) == With(t, Prepared(t, h, inp).slots, Running) + Elements(StartedNow(t, h, inp))
  {}

  /** The slot after the frame. */
  lemma FrameSlot(h: Hold, inp: Input, csActive: int, x: nat)
    requires Streaming(inp)
    ensures var t := TickOf(h, inp, csActive);
            && Frame(h, inp, csActive).frameNo == t.frameNo == h.frameNo + 1
            && Frame(h, inp, csActive).slots.Keys == t.live.Keys
            && Prepared(t, h, inp).slots.Keys == t.live.Keys
            && (x in t.live ==>
                  var ran := AfterRun(t, Prepared(t, h, inp).slots[x], x);
                  && (x in StartedNow(t, h, inp) ==>
                        x in t.clients && Frame(h, inp, csActive).slots[x] == AfterStart(t, ran, x))
                  && (x !in StartedNow(t, h, inp) ==> Frame(h, inp, csActive).slots[x] == ran))
  {
    var t := TickOf(h, inp, csActive);
    hide Prepared, Ran, AfterRun, AfterStart, StartTotals, StartedNow;
    RanSlots(t, h, inp);
    FrameIs(h, inp, csActive);
    if x in StartedNow(t, h, inp) {
      assert x in Elements(StartedNow(t, h, inp));
    }
  }

  lemma FrameIs(h: Hold, inp: Input, csActive: int)
    requires Streaming(inp)
    ensures var t := TickOf(h, inp, csActive);
            && Frame(h, inp, csActive) == StartHolds(t, Ran(t, h, inp), Elements(StartedNow(t, h, inp)))
            && Ran(t, h, inp).frameNo == t.frameNo == h.frameNo + 1
            && Ran(t, h, inp).link == Begin(h, inp.status.value).link
  {
    var t := TickOf(h, inp, csActive);
    hide StartHolds, RunSlots, RunTotals, WaitSlots, WaitTotals, FlagSlots, CounterSlots, ClearedSlots, ClearedTotals,
         AdmitSlots, AdmitTotals, StartedNow, Cleared, Picked, NextLink;
  }

  /** How a slot leaves the frame: `p` is the slot as its running hold is looked at. */
  ghost predicate LeavesAs(t: Tick, p: Slot, started: bool, x: nat, st: Slot) {
    && st.gen == p.gen
    && (started ==> x in t.clients && Playing(t, x) && !t.behind && p.want && p.target.None?
                    && st.target == Some(t.clients[x].outgoing) && st.startSeq == t.clients[x].outgoing
                    && st.startFrame == t.frameNo && !st.want)
    && (!started ==>
          && (st.target.Some? <==> OutcomeOf(t, p, x) == Running)
          && (st.target.Some? ==> st.target == p.target && st.startSeq == p.startSeq && st.startFrame == p.startFrame)
          && st.want == p.want && st.why == p.why && st.wantFrame == p.wantFrame)
  }

  lemma LeavesFacts(t: Tick, p: Slot, started: bool, x: nat)
    requires started ==> x in t.clients && Playing(t, x) && !t.behind && AfterRun(t, p, x).want
    requires !(p.want && p.target.Some?) && (p.target.Some? ==> Playing(t, x))
    ensures LeavesAs(t, p, started, x, if started then AfterStart(t, AfterRun(t, p, x), x) else AfterRun(t, p, x))
  {}

  lemma FrameFacts(h: Hold, inp: Input, csActive: int, x: nat)
    requires Streaming(inp) && SlotsOk(h.slots, h.frameNo)
    requires x in TickOf(h, inp, csActive).live
    ensures var t := TickOf(h, inp, csActive);
            var p := Prepared(t, h, inp).slots;
            && x in p && AskedFrom(t, Was(t, h, x), x, p[x])
            && x in Frame(h, inp, csActive).slots
            && LeavesAs(t, p[x], x in StartedNow(t, h, inp), x, Frame(h, inp, csActive).slots[x])
  {
    var t := TickOf(h, inp, csActive);
    LaterOk(h.slots, h.frameNo, t.frameNo);
    hide *;
    FrameSlot(h, inp, csActive, x);
    PreparedFacts(t, h, inp, x);
    StartedFacts(t, h, inp);
    RanSlots(t, h, inp);
    NotBoth(t, Was(t, h, x), x, Prepared(t, h, inp).slots[x]);
    LeavesFacts(t, Prepared(t, h, inp).slots[x], x in StartedNow(t, h, inp), x);
  }

  lemma NotBoth(t: Tick, was: Option<Slot>, x: nat, st: Slot)
    requires AskedFrom(t, was, x, st)
    ensures !(st.want && st.target.Some?) && (st.target.Some? ==> Playing(t, x))
  {}

  lemma LaterOk(slots: map<nat, Slot>, frameNo: int, later: int)
    requires SlotsOk(slots, frameNo) && frameNo <= later
    ensures SlotsOk(slots, later)
  {}

  lemma FrameSlotOk(h: Hold, inp: Input, csActive: int, x: nat)
    requires Streaming(inp) && SlotsOk(h.slots, h.frameNo) && x in TickOf(h, inp, csActive).live
    ensures x in Frame(h, inp, csActive).slots && SlotOk(Frame(h, inp, csActive).slots[x], h.frameNo + 1)
  {
    FrameFacts(h, inp, csActive, x);
    hide Frame, Prepared, StartedNow, Playing;
  }

  lemma FrameSlotsOk(h: Hold, inp: Input, csActive: int)
    requires SlotsOk(h.slots, h.frameNo)
    ensures SlotsOk(Frame(h, inp, csActive).slots, Frame(h, inp, csActive).frameNo)
    ensures Frame(h, inp, csActive).frameNo == h.frameNo + 1
  {
    if Streaming(inp) {
      FrameSlot(h, inp, csActive, 0);
      hide Frame, TickOf, SlotOk;
      forall x | x in Frame(h, inp, csActive).slots
        ensures SlotOk(Frame(h, inp, csActive).slots[x], h.frameNo + 1)
      {
        FrameSlotOk(h, inp, csActive, x);
      }
    }
  }
}
