/** What the scheduler holds back: waits that are too old, a relay that is behind, slots that cool down. */
module HoldPolicy {
  import opened Common
  import opened SlotOrder
  import opened HoldModel
  import opened HoldFacts

  // ---- waits --------------------------------------------------------------------------------------

  lemma WaitLeft(t: Tick, slots: map<nat, Slot>, x: nat)
    requires x in slots
    ensures x in WaitSlots(t, slots, slots.Keys)
    ensures var st := WaitSlots(t, slots, slots.Keys)[x];
            st.want && st.why != Flag ==> !t.behind && t.frameNo - st.wantFrame <= WAIT_MAX_AGE_FRAMES
  {}

  /** How a slot leaves the frame as far as waits go: `p` is the slot as its running hold is looked at. */
  lemma LeavesWaiting(t: Tick, p: Slot, started: bool, x: nat, st: Slot)
    requires LeavesAs(t, p, started, x, st)
    requires p.want && p.why != Flag ==> !t.behind && t.frameNo - p.wantFrame <= WAIT_MAX_AGE_FRAMES
    ensures st.want && st.why != Flag ==> !t.behind && t.frameNo - st.wantFrame <= WAIT_MAX_AGE_FRAMES
    ensures t.behind ==> st.target.None?
  {}

  /**
   After every frame: a wait that is not a flag is at most 60 frames old; and while the relay is behind
   no slot holds and only flags wait.
   */
  lemma WaitsAreFresh(h: Hold, inp: Input, csActive: int, x: nat)
    requires Streaming(inp) && SlotsOk(h.slots, h.frameNo) && x in Frame(h, inp, csActive).slots
    ensures var t, st := TickOf(h, inp, csActive), Frame(h, inp, csActive).slots[x];
            && (st.want && st.why != Flag ==> !t.behind && t.frameNo - st.wantFrame <= WAIT_MAX_AGE_FRAMES)
            && (t.behind ==> st.target.None?)
  {
    hide *;
    var t := TickOf(h, inp, csActive);
    FrameSlot(h, inp, csActive, x);
    FrameFacts(h, inp, csActive, x);
    PreparedKeys(t, h, inp);
    PreparedSlots(t, h, inp);
    WaitLeft(t, NotedSlots(t, h, inp), x);
    LeavesWaiting(t, Prepared(t, h, inp).slots[x], x in StartedNow(t, h, inp), x, Frame(h, inp, csActive).slots[x]);
  }

  // ---- cooling down ----------------------------------------------------------------------------------

  lemma {:induction false} StartingIsCool(t: Tick, slots: map<nat, Slot>, q: seq<nat>, room: int)
    requires forall i :: 0 <= i < |q| ==> q[i] in slots
    ensures forall x :: x in Starting(t, slots, q, room) ==> x in slots && !CoolingDown(t, slots[x])
  {
    hide CoolingDown;
    if q != [] && room > 0 {
      StartingIsCool(t, slots, q[1..], if CoolingDown(t, slots[q[0]]) then room else room - 1);
    }
  }

  lemma StartedIsCool(t: Tick, slots: map<nat, Slot>, running: int)
    ensures forall x :: x in Started(t, slots, running) ==> x in slots && !CoolingDown(t, slots[x])
  {
    hide Queue, CoolingDown, Starting;
    QueueMembers(t, slots);
    if !(t.behind || running >= t.perFrame) {
      StartingIsCool(t, slots, Queue(t, slots), t.perFrame - running);
    }
  }

  /** A keyframe or first-sight hold starts only once the cooldown of its slot is over. */
  lemma CooldownRespected(h: Hold, inp: Input, csActive: int, x: nat)
    requires Streaming(inp)
    requires var t := TickOf(h, inp, csActive); x in StartedNow(t, h, inp)
    ensures var t, r := TickOf(h, inp, csActive), Ran(TickOf(h, inp, csActive), h, inp).slots;
            x in r && (r[x].why == Flag || t.frameNo >= r[x].cooldownUntil)
  {
    hide *;
    var t := TickOf(h, inp, csActive);
    StartedIs(t, h, inp);
    StartedIsCool(t, Ran(t, h, inp).slots, |With(t, Prepared(t, h, inp).slots, Running)|);
    Cool(t, Ran(t, h, inp).slots[x]);
  }

  lemma Cool(t: Tick, st: Slot)
    requires !CoolingDown(t, st)
    ensures st.why == Flag || t.frameNo >= st.cooldownUntil
  {}

  /** The cooldown of a slot that was `was`: it starts as a hold ends and stays as it is otherwise. */
  ghost predicate CoolsFrom(t: Tick, was: Option<Slot>, st: Slot) {
    st.cooldownUntil ==
    if was.None? then 0
    else if was.value.target.Some? && st.target.None? then t.frameNo + HOLD_COOLDOWN_FRAMES
    else was.value.cooldownUntil
  }

  ghost predicate SameCool(a: Slot, b: Slot) {
    a.cooldownUntil == b.cooldownUntil && (a.target.Some? <==> b.target.Some?)
  }

  lemma AdmitCools(t: Tick, h: Hold, inp: Input, x: nat)
    requires Streaming(inp) && x in t.live
    ensures var slots := AdmitSlots(t, Kept(t, h, inp).slots, t.live.Keys);
            x in slots && CoolsFrom(t, Was(t, h, x), slots[x])
  {
    KeptSlots(t, h, inp);
    hide Kept;
  }

  lemma PhasesSameCool(t: Tick, slots: map<nat, Slot>, done: set<nat>, x: nat)
    requires x in slots
    ensures SameCool(ClearedSlots(t, slots, done)[x], slots[x])
    ensures SameCool(CounterSlots(t, slots, done)[x], slots[x])
    ensures SameCool(FlagSlots(t, slots, t.live.Keys)[x], slots[x])
    ensures SameCool(WaitSlots(t, slots, slots.Keys)[x], slots[x])
  {}

  lemma SameCools(t: Tick, was: Option<Slot>, a: Slot, b: Slot, c: Slot, d: Slot, e: Slot)
    requires CoolsFrom(t, was, a) && SameCool(b, a) && SameCool(c, b) && SameCool(d, c) && SameCool(e, d)
    ensures CoolsFrom(t, was, e)
  {}

  /** Up to the running holds only admission ends holds. */
  lemma PreparedCools(t: Tick, h: Hold, inp: Input, x: nat)
    requires Streaming(inp) && x in t.live
    ensures x in Prepared(t, h, inp).slots && CoolsFrom(t, Was(t, h, x), Prepared(t, h, inp).slots[x])
  {
    hide *;
    var kept := Kept(t, h, inp).slots;
    var admitted := AdmitSlots(t, kept, t.live.Keys);
    var asked, noted, picked := Asked(t, h, inp).slots, NotedSlots(t, h, inp), PickedNow(t, h, inp);
    AdmitCools(t, h, inp, x);
    PreparedKeys(t, h, inp);
    AskedSlots(t, h, inp);
    NotedIs(t, h, inp);
    PreparedSlots(t, h, inp);
    KeysSame(t, asked, picked);
    PhasesSameCool(t, admitted, Cleared(t, kept), x);
    PhasesSameCool(t, asked, picked, x);
    PhasesSameCool(t, CounterSlots(t, asked, picked), {}, x);
    PhasesSameCool(t, noted, {}, x);
    SameCools(t, Was(t, h, x), admitted[x], asked[x], CounterSlots(t, asked, picked)[x], noted[x],
              Prepared(t, h, inp).slots[x]);
  }

  lemma RunCools(t: Tick, was: Option<Slot>, p: Slot, started: bool, x: nat)
    requires CoolsFrom(t, was, p) && AskedFrom(t, was, x, p)
    requires started ==> x in t.clients && Playing(t, x) && AfterRun(t, p, x).want
    ensures CoolsFrom(t, was, if started then AfterStart(t, AfterRun(t, p, x), x) else AfterRun(t, p, x))
  {}

  /**
   The cooldown of every slot after every frame: a hold that ended in it, be it acknowledged, capped,
   cancelled because the relay is behind, or lost with its client while the slots were admitted, starts
   the cooldown; any other slot watched before keeps its own, and one just admitted has none.
   */
  lemma CooldownBegins(h: Hold, inp: Input, csActive: int, x: nat)
    requires Streaming(inp) && SlotsOk(h.slots, h.frameNo) && x in Frame(h, inp, csActive).slots
    ensures var t := TickOf(h, inp, csActive);
            CoolsFrom(t, if Survives(t, h, x) then Some(h.slots[x]) else None, Frame(h, inp, csActive).slots[x])
  {
    var t := TickOf(h, inp, csActive);
    LaterOk(h.slots, h.frameNo, t.frameNo);
    WasIs(t, h, x);
    hide *;
    FrameSlot(h, inp, csActive, x);
    PreparedCools(t, h, inp, x);
    PreparedFacts(t, h, inp, x);
    StartedFacts(t, h, inp);
    RanSlots(t, h, inp);
    RunCools(t, Was(t, h, x), Prepared(t, h, inp).slots[x], x in StartedNow(t, h, inp), x);
  }

  lemma WasIs(t: Tick, h: Hold, x: nat)
    ensures Was(t, h, x) == if Survives(t, h, x) then Some(h.slots[x]) else None
  {}

  // ---- the slots a counter is charged to ---------------------------------------------------------------

  lemma Elsewhere(q: seq<nat>, n: nat, keys: map<nat, Key>, x: nat, y: nat)
    requires IsSorted(q, keys) && n <= |q| && x in q[..n] && y in q && y !in q[..n]
    ensures x in keys && y in keys && Before(keys, x, y)
  {
    hide Before;
    var i :| 0 <= i < n && q[i] == x;
    var j :| 0 <= j < |q| && q[j] == y;
    assert forall k :: 0 <= k < n ==> q[..n][k] == q[k] && q[k] in q[..n];
  }

  /**
   Resyncs only the counter shows: as many candidates are taken as the engine resynced, never more, and
   none of those left has an older last full snapshot than one taken.
   */
  lemma CounterTakesOldest(t: Tick, slots: map<nat, Slot>, cleared: set<nat>, unexplained: int)
    ensures var q, all := Picked(t, slots, cleared, unexplained), Candidates(t, slots, cleared);
            && |q| == (if t.connected && !t.behind then Min(Max(0, unexplained), |all|) else 0)
            && (forall x :: x in q ==> x in all)
            && forall x, y :: x in q && y in all && y !in q ==>
                 x in AgeKeys(slots) && y in AgeKeys(slots) && Before(AgeKeys(slots), x, y)
  {
    var keys, all := AgeKeys(slots), Candidates(t, slots, cleared);
    var q := Sorted(all, keys);
    hide Candidates, AgeKeys, Before, IsSorted, Sorted;
    if unexplained > 0 && t.connected && !t.behind {
      var n := if unexplained < |q| then unexplained else |q|;
      assert q[..|q|] == q;
      assert Picked(t, slots, cleared, unexplained) == q[..n];
      forall x, y | x in q[..n] && y in all && y !in q[..n] ensures x in keys && y in keys && Before(keys, x, y) {
        Elsewhere(q, n, keys, x, y);
      }
    }
  }
}
