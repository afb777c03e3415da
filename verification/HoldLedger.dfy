/** Conservation and limits of the resync holds over whole runs. */
module HoldLedger {
  import opened Common
  import opened HoldModel
  import opened HoldSteps
  import opened HoldFacts

  // ---- the per-slot totals as sums ----------------------------------------------------

  function HoldsMap(p: map<nat, Tally>): map<nat, int> {
    map x | x in p :: p[x].holds
  }

  function ForcedMap(p: map<nat, Tally>): map<nat, int> {
    map x | x in p :: p[x].forced
  }

  ghost function HoldsSum(p: map<nat, Tally>): int {
    Sum(p.Keys, HoldsMap(p))
  }

  ghost function ForcedSum(p: map<nat, Tally>): int {
    Sum(p.Keys, ForcedMap(p))
  }

  /** A sum after one entry changed. */
  lemma SumUpdate(xs: set<nat>, x: nat, m: map<nat, int>, m': map<nat, int>)
    requires xs == m.Keys && m'.Keys == xs + {x}
    requires forall y :: y in xs && y != x ==> m'[y] == m[y]
    ensures Sum(xs + {x}, m') == Sum(xs, m) + m'[x] - (if x in m then m[x] else 0)
  {
    var rest := xs - {x};
    SumAgree(rest, m, m');
    SumAdd(rest, x, m');
    assert rest + {x} == xs + {x};
    if x in m {
      SumAdd(rest, x, m);
      assert rest + {x} == xs;
    } else {
      assert rest == xs;
    }
  }

  lemma TallyUpdate(p: map<nat, Tally>, x: nat, v: Tally)
    ensures HoldsSum(p[x := v]) == HoldsSum(p) + v.holds - TallyOf(p, x).holds
    ensures ForcedSum(p[x := v]) == ForcedSum(p) + v.forced - TallyOf(p, x).forced
  {
    assert p[x := v].Keys == p.Keys + {x};
    SumUpdate(p.Keys, x, HoldsMap(p), HoldsMap(p[x := v]));
    SumUpdate(p.Keys, x, ForcedMap(p), ForcedMap(p[x := v]));
  }

  lemma {:induction false} CreditsSum(p: map<nat, Tally>, xs: set<nat>, sent: map<nat, int>)
    requires xs <= sent.Keys
    ensures HoldsSum(Credits(p, xs, sent)) == HoldsSum(p)
    ensures ForcedSum(Credits(p, xs, sent)) == ForcedSum(p) + Sum(xs, sent)
  {
    if xs == {} {
      assert Credits(p, xs, sent) == p;
    } else {
      hide Credits, HoldsSum, ForcedSum, Sum;
      var x :| x in xs;
      var rest := xs - {x};
      CreditsSum(p, rest, sent);
      CreditsAdd(p, rest, x, sent);
      assert rest + {x} == xs;
      SumAdd(rest, x, sent);
    }
  }

  lemma CreditsAdd(p: map<nat, Tally>, xs: set<nat>, x: nat, sent: map<nat, int>)
    requires xs <= sent.Keys && x in sent && x !in xs
    ensures HoldsSum(Credits(p, xs + {x}, sent)) == HoldsSum(Credits(p, xs, sent))
    ensures ForcedSum(Credits(p, xs + {x}, sent)) == ForcedSum(Credits(p, xs, sent)) + sent[x]
  {
    hide Credits, HoldsSum, ForcedSum;
    CreditsStep(p, xs, x, sent, sent);
    var mid := Credits(p, xs, sent);
    TallyUpdate(mid, x, TallyOf(mid, x).(forced := TallyOf(mid, x).forced + sent[x]));
    CreditsOne(mid, x, sent);
  }

  lemma CreditsOne(p: map<nat, Tally>, x: nat, sent: map<nat, int>)
    requires x in sent
    ensures Credits(p, {x}, sent) == p[x := TallyOf(p, x).(forced := TallyOf(p, x).forced + sent[x])]
  {}

  lemma CountsAdd(p: map<nat, Tally>, xs: set<nat>, x: nat)
    requires x !in xs
    ensures HoldsSum(Counts(p, xs + {x})) == HoldsSum(Counts(p, xs)) + 1
    ensures ForcedSum(Counts(p, xs + {x})) == ForcedSum(Counts(p, xs))
  {
    hide Counts, HoldsSum, ForcedSum;
    CountsStep(p, xs, x);
    var mid := Counts(p, xs);
    TallyUpdate(mid, x, TallyOf(mid, x).(holds := TallyOf(mid, x).holds + 1));
    CountsOne(mid, x);
  }

  lemma {:induction false} CountsSum(p: map<nat, Tally>, xs: set<nat>)
    ensures HoldsSum(Counts(p, xs)) == HoldsSum(p) + |xs|
    ensures ForcedSum(Counts(p, xs)) == ForcedSum(p)
  {
    if xs == {} {
      assert Counts(p, xs) == p;
    } else {
      hide Counts, HoldsSum, ForcedSum;
      var x :| x in xs;
      CountsSum(p, xs - {x});
      CountsAdd(p, xs - {x}, x);
      assert xs - {x} + {x} == xs;
    }
  }

  // ---- the books balance ----------------------------------------------------------------

  /** Every hold begun has ended in one of three ways or still runs, and the per-slot totals add up. */
  ghost predicate Balanced(slots: map<nat, Slot>, c: Totals) {
    && c.started == c.acked + c.capped + c.cancelled + |Holding(slots)|
    && HoldsSum(c.perSlot) == c.started
    && ForcedSum(c.perSlot) == c.forced
  }

  lemma DropBalanced(h: Hold, xs: set<nat>)
    requires Balanced(h.slots, h.totals)
    ensures Balanced(Drop(h, xs).slots, Drop(h, xs).totals)
  {
    var all := Holding(h.slots);
    assert Holding(h.slots - xs) == all - xs;
    assert all == (all - xs) + all * xs && (all - xs) !! all * xs;
  }

  lemma AdmitHolding(t: Tick, slots: map<nat, Slot>)
    requires slots.Keys <= t.live.Keys
    ensures Holding(AdmitSlots(t, slots, t.live.Keys)) == Holding(slots) - Lost(t, slots)
    ensures Count(Lost(t, slots), t.live.Keys) == |Lost(t, slots)|
    ensures Lost(t, slots) <= Holding(slots) && Lost(t, slots) * t.live.Keys == Lost(t, slots)
  {
    assert Lost(t, slots) * t.live.Keys == Lost(t, slots);
  }

  lemma AdmitBalanced(t: Tick, slots: map<nat, Slot>, c: Totals)
    requires slots.Keys <= t.live.Keys && Balanced(slots, c)
    ensures Balanced(AdmitSlots(t, slots, t.live.Keys), AdmitTotals(t, slots, c, t.live.Keys))
  {
    AdmitHolding(t, slots);
    hide AdmitSlots, Count, Holding, HoldsSum, ForcedSum, Credits;
    CreditsSum(c.perSlot, Lost(t, slots), SentMap(t.clients, slots));
  }

  lemma SameHolding(t: Tick, slots: map<nat, Slot>, done: set<nat>)
    ensures Holding(ClearedSlots(t, slots, done)) == Holding(slots)
    ensures Holding(CounterSlots(t, slots, done)) == Holding(slots)
  {}

  lemma SameHolding2(t: Tick, slots: map<nat, Slot>, done: set<nat>)
    ensures done <= t.live.Keys ==> Holding(FlagSlots(t, slots, done)) == Holding(slots)
    ensures Holding(WaitSlots(t, slots, done)) == Holding(slots)
  {}

  lemma RunHoldingSet(t: Tick, slots: map<nat, Slot>)
    ensures Holding(RunSlots(t, slots, slots.Keys)) == Holding(slots) - Closing(t, slots)
    ensures Closing(t, slots) <= Holding(slots)
  {}

  lemma ClosingSplit(t: Tick, slots: map<nat, Slot>)
    ensures |Closing(t, slots)| == |With(t, slots, Cancelled)| + |With(t, slots, Acked)| + |With(t, slots, Capped)|
  {
    var a, b, c := With(t, slots, Cancelled), With(t, slots, Acked), With(t, slots, Capped);
    assert Closing(t, slots) == (a + b) + c && a !! b && (a + b) !! c;
    hide Closing, With;
  }

  lemma CountWhole(t: Tick, slots: map<nat, Slot>, o: Outcome)
    ensures Count(With(t, slots, o), slots.Keys) == |With(t, slots, o)|
    ensures Closing(t, slots) * slots.Keys == Closing(t, slots)
  {
    assert With(t, slots, o) * slots.Keys == With(t, slots, o);
  }

  lemma RunBalanced(t: Tick, slots: map<nat, Slot>, c: Totals)
    requires Balanced(slots, c)
    ensures Balanced(RunSlots(t, slots, slots.Keys), RunTotals(t, slots, c, slots.Keys))
  {
    hide RunSlots, Count, Holding, HoldsSum, ForcedSum, Credits, With, Closing, SentMap;
    RunHoldingSet(t, slots);
    ClosingSplit(t, slots);
    CountWhole(t, slots, Cancelled);
    CountWhole(t, slots, Acked);
    CountWhole(t, slots, Capped);
    SentKeys(t, slots);
    CreditsSum(c.perSlot, Closing(t, slots), SentMap(t.clients, slots));
  }

  lemma SentKeys(t: Tick, slots: map<nat, Slot>)
    ensures SentMap(t.clients, slots).Keys == slots.Keys && Closing(t, slots) <= slots.Keys
  {}

  lemma StartHolding(t: Tick, slots: map<nat, Slot>, done: set<nat>)
    requires done <= t.clients.Keys * slots.Keys && (forall x :: x in done ==> slots[x].target.None?)
    ensures Holding(StartSlots(t, slots, done)) == Holding(slots) + done && Holding(slots) !! done
    ensures Count(done, done) == |done|
  {
    assert done * done == done;
  }

  lemma StartBalanced(t: Tick, slots: map<nat, Slot>, c: Totals, done: set<nat>)
    requires done <= t.clients.Keys * slots.Keys && (forall x :: x in done ==> slots[x].target.None?)
    requires Balanced(slots, c)
    ensures Balanced(StartSlots(t, slots, done), StartTotals(slots, c, done))
  {
    StartHolding(t, slots, done);
    hide StartSlots, Count, Holding, HoldsSum, ForcedSum, Counts;
    CountsSum(c.perSlot, done);
  }

  // ---- one frame ------------------------------------------------------------------------

  /** The invariant of every run. */
  ghost predicate Ledger(h: Hold) {
    SlotsOk(h.slots, h.frameNo) && Balanced(h.slots, h.totals)
  }

  lemma BeginBalanced(h: Hold, status: Status)
    requires Balanced(h.slots, h.totals)
    ensures Balanced(Begin(h, status).slots, Begin(h, status).totals)
  {}

  lemma PreparedBalanced(t: Tick, h: Hold, inp: Input)
    requires Streaming(inp) && Balanced(h.slots, h.totals)
    ensures Balanced(Prepared(t, h, inp).slots, Prepared(t, h, inp).totals)
  {
    var begun := Begin(h, inp.status.value);
    BeginBalanced(h, inp.status.value);
    DropBalanced(begun, Stale(t, begun.slots));
    var kept := Kept(t, h, inp);
    KeptSlots(t, h, inp);
    hide Kept, Balanced;
    AdmitBalanced(t, kept.slots, kept.totals);
    AskedBalanced(t, h, inp);
    NotedBalanced(t, h, inp);
  }

  lemma AskedBalanced(t: Tick, h: Hold, inp: Input)
    requires Streaming(inp)
    requires Kept(t, h, inp).slots.Keys <= t.live.Keys
    requires var kept := Kept(t, h, inp);
             Balanced(AdmitSlots(t, kept.slots, t.live.Keys), AdmitTotals(t, kept.slots, kept.totals, t.live.Keys))
    ensures Balanced(Asked(t, h, inp).slots, Asked(t, h, inp).totals)
  {
    var kept := Kept(t, h, inp);
    var s1 := AdmitSlots(t, kept.slots, t.live.Keys);
    SameHolding(t, s1, Cleared(t, kept.slots));
    AskedTotals(t, h, inp);
    AskedSlots(t, h, inp);
    hide Asked, Kept, AdmitSlots, AdmitTotals, ClearedSlots, Cleared, Holding, HoldsSum, ForcedSum, Count;
  }

  lemma AskedTotals(t: Tick, h: Hold, inp: Input)
    requires Streaming(inp)
    ensures var kept := Kept(t, h, inp);
            var s1 := AdmitSlots(t, kept.slots, t.live.Keys);
            Asked(t, h, inp).totals ==
            ClearedTotals(t, s1, AdmitTotals(t, kept.slots, kept.totals, t.live.Keys), Cleared(t, kept.slots))
  {
    hide Kept, AdmitSlots, AdmitTotals, ClearedSlots, ClearedTotals, Cleared;
  }

  lemma NotedBalanced(t: Tick, h: Hold, inp: Input)
    requires Streaming(inp) && Balanced(Asked(t, h, inp).slots, Asked(t, h, inp).totals)
    ensures Balanced(Prepared(t, h, inp).slots, Prepared(t, h, inp).totals)
  {
    hide Prepared, Asked, NotedSlots, PickedNow, CounterSlots, FlagSlots, WaitSlots, Holding, HoldsSum, ForcedSum,
        Count;
    var s2 := Asked(t, h, inp).slots;
    SameHolding(t, s2, PickedNow(t, h, inp));
    SameHolding2(t, CounterSlots(t, s2, PickedNow(t, h, inp)), t.live.Keys);
    NotedIs(t, h, inp);
    SameHolding2(t, NotedSlots(t, h, inp), NotedSlots(t, h, inp).Keys);
    PreparedSlots(t, h, inp);
    PreparedTotals(t, h, inp);
  }

  lemma PreparedTotals(t: Tick, h: Hold, inp: Input)
    requires Streaming(inp)
    ensures Prepared(t, h, inp).totals == WaitTotals(t, NotedSlots(t, h, inp), Asked(t, h, inp).totals,
            NotedSlots(t, h, inp).Keys)
  {
    hide Asked, Cleared, Picked, FlagSlots, CounterSlots, WaitSlots, WaitTotals;
  }

  lemma FrameBalanced(h: Hold, inp: Input, csActive: int)
    requires Streaming(inp) && Balanced(h.slots, h.totals)
    requires SlotsOk(h.slots, h.frameNo)
    ensures Balanced(Frame(h, inp, csActive).slots, Frame(h, inp, csActive).totals)
  {
    var t := TickOf(h, inp, csActive);
    PreparedBalanced(t, h, inp);
    var p := Prepared(t, h, inp);
    RunBalanced(t, p.slots, p.totals);
    RanIs(t, h, inp);
    StartersFree(t, h, inp);
    var r := Ran(t, h, inp);
    StartBalanced(t, r.slots, r.totals, Elements(StartedNow(t, h, inp)));
    FrameIs(h, inp, csActive);
    hide Frame, Ran, Prepared, StartedNow, Balanced, StartSlots, StartTotals, Elements;
  }

  /** Slots that start do not hold. */
  lemma StarterFree(t: Tick, h: Hold, inp: Input, x: nat)
    requires Streaming(inp) && SlotsOk(h.slots, t.frameNo) && x in t.live
    requires x in Ran(t, h, inp).slots && Ran(t, h, inp).slots[x].want
    ensures Ran(t, h, inp).slots[x].target.None? && Ran(t, h, inp).slots[x].why != Unset
  {
    hide Ran, Prepared, SlotsOk, Was, Playing;
    RanSlots(t, h, inp);
    PreparedFacts(t, h, inp, x);
  }

  lemma StartersFree(t: Tick, h: Hold, inp: Input)
    requires Streaming(inp) && SlotsOk(h.slots, t.frameNo)
    ensures var xs, r := Elements(StartedNow(t, h, inp)), Ran(t, h, inp).slots;
            && xs <= r.Keys * t.clients.Keys
            && (forall x :: x in xs ==> r[x].target.None? && r[x].why != Unset)
  {
    hide StartedNow, Ran, SlotsOk, With, Prepared;
    StartedFacts(t, h, inp);
    RanSlots(t, h, inp);
    forall x | x in StartedNow(t, h, inp)
      ensures Ran(t, h, inp).slots[x].target.None? && Ran(t, h, inp).slots[x].why != Unset
    {
      StarterFree(t, h, inp, x);
    }
  }

  lemma LedgerInitial()
    ensures Ledger(INITIAL)
  {
    assert Holding(INITIAL.slots) == {};
  }

  lemma LedgerFrame(h: Hold, inp: Input, csActive: int)
    requires Ledger(h)
    ensures Ledger(Frame(h, inp, csActive))
  {
    FrameSlotsOk(h, inp, csActive);
    if Streaming(inp) {
      hide Frame, Balanced, SlotsOk;
      FrameBalanced(h, inp, csActive);
    } else {
      DropBalanced(h, h.slots.Keys);
    }
  }

  // ---- limits -----------------------------------------------------------------------------

  /** The holds that run after a frame are the ones it forces. */
  lemma ForcingIff(h: Hold, inp: Input, csActive: int, x: nat)
    requires Streaming(inp) && SlotsOk(h.slots, h.frameNo)
    ensures x in Forcing(h, inp, csActive) <==>
            x in Frame(h, inp, csActive).slots && Frame(h, inp, csActive).slots[x].target.Some?
  {
    var t := TickOf(h, inp, csActive);
    hide *;
    FrameSlot(h, inp, csActive, x);
    StartedFacts(t, h, inp);
    RanSlots(t, h, inp);
    ForcingMember(h, inp, csActive, x);
    if x in t.live {
      HoldsIff(h, inp, csActive, x);
    }
  }

  lemma ForcingMember(h: Hold, inp: Input, csActive: int, x: nat)
    requires Streaming(inp)
    ensures var t := TickOf(h, inp, csActive);
            x in Forcing(h, inp, csActive) <==>
            || x in StartedNow(t, h, inp)
            || (x in Prepared(t, h, inp).slots && OutcomeOf(t, Prepared(t, h, inp).slots[x], x) == Running)
  {
    ForcingIs(h, inp, csActive);
    hide Forcing, Prepared, StartedNow, TickOf, OutcomeOf;
  }

  lemma ForcingHolds(h: Hold, inp: Input, csActive: int)
    requires SlotsOk(h.slots, h.frameNo)
    ensures Holding(Frame(h, inp, csActive).slots) == Forcing(h, inp, csActive)
  {
    if Streaming(inp) {
      hide Frame, Forcing, SlotsOk;
      forall x: nat ensures x in Holding(Frame(h, inp, csActive).slots) <==> x in Forcing(h, inp, csActive) {
        ForcingIff(h, inp, csActive, x);
      }
    }
  }

  lemma HoldsIff(h: Hold, inp: Input, csActive: int, x: nat)
    requires Streaming(inp) && SlotsOk(h.slots, h.frameNo) && x in TickOf(h, inp, csActive).live
    ensures var t := TickOf(h, inp, csActive);
            && x in Frame(h, inp, csActive).slots && x in Prepared(t, h, inp).slots
            && (Frame(h, inp, csActive).slots[x].target.Some? <==>
                x in StartedNow(t, h, inp) || OutcomeOf(t, Prepared(t, h, inp).slots[x], x) == Running)
  {
    FrameFacts(h, inp, csActive, x);
    hide Frame, Prepared, StartedNow, TickOf;
  }

  /** Holds that go on were running before: no frame makes more of them than it starts. */
  lemma RunningBefore(h: Hold, inp: Input, csActive: int)
    requires Streaming(inp) && SlotsOk(h.slots, h.frameNo)
    ensures var t := TickOf(h, inp, csActive);
            With(t, Prepared(t, h, inp).slots, Running) <= Holding(h.slots)
  {
    var t := TickOf(h, inp, csActive);
    PreparedKeys(t, h, inp);
    LaterOk(h.slots, h.frameNo, t.frameNo);
    hide Prepared, TickOf, SlotsOk, AskedFrom;
    forall x | x in With(t, Prepared(t, h, inp).slots, Running) ensures x in Holding(h.slots) {
      PreparedFacts(t, h, inp, x);
      WasHolding(t, h, x, Prepared(t, h, inp).slots[x]);
    }
  }

  lemma WasHolding(t: Tick, h: Hold, x: nat, st: Slot)
    requires AskedFrom(t, Was(t, h, x), x, st) && st.target.Some?
    ensures x in h.slots && h.slots[x].target.Some?
  {}

  /** The per-frame budget: no more holds run, and no more snapshots are forced, than before or than the budget. */
  lemma BudgetFrame(h: Hold, inp: Input, csActive: int)
    requires SlotsOk(h.slots, h.frameNo)
    ensures |Holding(Frame(h, inp, csActive).slots)| <= Max(|Holding(h.slots)|, Max(0, inp.perFrame))
    ensures |Forcing(h, inp, csActive)| == |Holding(Frame(h, inp, csActive).slots)|
  {
    ForcingHolds(h, inp, csActive);
    if Streaming(inp) {
      StreamingBudget(h, inp, csActive);
    } else {
      assert Forcing(h, inp, csActive) == {};
    }
  }

  lemma StreamingBudget(h: Hold, inp: Input, csActive: int)
    requires SlotsOk(h.slots, h.frameNo) && Streaming(inp)
    ensures |Forcing(h, inp, csActive)| <= Max(|Holding(h.slots)|, Max(0, inp.perFrame))
  {
    TickBudget(h, inp, csActive);
    hide Frame, Forcing, Prepared, StartedNow, TickOf, Ran, With, Holding, Elements, SlotsOk;
    var t := TickOf(h, inp, csActive);
    ForcingIs(h, inp, csActive);
    StartedFacts(t, h, inp);
    RunningBefore(h, inp, csActive);
    SmallerSet(With(t, Prepared(t, h, inp).slots, Running), Holding(h.slots));
    UnionSize(With(t, Prepared(t, h, inp).slots, Running), Elements(StartedNow(t, h, inp)));
  }

  lemma TickBudget(h: Hold, inp: Input, csActive: int)
    requires Streaming(inp)
    ensures TickOf(h, inp, csActive).perFrame == inp.perFrame
  {}

  lemma UnionSize(xs: set<nat>, ys: set<nat>)
    ensures |xs + ys| <= |xs| + |ys|
  {}

  lemma {:induction false} SmallerSet(xs: set<nat>, ys: set<nat>)
    requires xs <= ys
    ensures |xs| <= |ys|
  {
    assert ys == xs + (ys - xs);
  }

  // ---- how long one hold can last ------------------------------------------------------------

  /** Every running hold is inside its caps, `before` being the clients as of the last frame. */
  ghost predicate Bounded(h: Hold, before: map<nat, Client>, limit: int) {
    && h.totals.longest <= limit
    && forall x :: x in h.slots && h.slots[x].target.Some? ==> HoldBounded(h, before, limit, x)
  }

  ghost predicate HoldBounded(h: Hold, before: map<nat, Client>, limit: int, x: nat)
    requires x in h.slots
  {
    && x in before && before[x].outgoing - h.slots[x].startSeq < limit
    && h.frameNo - h.slots[x].startFrame < limit * HOLD_STALL_FACTOR
  }

  /** Slot x holds, and still has the client it holds for. */
  predicate HoldGoesOn(h: Hold, live: map<nat, Live>, x: nat) {
    x in h.slots && h.slots[x].target.Some? && x in live && live[x].gen == h.slots[x].gen
  }

  /** A client under a hold is sent at most one message from one call of the scheduler to the next. */
  predicate GrowsByOne(h: Hold, before: map<nat, Client>, inp: Input) {
    Streaming(inp) ==>
      var live := Current(inp.status.value.slots);
      forall x :: HoldGoesOn(h, live, x) && x in before && x in inp.clients ==>
        inp.clients[x].outgoing <= before[x].outgoing + 1
  }

  lemma PeakBound(l: int, xs: set<nat>, m: map<nat, int>, limit: int)
    requires xs <= m.Keys && l <= limit && (forall x :: x in xs ==> m[x] <= limit)
    ensures Peak(l, xs, m) <= limit
  {
    var p := Peak(l, xs, m);
    assert IsPeak(p, l, xs, m);
  }

  lemma LostBound(t: Tick, h: Hold, inp: Input, before: map<nat, Client>, limit: int)
    requires Streaming(inp) && t.clients == inp.clients && t.live == Current(inp.status.value.slots)
    requires Bounded(h, before, limit) && GrowsByOne(h, before, inp)
    requires limit >= 1
    ensures var slots := Kept(t, h, inp).slots;
            forall x :: x in Lost(t, slots) ==> Sent(t.clients, slots[x], x) <= limit
  {
    KeptSlots(t, h, inp);
    var slots := Kept(t, h, inp).slots;
    hide Kept, Playing, Current;
    forall x | x in Lost(t, slots) ensures Sent(t.clients, slots[x], x) <= limit {
      assert HoldBounded(h, before, limit, x);
      assert HoldGoesOn(h, t.live, x);
    }
  }

  lemma ClosingBound(t: Tick, h: Hold, inp: Input, before: map<nat, Client>, limit: int)
    requires Streaming(inp) && t.clients == inp.clients && t.live == Current(inp.status.value.slots)
    requires Bounded(h, before, limit) && GrowsByOne(h, before, inp)
    requires limit >= 1 && SlotsOk(h.slots, t.frameNo)
    ensures var slots := Prepared(t, h, inp).slots;
            forall x :: x in Closing(t, slots) ==> Sent(t.clients, slots[x], x) <= limit
  {
    hide *;
    var slots := Prepared(t, h, inp).slots;
    PreparedKeys(t, h, inp);
    ClosingMembers(t, slots);
    forall x | x in Closing(t, slots) ensures Sent(t.clients, slots[x], x) <= limit {
      PreparedFacts(t, h, inp, x);
      StillBounded(t, h, inp, before, limit, x, slots[x]);
    }
  }

  lemma ClosingMembers(t: Tick, slots: map<nat, Slot>)
    ensures forall x :: x in Closing(t, slots) ==> x in slots && slots[x].target.Some?
  {}

  lemma StillBounded(t: Tick, h: Hold, inp: Input, before: map<nat, Client>, limit: int, x: nat, st: Slot)
    requires Streaming(inp) && t.clients == inp.clients && t.live == Current(inp.status.value.slots)
    requires Bounded(h, before, limit) && GrowsByOne(h, before, inp) && limit >= 1
    requires AskedFrom(t, Was(t, h, x), x, st) && st.target.Some?
    ensures Sent(t.clients, st, x) <= limit
  {
    hide Current;
    assert HoldBounded(h, before, limit, x);
    assert HoldGoesOn(h, t.live, x);
  }

  lemma AskedLongest(t: Tick, h: Hold, inp: Input)
    requires Streaming(inp)
    ensures Lost(t, Kept(t, h, inp).slots) * t.live.Keys <= SentMap(t.clients, Kept(t, h, inp).slots).Keys
    ensures Prepared(t, h, inp).totals.longest ==
            Peak(h.totals.longest, Lost(t, Kept(t, h, inp).slots) * t.live.Keys, SentMap(t.clients, Kept(t, h,
                inp).slots))
  {
    PreparedTotals(t, h, inp);
    AskedTotals(t, h, inp);
    KeptLongest(t, h, inp);
    hide Prepared, Asked, Kept, NotedSlots, Lost, SentMap, Sum, Credits, Peak, Count, AdmitSlots;
    LostKeys(t, Kept(t, h, inp).slots);
  }

  lemma LostKeys(t: Tick, slots: map<nat, Slot>)
    ensures Lost(t, slots) * t.live.Keys <= SentMap(t.clients, slots).Keys
  {}

  lemma KeptLongest(t: Tick, h: Hold, inp: Input)
    requires Streaming(inp)
    ensures Kept(t, h, inp).totals.longest == h.totals.longest
  {}

  lemma FrameLongest(h: Hold, inp: Input, csActive: int, before: map<nat, Client>, limit: int)
    requires Streaming(inp) && SlotsOk(h.slots, h.frameNo)
    requires Bounded(h, before, limit) && GrowsByOne(h, before, inp) && limit >= 1
    ensures Frame(h, inp, csActive).totals.longest <= limit
  {
    var t := TickOf(h, inp, csActive);
    LaterOk(h.slots, h.frameNo, t.frameNo);
    assert t.live == Current(inp.status.value.slots);
    hide Current;
    LostBound(t, h, inp, before, limit);
    ClosingBound(t, h, inp, before, limit);
    AskedLongest(t, h, inp);
    FrameIs(h, inp, csActive);
    RanIs(t, h, inp);
    var kept, p := Kept(t, h, inp), Prepared(t, h, inp);
    LostSent(t, kept.slots);
    ClosingSent(t, p.slots);
    hide Frame, Kept, Prepared, Ran, StartedNow, Lost, Closing, Peak, SentMap, Sum, Credits, Count, TickOf,
        Elements, With,
         RunSlots, StartSlots, Counts, ByCounter, Guesses, Bounded, GrowsByOne, SlotsOk;
    PeakBound(h.totals.longest, Lost(t, kept.slots) * t.live.Keys, SentMap(t.clients, kept.slots), limit) by {
      assert h.totals.longest <= limit by { BoundedLongest(h, before, limit); }
    }
    PeakBound(p.totals.longest, Closing(t, p.slots) * p.slots.Keys, SentMap(t.clients, p.slots), limit);
  }

  lemma BoundedLongest(h: Hold, before: map<nat, Client>, limit: int)
    requires Bounded(h, before, limit)
    ensures h.totals.longest <= limit
  {}

  lemma LostSent(t: Tick, slots: map<nat, Slot>)
    ensures forall x :: x in Lost(t, slots) * t.live.Keys ==>
              x in slots && x in SentMap(t.clients, slots)
                  && SentMap(t.clients, slots)[x] == Sent(t.clients, slots[x], x)
  {}

  lemma ClosingSent(t: Tick, slots: map<nat, Slot>)
    ensures Closing(t, slots) * slots.Keys <= SentMap(t.clients, slots).Keys
    ensures forall x :: x in Closing(t, slots) * slots.Keys ==>
              x in slots && SentMap(t.clients, slots)[x] == Sent(t.clients, slots[x], x)
  {}

  lemma FrameHoldBounded(h: Hold, inp: Input, csActive: int, limit: int, x: nat)
    requires Streaming(inp) && SlotsOk(h.slots, h.frameNo) && inp.maxFrames <= limit && limit >= 1
    requires x in Frame(h, inp, csActive).slots && Frame(h, inp, csActive).slots[x].target.Some?
    ensures HoldBounded(Frame(h, inp, csActive), inp.clients, limit, x)
  {
    hide Frame, Prepared, StartedNow, SlotsOk, TickOf, LeavesAs;
    var t := TickOf(h, inp, csActive);
    FrameSlot(h, inp, csActive, x);
    FrameFacts(h, inp, csActive, x);
    TickReads(h, inp, csActive);
    LeavesBounded(t, Prepared(t, h, inp).slots[x], x in StartedNow(t, h, inp), x, Frame(h, inp, csActive).slots[x],
        limit);
  }

  lemma TickReads(h: Hold, inp: Input, csActive: int)
    requires Streaming(inp)
    ensures TickOf(h, inp, csActive).clients == inp.clients && TickOf(h, inp, csActive).maxFrames == inp.maxFrames
  {}

  lemma LeavesBounded(t: Tick, p: Slot, started: bool, x: nat, st: Slot, limit: int)
    requires LeavesAs(t, p, started, x, st) && st.target.Some? && t.maxFrames <= limit && limit >= 1
    ensures x in t.clients && t.clients[x].outgoing - st.startSeq < limit
    ensures t.frameNo - st.startFrame < limit * HOLD_STALL_FACTOR
  {}

  /** One frame keeps every hold inside its caps. */
  lemma FrameBounded(h: Hold, inp: Input, csActive: int, before: map<nat, Client>, limit: int)
    requires SlotsOk(h.slots, h.frameNo) && Bounded(h, before, limit) && GrowsByOne(h, before, inp)
    requires limit >= 1 && inp.maxFrames <= limit
    ensures Bounded(Frame(h, inp, csActive), inp.clients, limit)
  {
    if Streaming(inp) {
      StreamingBounded(h, inp, csActive, before, limit);
    }
  }

  lemma StreamingBounded(h: Hold, inp: Input, csActive: int, before: map<nat, Client>, limit: int)
    requires SlotsOk(h.slots, h.frameNo) && Bounded(h, before, limit) && GrowsByOne(h, before, inp)
    requires limit >= 1 && inp.maxFrames <= limit && Streaming(inp)
    ensures Bounded(Frame(h, inp, csActive), inp.clients, limit)
  {
    hide *;
    FrameLongest(h, inp, csActive, before, limit);
    var h' := Frame(h, inp, csActive);
    forall x | x in h'.slots && h'.slots[x].target.Some? ensures HoldBounded(h', inp.clients, limit, x) {
      FrameHoldBounded(h, inp, csActive, limit, x);
    }
    AllBounded(h', inp.clients, limit);
  }

  lemma AllBounded(h: Hold, before: map<nat, Client>, limit: int)
    requires h.totals.longest <= limit
    requires forall x :: x in h.slots && h.slots[x].target.Some? ==> HoldBounded(h, before, limit, x)
    ensures Bounded(h, before, limit)
  {
    hide HoldBounded;
  }

  // ---- whole runs ---------------------------------------------------------------------------

  /** What calls the scheduler: the server frame, a disconnect, a map change or a switch-off. */
  datatype Event = FrameCall(inp: Input) | Disconnect(slot: nat) | MapChange

  ghost function Apply(h: Hold, e: Event, csActive: int): Hold {
    match e
    case FrameCall(inp) => Frame(h, inp, csActive)
    case Disconnect(x) => Drop(h, {x})
    case MapChange => Reset(h)
  }

  ghost function Run(es: seq<Event>, csActive: int): Hold {
    if es == [] then INITIAL else Apply(Run(es[..|es| - 1], csActive), es[|es| - 1], csActive)
  }

  /** The clients as the last frame read them. */
  function LastClients(es: seq<Event>): map<nat, Client> {
    if es == [] then map[]
    else match es[|es| - 1]
      case FrameCall(inp) => inp.clients
      case _ => LastClients(es[..|es| - 1])
  }

  lemma InitialLimits(maxFrames: int)
    requires maxFrames >= 1
    ensures Ledger(INITIAL) && |Holding(INITIAL.slots)| == 0 && Bounded(INITIAL, map[], maxFrames)
  {
    hide Ledger, HoldBounded;
    LedgerInitial();
    NoneHold();
  }

  lemma NoneHold()
    ensures |Holding(INITIAL.slots)| == 0
  {
    assert Holding(INITIAL.slots) == {};
  }

  lemma DropLimits(h: Hold, clients: map<nat, Client>, xs: set<nat>, maxFrames: int)
    requires Ledger(h)
    ensures Ledger(Drop(h, xs)) && |Holding(Drop(h, xs).slots)| <= |Holding(h.slots)|
    ensures Bounded(h, clients, maxFrames) ==> Bounded(Drop(h, xs), clients, maxFrames)
  {
    DropBalanced(h, xs);
    hide Balanced;
    SmallerSet(Holding(Drop(h, xs).slots), Holding(h.slots));
    if Bounded(h, clients, maxFrames) {
      forall x | x in Drop(h, xs).slots && Drop(h, xs).slots[x].target.Some?
        ensures HoldBounded(Drop(h, xs), clients, maxFrames, x)
      {
        assert HoldBounded(h, clients, maxFrames, x);
      }
    }
  }

  lemma EventLedger(h: Hold, e: Event, csActive: int, perFrame: int)
    requires Ledger(h)
    ensures Ledger(Apply(h, e, csActive))
    ensures |Holding(h.slots)| <= perFrame && (e.FrameCall? ==> e.inp.perFrame <= perFrame) ==>
              |Holding(Apply(h, e, csActive).slots)| <= perFrame
  {
    match e
    case FrameCall(inp) =>
      hide Frame, Balanced, SlotsOk, Forcing;
      LedgerFrame(h, inp, csActive);
      BudgetFrame(h, inp, csActive);
    case Disconnect(x) => DropLimits(h, map[], {x}, 1);
    case MapChange => DropLimits(h, map[], h.slots.Keys, 1);
  }

  /** On every run, whatever the limits and the clients do: the books balance, and no slot waits and holds at once. */
  lemma {:induction false} RunBalances(es: seq<Event>, csActive: int)
    ensures Ledger(Run(es, csActive))
  {
    hide Ledger, Apply, Holding;
    if es == [] {
      InitialLimits(1);
    } else {
      RunBalances(es[..|es| - 1], csActive);
      EventLedger(Run(es[..|es| - 1], csActive), es[|es| - 1], csActive, 0);
    }
  }

  predicate BudgetAtMost(es: seq<Event>, perFrame: int) {
    forall i :: 0 <= i < |es| && es[i].FrameCall? ==> es[i].inp.perFrame <= perFrame
  }

  /** With a budget of at most perFrame in every frame, at most perFrame holds run. */
  lemma {:induction false} RunBudget(es: seq<Event>, csActive: int, perFrame: int)
    requires perFrame >= 0 && BudgetAtMost(es, perFrame)
    ensures |Holding(Run(es, csActive).slots)| <= perFrame
  {
    hide Ledger, Apply, Holding;
    if es == [] {
      NoneHold();
    } else {
      var before, e := es[..|es| - 1], es[|es| - 1];
      RunBudget(before, csActive, perFrame);
      RunBalances(before, csActive);
      EventLedger(Run(before, csActive), e, csActive, perFrame);
    }
  }

  /** The cap on one hold never exceeds maxFrames, and the clients under a hold grow message by message. */
  ghost predicate CapAtMost(es: seq<Event>, csActive: int, maxFrames: int) {
    forall i :: 0 <= i < |es| && es[i].FrameCall? ==>
      es[i].inp.maxFrames <= maxFrames && GrowsByOne(Run(es[..i], csActive), LastClients(es[..i]), es[i].inp)
  }

  lemma CapPrefix(es: seq<Event>, csActive: int, maxFrames: int)
    requires CapAtMost(es, csActive, maxFrames) && es != []
    ensures var before, e := es[..|es| - 1], es[|es| - 1];
            && CapAtMost(before, csActive, maxFrames)
            && (e.FrameCall? ==> e.inp.maxFrames <= maxFrames && GrowsByOne(Run(before, csActive), LastClients(before), e.inp))
  {
    hide GrowsByOne, LastClients, Run;
    var before := es[..|es| - 1];
    forall i | 0 <= i < |before| ensures before[i] == es[i] && before[..i] == es[..i] {}
  }

  lemma EventBounded(h: Hold, clients: map<nat, Client>, e: Event, csActive: int, maxFrames: int)
    requires Ledger(h) && Bounded(h, clients, maxFrames) && maxFrames >= 1
    requires e.FrameCall? ==> e.inp.maxFrames <= maxFrames && GrowsByOne(h, clients, e.inp)
    ensures Bounded(Apply(h, e, csActive), if e.FrameCall? then e.inp.clients else clients, maxFrames)
  {
    match e
    case FrameCall(inp) =>
      hide Frame, Balanced, Bounded, SlotsOk;
      FrameBounded(h, inp, csActive, clients, maxFrames);
    case Disconnect(x) => DropLimits(h, clients, {x}, maxFrames);
    case MapChange => DropLimits(h, clients, h.slots.Keys, maxFrames);
  }

  lemma {:induction false} RunBounded(es: seq<Event>, csActive: int, maxFrames: int)
    requires maxFrames >= 1 && CapAtMost(es, csActive, maxFrames)
    ensures Bounded(Run(es, csActive), LastClients(es), maxFrames)
  {
    hide Ledger, Bounded, Apply, GrowsByOne, CapAtMost;
    if es == [] {
      InitialLimits(maxFrames);
    } else {
      var before, e := es[..|es| - 1], es[|es| - 1];
      CapPrefix(es, csActive, maxFrames);
      RunBounded(before, csActive, maxFrames);
      RunBalances(before, csActive);
      EventBounded(Run(before, csActive), LastClients(before), e, csActive, maxFrames);
    }
  }

  /**
   On every run with limits at most perFrame and maxFrames: the books balance, at most perFrame
   holds run, no hold ever forced more than maxFrames snapshots, no slot waits and holds at once,
   and every running hold is younger than four times maxFrames frames.
   */
  lemma RunLimits(es: seq<Event>, csActive: int, perFrame: int, maxFrames: int)
    requires perFrame >= 1 && maxFrames >= 1 && BudgetAtMost(es, perFrame) && CapAtMost(es, csActive, maxFrames)
    ensures var h := Run(es, csActive);
            && Ledger(h)
            && |Holding(h.slots)| <= perFrame
            && Bounded(h, LastClients(es), maxFrames)
  {
    hide *;
    RunBalances(es, csActive);
    RunBudget(es, csActive, perFrame);
    RunBounded(es, csActive, maxFrames);
  }
}
