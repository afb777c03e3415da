/** Visiting one more slot extends the visited set of a phase: the step case of every loop of the frame. */
module HoldSteps {
  import opened Common
  import opened HoldModel

  lemma SettleNone(c: Totals, sent: map<nat, int>)
    ensures Settle(c, {}, sent) == c
  {
    assert Credits(c.perSlot, {}, sent) == c.perSlot;
  }

  /** The totals after the hold of x ended with n forced snapshots. */
  function EndTotals(c: Totals, x: nat, n: int): Totals {
    c.(forced := c.forced + n,
       perSlot := c.perSlot[x := TallyOf(c.perSlot, x).(forced := TallyOf(c.perSlot, x).forced + n)],
       longest := Max(c.longest, n))
  }

  lemma SettleOne(c: Totals, x: nat, sent: map<nat, int>)
    requires x in sent
    ensures Settle(c, {x}, sent) == EndTotals(c, x, sent[x])
  {
    SumAdd({}, x, sent);
    assert {} + {x} == {x};
    assert Credits(c.perSlot, {x}, sent) ==
           c.perSlot[x := TallyOf(c.perSlot, x).(forced := TallyOf(c.perSlot, x).forced + sent[x])];
    assert IsPeak(Max(c.longest, sent[x]), c.longest, {x}, sent);
  }

  lemma CreditsStep(p: map<nat, Tally>, xs: set<nat>, x: nat, sent: map<nat, int>, sent': map<nat, int>)
    requires xs <= sent.Keys && x in sent && x in sent' && x !in xs && sent'[x] == sent[x]
    ensures Credits(Credits(p, xs, sent), {x}, sent') == Credits(p, xs + {x}, sent)
  {}

  lemma PeakStep(l: int, xs: set<nat>, x: nat, sent: map<nat, int>, sent': map<nat, int>)
    requires xs <= sent.Keys && x in sent && x in sent' && sent'[x] == sent[x]
    ensures Peak(Peak(l, xs, sent), {x}, sent') == Peak(l, xs + {x}, sent)
  {
    assert x in xs + {x};
    var p := Peak(Peak(l, xs, sent), {x}, sent');
    if p == sent[x] {
      assert x in xs + {x} && sent[x] == p;
    }
    assert IsPeak(p, l, xs + {x}, sent);
  }

  /** Settling a set and then one more slot is settling the larger set. */
  lemma SettleStep(c: Totals, xs: set<nat>, x: nat, sent: map<nat, int>, sent': map<nat, int>)
    requires xs <= sent.Keys && x in sent && x in sent' && x !in xs && sent'[x] == sent[x]
    ensures Settle(Settle(c, xs, sent), {x}, sent') == Settle(c, xs + {x}, sent)
  {
    CreditsStep(c.perSlot, xs, x, sent, sent');
    PeakStep(c.longest, xs, x, sent, sent');
    SumAdd(xs, x, sent);
    SumAdd({}, x, sent');
    assert {} + {x} == {x};
  }

  /** Counting in done and then in {x}; mid agrees with all on x. */
  lemma CardStep(all: set<nat>, mid: set<nat>, done: set<nat>, x: nat)
    requires x !in done && (x in all <==> x in mid)
    ensures Count(all, done + {x}) == Count(all, done) + Count(mid, {x})
    ensures x in all ==> mid * {x} == {x} && all * (done + {x}) == all * done + {x}
    ensures x !in all ==> mid * {x} == {} && all * (done + {x}) == all * done
  {
    assert all * (done + {x}) == all * done + mid * {x};
  }

  lemma AdmitSlotsStep(t: Tick, slots: map<nat, Slot>, done: set<nat>, x: nat)
    requires done <= t.live.Keys && x in t.live && x !in done
    ensures AdmitSlots(t, AdmitSlots(t, slots, done), {x}) == AdmitSlots(t, slots, done + {x})
  {
    assert Seen(t, AdmitSlots(t, slots, done), x) == Seen(t, slots, x);
  }

  /** Settling the slots of all in done and then x, for two states that agree on x. */
  lemma SettleMore(c: Totals, d: Totals, all: set<nat>, mid: set<nat>, done: set<nat>, x: nat,
                   sent: map<nat, int>, sent': map<nat, int>)
    requires x !in done && (x in all <==> x in mid)
    requires all <= sent.Keys && mid <= sent'.Keys && (x in all ==> sent[x] == sent'[x])
    requires d.forced == Settle(c, all * done, sent).forced && d.perSlot == Settle(c, all * done, sent).perSlot
    requires d.longest == Settle(c, all * done, sent).longest
    ensures Settle(d, mid * {x}, sent').forced == Settle(c, all * (done + {x}), sent).forced
    ensures Settle(d, mid * {x}, sent').perSlot == Settle(c, all * (done + {x}), sent).perSlot
    ensures Settle(d, mid * {x}, sent').longest == Settle(c, all * (done + {x}), sent).longest
  {
    CardStep(all, mid, done, x);
    if x in all {
      SettleStep(c, all * done, x, sent, sent');
    } else {
      SettleNone(d, sent');
    }
  }

  lemma LostStep(t: Tick, slots: map<nat, Slot>, mid: map<nat, Slot>, done: set<nat>, x: nat)
    requires x !in done && (x in mid <==> x in slots) && (x in slots ==> mid[x] == slots[x])
    ensures Count(Lost(t, slots), done + {x}) == Count(Lost(t, slots), done) + Count(Lost(t, mid), {x})
  {
    CardStep(Lost(t, slots), Lost(t, mid), done, x);
  }

  /** Slot x is lost in both states or in neither, and its hold has sent the same. */
  lemma LostSame(t: Tick, slots: map<nat, Slot>, mid: map<nat, Slot>, x: nat)
    requires (x in mid <==> x in slots) && (x in slots ==> mid[x] == slots[x])
    ensures x in Lost(t, slots) <==> x in Lost(t, mid)
    ensures Lost(t, slots) <= SentMap(t.clients, slots).Keys && Lost(t, mid) <= SentMap(t.clients, mid).Keys
    ensures x in Lost(t, slots) ==> SentMap(t.clients, slots)[x] == SentMap(t.clients, mid)[x]
  {
    hide Playing, Sent;
  }

  lemma AdmitTotalsStep(t: Tick, slots: map<nat, Slot>, mid: map<nat, Slot>, c: Totals, done: set<nat>, x: nat)
    requires x !in done && (x in mid <==> x in slots) && (x in slots ==> mid[x] == slots[x])
    ensures AdmitTotals(t, mid, AdmitTotals(t, slots, c, done), {x}) == AdmitTotals(t, slots, c, done + {x})
  {
    LostStep(t, slots, mid, done, x);
    LostSame(t, slots, mid, x);
    hide Count, Lost, SentMap, Sum, Credits, Peak, CanBeSent;
    SettleMore(c, AdmitTotals(t, slots, c, done), Lost(t, slots), Lost(t, mid), done, x,
               SentMap(t.clients, slots), SentMap(t.clients, mid));
  }

  lemma ClearedSlotsStep(t: Tick, slots: map<nat, Slot>, done: set<nat>, x: nat)
    requires x in slots && x !in done
    ensures ClearedSlots(t, ClearedSlots(t, slots, done), {x}) == ClearedSlots(t, slots, done + {x})
  {}

  lemma ClearedTotalsStep(t: Tick, slots: map<nat, Slot>, mid: map<nat, Slot>, c: Totals, done: set<nat>, x: nat)
    requires x in slots && x in mid && mid[x] == slots[x] && x !in done
    ensures ClearedTotals(t, mid, ClearedTotals(t, slots, c, done), {x}) == ClearedTotals(t, slots, c, done + {x})
  {
    CardStep(Holding(slots) * Players(t), Holding(mid) * Players(t), done, x);
  }

  lemma CounterStep(t: Tick, slots: map<nat, Slot>, done: set<nat>, x: nat)
    requires x in slots && x !in done
    ensures CounterSlots(t, CounterSlots(t, slots, done), {x}) == CounterSlots(t, slots, done + {x})
  {}

  lemma FlagStep(t: Tick, slots: map<nat, Slot>, done: set<nat>, x: nat)
    requires done <= t.live.Keys && x in t.live && x !in done
    ensures FlagSlots(t, FlagSlots(t, slots, done), {x}) == FlagSlots(t, slots, done + {x})
  {}

  lemma WaitSlotsStep(t: Tick, slots: map<nat, Slot>, done: set<nat>, x: nat)
    requires x in slots && x !in done
    ensures WaitSlots(t, WaitSlots(t, slots, done), {x}) == WaitSlots(t, slots, done + {x})
  {}

  lemma WaitTotalsStep(t: Tick, slots: map<nat, Slot>, mid: map<nat, Slot>, c: Totals, done: set<nat>, x: nat)
    requires x in slots && x in mid && mid[x] == slots[x] && x !in done
    ensures WaitTotals(t, mid, WaitTotals(t, slots, c, done), {x}) == WaitTotals(t, slots, c, done + {x})
  {
    CardStep(Outdated(t, slots), Outdated(t, mid), done, x);
  }

  lemma RunSlotsStep(t: Tick, slots: map<nat, Slot>, done: set<nat>, x: nat)
    requires x in slots && x !in done
    ensures RunSlots(t, RunSlots(t, slots, done), {x}) == RunSlots(t, slots, done + {x})
  {}

  lemma WithStep(t: Tick, slots: map<nat, Slot>, mid: map<nat, Slot>, o: Outcome, done: set<nat>, x: nat)
    requires x in slots && x in mid && mid[x] == slots[x] && x !in done
    ensures Count(With(t, slots, o), done + {x}) == Count(With(t, slots, o), done) + Count(With(t, mid, o), {x})
  {
    CardStep(With(t, slots, o), With(t, mid, o), done, x);
  }

  lemma RunCountsStep(t: Tick, slots: map<nat, Slot>, mid: map<nat, Slot>, c: Totals, done: set<nat>, x: nat)
    requires x in slots && x in mid && mid[x] == slots[x] && x !in done
    ensures var twice, once := RunTotals(t, mid, RunTotals(t, slots, c, done), {x}), RunTotals(t, slots, c, done + {x});
            twice.cancelled == once.cancelled && twice.acked == once.acked && twice.capped == once.capped
  {
    WithStep(t, slots, mid, Cancelled, done, x);
    WithStep(t, slots, mid, Acked, done, x);
    WithStep(t, slots, mid, Capped, done, x);
    hide With, Closing, Count, SentMap;
  }

  lemma RunSettleStep(t: Tick, slots: map<nat, Slot>, mid: map<nat, Slot>, c: Totals, done: set<nat>, x: nat)
    requires x in slots && x in mid && mid[x] == slots[x] && x !in done
    ensures var twice, once := RunTotals(t, mid, RunTotals(t, slots, c, done), {x}), RunTotals(t, slots, c, done + {x});
            twice.forced == once.forced && twice.perSlot == once.perSlot && twice.longest == once.longest
  {
    hide Count, With;
    SettleMore(c, RunTotals(t, slots, c, done), Closing(t, slots), Closing(t, mid), done, x,
               SentMap(t.clients, slots), SentMap(t.clients, mid));
  }

  lemma RunTotalsStep(t: Tick, slots: map<nat, Slot>, mid: map<nat, Slot>, c: Totals, done: set<nat>, x: nat)
    requires x in slots && x in mid && mid[x] == slots[x] && x !in done
    ensures RunTotals(t, mid, RunTotals(t, slots, c, done), {x}) == RunTotals(t, slots, c, done + {x})
  {
    RunCountsStep(t, slots, mid, c, done, x);
    RunSettleStep(t, slots, mid, c, done, x);
    hide Count, With, Closing, SentMap, Sum, Peak, Credits;
  }

  /** Slots whose client does not play have no hold to run. */
  lemma RunPlayersSlots(t: Tick, slots: map<nat, Slot>)
    ensures RunSlots(t, slots, Players(t)) == RunSlots(t, slots, slots.Keys)
  {}

  lemma RunPlayersSets(t: Tick, slots: map<nat, Slot>)
    ensures Closing(t, slots) * Players(t) == Closing(t, slots) * slots.Keys
    ensures forall o: Outcome :: o != Idle ==> With(t, slots, o) * Players(t) == With(t, slots, o) * slots.Keys
  {}

  lemma RunPlayersTotals(t: Tick, slots: map<nat, Slot>, c: Totals)
    ensures RunTotals(t, slots, c, Players(t)) == RunTotals(t, slots, c, slots.Keys)
  {
    RunPlayersSets(t, slots);
  }

  lemma StartSlotsStep(t: Tick, slots: map<nat, Slot>, done: set<nat>, x: nat)
    requires done <= t.clients.Keys && x in slots && x in t.clients && x !in done
    ensures StartSlots(t, StartSlots(t, slots, done), {x}) == StartSlots(t, slots, done + {x})
  {}

  lemma CountsStep(p: map<nat, Tally>, done: set<nat>, x: nat)
    requires x !in done
    ensures Counts(Counts(p, done), {x}) == Counts(p, done + {x})
  {}

  lemma StartTotalsCount(slots: map<nat, Slot>, mid: map<nat, Slot>, done: set<nat>, x: nat)
    requires x in slots && x in mid && mid[x].why == slots[x].why && x !in done
    ensures Count(Guesses(slots), done + {x}) == Count(Guesses(slots), done) + Count(Guesses(mid), {x})
    ensures Count(ByCounter(slots), done + {x}) == Count(ByCounter(slots), done) + Count(ByCounter(mid), {x})
    ensures Count(done + {x}, done + {x}) == Count(done, done) + Count({x}, {x})
  {
    CardStep(ByCounter(slots), ByCounter(mid), done, x);
    CardStep(Guesses(slots), Guesses(mid), done, x);
    CountSelf(done, x);
    hide Count, ByCounter, Guesses;
  }

  lemma CountSelf(done: set<nat>, x: nat)
    requires x !in done
    ensures Count(done + {x}, done + {x}) == Count(done, done) + Count({x}, {x})
  {
    assert (done + {x}) * (done + {x}) == done + {x} && done * done == done && {x} * {x} == {x};
  }

  lemma StartTotalsStep(slots: map<nat, Slot>, mid: map<nat, Slot>, c: Totals, done: set<nat>, x: nat)
    requires x in slots && x in mid && mid[x].why == slots[x].why && x !in done
    ensures StartTotals(mid, StartTotals(slots, c, done), {x}) == StartTotals(slots, c, done + {x})
  {
    CountsStep(c.perSlot, done, x);
    StartTotalsCount(slots, mid, done, x);
    hide Count, ByCounter, Guesses, Counts;
  }

  // ---- the loops: no slot visited yet, and one slot more -----------------------------

  lemma CountNone(xs: set<nat>)
    ensures Count(xs, {}) == 0
  {
    assert xs * {} == {};
  }

  lemma CountOne(xs: set<nat>, x: nat)
    ensures Count(xs, {x}) == if x in xs then 1 else 0
  {
    assert xs * {x} == if x in xs then {x} else {};
  }

  lemma CountAll(xs: set<nat>, done: set<nat>)
    requires xs <= done
    ensures Count(xs, done) == |xs|
  {
    assert xs * done == xs;
  }

  lemma DropNone(h: Hold)
    ensures Drop(h, {}) == h
  {
    CountNone(Holding(h.slots));
    hide Count;
    assert h.slots - {} == h.slots;
  }

  lemma DropStep(h: Hold, done: set<nat>, x: nat)
    requires x !in done
    ensures Drop(Drop(h, done), {x}) == Drop(h, done + {x})
  {
    hide Holding, Count;
    DropCount(h.slots, done, x);
    DropTwice(h.slots, done, x);
  }

  lemma DropTwice(slots: map<nat, Slot>, done: set<nat>, x: nat)
    ensures slots - done - {x} == slots - (done + {x})
  {}

  lemma DropCount(slots: map<nat, Slot>, done: set<nat>, x: nat)
    requires x !in done
    ensures Count(Holding(slots), done + {x}) == Count(Holding(slots), done) + Count(Holding(slots - done), {x})
  {
    CardStep(Holding(slots), Holding(slots - done), done, x);
  }

  lemma DropKeeps(h: Hold, xs: set<nat>)
    ensures Drop(h, xs).frameNo == h.frameNo && Drop(h, xs).isFresh == h.isFresh && Drop(h, xs).link == h.link
  {}

  lemma ClearedKeys(t: Tick, slots: map<nat, Slot>)
    ensures Cleared(t, slots) <= slots.Keys
  {}

  /** The totals after one slot was admitted. */
  function LostTotals(t: Tick, slots: map<nat, Slot>, c: Totals, x: nat): Totals {
    if IsLost(t, slots, x) then EndTotals(c.(cancelled := c.cancelled + 1), x, Sent(t.clients, slots[x], x)) else c
  }

  lemma AdmitNone(t: Tick, slots: map<nat, Slot>, c: Totals)
    ensures AdmitSlots(t, slots, {}) == slots && AdmitTotals(t, slots, c, {}) == c
  {
    CountNone(Lost(t, slots));
    hide Lost, Settle, SentMap, Count;
    assert Lost(t, slots) * {} == {};
    SettleNone(c, SentMap(t.clients, slots));
  }

  lemma AdmitOneTotals(t: Tick, slots: map<nat, Slot>, c: Totals, x: nat)
    ensures AdmitTotals(t, slots, c, {x}) == LostTotals(t, slots, c, x)
  {
    var sent := SentMap(t.clients, slots);
    LostOne(t, slots, x);
    CountOne(Lost(t, slots), x);
    hide Lost, IsLost, Settle, Count;
    if IsLost(t, slots, x) {
      SettleOne(c, x, sent);
    } else {
      SettleNone(c, sent);
    }
  }

  lemma LostOne(t: Tick, slots: map<nat, Slot>, x: nat)
    ensures Lost(t, slots) <= slots.Keys
    ensures Lost(t, slots) * {x} == if IsLost(t, slots, x) then {x} else {}
    ensures x in Lost(t, slots) <==> IsLost(t, slots, x)
    ensures IsLost(t, slots, x) ==> x in slots
  {}

  lemma AdmitMore(t: Tick, s0: map<nat, Slot>, slots: map<nat, Slot>, c0: Totals, done: set<nat>, x: nat)
    requires done <= t.live.Keys && x in t.live && x !in done && slots == AdmitSlots(t, s0, done)
    ensures AdmitSlots(t, s0, done + {x}) == slots[x := Admitted(t, Seen(t, slots, x), x)]
    ensures AdmitTotals(t, s0, c0, done + {x}) == LostTotals(t, slots, AdmitTotals(t, s0, c0, done), x)
  {
    AdmitSlotsStep(t, s0, done, x);
    assert AdmitSlots(t, slots, {x}) == slots[x := Admitted(t, Seen(t, slots, x), x)];
    hide AdmitTotals, LostTotals;
    AdmitTotalsStep(t, s0, slots, c0, done, x);
    AdmitOneTotals(t, slots, AdmitTotals(t, s0, c0, done), x);
  }

  lemma ClearedNone(t: Tick, slots: map<nat, Slot>, c: Totals)
    ensures ClearedSlots(t, slots, {}) == slots && ClearedTotals(t, slots, c, {}) == c
  {
    CountNone(Holding(slots) * Players(t));
    hide Count;
  }

  lemma ClearedMore(t: Tick, s0: map<nat, Slot>, slots: map<nat, Slot>, c0: Totals, done: set<nat>, x: nat)
    requires x in s0 && x !in done && slots == ClearedSlots(t, s0, done)
    ensures ClearedSlots(t, s0, done + {x}) == slots[x := AfterFlag(t, slots[x], x)]
    ensures var c := ClearedTotals(t, s0, c0, done);
            ClearedTotals(t, s0, c0, done + {x}) ==
            c.(retargeted := c.retargeted + if Playing(t, x) && slots[x].target.Some? then 1 else 0)
  {
    ClearedSlotsStep(t, s0, done, x);
    assert ClearedSlots(t, slots, {x}) == slots[x := AfterFlag(t, slots[x], x)];
    ClearedTotalsStep(t, s0, slots, c0, done, x);
    HoldingOne(t, slots, x);
    hide Holding, Players, ClearedSlots, Count;
  }

  lemma HoldingOne(t: Tick, slots: map<nat, Slot>, x: nat)
    requires x in slots
    ensures Count(Holding(slots) * Players(t), {x}) == if Playing(t, x) && slots[x].target.Some? then 1 else 0
  {
    CountOne(Holding(slots) * Players(t), x);
    hide Count;
  }

  lemma CounterNone(t: Tick, slots: map<nat, Slot>)
    ensures CounterSlots(t, slots, {}) == slots
  {}

  /** What one picked slot asks for, with the look at its age written out. */
  function CounterAsk(t: Tick, st: Slot): Slot {
    var looksDue := match st.lastFull case None => true case Some(at) => t.now - at >= DueAge(t.keyframeMs);
    Ask(st, if looksDue then Counter else Guessed, t.frameNo).(lastFull := Some(t.now))
  }

  lemma CounterMore(t: Tick, s0: map<nat, Slot>, slots: map<nat, Slot>, done: set<nat>, x: nat)
    requires x in s0 && x !in done && slots == CounterSlots(t, s0, done)
    ensures CounterSlots(t, s0, done + {x}) == slots[x := CounterAsk(t, slots[x])]
  {
    CounterStep(t, s0, done, x);
    assert CounterSlots(t, slots, {x}) == slots[x := CounterAsk(t, slots[x])];
  }

  lemma PickedDistinct(t: Tick, slots: map<nat, Slot>, cleared: set<nat>, unexplained: int)
    ensures var q := Picked(t, slots, cleared, unexplained);
            forall i, j :: 0 <= i < j < |q| ==> q[i] != q[j]
  {}

  lemma FlagNone(t: Tick, slots: map<nat, Slot>)
    ensures FlagSlots(t, slots, {}) == slots
  {}

  lemma FlagMore(t: Tick, s0: map<nat, Slot>, slots: map<nat, Slot>, done: set<nat>, x: nat)
    requires done <= t.live.Keys && x in t.live && x !in done && x in s0 && slots == FlagSlots(t, s0, done)
    ensures FlagSlots(t, s0, done + {x}) == slots[x := slots[x].(resyncing := t.live[x].resyncing)]
  {
    FlagStep(t, s0, done, x);
    assert FlagSlots(t, slots, {x}) == slots[x := slots[x].(resyncing := t.live[x].resyncing)];
  }

  lemma WaitNone(t: Tick, slots: map<nat, Slot>, c: Totals)
    ensures WaitSlots(t, slots, {}) == slots && WaitTotals(t, slots, c, {}) == c
  {
    CountNone(Outdated(t, slots));
    hide Count;
  }

  lemma WaitMore(t: Tick, s0: map<nat, Slot>, slots: map<nat, Slot>, c0: Totals, done: set<nat>, x: nat)
    requires x in s0 && x !in done && slots == WaitSlots(t, s0, done)
    ensures WaitSlots(t, s0, done + {x}) == slots[x := WaitAt(t, slots, {x}, x)]
    ensures var c := WaitTotals(t, s0, c0, done);
            WaitTotals(t, s0, c0, done + {x}) ==
            c.(droppedWaits := c.droppedWaits + if IsOutdated(t, slots, x) then 1 else 0)
  {
    WaitSlotsStep(t, s0, done, x);
    assert WaitSlots(t, slots, {x}) == slots[x := WaitAt(t, slots, {x}, x)];
    WaitTotalsStep(t, s0, slots, c0, done, x);
    CountOne(Outdated(t, slots), x);
    hide Count, WaitSlots;
  }

  /** The totals after one running hold was looked at. */
  function OutcomeTotals(t: Tick, c: Totals, st: Slot, x: nat): Totals {
    var o := OutcomeOf(t, st, x);
    if !Closes(o) then c
    else EndTotals(c.(cancelled := c.cancelled + (if o == Cancelled then 1 else 0),
                      acked := c.acked + (if o == Acked then 1 else 0),
                      capped := c.capped + (if o == Capped then 1 else 0)), x, Sent(t.clients, st, x))
  }

  lemma RunNone(t: Tick, slots: map<nat, Slot>, c: Totals)
    ensures RunSlots(t, slots, {}) == slots && RunTotals(t, slots, c, {}) == c
  {
    CountNone(With(t, slots, Cancelled));
    CountNone(With(t, slots, Acked));
    CountNone(With(t, slots, Capped));
    hide Closing, With, Settle, SentMap, Count;
    assert Closing(t, slots) * {} == {};
    SettleNone(c, SentMap(t.clients, slots));
  }

  lemma RunStarts(t: Tick, slots: map<nat, Slot>, c: Totals)
    ensures RunSlots(t, slots, {}) == slots && RunTotals(t, slots, c, {}) == c
    ensures RunSlots(t, slots, Players(t)) == RunSlots(t, slots, slots.Keys)
    ensures RunTotals(t, slots, c, Players(t)) == RunTotals(t, slots, c, slots.Keys)
    ensures With(t, slots, Running) <= Players(t) <= t.live.Keys
  {
    RunPlayersSlots(t, slots);
    hide RunSlots, RunTotals;
    RunNone(t, slots, c);
    RunPlayersTotals(t, slots, c);
  }

  lemma RunEnter(t: Tick, slots: map<nat, Slot>, c: Totals, run: set<nat>)
    ensures RunSlots(t, slots, {}) == slots && RunTotals(t, slots, c, {}) == c
    ensures Count(run, {}) == 0 && run * {} == {} && ForceAll(t.clients, {}) == t.clients
  {
    CountNone(run);
    ForceNone(t.clients);
    hide Count, RunSlots, RunTotals, ForceAll;
    RunNone(t, slots, c);
  }

  lemma ForceNone(clients: map<nat, Client>)
    ensures ForceAll(clients, {}) == clients
  {}

  lemma WithOne(t: Tick, slots: map<nat, Slot>, o: Outcome, x: nat)
    requires x in slots
    ensures Count(With(t, slots, o), {x}) == if OutcomeOf(t, slots[x], x) == o then 1 else 0
  {
    CountOne(With(t, slots, o), x);
  }

  lemma SettleOutcome(t: Tick, slots: map<nat, Slot>, c: Totals, x: nat)
    requires x in slots
    ensures Closing(t, slots) <= slots.Keys
    ensures Settle(c, Closing(t, slots) * {x}, SentMap(t.clients, slots)) ==
            if Closes(OutcomeOf(t, slots[x], x)) then EndTotals(c, x, Sent(t.clients, slots[x], x)) else c
  {
    var sent := SentMap(t.clients, slots);
    assert sent[x] == Sent(t.clients, slots[x], x);
    ClosingOne(t, slots, x);
    hide Closing, OutcomeOf, Settle, EndTotals, SentMap;
    SettleOne(c, x, sent);
    SettleNone(c, sent);
  }

  lemma RunOneTotals(t: Tick, slots: map<nat, Slot>, c: Totals, x: nat)
    requires x in slots
    ensures RunTotals(t, slots, c, {x}) == OutcomeTotals(t, c, slots[x], x)
  {
    hide With, OutcomeOf, Closing, Settle, Count, SentMap, Sent;
    SettleOutcome(t, slots, c, x);
    WithOne(t, slots, Cancelled, x);
    WithOne(t, slots, Acked, x);
    WithOne(t, slots, Capped, x);
  }

  lemma ClosingOne(t: Tick, slots: map<nat, Slot>, x: nat)
    requires x in slots
    ensures Closing(t, slots) <= slots.Keys
    ensures Closing(t, slots) * {x} == if Closes(OutcomeOf(t, slots[x], x)) then {x} else {}
  {}

  lemma RunMore(t: Tick, s0: map<nat, Slot>, slots: map<nat, Slot>, c0: Totals, done: set<nat>, x: nat)
    requires x in s0 && x !in done && slots == RunSlots(t, s0, done)
    ensures RunSlots(t, s0, done + {x}) == slots[x := AfterRun(t, slots[x], x)]
    ensures RunTotals(t, s0, c0, done + {x}) == OutcomeTotals(t, RunTotals(t, s0, c0, done), slots[x], x)
    ensures x in With(t, s0, Running) <==> OutcomeOf(t, slots[x], x) == Running
  {
    RunSlotsStep(t, s0, done, x);
    assert RunSlots(t, slots, {x}) == slots[x := AfterRun(t, slots[x], x)];
    hide RunTotals, OutcomeTotals;
    RunTotalsStep(t, s0, slots, c0, done, x);
    RunOneTotals(t, slots, RunTotals(t, s0, c0, done), x);
  }

  /** The totals after one hold began. */
  function BegunTotals(c: Totals, why: Why, x: nat): Totals {
    c.(perSlot := c.perSlot[x := TallyOf(c.perSlot, x).(holds := TallyOf(c.perSlot, x).holds + 1)],
       started := c.started + 1,
       byCounter := c.byCounter + (if why == Counter || why == Guessed then 1 else 0),
       guessed := c.guessed + (if why == Guessed then 1 else 0))
  }

  lemma StartNoneTotals(slots: map<nat, Slot>, c: Totals)
    ensures StartTotals(slots, c, {}) == c
  {
    assert Counts(c.perSlot, {}) == c.perSlot;
    CountNone(ByCounter(slots));
    CountNone(Guesses(slots));
    CountNone({});
    hide ByCounter, Guesses, Counts, Count;
  }

  lemma StartNone(t: Tick, slots: map<nat, Slot>)
    ensures StartSlots(t, slots, {}) == slots
  {}

  lemma QueueFacts(t: Tick, slots: map<nat, Slot>)
    ensures var q := Queue(t, slots);
            && (forall i, j :: 0 <= i < j < |q| ==> q[i] != q[j])
            && (forall i :: 0 <= i < |q| ==> q[i] in slots && q[i] in t.clients)
  {
    var q := Queue(t, slots);
    forall i | 0 <= i < |q| ensures q[i] in slots && q[i] in t.clients {
      assert q[i] in q;
    }
  }

  lemma StartEnter(t: Tick, slots: map<nat, Slot>, c: Totals, held: set<nat>, running: int)
    ensures StartSlots(t, slots, {}) == slots && StartTotals(slots, c, {}) == c
    ensures Elements([]) == {} && held + {} == held
    ensures var q := Queue(t, slots);
            && (forall i, j :: 0 <= i < j < |q| ==> q[i] != q[j])
            && (forall i :: 0 <= i < |q| ==> q[i] in slots && q[i] in t.clients)
  {
    QueueFacts(t, slots);
    hide StartSlots, StartTotals, Queue;
    StartNone(t, slots);
    StartNoneTotals(slots, c);
  }

  lemma StartingNone(t: Tick, slots: map<nat, Slot>, c: Totals, q: seq<nat>, room: int, held: set<nat>)
    requires forall i :: 0 <= i < |q| ==> q[i] in slots
    ensures StartSlots(t, slots, {}) == slots && StartTotals(slots, c, {}) == c
    ensures Elements([]) == {} && held + {} == held
    ensures [] + Starting(t, slots, q[0..], room) == Starting(t, slots, q, room)
  {
    assert q[0..] == q;
    hide StartSlots, StartTotals;
    StartNone(t, slots);
    StartNoneTotals(slots, c);
  }

  lemma StartingStep(t: Tick, slots: map<nat, Slot>, q: seq<nat>, i: nat, room: int)
    requires forall j :: 0 <= j < |q| ==> q[j] in slots
    requires i < |q| && room > 0
    ensures Starting(t, slots, q[i..], room) ==
            if slots[q[i]].why != Flag && t.frameNo < slots[q[i]].cooldownUntil
            then Starting(t, slots, q[i + 1..], room)
            else [q[i]] + Starting(t, slots, q[i + 1..], room - 1)
  {
    assert q[i..][1..] == q[i + 1..];
  }

  lemma StartingDone(t: Tick, slots: map<nat, Slot>, q: seq<nat>, i: nat, room: int)
    requires forall j :: 0 <= j < |q| ==> q[j] in slots
    requires i <= |q| && (i == |q| || room <= 0)
    ensures Starting(t, slots, q[i..], room) == []
  {}

  lemma CountsOne(p: map<nat, Tally>, x: nat)
    ensures Counts(p, {x}) == p[x := TallyOf(p, x).(holds := TallyOf(p, x).holds + 1)]
  {}

  lemma StartOneTotals(slots: map<nat, Slot>, c: Totals, x: nat)
    requires x in slots
    ensures StartTotals(slots, c, {x}) == BegunTotals(c, slots[x].why, x)
  {
    hide ByCounter, Guesses, Counts, Count, TallyOf;
    CountsOne(c.perSlot, x);
    StartOneCount(slots, x);
  }

  lemma StartOneCount(slots: map<nat, Slot>, x: nat)
    requires x in slots
    ensures Count(ByCounter(slots), {x}) == if slots[x].why == Counter || slots[x].why == Guessed then 1 else 0
    ensures Count(Guesses(slots), {x}) == if slots[x].why == Guessed then 1 else 0
    ensures Count({x}, {x}) == 1
  {
    CountOne(ByCounter(slots), x);
    CountOne(Guesses(slots), x);
    CountOne({x}, x);
    hide Count;
  }

  lemma StartMore(t: Tick, s0: map<nat, Slot>, slots: map<nat, Slot>, c0: Totals, chosen: seq<nat>, x: nat,
      held: set<nat>)
    requires Elements(chosen) <= t.clients.Keys && x in t.clients && x in s0 && x !in Elements(chosen)
    requires slots == StartSlots(t, s0, Elements(chosen))
    ensures x in slots && slots[x] == s0[x]
    ensures Elements(chosen + [x]) == Elements(chosen) + {x} <= t.clients.Keys
    ensures StartSlots(t, s0, Elements(chosen + [x])) == slots[x := AfterStart(t, slots[x], x)]
    ensures StartTotals(s0, c0, Elements(chosen + [x])) == BegunTotals(StartTotals(s0, c0, Elements(chosen)),
            slots[x].why, x)
    ensures CanBeSent(ForceAll(t.clients, held + Elements(chosen)), x) == CanBeSent(t.clients, x)
    ensures ForceAll(ForceAll(t.clients, held + Elements(chosen)), {x}) == ForceAll(t.clients,
            held + Elements(chosen + [x]))
  {
    var done := Elements(chosen);
    assert Elements(chosen + [x]) == done + {x};
    StartSlotsStep(t, s0, done, x);
    assert StartSlots(t, slots, {x}) == slots[x := AfterStart(t, slots[x], x)];
    ForceUnion(t.clients, held + done, {x});
    assert held + done + {x} == held + (done + {x});
    hide StartTotals, BegunTotals, ForceAll;
    StartTotalsStep(s0, slots, c0, done, x);
    StartOneTotals(slots, StartTotals(s0, c0, done), x);
  }

  lemma ForceUnion(clients: map<nat, Client>, xs: set<nat>, ys: set<nat>)
    ensures ForceAll(ForceAll(clients, xs), ys) == ForceAll(clients, xs + ys)
  {}

  lemma ForceMore(clients: map<nat, Client>, run: set<nat>, done: set<nat>, x: nat)
    requires x !in done
    ensures x in run ==> ForceAll(ForceAll(clients, run * done), {x}) == ForceAll(clients, run * (done + {x}))
    ensures x !in run ==> ForceAll(clients, run * done) == ForceAll(clients, run * (done + {x}))
    ensures Count(run, done + {x}) == Count(run, done) + if x in run then 1 else 0
    ensures CanBeSent(ForceAll(clients, run * done), x) == CanBeSent(clients, x)
  {
    CardStep(run, run, done, x);
    CountOne(run, x);
    ForceUnion(clients, run * done, {x});
  }
}
