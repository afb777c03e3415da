/**
 The scheduler as the object that changes in place, frame by frame. Its loops visit the slot
 dictionary in any order; each method is tied to the phase of HoldModel that it carries out.
 */
module HoldScheduler {
  import opened Common
  import opened SlotOrder
  import opened HoldModel
  import opened HoldSteps

  /** The engine's client table, as client_of sees it; the scheduler only lowers deltaMessage. */
  class Engine {
    var clients: map<nat, Client>

    constructor (clients: map<nat, Client>)
      ensures this.clients == clients
    {
      this.clients := clients;
    }
  }

  class ResyncHold {
    const csActive: int
    var frameNo: int
    var slots: map<nat, Slot>
    var totals: Totals   // the counters the operator sees
    var link: Link       // what is remembered of the stream's own counters
    var isFresh: bool

    ghost function View(): Hold
      reads this
    {
      Hold(frameNo, slots, totals, link, isFresh)
    }

    constructor (csActive: int)
      ensures this.csActive == csActive && View() == INITIAL
    {
      this.csActive := csActive;
      frameNo, slots, totals, link, isFresh := INITIAL.frameNo, INITIAL.slots, INITIAL.totals, INITIAL.link,
          INITIAL.isFresh;
    }

    method DropSlot(x: nat)
      modifies this`slots, this`totals
      ensures View() == Drop(old(View()), {x})
    {
      if x in slots {
        if slots[x].target.Some? {
          totals := totals.(cancelled := totals.cancelled + 1);
          assert Holding(old(slots)) * {x} == {x};
        } else {
          assert Holding(old(slots)) * {x} == {};
        }
        slots := slots - {x};
      } else {
        assert Holding(slots) * {x} == {} && slots - {x} == slots;
      }
    }

    method DropAll(xs: set<nat>)
      modifies this`slots, this`totals
      ensures View() == Drop(old(View()), xs)
    {
      ghost var h := View();
      var todo := xs;
      hide Drop, Count;
      assert xs - todo == {};
      DropNone(h);
      while todo != {}
        invariant todo <= xs && View() == Drop(h, xs - todo)
      {
        var x :| x in todo;
        DropStep(h, xs - todo, x);
        assert (xs - todo) + {x} == xs - (todo - {x});
        DropSlot(x);
        todo := todo - {x};
      }
      assert xs - todo == xs;
    }

    method Reset()
      modifies this
      ensures View() == HoldModel.Reset(old(View()))
    {
      DropAll(slots.Keys);
      link := link.(resyncs := None, dropped := None, behindUntil := 0, behind := false);
      isFresh := true;
    }

    /** _end without its log line. */
    method End(x: nat, sent: int)
      requires x in slots
      modifies this`slots, this`totals
      ensures slots == old(slots)[x := Ended(old(slots)[x], frameNo)]
      ensures totals == EndTotals(old(totals), x, Max(0, sent))
    {
      var n := if sent < 0 then 0 else sent;
      var tally := if x in totals.perSlot then totals.perSlot[x] else Tally(0, 0);
      totals := totals.(forced := totals.forced + n,
                        perSlot := totals.perSlot[x := tally.(forced := tally.forced + n)],
                        longest := if totals.longest < n then n else totals.longest);
      slots := slots[x := slots[x].(target := None, cooldownUntil := frameNo + HOLD_COOLDOWN_FRAMES)];
    }

    method AdmitOne(t: Tick, x: nat)
      requires x in t.live && t.frameNo == frameNo && t.isFresh == isFresh
      modifies this`slots, this`totals
      ensures slots == old(slots)[x := Admitted(t, Seen(t, old(slots), x), x)]
      ensures totals == LostTotals(t, old(slots), old(totals), x)
    {
      if x !in slots {
        slots := slots[x := NewSlot(t.live[x].gen, if isFresh then None else Some(t.now))];
        if isFresh {
          slots := slots[x := Ask(slots[x], FirstSight, frameNo)];
        }
      }
      var st := slots[x];
      var client := if x in t.clients then Some(t.clients[x]) else None;
      if client.None? || client.value.state != t.csActive || !t.connected {
        if st.target.Some? {
          totals := totals.(cancelled := totals.cancelled + 1);
          End(x, if client.Some? then client.value.outgoing - st.startSeq else 0);
        }
        slots := slots[x := slots[x].(want := false)];
      } else if st.target.None? && client.value.deltaMessage <= 0 {
        slots := slots[x := st.(lastFull := Some(t.now))];
      }
    }

    method AdmitAll(t: Tick)
      requires t.frameNo == frameNo && t.isFresh == isFresh
      modifies this`slots, this`totals, this`isFresh
      ensures View() == Admit(t, old(View()), t.live.Keys).(isFresh := false)
      ensures slots.Keys == old(slots).Keys + t.live.Keys
    {
      ghost var s0, c0 := slots, totals;
      var all := t.live.Keys;
      var todo := all;
      hide Count, AdmitSlots, AdmitTotals, Admitted, Seen, LostTotals;
      assert all - todo == {};
      AdmitNone(t, s0, c0);
      while todo != {}
        invariant todo <= all && slots.Keys == s0.Keys + (all - todo)
        invariant frameNo == t.frameNo && isFresh == t.isFresh && link == old(link)
        invariant slots == AdmitSlots(t, s0, all - todo) && totals == AdmitTotals(t, s0, c0, all - todo)
      {
        var x :| x in todo;
        AdmitMore(t, s0, slots, c0, all - todo, x);
        assert (all - todo) + {x} == all - (todo - {x});
        AdmitOne(t, x);
        todo := todo - {x};
      }
      assert all - todo == all;
      isFresh := false;
    }

    method AskClearedOne(t: Tick, x: nat)
      requires x in slots && t.frameNo == frameNo
      modifies this`slots, this`totals
      ensures slots == old(slots)[x := AfterFlag(t, old(slots)[x], x)]
      ensures totals == old(totals).(retargeted := old(totals).retargeted +
                if Playing(t, x) && old(slots)[x].target.Some? then 1 else 0)
    {
      var st := slots[x].(lastFull := Some(t.now));
      if Playing(t, x) {
        if st.target.None? {
          st := Ask(st, Flag, frameNo);
        } else {
          st := st.(target := Some(t.clients[x].outgoing));
          totals := totals.(retargeted := totals.retargeted + 1);
        }
      }
      slots := slots[x := st];
    }

    method AskClearedAll(t: Tick, cleared: set<nat>)
      requires cleared <= slots.Keys && t.frameNo == frameNo
      modifies this`slots, this`totals
      ensures View() == AskCleared(t, old(View()), cleared) && slots.Keys == old(slots).Keys
    {
      ghost var s0, c0 := slots, totals;
      var todo := cleared;
      hide Count, ClearedSlots, ClearedTotals, AfterFlag;
      assert cleared - todo == {};
      ClearedNone(t, s0, c0);
      while todo != {}
        invariant todo <= cleared && slots.Keys == s0.Keys
        invariant slots == ClearedSlots(t, s0, cleared - todo) && totals == ClearedTotals(t, s0, c0, cleared - todo)
      {
        var x :| x in todo;
        ClearedMore(t, s0, slots, c0, cleared - todo, x);
        assert (cleared - todo) + {x} == cleared - (todo - {x});
        AskClearedOne(t, x);
        todo := todo - {x};
      }
      assert cleared - todo == cleared;
    }

    /** Slots due for a keyframe ask for a hold, the oldest first. */
    method AskCounterAll(t: Tick, cleared: set<nat>, unexplained: int)
      requires t.frameNo == frameNo
      modifies this`slots
      ensures slots == CounterSlots(t, old(slots), Elements(Picked(t, old(slots), cleared, unexplained)))
      ensures slots.Keys == old(slots).Keys
    {
      ghost var s0 := slots;
      var picked := Picked(t, slots, cleared, unexplained);
      PickedDistinct(t, slots, cleared, unexplained);
      hide Picked, CounterSlots, Ask, AfterCounter, LooksDue;
      var i := 0;
      assert Elements(picked[..0]) == {};
      CounterNone(t, s0);
      while i < |picked|
        invariant 0 <= i <= |picked| && slots.Keys == s0.Keys
        invariant slots == CounterSlots(t, s0, Elements(picked[..i]))
      {
        var x := picked[i];
        assert x !in Elements(picked[..i]) && Elements(picked[..i]) + {x} == Elements(picked[..i + 1]);
        CounterMore(t, s0, slots, Elements(picked[..i]), x);
        slots := slots[x := CounterAsk(t, slots[x])];
        i := i + 1;
      }
      assert picked[..i] == picked;
    }

    method NoteFlags(t: Tick)
      requires t.live.Keys <= slots.Keys
      modifies this`slots
      ensures slots == FlagSlots(t, old(slots), t.live.Keys) && slots.Keys == old(slots).Keys
    {
      ghost var s0 := slots;
      var all := t.live.Keys;
      var todo := all;
      assert all - todo == {};
      FlagNone(t, s0);
      hide FlagSlots;
      while todo != {}
        invariant todo <= all && slots.Keys == s0.Keys && slots == FlagSlots(t, s0, all - todo)
      {
        var x :| x in todo;
        FlagMore(t, s0, slots, all - todo, x);
        assert (all - todo) + {x} == all - (todo - {x});
        slots := slots[x := slots[x].(resyncing := t.live[x].resyncing)];
        todo := todo - {x};
      }
      assert all - todo == all;
    }

    method DropWaitOne(t: Tick, x: nat)
      requires x in slots && t.frameNo == frameNo && t.behind == link.behind
      modifies this`slots, this`totals
      ensures slots == old(slots)[x := WaitAt(t, old(slots), {x}, x)]
      ensures totals == old(totals).(droppedWaits := old(totals).droppedWaits +
                if IsOutdated(t, old(slots), x) then 1 else 0)
    {
      var st := slots[x];
      if st.want && st.why != Flag && (link.behind || frameNo - st.wantFrame > WAIT_MAX_AGE_FRAMES) {
        slots := slots[x := st.(want := false)];
        totals := totals.(droppedWaits := totals.droppedWaits + 1);
      }
    }

    method DropWaitsAll(t: Tick)
      requires t.frameNo == frameNo && t.behind == link.behind
      modifies this`slots, this`totals
      ensures View() == DropWaits(t, old(View()), old(slots).Keys) && slots.Keys == old(slots).Keys
    {
      ghost var s0, c0 := slots, totals;
      var all := slots.Keys;
      var todo := all;
      hide Count, WaitSlots, WaitTotals, WaitAt, IsOutdated;
      assert all - todo == {};
      WaitNone(t, s0, c0);
      while todo != {}
        invariant todo <= all && slots.Keys == s0.Keys
        invariant slots == WaitSlots(t, s0, all - todo) && totals == WaitTotals(t, s0, c0, all - todo)
      {
        var x :| x in todo;
        WaitMore(t, s0, slots, c0, all - todo, x);
        assert (all - todo) + {x} == all - (todo - {x});
        DropWaitOne(t, x);
        todo := todo - {x};
      }
      assert all - todo == all;
    }

    /** _force for slot x. */
    method Force(t: Tick, engine: Engine, x: nat)
      requires x in slots && CanBeSent(engine.clients, x) == CanBeSent(t.clients, x)
      modifies this`slots, engine
      ensures slots == old(slots)[x := Forced(t, old(slots)[x], x)]
      ensures engine.clients == ForceAll(old(engine.clients), {x})
    {
      if x in engine.clients && !engine.clients[x].unsentFragments {
        engine.clients := engine.clients[x := engine.clients[x].(deltaMessage := -1)];
        slots := slots[x := slots[x].(lastFull := Some(t.now))];
      }
      assert engine.clients == ForceAll(old(engine.clients), {x});
    }

    method RunOne(t: Tick, engine: Engine, x: nat) returns (continues: bool)
      requires x in slots && x in Players(t) && t.frameNo == frameNo && t.behind == link.behind
      requires CanBeSent(engine.clients, x) == CanBeSent(t.clients, x)
      modifies this`slots, this`totals, engine
      ensures slots == old(slots)[x := AfterRun(t, old(slots)[x], x)]
      ensures totals == OutcomeTotals(t, old(totals), old(slots)[x], x)
      ensures continues == (OutcomeOf(t, old(slots)[x], x) == Running)
      ensures engine.clients == if continues then ForceAll(old(engine.clients), {x}) else old(engine.clients)
    {
      hide ForceAll;
      continues := false;
      var st, client := slots[x], t.clients[x];
      if st.target.Some? {
        var sent := client.outgoing - st.startSeq;
        if link.behind {
          totals := totals.(cancelled := totals.cancelled + 1);
          End(x, sent);
        } else if client.acknowledge >= st.target.value {
          totals := totals.(acked := totals.acked + 1);
          End(x, sent);
        } else if sent >= t.maxFrames {
          totals := totals.(capped := totals.capped + 1);
          End(x, sent);
        } else if frameNo - st.startFrame >= t.maxFrames * HOLD_STALL_FACTOR {
          totals := totals.(capped := totals.capped + 1);
          End(x, sent);
        } else {
          continues := true;
          Force(t, engine, x);
        }
      }
    }

    method RunAll(t: Tick, engine: Engine) returns (running: nat)
      requires t.live.Keys <= slots.Keys && t.frameNo == frameNo && t.behind == link.behind
      requires engine.clients == t.clients
      modifies this`slots, this`totals, engine
      ensures View() == RunHolds(t, old(View()), old(slots).Keys)
      ensures running == |With(t, old(slots), Running)|
      ensures engine.clients == ForceAll(t.clients, With(t, old(slots), Running))
    {
      hide Players, With, RunSlots, RunTotals, ForceAll;
      RunStarts(t, slots, totals);
      running := RunLoop(t, engine, Players(t), With(t, slots, Running));
    }

    method RunLoop(t: Tick, engine: Engine, all: set<nat>, ghost run: set<nat>) returns (running: nat)
      requires all == Players(t) && all <= slots.Keys && t.frameNo == frameNo && t.behind == link.behind
      requires run == With(t, slots, Running) && run <= all && engine.clients == t.clients
      modifies this`slots, this`totals, engine
      ensures slots == RunSlots(t, old(slots), all) && totals == RunTotals(t, old(slots), old(totals), all)
      ensures running == |run|
      ensures engine.clients == ForceAll(t.clients, run)
    {
      hide *;
      ghost var s0, c0 := slots, totals;
      ghost var done: set<nat> := {};
      var todo := all;
      running := 0;
      RunEnter(t, s0, c0, run);
      while todo != {}
        invariant todo !! done && todo + done == all && all <= slots.Keys == s0.Keys
        invariant slots == RunSlots(t, s0, done) && totals == RunTotals(t, s0, c0, done)
        invariant running == Count(run, done)
        invariant engine.clients == ForceAll(t.clients, run * done)
      {
        var x :| x in todo;
        RunMore(t, s0, slots, c0, done, x);
        ForceMore(t.clients, run, done, x);
        var continues := RunOne(t, engine, x);
        if continues {
          running := running + 1;
        }
        todo, done := todo - {x}, done + {x};
      }
      assert done == all && run * all == run;
      CountAll(run, all);
    }

    method StartOne(t: Tick, engine: Engine, x: nat)
      requires x in slots && x in t.clients && t.frameNo == frameNo
      requires CanBeSent(engine.clients, x) == CanBeSent(t.clients, x)
      modifies this`slots, this`totals, engine
      ensures slots == old(slots)[x := AfterStart(t, old(slots)[x], x)]
      ensures totals == BegunTotals(old(totals), old(slots)[x].why, x)
      ensures engine.clients == ForceAll(old(engine.clients), {x})
    {
      hide ForceAll;
      var st := slots[x];
      var seqNo := t.clients[x].outgoing;
      slots := slots[x := st.(want := false, target := Some(seqNo), startSeq := seqNo, startFrame := frameNo)];
      totals := totals.(started := totals.started + 1);
      if st.why == Counter || st.why == Guessed {
        totals := totals.(byCounter := totals.byCounter + 1);
        if st.why != Counter {
          totals := totals.(guessed := totals.guessed + 1);
        }
      }
      var tally := if x in totals.perSlot then totals.perSlot[x] else Tally(0, 0);
      totals := totals.(perSlot := totals.perSlot[x := tally.(holds := tally.holds + 1)]);
      Force(t, engine, x);
    }

    method StartAll(t: Tick, engine: Engine, running0: int, ghost held: set<nat>)
      requires t.frameNo == frameNo && t.behind == link.behind
      requires engine.clients == ForceAll(t.clients, held)
      modifies this`slots, this`totals, engine
      ensures Elements(Started(t, old(slots), running0)) <= t.clients.Keys
      ensures View() == StartHolds(t, old(View()), Elements(Started(t, old(slots), running0)))
      ensures engine.clients == ForceAll(t.clients, held + Elements(Started(t, old(slots), running0)))
    {
      hide StartSlots, StartTotals, Queue, Starting, ForceAll;
      StartEnter(t, slots, totals, held, running0);
      if link.behind || running0 >= t.perFrame {
        return;
      }
      StartLoop(t, engine, Queue(t, slots), t.perFrame - running0, held);
    }

    method StartLoop(t: Tick, engine: Engine, queue: seq<nat>, room0: int, ghost held: set<nat>)
      requires t.frameNo == frameNo && engine.clients == ForceAll(t.clients, held)
      requires forall i :: 0 <= i < |queue| ==> queue[i] in slots && queue[i] in t.clients
      requires forall i, j :: 0 <= i < j < |queue| ==> queue[i] != queue[j]
      modifies this`slots, this`totals, engine
      ensures var xs := Elements(Starting(t, old(slots), queue, room0));
              && xs <= t.clients.Keys
              && slots == StartSlots(t, old(slots), xs)
              && totals == StartTotals(old(slots), old(totals), xs)
              && engine.clients == ForceAll(t.clients, held + xs)
    {
      hide *;
      ghost var s0, c0 := slots, totals;
      var room, i := room0, 0;
      ghost var chosen: seq<nat> := [];
      StartingNone(t, s0, c0, queue, room, held);
      while i < |queue| && room > 0
        invariant 0 <= i <= |queue| && slots.Keys == s0.Keys
        invariant chosen + Starting(t, s0, queue[i..], room) == Starting(t, s0, queue, room0)
        invariant Elements(chosen) <= t.clients.Keys && (forall j :: i <= j < |queue| ==> queue[j] !in Elements(chosen))
        invariant slots == StartSlots(t, s0, Elements(chosen)) && totals == StartTotals(s0, c0, Elements(chosen))
        invariant engine.clients == ForceAll(t.clients, held + Elements(chosen))
      {
        var x := queue[i];
        StartMore(t, s0, slots, c0, chosen, x, held);
        StartingStep(t, s0, queue, i, room);
        var st := slots[x];
        if !(st.why != Flag && frameNo < st.cooldownUntil) {
          StartOne(t, engine, x);
          Regroup(chosen, [x], Starting(t, s0, queue[i + 1..], room - 1));
          chosen := chosen + [x];
          room := room - 1;
        }
        i := i + 1;
      }
      StartingDone(t, s0, queue, i, room);
      Regroup(chosen, [], []);
    }

    method BeginFrame(status: Status) returns (engineForced: int)
      modifies this
      ensures View() == Begin(old(View()), status)
      ensures engineForced == EngineForced(old(link), status)
    {
      frameNo := frameNo + 1;
      engineForced := 0;
      if link.resyncs.Some? && status.resyncs > link.resyncs.value {
        engineForced := status.resyncs - link.resyncs.value;
      }
      var total := status.droppedRing + status.droppedLag + status.droppedStall;
      var grew := link.dropped.Some? && total > link.dropped.value;
      var until := link.behindUntil;
      if grew || status.lag >= BEHIND_LAG_MS || status.pending >= BEHIND_PENDING_BYTES {
        until := frameNo + BEHIND_RECOVER_FRAMES;
      }
      if frameNo < until {
        totals := totals.(behindFrames := totals.behindFrames + 1);
      }
      var down := link.downResyncs;
      if link.connected != Some(status.connected) {
        down := 0;
      }
      if !status.connected {
        down := down + engineForced;
      }
      link := Link(Some(status.resyncs), Some(total), Some(status.connected), down, until, frameNo < until);
    }

    /** One server frame, before the engine sends snapshots. */
    method Frame(inp: Input, engine: Engine)
      requires engine.clients == inp.clients
      modifies this, engine
      ensures View() == HoldModel.Frame(old(View()), inp, csActive)
      ensures engine.clients == ClientsAfter(old(View()), inp, csActive)
    {
      if inp.status.None? || !inp.status.value.enabled {
        ForceNone(inp.clients);
        frameNo := frameNo + 1;
        Reset();
      } else {
        StreamFrame(inp, engine);
      }
    }

    method StreamFrame(inp: Input, engine: Engine)
      requires engine.clients == inp.clients && Streaming(inp)
      modifies this, engine
      ensures View() == HoldModel.Frame(old(View()), inp, csActive)
      ensures engine.clients == ClientsAfter(old(View()), inp, csActive)
    {
      hide Admit, AskCleared, DropWaits, RunHolds, StartHolds, Picked, CounterSlots, FlagSlots, Cleared, Stale,
           Started, With, ForceAll, Current, Begin, EngineForced, Drop, Elements;
      ghost var h := View();
      var status := inp.status.value;
      var engineForced := BeginFrame(status);
      ghost var begun := View();
      var t := Tick(frameNo, Current(status.slots), inp.clients, status.connected, link.behind, isFresh,
                    inp.now, inp.maxFrames, inp.perFrame, inp.keyframeMs, csActive);
      assert t == TickOf(h, inp, csActive);
      DropAll(Stale(t, slots));
      assert View() == Kept(t, h, inp);
      var cleared := Cleared(t, slots);
      ClearedKeys(t, slots);
      DropKeeps(begun, Stale(t, begun.slots));
      AdmitAll(t);
      ghost var admitted := View();
      AskClearedAll(t, cleared);
      assert View() == Asked(t, h, inp);
      AskCounterAll(t, cleared, engineForced - |cleared|);
      NoteFlags(t);
      DropWaitsAll(t);
      assert View() == Prepared(t, h, inp);
      var running := RunAll(t, engine);
      assert View() == Ran(t, h, inp);
      StartAll(t, engine, running, With(t, Prepared(t, h, inp).slots, Running));
    }
  }
}
