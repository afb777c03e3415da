/** A run in which a hold is ended by an acknowledgement: the guarantee of HoldChain is about runs there are. */
module HoldWitness {
  import opened Common
  import opened SlotOrder
  import opened HoldModel
  import opened HoldFacts
  import HoldChain

  /** The stream reports one open slot, number 0 with gamestate 1; nothing is dropped or behind. */
  function Report(resyncing: bool): Status {
    Status(true, true, 0, 0, 0, 0, 0, 0, [SlotStatus(0, true, resyncing, 1)])
  }

  /** A frame in which `peer` plays in slot 0 and is sent a message. */
  function Reads(peer: HoldChain.Peer, resyncing: bool, csActive: int): Input {
    Input(Some(Report(resyncing)), map[0 := Client(csActive, peer.ack, peer.ack, peer.out, false)], 0, 4, 1, 0)
  }

  function Served(peer: HoldChain.Peer, resyncing: bool, csActive: int): HoldChain.Happening {
    HoldChain.Served(Reads(peer, resyncing, csActive), map[0 := peer], {0}, {})
  }

  const JOINED: HoldChain.Peer := HoldChain.Peer(1, 5, 4, map[])
  const BEGUN: HoldChain.World := HoldChain.World(INITIAL, map[0 := JOINED])

  predicate Quiet(s: Status) {
    && s.resyncs == 0 && s.connected && s.lag == 0 && s.pending == 0
    && s.droppedRing == 0 && s.droppedLag == 0 && s.droppedStall == 0
  }

  /** Only slot 0 is open, its client plays and acknowledged `ack` of the messages before `out`. */
  ghost predicate Lone(inp: Input, csActive: int, out: int, ack: int, resyncing: bool) {
    && Streaming(inp) && Quiet(inp.status.value)
    && Current(inp.status.value.slots) == map[0 := Live(1, resyncing)]
    && inp.clients == map[0 := Client(csActive, ack, ack, out, false)]
    && inp.maxFrames == 4 && inp.perFrame == 1
  }

  lemma ReadsLone(peer: HoldChain.Peer, resyncing: bool, csActive: int)
    ensures Lone(Reads(peer, resyncing, csActive), csActive, peer.out, peer.ack, resyncing)
  {
    var slots := Report(resyncing).slots;
    assert slots[..0] == [];
    assert Current(slots[..0]) == map[];
  }

  predicate IsNew(h: Hold) {
    h.frameNo == 0 && h.slots == map[] && h.isFresh && h.link == Link(None, None, None, 0, 0, false)
  }

  /** Slot 0 holds until message 5 is acknowledged. */
  predicate HoldsFrom5(h: Hold) {
    && h.frameNo == 1 && h.slots.Keys == {0} && h.slots[0].gen == 1 && h.slots[0].target == Some(5)
    && !h.slots[0].want
    && h.link.resyncs == Some(0) && h.link.dropped == Some(0) && h.link.behindUntil == 0
  }

  // ---- the first frame ---------------------------------------------------------------------------------

  /** A connected stream that neither drops nor lags leaves the link as quiet as it was. */
  lemma QuietLink(link: Link, status: Status, frameNo: int)
    requires Quiet(status)
    requires link.resyncs in {None, Some(0)} && link.dropped in {None, Some(0)} && link.behindUntil == 0 <= frameNo
    ensures EngineForced(link, status) == 0
    ensures var n := NextLink(link, status, frameNo);
            n.resyncs == Some(0) && n.dropped == Some(0) && n.behindUntil == 0 && !n.behind
  {}

  lemma TickParts(h: Hold, inp: Input, csActive: int)
    requires Streaming(inp)
    ensures var t, s := TickOf(h, inp, csActive), inp.status.value;
            t == Tick(h.frameNo + 1, Current(s.slots), inp.clients, s.connected,
                      NextLink(h.link, s, h.frameNo + 1).behind, h.isFresh, inp.now, inp.maxFrames, inp.perFrame,
                      inp.keyframeMs, csActive)
  {
    hide Current, NextLink;
  }

  lemma FirstTick(h: Hold, inp: Input, csActive: int)
    requires IsNew(h) && Lone(inp, csActive, 5, 4, false)
    ensures TickOf(h, inp, csActive) ==
            Tick(1, map[0 := Live(1, false)], inp.clients, true, false, true, inp.now, 4, 1, inp.keyframeMs, csActive)
  {
    TickParts(h, inp, csActive);
    QuietLink(h.link, inp.status.value, 1);
    hide Current, NextLink, TickOf;
  }

  lemma Untouched(t: Tick, slots: map<nat, Slot>, x: nat)
    requires x in slots && x in t.live && !t.behind
    requires slots[x].want ==> slots[x].wantFrame == t.frameNo
    ensures var flagged := FlagSlots(t, CounterSlots(t, slots, {}), t.live.Keys);
            x in flagged && WaitSlots(t, flagged, flagged.Keys)[x] == slots[x].(resyncing := t.live[x].resyncing)
  {}

  lemma NoneCleared(t: Tick, slots: map<nat, Slot>)
    ensures ClearedSlots(t, slots, {}) == slots
  {}

  lemma NothingPicked(t: Tick, h: Hold, inp: Input)
    requires Streaming(inp) && EngineForced(h.link, inp.status.value) == 0
    ensures PickedNow(t, h, inp) == {}
  {
    PickedNowIs(t, h, inp);
    hide PickedNow, Cleared, Asked, Kept;
  }

  /** With no engine resync, no flag cleared and no wait from before, only admission changes a slot. */
  lemma QuietPrepared(t: Tick, h: Hold, inp: Input, x: nat)
    requires Streaming(inp) && EngineForced(h.link, inp.status.value) == 0
    requires x in t.live && !t.behind && Cleared(t, Kept(t, h, inp).slots) == {}
    requires var a := AdmitSlots(t, Kept(t, h, inp).slots, t.live.Keys);
             x in a && (a[x].want ==> a[x].wantFrame == t.frameNo)
    ensures var a := AdmitSlots(t, Kept(t, h, inp).slots, t.live.Keys);
            x in Prepared(t, h, inp).slots && Prepared(t, h, inp).slots[x] == a[x].(resyncing := t.live[x].resyncing)
  {
    hide *;
    NothingPicked(t, h, inp);
    AskedSlots(t, h, inp);
    NoneCleared(t, AdmitSlots(t, Kept(t, h, inp).slots, t.live.Keys));
    NotedIs(t, h, inp);
    PreparedSlots(t, h, inp);
    PreparedKeys(t, h, inp);
    Untouched(t, Asked(t, h, inp).slots, x);
  }

  const ASKED: Slot := NewSlot(1, None).(want := true, why := FirstSight, wantFrame := 1)

  lemma FirstKept(h: Hold, inp: Input, csActive: int)
    requires IsNew(h) && Lone(inp, csActive, 5, 4, false)
    ensures var t := TickOf(h, inp, csActive);
            && Kept(t, h, inp).slots == map[] && Cleared(t, map[]) == {}
            && EngineForced(h.link, inp.status.value) == 0
            && AdmitSlots(t, map[], t.live.Keys).Keys == {0}
            && AdmitSlots(t, map[], t.live.Keys)[0] == Ask(NewSlot(1, None), FirstSight, 1)
  {
    FirstTick(h, inp, csActive);
    hide TickOf;
    KeptSlots(TickOf(h, inp, csActive), h, inp);
  }

  lemma FirstPrepared(h: Hold, inp: Input, csActive: int)
    requires IsNew(h) && Lone(inp, csActive, 5, 4, false)
    ensures var t := TickOf(h, inp, csActive);
            0 in Prepared(t, h, inp).slots
            && Prepared(t, h, inp).slots[0] == ASKED
  {
    FirstKept(h, inp, csActive);
    FirstTick(h, inp, csActive);
    hide TickOf, Kept, Prepared, AdmitSlots, Cleared, EngineForced;
    QuietPrepared(TickOf(h, inp, csActive), h, inp, 0);
  }

  /** The only slot there is waits for a hold, nothing runs and there is room: it starts. */
  lemma LoneStarts(t: Tick, slots: map<nat, Slot>)
    requires slots.Keys == {0} && slots[0].want && Playing(t, 0) && !t.behind && t.perFrame == 1
    requires !CoolingDown(t, slots[0])
    ensures Started(t, slots, 0) == [0]
  {
    hide CoolingDown, Playing, Queue;
    QueueMembers(t, slots);
    var q := Queue(t, slots);
    assert 0 in q;
    var i :| 0 <= i < |q| && q[i] == 0;
    assert q[0] in slots.Keys;
    assert Starting(t, slots, q, 1) == [0] + Starting(t, slots, q[1..], 0);
  }

  lemma NoneRun(t: Tick, slots: map<nat, Slot>)
    requires slots.Keys == {0} && slots[0].target.None?
    ensures |With(t, slots, Running)| == 0
  {
    assert With(t, slots, Running) == {};
  }

  lemma FirstPlays(h: Hold, inp: Input, csActive: int)
    requires IsNew(h) && Lone(inp, csActive, 5, 4, false)
    ensures var t := TickOf(h, inp, csActive);
            && Playing(t, 0) && !t.behind && t.perFrame == 1 && t.frameNo == 1 && t.live.Keys == {0}
            && 0 in t.clients && t.clients[0].outgoing == 5 && !CoolingDown(t, ASKED) && AfterRun(t, ASKED, 0) == ASKED
  {
    FirstTick(h, inp, csActive);
    hide TickOf;
  }

  lemma FirstStarts(h: Hold, inp: Input, csActive: int)
    requires IsNew(h) && Lone(inp, csActive, 5, 4, false)
    ensures var t := TickOf(h, inp, csActive);
            && StartedNow(t, h, inp) == [0] && 0 in Prepared(t, h, inp).slots && Prepared(t, h, inp).slots[0] == ASKED
  {
    var t := TickOf(h, inp, csActive);
    FirstPrepared(h, inp, csActive);
    FirstPlays(h, inp, csActive);
    AskedIs();
    hide *;
    StartedIs(t, h, inp);
    RanSlots(t, h, inp);
    NoneRun(t, Prepared(t, h, inp).slots);
    LoneStarts(t, Ran(t, h, inp).slots);
  }

  lemma AskedIs()
    ensures ASKED.want && ASKED.target.None? && ASKED.gen == 1
    ensures ASKED == NewSlot(1, None).(want := true, why := FirstSight, wantFrame := 1)
  {}

  lemma StartIs(t: Tick, x: nat)
    requires x in t.clients
    ensures AfterStart(t, ASKED, x).gen == 1 && AfterStart(t, ASKED, x).target == Some(t.clients[x].outgoing)
  {}

  /** The state after the first frame, as far as the second one needs it. */
  lemma FirstFrame(h: Hold, inp: Input, csActive: int)
    requires IsNew(h) && Lone(inp, csActive, 5, 4, false)
    ensures HoldsFrom5(Frame(h, inp, csActive))
  {
    var t := TickOf(h, inp, csActive);
    FirstStarts(h, inp, csActive);
    FirstPlays(h, inp, csActive);
    QuietLink(h.link, inp.status.value, 1);
    hide *;
    FrameSlot(h, inp, csActive, 0);
    FrameLink(h, inp, csActive);
    StartIs(t, 0);
  }

  lemma FrameLink(h: Hold, inp: Input, csActive: int)
    requires Streaming(inp)
    ensures Frame(h, inp, csActive).link == NextLink(h.link, inp.status.value, h.frameNo + 1)
  {
    FrameIs(h, inp, csActive);
    hide Frame, Ran, StartedNow, StartSlots, StartTotals, TickOf, NextLink;
  }

  // ---- the second frame --------------------------------------------------------------------------------

  lemma SecondTick(h: Hold, inp: Input, csActive: int)
    requires HoldsFrom5(h) && Lone(inp, csActive, 6, 5, true)
    ensures TickOf(h, inp, csActive) ==
            Tick(2, map[0 := Live(1, true)], inp.clients, true, false, h.isFresh, inp.now, 4, 1, inp.keyframeMs, csActive)
    ensures EngineForced(h.link, inp.status.value) == 0
  {
    TickParts(h, inp, csActive);
    QuietLink(h.link, inp.status.value, 2);
    hide Current, NextLink, TickOf, EngineForced;
  }

  lemma SecondKept(h: Hold, inp: Input, csActive: int)
    requires HoldsFrom5(h) && Lone(inp, csActive, 6, 5, true)
    ensures var t := TickOf(h, inp, csActive);
            && Kept(t, h, inp).slots == h.slots && Cleared(t, h.slots) == {}
            && AdmitSlots(t, h.slots, t.live.Keys).Keys == {0}
            && AdmitSlots(t, h.slots, t.live.Keys)[0] == h.slots[0]
  {
    SecondTick(h, inp, csActive);
    hide TickOf;
    KeptSlots(TickOf(h, inp, csActive), h, inp);
  }

  lemma SecondAcks(h: Hold, inp: Input, csActive: int)
    requires HoldsFrom5(h) && Lone(inp, csActive, 6, 5, true)
    ensures var t := TickOf(h, inp, csActive);
            && 0 in Prepared(t, h, inp).slots && OutcomeOf(t, Prepared(t, h, inp).slots[0], 0) == HoldModel.Acked
  {
    SecondKept(h, inp, csActive);
    SecondTick(h, inp, csActive);
    hide TickOf, Kept, Prepared, AdmitSlots, Cleared, EngineForced, Current;
    QuietPrepared(TickOf(h, inp, csActive), h, inp, 0);
  }

  // ---- both frames of the world ------------------------------------------------------------------------

  ghost function FirstOf(csActive: int): HoldChain.World {
    HoldChain.Next(BEGUN, Served(JOINED, false, csActive), csActive)
  }

  /** e is one frame of the lone client `peer`, which is sent a message. */
  ghost predicate Serves(e: HoldChain.Happening, peer: HoldChain.Peer, resyncing: bool, csActive: int) {
    && e.Served? && Lone(e.inp, csActive, peer.out, peer.ack, resyncing)
    && e.arrived == map[0 := peer] && e.sent == {0} && e.resynced == {}
  }

  lemma ServedServes(peer: HoldChain.Peer, resyncing: bool, csActive: int)
    ensures Serves(Served(peer, resyncing, csActive), peer, resyncing, csActive)
  {
    ReadsLone(peer, resyncing, csActive);
    hide Lone, Reads;
  }

  lemma ServesPossible(w: HoldChain.World, e: HoldChain.Happening, peer: HoldChain.Peer, resyncing: bool, csActive: int)
    requires Serves(e, peer, resyncing, csActive) && peer.gen == 1 && peer.ack < peer.out
    requires w.peers.Keys == {0} && HoldChain.Packets(w.peers[0], peer)
    ensures HoldChain.Possible(w, e)
  {
    hide Current;
  }

  lemma ServesNext(w: HoldChain.World, e: HoldChain.Happening, peer: HoldChain.Peer, resyncing: bool, csActive: int)
    requires Serves(e, peer, resyncing, csActive)
    ensures var w' := HoldChain.Next(w, e, csActive);
            && w'.h == Frame(w.h, e.inp, csActive) && w'.peers.Keys == {0}
            && w'.peers[0].gen == peer.gen && w'.peers[0].out == peer.out + 1 && w'.peers[0].ack == peer.ack
  {
    var after := ClientsAfter(w.h, e.inp, csActive);
    HoldChain.AfterFrame(w.h, e.inp, csActive, 0);
    HoldChain.NextHold(w, e, csActive);
    NextPeers(w, e, csActive);
    assert CanBeSent(e.inp.clients, 0);
    hide Frame, ClientsAfter, Current, HoldChain.Next, Lone, CanBeSent;
    SentTo(e, after, peer);
  }

  lemma NextPeers(w: HoldChain.World, e: HoldChain.Happening, csActive: int)
    requires e.Served?
    ensures HoldChain.Next(w, e, csActive).peers == HoldChain.PeersAfter(e, ClientsAfter(w.h, e.inp, csActive))
  {
    hide Frame, ClientsAfter, HoldChain.PeersAfter;
  }

  lemma SentTo(e: HoldChain.Happening, after: map<nat, Client>, peer: HoldChain.Peer)
    requires e.Served? && e.arrived == map[0 := peer] && e.sent == {0} && CanBeSent(after, 0)
    ensures var peers := HoldChain.PeersAfter(e, after);
            peers.Keys == {0} && peers[0].gen == peer.gen && peers[0].out == peer.out + 1 && peers[0].ack == peer.ack
  {}

  lemma BegunIs()
    ensures IsNew(BEGUN.h) && BEGUN.peers == map[0 := JOINED] && JOINED == HoldChain.Peer(1, 5, 4, map[])
  {}

  /** The client was sent message 5 and nothing else changed for it. */
  lemma FirstWorld(e: HoldChain.Happening, csActive: int)
    requires Serves(e, JOINED, false, csActive)
    ensures var w := HoldChain.Next(BEGUN, e, csActive);
            && HoldChain.Possible(BEGUN, e) && HoldsFrom5(w.h)
            && w.peers.Keys == {0} && w.peers[0].gen == 1 && w.peers[0].out == 6 && w.peers[0].ack == 4
  {
    BegunIs();
    ServesPossible(BEGUN, e, JOINED, false, csActive);
    ServesNext(BEGUN, e, JOINED, false, csActive);
    hide Frame, HoldChain.Next, HoldChain.Possible, Lone, HoldsFrom5;
    FirstFrame(BEGUN.h, e.inp, csActive);
  }

  /** The client acknowledged the first message of its hold. */
  function Acking(peer: HoldChain.Peer, csActive: int): HoldChain.Happening {
    Served(peer.(ack := 5), true, csActive)
  }

  lemma SecondWorld(w: HoldChain.World, e: HoldChain.Happening, csActive: int)
    requires HoldsFrom5(w.h) && w.peers.Keys == {0}
    requires w.peers[0].gen == 1 && w.peers[0].out == 6 && w.peers[0].ack == 4
    requires Serves(e, w.peers[0].(ack := 5), true, csActive)
    ensures HoldChain.Possible(w, e) && HoldChain.AckedIn(w, e, csActive, 0)
    ensures 0 in HoldChain.Next(w, e, csActive).peers && HoldChain.Next(w, e, csActive).peers[0].gen == 1
  {
    ServesPossible(w, e, w.peers[0].(ack := 5), true, csActive);
    ServesNext(w, e, w.peers[0].(ack := 5), true, csActive);
    SecondAcks(w.h, e.inp, csActive);
    hide Frame, HoldChain.Next, HoldChain.Possible, Lone, HoldsFrom5, Prepared, TickOf, OutcomeOf, Current;
    assert Streaming(e.inp) by { LoneStreams(e.inp, csActive, 6, 5, true); }
  }

  lemma LoneStreams(inp: Input, csActive: int, out: int, ack: int, resyncing: bool)
    requires Lone(inp, csActive, out, ack, resyncing)
    ensures Streaming(inp)
  {}

  /** Two frames: a hold starts at message 5, and ends because the client acknowledged that message. */
  lemma AcknowledgedHoldReachable(csActive: int)
    ensures var first, w := Served(JOINED, false, csActive), FirstOf(csActive);
            && HoldChain.PossibleRun(BEGUN, [first], csActive) && HoldChain.After(BEGUN, [first], csActive) == w
            && 0 in w.peers
            && var e := Acking(w.peers[0], csActive);
               && HoldChain.Possible(w, e) && HoldChain.AckedIn(w, e, csActive, 0)
               && HoldChain.PossibleRun(HoldChain.Next(w, e, csActive), [], csActive)
               && HoldChain.SameClient(HoldChain.Next(w, e, csActive), [], csActive, 0, 1)
  {
    hide Served, HoldChain.Possible, HoldChain.Next, HoldChain.AckedIn, HoldsFrom5, Serves, Lone;
    var first, w := Served(JOINED, false, csActive), FirstOf(csActive);
    ServedServes(JOINED, false, csActive);
    FirstWorld(first, csActive);
    ServedServes(w.peers[0].(ack := 5), true, csActive);
    SecondWorld(w, Acking(w.peers[0], csActive), csActive);
    OneStep(BEGUN, first, csActive);
  }

  lemma OneStep(w: HoldChain.World, e: HoldChain.Happening, csActive: int)
    requires HoldChain.Possible(w, e)
    ensures HoldChain.PossibleRun(w, [e], csActive)
    ensures HoldChain.After(w, [e], csActive) == HoldChain.Next(w, e, csActive)
  {
    hide HoldChain.Possible, HoldChain.Next;
    assert [e][1..] == [];
    assert HoldChain.PossibleRun(HoldChain.Next(w, e, csActive), [], csActive);
    assert HoldChain.After(HoldChain.Next(w, e, csActive), [], csActive) == HoldChain.Next(w, e, csActive);
  }
}
