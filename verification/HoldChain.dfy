/**
 What a hold is for: after it was ended by an acknowledgement, every later delta the client is
 sent can be decoded by a relay that has seen the messages from the anchor on.

 The engine and the client are an arbitrary environment. It is assumed (the one axiom about the
 engine) that outgoing_sequence, as the frame reads it, is the number of the next message built
 for the client, and that message is full exactly when delta_message is not positive or the
 engine forces it; otherwise it is a delta from delta_message, the message the client's last
 packet asked for. A client is sent at most one message per frame and acknowledges only what was sent.
 */
module HoldChain {
  import opened Common
  import opened HoldModel
  import opened HoldFacts
  import opened HoldLedger

  datatype Msg = Full | Delta(base: int)

  /** One client: its gamestate number, the next message, the last one acknowledged, what it was sent. */
  datatype Peer = Peer(gen: int, out: int, ack: int, log: map<int, Msg>)

  datatype World = World(h: Hold, peers: map<nat, Peer>)

  /** Between two frames a client that stays the same acknowledges more or nothing. */
  predicate Packets(p: Peer, p': Peer) {
    p'.gen == p.gen && p'.out == p.out && p'.log == p.log && p.ack <= p'.ack
  }

  /** One frame: what arrived, what the scheduler reads, who is sent a message, whom the engine itself resyncs. */
  datatype Happening =
    | Served(inp: Input, arrived: map<nat, Peer>, sent: set<nat>, resynced: set<nat>)
    | Left(slot: nat)
    | MapChanged

  predicate ClientOf(p: Peer, c: Client) {
    c.outgoing == p.out && c.acknowledge == p.ack && (c.deltaMessage <= 0 || c.deltaMessage == p.ack)
  }

  ghost predicate Possible(w: World, e: Happening) {
    e.Served? ==>
      && (forall x :: x in e.arrived ==> e.arrived[x].ack < e.arrived[x].out)
      && (forall x :: x in e.inp.clients ==> x in e.arrived && ClientOf(e.arrived[x], e.inp.clients[x]))
      && (forall x :: x in e.arrived && x in w.peers && e.arrived[x].gen == w.peers[x].gen ==>
            Packets(w.peers[x], e.arrived[x]))
      && (e.inp.status.Some? ==>
            var live := Current(e.inp.status.value.slots);
            forall x :: x in live && x in e.arrived ==> live[x].gen == e.arrived[x].gen)
  }

  /** The client's next message, `c` being the engine's view of it after the scheduler ran. */
  function Send(p: Peer, c: Client, resynced: bool): Peer {
    p.(log := p.log[p.out := if resynced || c.deltaMessage <= 0 then Full else Delta(c.deltaMessage)], out := p.out + 1)
  }

  ghost function PeerAfter(e: Happening, after: map<nat, Client>, x: nat): Peer
    requires e.Served? && x in e.arrived
  {
    if x in e.sent && CanBeSent(after, x) then Send(e.arrived[x], after[x], x in e.resynced) else e.arrived[x]
  }

  ghost function PeersAfter(e: Happening, after: map<nat, Client>): map<nat, Peer>
    requires e.Served?
  {
    map x | x in e.arrived :: PeerAfter(e, after, x)
  }

  ghost function Next(w: World, e: Happening, csActive: int): World {
    match e
    case Served(inp, _, _, _) =>
      World(Frame(w.h, inp, csActive), PeersAfter(e, ClientsAfter(w.h, inp, csActive)))
    case Left(x) => World(Drop(w.h, {x}), w.peers)
    case MapChanged => World(Reset(w.h), w.peers)
  }

  // ---- while a hold runs, everything sent under it is full ---------------------------------

  predicate AllFull(log: map<int, Msg>, from: int, to: int) {
    forall n :: from <= n < to ==> n in log && log[n].Full?
  }

  ghost predicate HoldFull(w: World, x: nat)
    requires x in w.h.slots && w.h.slots[x].target.Some?
  {
    var st := w.h.slots[x];
    && x in w.peers && w.peers[x].gen == st.gen
    && st.startSeq <= st.target.value && st.startSeq <= w.peers[x].out
    && AllFull(w.peers[x].log, st.startSeq, w.peers[x].out)
  }

  ghost predicate HoldsFull(w: World) {
    && SlotsOk(w.h.slots, w.h.frameNo)
    && forall x :: x in w.h.slots && w.h.slots[x].target.Some? ==> HoldFull(w, x)
  }

  /** The engine's view of a slot the frame forces, or of one it leaves alone. */
  lemma AfterFrame(h: Hold, inp: Input, csActive: int, x: nat)
    ensures CanBeSent(ClientsAfter(h, inp, csActive), x) == CanBeSent(inp.clients, x)
    ensures x in inp.clients ==> x in ClientsAfter(h, inp, csActive)
    ensures x in inp.clients && x in Forcing(h, inp, csActive) && CanBeSent(inp.clients, x) ==>
              ClientsAfter(h, inp, csActive)[x].deltaMessage == -1
    ensures x in inp.clients ==>
              ClientsAfter(h, inp, csActive)[x].deltaMessage in {-1, inp.clients[x].deltaMessage}
  {
    hide Forcing;
  }

  /** The slot's hold after a frame: its message numbers, told from the slot before. */
  ghost predicate HeldFrom(t: Tick, was: Option<Slot>, x: nat, st: Slot) {
    && x in t.live && x in t.clients && st.gen == t.live[x].gen && st.target.Some?
    && var out := t.clients[x].outgoing;
       || (st.target == Some(out) && st.startSeq == out)
       || (was.Some? && was.value.target.Some? && st.startSeq == was.value.startSeq
           && (st.target == was.value.target || st.target == Some(out)))
  }

  lemma HeldFacts(t: Tick, was: Option<Slot>, p: Slot, started: bool, x: nat, st: Slot)
    requires x in t.live && AskedFrom(t, was, x, p) && LeavesAs(t, p, started, x, st) && st.target.Some?
    ensures HeldFrom(t, was, x, st)
  {}

  lemma HeldAfter(h: Hold, inp: Input, csActive: int, x: nat)
    requires Streaming(inp) && SlotsOk(h.slots, h.frameNo)
    requires x in Frame(h, inp, csActive).slots && Frame(h, inp, csActive).slots[x].target.Some?
    ensures HeldFrom(TickOf(h, inp, csActive), Was(TickOf(h, inp, csActive), h, x), x, Frame(h, inp, csActive).slots[x])
  {
    hide *;
    var t := TickOf(h, inp, csActive);
    FrameSlot(h, inp, csActive, x);
    FrameFacts(h, inp, csActive, x);
    HeldFacts(t, Was(t, h, x), Prepared(t, h, inp).slots[x], x in StartedNow(t, h, inp), x, Frame(h, inp,
        csActive).slots[x]);
  }

  lemma TickIs(h: Hold, inp: Input, csActive: int)
    requires Streaming(inp)
    ensures TickOf(h, inp, csActive).live == Current(inp.status.value.slots)
    ensures TickOf(h, inp, csActive).clients == inp.clients
  {}

  /** A forced message extends the full range. */
  lemma SendKeepsFull(p: Peer, c: Client, resynced: bool, from: int)
    requires from <= p.out && AllFull(p.log, from, p.out) && c.deltaMessage <= 0
    ensures AllFull(Send(p, c, resynced).log, from, p.out + 1)
  {}

  lemma HoldFullPeer(e: Happening, after: map<nat, Client>, x: nat, from: int)
    requires e.Served? && x in e.arrived && x in e.inp.clients && x in after
    requires CanBeSent(after, x) == CanBeSent(e.inp.clients, x) && (CanBeSent(after, x) ==> after[x].deltaMessage == -1)
    requires from <= e.arrived[x].out && AllFull(e.arrived[x].log, from, e.arrived[x].out)
    ensures x in PeersAfter(e, after)
    ensures var p := PeersAfter(e, after)[x];
            p.gen == e.arrived[x].gen && from <= p.out && AllFull(p.log, from, p.out)
  {
    hide AllFull;
    if x in e.sent && CanBeSent(after, x) {
      SendKeepsFull(e.arrived[x], after[x], x in e.resynced, from);
    }
  }

  /** What is known of a client the scheduler sees. */
  lemma ArrivedFacts(w: World, e: Happening, csActive: int, x: nat)
    requires e.Served? && Possible(w, e) && Streaming(e.inp)
    requires x in TickOf(w.h, e.inp, csActive).live && x in e.inp.clients
    ensures x in e.arrived && e.inp.clients[x].outgoing == e.arrived[x].out
    ensures TickOf(w.h, e.inp, csActive).live[x].gen == e.arrived[x].gen
  {
    TickIs(w.h, e.inp, csActive);
    hide TickOf, Current;
  }

  lemma HoldFullAfter(w: World, e: Happening, csActive: int, x: nat)
    requires e.Served? && Possible(w, e) && HoldsFull(w) && Streaming(e.inp)
    requires var h' := Frame(w.h, e.inp, csActive); x in h'.slots && h'.slots[x].target.Some?
    ensures HoldFull(Next(w, e, csActive), x)
  {
    hide Frame, TickOf, Current, Forcing, SlotsOk, ClientsAfter, Was, HeldFrom, AllFull, Possible, HoldsFull,
        PeersAfter, CanBeSent;
    var inp := e.inp;
    var t, st := TickOf(w.h, inp, csActive), Frame(w.h, inp, csActive).slots[x];
    assert SlotsOk(w.h.slots, w.h.frameNo) by { HoldsOk(w); }
    HeldAfter(w.h, inp, csActive, x);
    HeldTells(t, Was(t, w.h, x), x, st);
    TickIs(w.h, inp, csActive);
    ArrivedFacts(w, e, csActive, x);
    ForcingIff(w.h, inp, csActive, x);
    AfterFrame(w.h, inp, csActive, x);
    HeldRange(w, e, t, x, st);
    HoldFullPeer(e, ClientsAfter(w.h, inp, csActive), x, st.startSeq);
  }

  lemma HoldsOk(w: World)
    requires HoldsFull(w)
    ensures SlotsOk(w.h.slots, w.h.frameNo)
  {}

  lemma HeldTells(t: Tick, was: Option<Slot>, x: nat, st: Slot)
    requires HeldFrom(t, was, x, st)
    ensures x in t.live && x in t.clients && st.gen == t.live[x].gen
  {}

  /** Before the frame sends anything, what the hold covers so far is full. */
  lemma HeldRange(w: World, e: Happening, t: Tick, x: nat, st: Slot)
    requires e.Served? && Possible(w, e) && HoldsFull(w) && x in e.arrived && x in e.inp.clients
    requires t.clients == e.inp.clients && HeldFrom(t, Was(t, w.h, x), x, st) && e.arrived[x].gen == st.gen
    ensures st.startSeq <= st.target.value && st.startSeq <= e.arrived[x].out
    ensures AllFull(e.arrived[x].log, st.startSeq, e.arrived[x].out)
  {
    var was := Was(t, w.h, x);
    if was.Some? && was.value.target.Some? && st.startSeq == was.value.startSeq {
      assert HoldFull(w, x);
      assert Packets(w.peers[x], e.arrived[x]);
    }
  }

  lemma HoldsFullServed(w: World, e: Happening, csActive: int)
    requires HoldsFull(w) && Possible(w, e) && e.Served? && Streaming(e.inp)
    ensures HoldsFull(Next(w, e, csActive))
  {
    hide *;
    HoldsOk(w);
    FrameSlotsOk(w.h, e.inp, csActive);
    var w' := Next(w, e, csActive);
    NextHold(w, e, csActive);
    forall x | x in w'.h.slots && w'.h.slots[x].target.Some? ensures HoldFull(w', x) {
      HoldFullAfter(w, e, csActive, x);
    }
    AllHoldsFull(w');
  }

  lemma NextHold(w: World, e: Happening, csActive: int)
    requires e.Served?
    ensures Next(w, e, csActive).h == Frame(w.h, e.inp, csActive)
  {
    hide Frame, PeersAfter, ClientsAfter;
  }

  lemma AllHoldsFull(w: World)
    requires SlotsOk(w.h.slots, w.h.frameNo)
    requires forall x :: x in w.h.slots && w.h.slots[x].target.Some? ==> HoldFull(w, x)
    ensures HoldsFull(w)
  {
    hide SlotsOk, HoldFull;
  }

  /** Every step of the world keeps it. */
  lemma HoldsFullStep(w: World, e: Happening, csActive: int)
    requires HoldsFull(w) && Possible(w, e)
    ensures HoldsFull(Next(w, e, csActive))
  {
    match e
    case Served(inp, _, _, _) =>
      if Streaming(inp) {
        HoldsFullServed(w, e, csActive);
      }
    case Left(x) =>
      var w' := Next(w, e, csActive);
      forall y | y in w'.h.slots && w'.h.slots[y].target.Some? ensures HoldFull(w', y) {
        assert HoldFull(w, y);
      }
    case MapChanged =>
  }

  // ---- after the acknowledgement --------------------------------------------------------------

  /** Every message from `floor` on is full or a delta from an earlier message at or above the floor. */
  ghost predicate Floor(p: Peer, floor: int) {
    && floor <= p.ack < p.out
    && forall n :: floor <= n < p.out ==>
         n in p.log && (p.log[n].Delta? ==> floor <= p.log[n].base < n)
  }

  /** The chain of bases of message n reaches a full message without ever leaving [floor, n]. */
  predicate Decodable(log: map<int, Msg>, n: int, floor: int)
    decreases n - floor
  {
    && floor <= n && n in log
    && (log[n].Full? || (floor <= log[n].base < n && Decodable(log, log[n].base, floor)))
  }

  lemma {:induction false} FloorDecodes(p: Peer, floor: int, n: int)
    requires Floor(p, floor) && floor <= n < p.out
    ensures Decodable(p.log, n, floor)
    decreases n - floor
  {
    if p.log[n].Delta? {
      FloorDecodes(p, floor, p.log[n].base);
    }
  }

  /** The next message of a client whose acknowledgement is above the floor. */
  lemma FloorSend(p: Peer, c: Client, resynced: bool, floor: int)
    requires Floor(p, floor) && (c.deltaMessage <= 0 || c.deltaMessage == p.ack)
    ensures Floor(Send(p, c, resynced), floor)
  {}

  lemma FloorArrives(p: Peer, p': Peer, floor: int)
    requires Floor(p, floor) && Packets(p, p') && p'.ack < p'.out
    ensures Floor(p', floor)
  {}

  lemma FloorServed(e: Happening, h: Hold, csActive: int, floor: int, x: nat)
    requires e.Served? && x in e.arrived && Floor(e.arrived[x], floor)
    requires x in e.inp.clients ==> ClientOf(e.arrived[x], e.inp.clients[x])
    ensures Floor(PeerAfter(e, ClientsAfter(h, e.inp, csActive), x), floor)
  {
    AfterFrame(h, e.inp, csActive, x);
    hide ClientsAfter, Floor;
    if x in e.sent && CanBeSent(e.inp.clients, x) {
      FloorSend(e.arrived[x], ClientsAfter(h, e.inp, csActive)[x], x in e.resynced, floor);
    }
  }

  lemma FloorStep(w: World, e: Happening, csActive: int, floor: int, x: nat)
    requires Possible(w, e) && x in w.peers && Floor(w.peers[x], floor)
    requires x in Next(w, e, csActive).peers && Next(w, e, csActive).peers[x].gen == w.peers[x].gen
    ensures Floor(Next(w, e, csActive).peers[x], floor)
  {
    if e.Served? {
      hide Frame, ClientsAfter, Floor;
      FloorArrives(w.peers[x], e.arrived[x], floor);
      FloorServed(e, w.h, csActive, floor, x);
    }
  }

  /** Slot x's hold ends in this frame because the client acknowledged its target. */
  ghost predicate AckedIn(w: World, e: Happening, csActive: int, x: nat) {
    && e.Served? && Streaming(e.inp)
    && var t := TickOf(w.h, e.inp, csActive);
       x in Prepared(t, w.h, e.inp).slots && OutcomeOf(t, Prepared(t, w.h, e.inp).slots[x], x) == HoldModel.Acked
  }

  /** A hold that is acknowledged was running, and its anchor was not moved in the same frame. */
  lemma AckedFacts(w: World, e: Happening, csActive: int, x: nat)
    requires HoldsFull(w) && Possible(w, e) && AckedIn(w, e, csActive, x)
    ensures x in w.h.slots && w.h.slots[x].target.Some?
    ensures x in e.arrived && x in e.inp.clients && e.arrived[x].ack >= w.h.slots[x].target.value
    ensures x in w.peers && Packets(w.peers[x], e.arrived[x])
  {
    hide Prepared, TickOf, SlotsOk, Current, OutcomeOf, AskedFrom, HoldsFull, HoldFull, Possible, Was, Packets;
    var t := TickOf(w.h, e.inp, csActive);
    HoldsOk(w);
    TickIs(w.h, e.inp, csActive);
    PreparedKeys(t, w.h, e.inp);
    NextFrameNo(w.h, e.inp, csActive);
    LaterOk(w.h.slots, w.h.frameNo, t.frameNo);
    PreparedFacts(t, w.h, e.inp, x);
    AckedOutcome(t, w.h, x, Prepared(t, w.h, e.inp).slots[x]);
    AckedArrived(w, e, csActive, x);
  }

  lemma NextFrameNo(h: Hold, inp: Input, csActive: int)
    requires Streaming(inp)
    ensures TickOf(h, inp, csActive).frameNo == h.frameNo + 1
  {}

  lemma AckedOutcome(t: Tick, h: Hold, x: nat, st: Slot)
    requires AskedFrom(t, Was(t, h, x), x, st) && OutcomeOf(t, st, x) == HoldModel.Acked
    ensures x in h.slots && x in t.live && h.slots[x].gen == t.live[x].gen && h.slots[x].target.Some?
    ensures x in t.clients
    ensures t.clients[x].acknowledge >= h.slots[x].target.value || t.clients[x].acknowledge >= t.clients[x].outgoing
  {}

  lemma AckedArrived(w: World, e: Happening, csActive: int, x: nat)
    requires e.Served? && Possible(w, e) && HoldsFull(w) && Streaming(e.inp)
    requires x in TickOf(w.h, e.inp, csActive).live && x in e.inp.clients
    requires x in w.h.slots && w.h.slots[x].target.Some? && w.h.slots[x].gen == TickOf(w.h, e.inp, csActive).live[x].gen
    ensures x in e.arrived && ClientOf(e.arrived[x], e.inp.clients[x]) && e.arrived[x].ack < e.arrived[x].out
    ensures x in w.peers && Packets(w.peers[x], e.arrived[x])
  {
    ArrivedFacts(w, e, csActive, x);
    assert HoldFull(w, x);
    hide TickOf, Current, Packets, AllFull;
  }

  lemma FloorBegins(w: World, e: Happening, csActive: int, x: nat)
    requires HoldsFull(w) && Possible(w, e) && AckedIn(w, e, csActive, x)
    ensures x in w.h.slots && w.h.slots[x].target.Some? && x in w.peers
    ensures AllFull(w.peers[x].log, w.h.slots[x].target.value, w.peers[x].out)
    ensures x in Next(w, e, csActive).peers && Floor(Next(w, e, csActive).peers[x], w.h.slots[x].target.value)
  {
    hide Frame, ClientsAfter, Floor, HoldFull, HoldsFull, Possible, AllFull, TickOf, Prepared;
    AckedFacts(w, e, csActive, x);
    var anchor := w.h.slots[x].target.value;
    AckedRange(w, e, csActive, x);
    FloorServed(e, w.h, csActive, anchor, x);
  }

  lemma AckedRange(w: World, e: Happening, csActive: int, x: nat)
    requires HoldsFull(w) && Possible(w, e) && e.Served? && x in w.h.slots && w.h.slots[x].target.Some?
    requires x in e.arrived && x in e.inp.clients && e.arrived[x].ack >= w.h.slots[x].target.value
    requires x in w.peers && Packets(w.peers[x], e.arrived[x])
    ensures AllFull(w.peers[x].log, w.h.slots[x].target.value, w.peers[x].out)
    ensures Floor(e.arrived[x], w.h.slots[x].target.value)
    ensures ClientOf(e.arrived[x], e.inp.clients[x])
  {
    assert HoldFull(w, x);
  }

  // ---- whole runs -------------------------------------------------------------------------------

  ghost function After(w: World, es: seq<Happening>, csActive: int): World
    decreases |es|
  {
    if es == [] then w else After(Next(w, es[0], csActive), es[1..], csActive)
  }

  ghost predicate PossibleRun(w: World, es: seq<Happening>, csActive: int)
    decreases |es|
  {
    es != [] ==> Possible(w, es[0]) && PossibleRun(Next(w, es[0], csActive), es[1..], csActive)
  }

  /** The client in slot x stays the same, gamestate `gen`. */
  ghost predicate SameClient(w: World, es: seq<Happening>, csActive: int, x: nat, gen: int)
    decreases |es|
  {
    && x in w.peers && w.peers[x].gen == gen
    && (es != [] ==> SameClient(Next(w, es[0], csActive), es[1..], csActive, x, gen))
  }

  lemma {:induction false} HoldsFullRun(w: World, es: seq<Happening>, csActive: int)
    requires HoldsFull(w) && PossibleRun(w, es, csActive)
    ensures HoldsFull(After(w, es, csActive))
    decreases |es|
  {
    if es != [] {
      hide HoldsFull, Next, Possible;
      HoldsFullStep(w, es[0], csActive);
      HoldsFullRun(Next(w, es[0], csActive), es[1..], csActive);
    }
  }

  lemma {:induction false} FloorRun(w: World, es: seq<Happening>, csActive: int, floor: int, x: nat, gen: int)
    requires PossibleRun(w, es, csActive) && SameClient(w, es, csActive, x, gen) && Floor(w.peers[x], floor)
    ensures x in After(w, es, csActive).peers && Floor(After(w, es, csActive).peers[x], floor)
    decreases |es|
  {
    if es != [] {
      hide Floor, Next, Possible;
      FloorStep(w, es[0], csActive, floor, x);
      FloorRun(Next(w, es[0], csActive), es[1..], csActive, floor, x, gen);
    }
  }

  /**
   The guarantee of a hold. In any run from a fresh scheduler, if a hold of slot x is ended by an
   acknowledgement, every message sent from its anchor until then was full, and as long as the client
   stays the same every message it is ever sent afterwards decodes from full messages at or above the anchor.
   */
  lemma AckedHoldRepairsChain(peers: map<nat, Peer>, before: seq<Happening>, e: Happening, later: seq<Happening>,
                              csActive: int, x: nat, gen: int)
    requires PossibleRun(World(INITIAL, peers), before, csActive)
    requires var w := After(World(INITIAL, peers), before, csActive);
             && Possible(w, e) && AckedIn(w, e, csActive, x)
             && PossibleRun(Next(w, e, csActive), later, csActive)
             && SameClient(Next(w, e, csActive), later, csActive, x, gen)
    ensures var w := After(World(INITIAL, peers), before, csActive);
            var end := After(Next(w, e, csActive), later, csActive);
            && x in w.h.slots && w.h.slots[x].target.Some? && x in w.peers && x in end.peers
            && var anchor := w.h.slots[x].target.value;
               && AllFull(w.peers[x].log, anchor, w.peers[x].out)
               && forall n :: anchor <= n < end.peers[x].out ==> Decodable(end.peers[x].log, n, anchor)
  {
    hide HoldsFull, Floor, AckedIn, Possible, Next, AllFull, Decodable, After, PossibleRun, SameClient;
    var w0 := World(INITIAL, peers);
    InitialHoldsFull(peers);
    HoldsFullRun(w0, before, csActive);
    var w := After(w0, before, csActive);
    FloorBegins(w, e, csActive, x);
    var anchor := w.h.slots[x].target.value;
    FloorRun(Next(w, e, csActive), later, csActive, anchor, x, gen);
    var end := After(Next(w, e, csActive), later, csActive);
    assert SameClient(Next(w, e, csActive), later, csActive, x, gen);
    forall n | anchor <= n < end.peers[x].out ensures Decodable(end.peers[x].log, n, anchor) {
      FloorDecodes(end.peers[x], anchor, n);
    }
  }

  lemma InitialHoldsFull(peers: map<nat, Peer>)
    ensures HoldsFull(World(INITIAL, peers))
  {}
}
