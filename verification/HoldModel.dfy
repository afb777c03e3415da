/**
 One server frame of the resync hold scheduler as a function of its state.
 Every loop of the frame over the slot dictionary is described slot by slot, so the
 description does not depend on the order in which the slots are visited; the
 parameter `done` of a phase is the set of slots its loop has visited.
 */
module HoldModel {
  import opened Common
  import opened SlotOrder

  const HOLD_COOLDOWN_FRAMES := 20
  const HOLD_STALL_FACTOR := 4
  const WAIT_MAX_AGE_FRAMES := 60
  const KEYFRAME_SLACK_MS := 500
  const BEHIND_LAG_MS := 250
  const BEHIND_PENDING_BYTES := 262144
  const BEHIND_RECOVER_FRAMES := 40

  // ---- what the frame reads -------------------------------------------------

  datatype SlotStatus = SlotStatus(slot: nat, active: bool, resyncing: bool, gen: int)

  /** stream_status(): the stream's counters and its slots. */
  datatype Status = Status(enabled: bool, connected: bool, resyncs: int, lag: int, pending: int,
                           droppedRing: int, droppedLag: int, droppedStall: int,
                           slots: seq<SlotStatus>)

  /** The engine's view of one client. */
  datatype Client = Client(state: int, deltaMessage: int, acknowledge: int, outgoing: int,
                           unsentFragments: bool)

  /** Arguments of one frame() call. */
  datatype Input = Input(status: Option<Status>, clients: map<nat, Client>, now: int,
                         maxFrames: int, perFrame: int, keyframeMs: int)

  datatype Live = Live(gen: int, resyncing: bool)

  // ---- the scheduler's state ------------------------------------------------

  datatype Why = Unset | Flag | Counter | Guessed | FirstSight

  function Rank(why: Why): int {
    match why
    case Flag => 0
    case Counter => 1
    case Guessed => 1
    case FirstSight => 2
    case Unset => 3
  }

  datatype Slot = Slot(gen: int, resyncing: bool, lastFull: Option<int>, target: Option<int>,
                       startSeq: int, startFrame: int, want: bool, why: Why, wantFrame: int,
                       cooldownUntil: int)

  function NewSlot(gen: int, lastFull: Option<int>): Slot {
    Slot(gen, false, lastFull, None, 0, 0, false, Unset, 0, 0)
  }

  /** Holds begun and full snapshots forced, of one slot. */
  datatype Tally = Tally(holds: int, forced: int)

  datatype Totals = Totals(perSlot: map<nat, Tally>, started: int, acked: int, capped: int, cancelled: int,
                           forced: int, retargeted: int, byCounter: int, guessed: int, longest: int,
                           droppedWaits: int, behindFrames: int)

  datatype Link = Link(resyncs: Option<int>, dropped: Option<int>, connected: Option<bool>,
                       downResyncs: int, behindUntil: int, behind: bool)

  datatype Hold = Hold(frameNo: int, slots: map<nat, Slot>, totals: Totals, link: Link, isFresh: bool)

  const INITIAL: Hold :=
    Hold(0, map[], Totals(map[], 0, 0, 0, 0, 0, 0, 0, 0, 0, 0, 0), Link(None, None, None, 0, 0, false), true)

  function Holding(slots: map<nat, Slot>): set<nat> {
    set x | x in slots && slots[x].target.Some?
  }

  function Waiting(slots: map<nat, Slot>): set<nat> {
    set x | x in slots && slots[x].want
  }

  // ---- parts shared by the phases -------------------------------------------

  /** How many slots of xs are among those visited. */
  function Count(xs: set<nat>, done: set<nat>): nat {
    |xs * done|
  }

  function TallyOf(p: map<nat, Tally>, x: nat): Tally {
    if x in p then p[x] else Tally(0, 0)
  }

  /** drop_slot, for every slot of xs. */
  function Drop(h: Hold, xs: set<nat>): Hold {
    h.(slots := h.slots - xs,
       totals := h.totals.(cancelled := h.totals.cancelled + Count(Holding(h.slots), xs)))
  }

  function Reset(h: Hold): Hold {
    Drop(h, h.slots.Keys).(
      link := h.link.(resyncs := None, dropped := None, behindUntil := 0, behind := false), isFresh := true)
  }

  function Ask(st: Slot, why: Why, frameNo: int): Slot {
    if st.target.None? && !st.want then st.(want := true, why := why, wantFrame := frameNo)
    else if st.want && Rank(why) < Rank(st.why) then st.(why := why)
    else st
  }

  function Ended(st: Slot, frameNo: int): Slot {
    st.(target := None, cooldownUntil := frameNo + HOLD_COOLDOWN_FRAMES)
  }

  /** Messages sent since the running hold began, as _end counts them. */
  function Sent(clients: map<nat, Client>, st: Slot, x: nat): int {
    if x in clients then Max(0, clients[x].outgoing - st.startSeq) else 0
  }

  function SentMap(clients: map<nat, Client>, slots: map<nat, Slot>): map<nat, int> {
    map x | x in slots :: Sent(clients, slots[x], x)
  }

  function Credited(p: map<nat, Tally>, xs: set<nat>, sent: map<nat, int>, x: nat): Tally
    requires xs <= sent.Keys
  {
    var tally := TallyOf(p, x);
    if x in xs then tally.(forced := tally.forced + sent[x]) else tally
  }

  function Credits(p: map<nat, Tally>, xs: set<nat>, sent: map<nat, int>): map<nat, Tally>
    requires xs <= sent.Keys
  {
    map x | x in p.Keys + xs :: Credited(p, xs, sent, x)
  }

  /** The totals after the holds of xs ended, each having forced sent[x] snapshots. */
  ghost function Settle(c: Totals, xs: set<nat>, sent: map<nat, int>): Totals
    requires xs <= sent.Keys
  {
    c.(forced := c.forced + Sum(xs, sent), perSlot := Credits(c.perSlot, xs, sent),
       longest := Peak(c.longest, xs, sent))
  }

  // ---- the start of a frame -------------------------------------------------

  /** Active slots by number; a later entry for the same slot replaces an earlier one. */
  function Current(slots: seq<SlotStatus>): map<nat, Live> {
    if slots == [] then map[]
    else
      var before, s := Current(slots[..|slots| - 1]), slots[|slots| - 1];
      if s.active then before[s.slot := Live(s.gen, s.resyncing)] else before
  }

  function EngineForced(link: Link, status: Status): int {
    if link.resyncs.Some? && status.resyncs > link.resyncs.value then status.resyncs - link.resyncs.value else 0
  }

  function BehindUntil(link: Link, status: Status, frameNo: int): int {
    var total := status.droppedRing + status.droppedLag + status.droppedStall;
    if (link.dropped.Some? && total > link.dropped.value)
       || status.lag >= BEHIND_LAG_MS || status.pending >= BEHIND_PENDING_BYTES
    then frameNo + BEHIND_RECOVER_FRAMES else link.behindUntil
  }

  function NextLink(link: Link, status: Status, frameNo: int): Link {
    var until := BehindUntil(link, status, frameNo);
    var down := if link.connected == Some(status.connected) then link.downResyncs else 0;
    Link(Some(status.resyncs), Some(status.droppedRing + status.droppedLag + status.droppedStall),
         Some(status.connected),
         if status.connected then down else down + EngineForced(link, status),
         until, frameNo < until)
  }

  /** The frame is counted, the stream's counters are read. */
  function Begin(h: Hold, status: Status): Hold {
    var frameNo := h.frameNo + 1;
    var link := NextLink(h.link, status, frameNo);
    h.(frameNo := frameNo, link := link,
       totals := h.totals.(behindFrames := h.totals.behindFrames + if link.behind then 1 else 0))
  }

  /** What the phases below read: fixed for the rest of the frame. */
  datatype Tick = Tick(frameNo: int, live: map<nat, Live>, clients: map<nat, Client>, connected: bool,
                       behind: bool, isFresh: bool, now: int,
                       maxFrames: int, perFrame: int, keyframeMs: int, csActive: int)

  predicate Playing(t: Tick, x: nat) {
    x in t.live && x in t.clients && t.clients[x].state == t.csActive && t.connected
  }

  function Players(t: Tick): set<nat> {
    set x | x in t.live && Playing(t, x)
  }

  predicate IsStale(t: Tick, slots: map<nat, Slot>, x: nat) {
    x in slots && (x !in t.live || t.live[x].gen != slots[x].gen)
  }

  /** Slots that closed or got a new gamestate. */
  function Stale(t: Tick, slots: map<nat, Slot>): set<nat> {
    set x | x in slots && IsStale(t, slots, x)
  }

  predicate IsCleared(t: Tick, slots: map<nat, Slot>, x: nat) {
    x in slots && x in t.live && slots[x].resyncing && !t.live[x].resyncing
  }

  function Cleared(t: Tick, slots: map<nat, Slot>): set<nat> {
    set x | x in slots && IsCleared(t, slots, x)
  }

  // ---- slots are admitted, holds of clients that left are cancelled ------------

  function Seen(t: Tick, slots: map<nat, Slot>, x: nat): Slot
    requires x in t.live
  {
    if x in slots then slots[x]
    else if t.isFresh then Ask(NewSlot(t.live[x].gen, None), FirstSight, t.frameNo)
    else NewSlot(t.live[x].gen, Some(t.now))
  }

  function Admitted(t: Tick, st: Slot, x: nat): Slot {
    if !Playing(t, x) then (if st.target.Some? then Ended(st, t.frameNo) else st).(want := false)
    else if st.target.None? && t.clients[x].deltaMessage <= 0 then st.(lastFull := Some(t.now))
    else st
  }

  function AdmitAt(t: Tick, slots: map<nat, Slot>, done: set<nat>, x: nat): Slot
    requires done <= t.live.Keys && x in slots.Keys + done
  {
    if x in done then Admitted(t, Seen(t, slots, x), x) else slots[x]
  }

  function AdmitSlots(t: Tick, slots: map<nat, Slot>, done: set<nat>): map<nat, Slot>
    requires done <= t.live.Keys
  {
    map x | x in slots.Keys + done :: AdmitAt(t, slots, done, x)
  }

  predicate IsLost(t: Tick, slots: map<nat, Slot>, x: nat) {
    x in slots && slots[x].target.Some? && !Playing(t, x)
  }

  function Lost(t: Tick, slots: map<nat, Slot>): set<nat> {
    set x | x in slots && IsLost(t, slots, x)
  }

  ghost function AdmitTotals(t: Tick, slots: map<nat, Slot>, c: Totals, done: set<nat>): Totals {
    var lost := Lost(t, slots) * done;
    Settle(c, lost, SentMap(t.clients, slots)).(cancelled := c.cancelled + Count(Lost(t, slots), done))
  }

  ghost function Admit(t: Tick, h: Hold, done: set<nat>): Hold
    requires done <= t.live.Keys
  {
    h.(slots := AdmitSlots(t, h.slots, done), totals := AdmitTotals(t, h.slots, h.totals, done))
  }

  // ---- flags that cleared -----------------------------------------------------

  function AfterFlag(t: Tick, st: Slot, x: nat): Slot {
    var full := st.(lastFull := Some(t.now));
    if !Playing(t, x) then full
    else if st.target.None? then Ask(full, Flag, t.frameNo)
    else full.(target := Some(t.clients[x].outgoing))
  }

  function ClearedAt(t: Tick, slots: map<nat, Slot>, done: set<nat>, x: nat): Slot
    requires x in slots
  {
    if x in done then AfterFlag(t, slots[x], x) else slots[x]
  }

  function ClearedSlots(t: Tick, slots: map<nat, Slot>, done: set<nat>): map<nat, Slot> {
    map x | x in slots :: ClearedAt(t, slots, done, x)
  }

  function ClearedTotals(t: Tick, slots: map<nat, Slot>, c: Totals, done: set<nat>): Totals {
    c.(retargeted := c.retargeted + Count(Holding(slots) * Players(t), done))
  }

  function AskCleared(t: Tick, h: Hold, done: set<nat>): Hold {
    h.(slots := ClearedSlots(t, h.slots, done), totals := ClearedTotals(t, h.slots, h.totals, done))
  }

  // ---- resyncs only the counter shows -----------------------------------------

  predicate IsCandidate(t: Tick, slots: map<nat, Slot>, cleared: set<nat>, x: nat) {
    && x in slots && Playing(t, x) && !slots[x].resyncing && !t.live[x].resyncing
    && x !in cleared && slots[x].target.None? && !slots[x].want
  }

  function Candidates(t: Tick, slots: map<nat, Slot>, cleared: set<nat>): set<nat> {
    set x | x in slots && IsCandidate(t, slots, cleared, x)
  }

  /** Oldest known full snapshot first, unknown ones before all others. */
  function AgeKey(st: Slot): Key {
    match st.lastFull case None => Key(0, 0) case Some(at) => Key(1, at)
  }

  function AgeKeys(slots: map<nat, Slot>): map<nat, Key> {
    map x | x in slots :: AgeKey(slots[x])
  }

  function DueAge(keyframeMs: int): int {
    if keyframeMs > 0 then Max(0, keyframeMs - KEYFRAME_SLACK_MS) else 0
  }

  predicate LooksDue(t: Tick, st: Slot) {
    st.lastFull.None? || t.now - st.lastFull.value >= DueAge(t.keyframeMs)
  }

  function Picked(t: Tick, slots: map<nat, Slot>, cleared: set<nat>, unexplained: int): (q: seq<nat>)
    ensures forall x :: x in q ==> x in slots
  {
    if unexplained > 0 && t.connected && !t.behind then
      var q := Sorted(Candidates(t, slots, cleared), AgeKeys(slots));
      if unexplained < |q| then q[..unexplained] else q
    else []
  }

  function AfterCounter(t: Tick, st: Slot): Slot {
    Ask(st, if LooksDue(t, st) then Counter else Guessed, t.frameNo).(lastFull := Some(t.now))
  }

  function CounterAt(t: Tick, slots: map<nat, Slot>, done: set<nat>, x: nat): Slot
    requires x in slots
  {
    if x in done then AfterCounter(t, slots[x]) else slots[x]
  }

  function CounterSlots(t: Tick, slots: map<nat, Slot>, done: set<nat>): map<nat, Slot> {
    map x | x in slots :: CounterAt(t, slots, done, x)
  }

  // ---- flags are stored, waits that are too old are given up --------------------

  function FlagAt(t: Tick, slots: map<nat, Slot>, done: set<nat>, x: nat): Slot
    requires done <= t.live.Keys && x in slots
  {
    if x in done then slots[x].(resyncing := t.live[x].resyncing) else slots[x]
  }

  function FlagSlots(t: Tick, slots: map<nat, Slot>, done: set<nat>): map<nat, Slot>
    requires done <= t.live.Keys
  {
    map x | x in slots :: FlagAt(t, slots, done, x)
  }

  predicate IsOutdated(t: Tick, slots: map<nat, Slot>, x: nat) {
    && x in slots && slots[x].want && slots[x].why != Flag
    && (t.behind || t.frameNo - slots[x].wantFrame > WAIT_MAX_AGE_FRAMES)
  }

  function Outdated(t: Tick, slots: map<nat, Slot>): set<nat> {
    set x | x in slots && IsOutdated(t, slots, x)
  }

  function WaitAt(t: Tick, slots: map<nat, Slot>, done: set<nat>, x: nat): Slot
    requires x in slots
  {
    if x in done && IsOutdated(t, slots, x) then slots[x].(want := false) else slots[x]
  }

  function WaitSlots(t: Tick, slots: map<nat, Slot>, done: set<nat>): map<nat, Slot> {
    map x | x in slots :: WaitAt(t, slots, done, x)
  }

  function WaitTotals(t: Tick, slots: map<nat, Slot>, c: Totals, done: set<nat>): Totals {
    c.(droppedWaits := c.droppedWaits + Count(Outdated(t, slots), done))
  }

  function DropWaits(t: Tick, h: Hold, done: set<nat>): Hold {
    h.(slots := WaitSlots(t, h.slots, done), totals := WaitTotals(t, h.slots, h.totals, done))
  }

  // ---- running holds ------------------------------------------------------------

  datatype Outcome = Idle | Cancelled | Acked | Capped | Running

  function OutcomeOf(t: Tick, st: Slot, x: nat): Outcome {
    if !Playing(t, x) || st.target.None? then Idle
    else if t.behind then Cancelled
    else if t.clients[x].acknowledge >= st.target.value then Acked
    else if t.clients[x].outgoing - st.startSeq >= t.maxFrames then Capped
    else if t.frameNo - st.startFrame >= t.maxFrames * HOLD_STALL_FACTOR then Capped
    else Running
  }

  function With(t: Tick, slots: map<nat, Slot>, o: Outcome): set<nat> {
    set x | x in slots && OutcomeOf(t, slots[x], x) == o
  }

  predicate Closes(o: Outcome) {
    o == Cancelled || o == Acked || o == Capped
  }

  function Closing(t: Tick, slots: map<nat, Slot>): set<nat> {
    set x | x in slots && Closes(OutcomeOf(t, slots[x], x))
  }

  predicate CanBeSent(clients: map<nat, Client>, x: nat) {
    x in clients && !clients[x].unsentFragments
  }

  /** _force: no snapshot goes to a client with unsent fragments. */
  function Forced(t: Tick, st: Slot, x: nat): Slot {
    if CanBeSent(t.clients, x) then st.(lastFull := Some(t.now)) else st
  }

  function AfterRun(t: Tick, st: Slot, x: nat): Slot {
    match OutcomeOf(t, st, x)
    case Idle => st
    case Running => Forced(t, st, x)
    case _ => Ended(st, t.frameNo)
  }

  function RunAt(t: Tick, slots: map<nat, Slot>, done: set<nat>, x: nat): Slot
    requires x in slots
  {
    if x in done then AfterRun(t, slots[x], x) else slots[x]
  }

  function RunSlots(t: Tick, slots: map<nat, Slot>, done: set<nat>): map<nat, Slot> {
    map x | x in slots :: RunAt(t, slots, done, x)
  }

  ghost function RunTotals(t: Tick, slots: map<nat, Slot>, c: Totals, done: set<nat>): Totals {
    Settle(c, Closing(t, slots) * done, SentMap(t.clients, slots)).(
      cancelled := c.cancelled + Count(With(t, slots, Cancelled), done),
      acked := c.acked + Count(With(t, slots, Acked), done),
      capped := c.capped + Count(With(t, slots, Capped), done))
  }

  ghost function RunHolds(t: Tick, h: Hold, done: set<nat>): Hold {
    h.(slots := RunSlots(t, h.slots, done), totals := RunTotals(t, h.slots, h.totals, done))
  }

  // ---- holds that wait ------------------------------------------------------------

  function QueueKey(st: Slot): Key {
    Key(Rank(st.why), st.wantFrame)
  }

  function QueueKeys(slots: map<nat, Slot>): map<nat, Key> {
    map x | x in slots :: QueueKey(slots[x])
  }

  function Queue(t: Tick, slots: map<nat, Slot>): seq<nat> {
    Sorted(Waiting(slots) * Players(t), QueueKeys(slots))
  }

  predicate CoolingDown(t: Tick, st: Slot) {
    st.why != Flag && t.frameNo < st.cooldownUntil
  }

  /** The slots of q that start, with room for `room` holds. */
  function Starting(t: Tick, slots: map<nat, Slot>, q: seq<nat>, room: int): (xs: seq<nat>)
    requires forall i :: 0 <= i < |q| ==> q[i] in slots
    ensures forall x :: x in xs ==> x in q
  {
    if q == [] || room <= 0 then []
    else if CoolingDown(t, slots[q[0]]) then Starting(t, slots, q[1..], room)
    else [q[0]] + Starting(t, slots, q[1..], room - 1)
  }

  function Started(t: Tick, slots: map<nat, Slot>, running: int): seq<nat> {
    if t.behind || running >= t.perFrame then []
    else Starting(t, slots, Queue(t, slots), t.perFrame - running)
  }

  function AfterStart(t: Tick, st: Slot, x: nat): Slot
    requires x in t.clients
  {
    var seqNo := t.clients[x].outgoing;
    Forced(t, st.(want := false, target := Some(seqNo), startSeq := seqNo, startFrame := t.frameNo), x)
  }

  function StartAt(t: Tick, slots: map<nat, Slot>, done: set<nat>, x: nat): Slot
    requires done <= t.clients.Keys && x in slots
  {
    if x in done then AfterStart(t, slots[x], x) else slots[x]
  }

  function StartSlots(t: Tick, slots: map<nat, Slot>, done: set<nat>): map<nat, Slot>
    requires done <= t.clients.Keys
  {
    map x | x in slots :: StartAt(t, slots, done, x)
  }

  function Counted(p: map<nat, Tally>, xs: set<nat>, x: nat): Tally {
    var tally := TallyOf(p, x);
    if x in xs then tally.(holds := tally.holds + 1) else tally
  }

  function Counts(p: map<nat, Tally>, xs: set<nat>): map<nat, Tally> {
    map x | x in p.Keys + xs :: Counted(p, xs, x)
  }

  function ByCounter(slots: map<nat, Slot>): set<nat> {
    set x | x in slots && (slots[x].why == Counter || slots[x].why == Guessed)
  }

  function Guesses(slots: map<nat, Slot>): set<nat> {
    set x | x in slots && slots[x].why == Guessed
  }

  function StartTotals(slots: map<nat, Slot>, c: Totals, done: set<nat>): Totals {
    c.(perSlot := Counts(c.perSlot, done), started := c.started + Count(done, done),
       byCounter := c.byCounter + Count(ByCounter(slots), done),
       guessed := c.guessed + Count(Guesses(slots), done))
  }

  function StartHolds(t: Tick, h: Hold, done: set<nat>): Hold
    requires done <= t.clients.Keys
  {
    h.(slots := StartSlots(t, h.slots, done), totals := StartTotals(h.slots, h.totals, done))
  }

  // ---- the whole frame --------------------------------------------------------------

  function Elements(q: seq<nat>): set<nat> {
    set x | x in q
  }

  predicate Streaming(inp: Input) {
    inp.status.Some? && inp.status.value.enabled
  }

  /** What the frame reads, `h` being the state it starts from. */
  function TickOf(h: Hold, inp: Input, csActive: int): Tick
    requires Streaming(inp)
  {
    var status := inp.status.value;
    var begun := Begin(h, status);
    Tick(begun.frameNo, Current(status.slots), inp.clients, status.connected, begun.link.behind,
         begun.isFresh, inp.now, inp.maxFrames, inp.perFrame, inp.keyframeMs, csActive)
  }

  function Kept(t: Tick, h: Hold, inp: Input): Hold
    requires Streaming(inp)
  {
    var begun := Begin(h, inp.status.value);
    Drop(begun, Stale(t, begun.slots))
  }

  /** Slots admitted and the cleared flags asked for. */
  ghost function Asked(t: Tick, h: Hold, inp: Input): Hold
    requires Streaming(inp)
  {
    var kept := Kept(t, h, inp);
    AskCleared(t, Admit(t, kept, t.live.Keys).(isFresh := false), Cleared(t, kept.slots))
  }

  /** Up to the running holds: every new wait is noted, old waits are given up. */
  ghost function Prepared(t: Tick, h: Hold, inp: Input): Hold
    requires Streaming(inp)
  {
    var cleared := Cleared(t, Kept(t, h, inp).slots);
    var asked := Asked(t, h, inp);
    var picked := Elements(Picked(t, asked.slots, cleared, EngineForced(h.link, inp.status.value) - |cleared|));
    var noted := FlagSlots(t, CounterSlots(t, asked.slots, picked), t.live.Keys);
    DropWaits(t, asked.(slots := noted), noted.Keys)
  }

  ghost function Ran(t: Tick, h: Hold, inp: Input): Hold
    requires Streaming(inp)
  {
    var p := Prepared(t, h, inp);
    RunHolds(t, p, p.slots.Keys)
  }

  /** The slots whose hold starts in this frame, in the order in which they start. */
  ghost function StartedNow(t: Tick, h: Hold, inp: Input): (xs: seq<nat>)
    requires Streaming(inp)
    ensures Elements(xs) <= t.clients.Keys
  {
    Started(t, Ran(t, h, inp).slots, |With(t, Prepared(t, h, inp).slots, Running)|)
  }

  ghost function Frame(h: Hold, inp: Input, csActive: int): Hold {
    if !Streaming(inp) then Reset(h.(frameNo := h.frameNo + 1))
    else
      var t := TickOf(h, inp, csActive);
      StartHolds(t, Ran(t, h, inp), Elements(StartedNow(t, h, inp)))
  }

  /** The slots that hold after this frame: they ask for a full snapshot if they can be sent one. */
  ghost function Forcing(h: Hold, inp: Input, csActive: int): set<nat> {
    if !Streaming(inp) then {}
    else
      var t := TickOf(h, inp, csActive);
      With(t, Prepared(t, h, inp).slots, Running) + Elements(StartedNow(t, h, inp))
  }

  function ForcedClient(clients: map<nat, Client>, xs: set<nat>, x: nat): Client
    requires x in clients
  {
    if x in xs && CanBeSent(clients, x) then clients[x].(deltaMessage := -1) else clients[x]
  }

  function ForceAll(clients: map<nat, Client>, xs: set<nat>): map<nat, Client> {
    map x | x in clients :: ForcedClient(clients, xs, x)
  }

  /** The engine's client table after the frame. */
  ghost function ClientsAfter(h: Hold, inp: Input, csActive: int): map<nat, Client> {
    ForceAll(inp.clients, Forcing(h, inp, csActive))
  }
}
