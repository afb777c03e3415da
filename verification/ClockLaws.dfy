/** What a restore, and what a plain pause, leave of the match clock, over every run of events. */
module ClockLaws {
  import opened Common
  import opened ClockModel

  /** Whatever happens to the plugin; between two events the engine's own state moves on. */
  datatype Event =
    | Advance(to: Env)
    | FrameTick
    | PauseText(pause: bool)
    | Started
    | CountdownBegan
    | Ended
    | MapLoaded
    | Aborted
    | Restore(t: nat, raw: bool)
    | WindowClosed(raw: bool)
    | Exported

  predicate Possible(w: World, e: Event) {
    match e
    case Advance(to) => to.time >= w.env.time && to.pauseLatch == w.env.pauseLatch
    case _ => true
  }

  function Next(w: World, e: Event): World {
    match e
    case Advance(to) => w.(env := to)
    case FrameTick => Frame(w)
    case PauseText(pause) => Text(w, pause)
    case Started => GameStart(w)
    case CountdownBegan => w.(clock := w.clock.(lastState := Some(Countdown)))
    case Ended => Reset(w)
    case MapLoaded => World(NEW_CLOCK.(skipHooks := w.clock.skipHooks), w.env.(pauseLatch := false))
    case Aborted => Abort(w)
    case Restore(t, raw) => BeginRestore(w, t, raw)
    case WindowClosed(raw) => EndRestore(w, raw)
    case Exported => ReadState(w)
  }

  predicate Thaws(w: World, e: Event) {
    match e
    case FrameTick => ThawDue(w)
    case Started => w.clock.awaiting
    case _ => false
  }

  /** The world at the thaw inside event e. */
  function AtThaw(w: World, e: Event): World {
    if e.Started? then Thaw(w.(clock := w.clock.(lastState := Some(InProgress)))) else Thaw(w)
  }

  /** The match goes on: it is not over, reloaded or restored again, and its effective state stays live. */
  predicate Undisturbed(w: World, e: Event) {
    Possible(w, e) && !e.Restore? && !e.Ended? && !e.MapLoaded? && Live(Next(w, e))
  }

  ghost predicate UndisturbedRun(w: World, es: seq<Event>)
    decreases |es|
  {
    es == [] || (Undisturbed(w, es[0]) && !Thaws(w, es[0]) && UndisturbedRun(Next(w, es[0]), es[1..]))
  }

  ghost function Run(w: World, es: seq<Event>): World
    decreases |es|
  {
    if es == [] then w else Run(Next(w, es[0]), es[1..])
  }

  /** Both clocks show t: the one counted from the map time, and the engine's own. */
  predicate Shows(w: World, t: nat) {
    && w.clock.startMap.Some? && w.env.time - w.clock.startMap.value == t
    && EngineElapsed(w.env) == t
  }

  // ---- what the steps do to the hold ---------------------------------------------------------------

  predicate SameHold(w: World, v: World) {
    && v.clock.latch == w.clock.latch && v.clock.hold == w.clock.hold && v.clock.awaiting == w.clock.awaiting
    && v.clock.fromRestore == w.clock.fromRestore && v.clock.thawAt == w.clock.thawAt
  }

  /** The engine shows warmup, and the plugin took it for the end of the match. */
  predicate IsOver(v: World) {
    v.env.game == Some(Warmup) == v.clock.lastState && !v.clock.awaiting && v.clock.latch.None?
  }

  /** Without a thaw: the hold stays, none is pending, one begins at the latch, or the match is over. */
  predicate Effect(w: World, v: World) {
    && v.env.startTime == w.env.startTime && v.env.time == w.env.time && v.env.game == w.env.game
    && (|| SameHold(w, v)
        || (!w.clock.awaiting && !v.clock.awaiting && v.clock.latch == w.clock.latch)
        || (!w.clock.awaiting && v.clock.awaiting && v.clock.latch == w.clock.latch && v.clock.hold.Some?
            && v.clock.thawAt.Some? && v.clock.fromRestore == w.clock.latch.Some?
            && (w.clock.latch.Some? ==> v.clock.hold == w.clock.latch))
        || IsOver(v))
  }

  /** A step that leaves the hold alone, and the state it last saw up to date or as it was, unless the match is over. */
  predicate Leaves(w: World, v: World) {
    && v.env.startTime == w.env.startTime && v.env.time == w.env.time && v.env.game == w.env.game
    && (v.clock.lastState == w.clock.lastState || v.clock.lastState == w.env.game)
    && (SameHold(w, v) || IsOver(v))
  }

  lemma EffectThenLeaves(w: World, v: World, u: World)
    requires Effect(w, v) && Leaves(v, u)
    ensures Effect(w, u)
  {}

  lemma LeavesThenEffect(w: World, v: World, u: World)
    requires Leaves(w, v) && SameHold(w, v) && Effect(v, u)
    ensures Effect(w, u)
  {}

  lemma EdgeEffect(w: World)
    ensures Leaves(w, Edge(w))
  {
    match w.env.game
    case Some(Warmup) =>
    case Some(Countdown) =>
    case Some(InProgress) =>
    case None =>
  }

  lemma TrackEffect(w: World)
    ensures Leaves(w, Track(w))
  {
    EdgeEffect(w);
    hide Edge, MatchElapsed, LiveElapsed;
  }

  lemma NotePauseEffect(w: World)
    ensures Effect(w, NotePause(w))
  {
    hide LiveElapsed;
  }

  lemma NoteUnpauseEffect(w: World)
    ensures Effect(w, NoteUnpause(w))
  {}

  /** Neither the pause latch nor the edge detector is part of the hold. */
  lemma LookEffect(w: World, latched: bool, wasPaused: bool)
    ensures Leaves(w, Look(w)) && SameHold(w, Look(w))
    ensures var v := w.(env := w.env.(pauseLatch := latched)); Leaves(w, v) && SameHold(w, v)
    ensures Leaves(w, w.(clock := w.clock.(wasPaused := wasPaused)))
  {}

  lemma PollEffect(w: World)
    ensures Effect(w, Poll(w))
  {
    hide Effect, Leaves, SameHold, Look, Track, NotePause, NoteUnpause, Paused;
    var seen, paused := Look(w), Paused(w);
    LookEffect(w, false, false);
    var noted :=
      if paused && !w.clock.wasPaused then (if w.clock.awaiting then seen else NotePause(seen))
      else if w.clock.wasPaused && !paused then NoteUnpause(seen)
      else if w.clock.holdUntilUnpause && !paused then NoteUnpause(seen)
      else seen;
    NotePauseEffect(seen);
    NoteUnpauseEffect(seen);
    assert Effect(seen, seen) by { LeavesIsEffect(seen, seen); }
    LeavesThenEffect(w, seen, noted);
    var looked := Look(noted);
    LookEffect(noted, false, false);
    EffectThenLeaves(w, noted, looked);
    var tracked := if Paused(noted) then looked else Track(looked);
    TrackEffect(looked);
    if !Paused(noted) {
      EffectThenLeaves(w, looked, tracked);
    }
    LookEffect(tracked, false, paused);
    EffectThenLeaves(w, tracked, Poll(w));
  }

  lemma LeavesIsEffect(w: World, v: World)
    requires v == w || Leaves(w, v)
    ensures Effect(w, v)
  {}

  lemma TextEffect(w: World, pause: bool)
    ensures Effect(w, Text(w, pause))
  {
    hide Effect, Leaves, SameHold, NotePause, NoteUnpause;
    var latched := w.(env := w.env.(pauseLatch := pause));
    LookEffect(w, pause, false);
    NotePauseEffect(latched);
    NoteUnpauseEffect(latched);
    LeavesThenEffect(w, latched, Text(w, pause));
  }

  lemma ReadEffect(w: World)
    ensures Leaves(w, ReadState(w))
  {
    hide Track;
    TrackEffect(Look(w));
  }

  predicate Settled(e: Event) {
    e.FrameTick? || e.PauseText? || e.Exported? || e.Started? || e.CountdownBegan? || e.WindowClosed?
  }

  lemma StepEffect(w: World, e: Event)
    requires Settled(e) && !Thaws(w, e)
    ensures Effect(w, Next(w, e))
  {
    match e
    case FrameTick => PollEffect(w); hide Poll;
    case PauseText(pause) => TextEffect(w, pause); hide Text;
    case Exported => ReadEffect(w); hide ReadState; LeavesIsEffect(w, ReadState(w));
    case _ =>
  }

  // ---- how long a match is taken as live ----------------------------------------------------------

  lemma EdgeLive(w: World)
    requires IsLive(w.clock.lastState)
    ensures IsLive(Edge(w).clock.lastState) <==> w.env.game != Some(Warmup)
    ensures Edge(w).env == w.env
  {
    match w.env.game
    case Some(Warmup) =>
    case Some(Countdown) =>
    case Some(InProgress) =>
    case None =>
  }

  lemma TrackLive(w: World)
    requires IsLive(w.clock.lastState)
    ensures IsLive(Track(w).clock.lastState) <==> w.env.game != Some(Warmup)
    ensures Track(w).env.game == w.env.game
  {
    EdgeLive(w);
    hide Edge, LiveElapsed, MatchElapsed;
  }

  lemma NotesKeepState(w: World)
    ensures NotePause(w).clock.lastState == NoteUnpause(w).clock.lastState == Thaw(w).clock.lastState == w.clock.lastState
    ensures NotePause(w).env.game == NoteUnpause(w).env.game == Thaw(w).env.game == w.env.game
    ensures Paused(NotePause(w)) == Paused(NoteUnpause(w)) == Paused(Thaw(w)) == Paused(w)
  {
    hide LiveElapsed;
  }

  lemma PollLive(w: World)
    requires IsLive(w.clock.lastState)
    ensures IsLive(Poll(w).clock.lastState) <==> Paused(w) || w.env.game != Some(Warmup)
    ensures Poll(w).env.game == w.env.game
  {
    var seen := Look(w);
    NotesKeepState(seen);
    hide Track, NotePause, NoteUnpause;
    var noted :=
      if Paused(w) && !w.clock.wasPaused then (if w.clock.awaiting then seen else NotePause(seen))
      else if w.clock.wasPaused && !Paused(w) then NoteUnpause(seen)
      else if w.clock.holdUntilUnpause && !Paused(w) then NoteUnpause(seen)
      else seen;
    TrackLive(Look(noted));
  }

  /**
   A match the plugin has seen live stays live through a frame, whatever the engine shows, exactly unless the
   match runs and the engine shows warmup: then a frame takes it back and the clock starts afresh.
   */
  lemma FrameStaysLiveIff(w: World)
    requires IsLive(w.clock.lastState)
    ensures Live(Frame(w)) <==> Paused(w) || w.env.game != Some(Warmup)
  {
    NotesKeepState(w);
    PollLive(ThawIfDue(w));
    hide Thaw, Poll;
  }

  // ---- a restore resumes at its own time --------------------------------------------------------

  /** The clock is to resume at t. */
  predicate Owes(w: World, t: nat) {
    w.clock.latch == Some(t) && (w.clock.awaiting ==> w.clock.hold == Some(t) && w.clock.fromRestore)
  }

  lemma OwesEffect(w: World, v: World, t: nat)
    requires Owes(w, t) && Effect(w, v) && Live(v)
    ensures Owes(v, t)
  {}

  lemma OwesStep(w: World, e: Event, t: nat)
    requires Owes(w, t) && Undisturbed(w, e) && !Thaws(w, e)
    ensures Owes(Next(w, e), t) && Live(Next(w, e))
  {
    if Settled(e) {
      hide Next, Effect, Owes, Thaws, Live;
      StepEffect(w, e);
      OwesEffect(w, Next(w, e), t);
    }
  }

  lemma {:induction false} OwesRun(w: World, es: seq<Event>, t: nat)
    requires Owes(w, t) && Live(w) && UndisturbedRun(w, es)
    ensures Owes(Run(w, es), t) && Live(Run(w, es))
    decreases |es|
  {
    hide Owes, Next, Thaws, Undisturbed, Live;
    if es != [] {
      OwesStep(w, es[0], t);
      OwesRun(Next(w, es[0]), es[1..], t);
    }
  }

  lemma PollKeepsEngine(w: World)
    ensures Poll(w).env.time == w.env.time && Poll(w).env.startTime == w.env.startTime
  {
    hide MatchElapsed, LiveElapsed, NativeElapsed;
  }

  lemma OwesThaw(w: World, e: Event, t: nat)
    requires Owes(w, t) && Live(w) && Thaws(w, e)
    ensures Shows(AtThaw(w, e), t) && EngineElapsed(Next(w, e).env) == t
  {
    hide Poll;
    PollKeepsEngine(Thaw(w));
  }

  /** However long an export is taken during the pause or the hold, it reads t. */
  lemma OwesReads(w: World, t: nat)
    requires Owes(w, t) && (w.clock.awaiting || Paused(w))
    ensures ReadValue(w) == t
  {}

  /**
   A restore applied to a paused, live match with no unfreeze hold pending: whatever happens until the
   next thaw, every time read during the pause and the hold is t, and at the thaw both clocks show t.
   */
  lemma RestoreResumes(w: World, t: nat, raw: bool, es: seq<Event>)
    requires Paused(w) && Live(w) && !w.clock.awaiting
    requires UndisturbedRun(BeginRestore(w, t, raw), es)
    ensures var u := Run(BeginRestore(w, t, raw), es);
            && (u.clock.awaiting || Paused(u) ==> ReadValue(u) == t)
            && forall e :: Thaws(u, e) ==> Shows(AtThaw(u, e), t) && EngineElapsed(Next(u, e).env) == t
  {
    RestoreOwes(w, t, raw);
    hide BeginRestore, Owes, Next, Shows, Paused, Live;
    OwesRun(BeginRestore(w, t, raw), es, t);
    var u := Run(BeginRestore(w, t, raw), es);
    if u.clock.awaiting || Paused(u) {
      OwesReads(u, t);
    }
    forall e | Thaws(u, e) ensures Shows(AtThaw(u, e), t) && EngineElapsed(Next(u, e).env) == t {
      OwesThaw(u, e, t);
    }
  }

  /** The hold that is pending, if any, would resume at t by itself. */
  predicate HoldAgrees(w: World, t: nat) {
    !w.clock.awaiting || (w.clock.hold == Some(t) && w.clock.fromRestore)
  }

  lemma RestoreOwes(w: World, t: nat, raw: bool)
    requires Paused(w) && Live(w) && HoldAgrees(w, t)
    ensures Owes(BeginRestore(w, t, raw), t) && Live(BeginRestore(w, t, raw))
  {}

  // ---- when a hold is already pending -----------------------------------------------------------

  /** A pending hold has a value and a deadline. */
  predicate HoldShaped(w: World) {
    w.clock.awaiting ==> w.clock.hold.Some? && w.clock.thawAt.Some?
  }

  lemma HoldShapedEffect(w: World, v: World)
    requires HoldShaped(w) && Effect(w, v)
    ensures HoldShaped(v)
  {}

  /** Every run keeps the shape: the fresh plugin has no hold. */
  lemma HoldShapedStep(w: World, e: Event)
    requires HoldShaped(w) && Possible(w, e)
    ensures HoldShaped(Next(w, e)) && HoldShaped(World(NEW_CLOCK, w.env))
  {
    if Thaws(w, e) {
      AfterThaw(w, e);
      hide Next, Effect, Thaws, Possible, AtThaw;
      HoldShapedEffect(AtThaw(w, e), Next(w, e));
    } else if Settled(e) {
      hide Next, Effect, Thaws, Possible;
      StepEffect(w, e);
      HoldShapedEffect(w, Next(w, e));
    }
  }

  /** A thaw ends the hold; the rest of its frame may begin another. */
  lemma ThawEnds(w: World)
    requires w.clock.awaiting
    ensures !Thaw(w).clock.awaiting && Thaw(w).clock.latch.None?
  {
    hide Live;
  }

  lemma AfterThaw(w: World, e: Event)
    requires Thaws(w, e)
    ensures !AtThaw(w, e).clock.awaiting && AtThaw(w, e).clock.latch.None? && Effect(AtThaw(w, e), Next(w, e))
  {
    hide Effect, Poll, Thaw;
    ThawEnds(if e.Started? then w.(clock := w.clock.(lastState := Some(InProgress))) else w);
    PollEffect(Thaw(w));
    LeavesIsEffect(AtThaw(w, e), AtThaw(w, e));
  }

  /** The engine one millisecond later, when the deadline of the hold has passed. */
  function Later(w: World, due: int): Env {
    w.env.(time := w.env.time + 1, wall := Max(w.env.wall, due))
  }

  /** A pending hold with another time, or from a plain pause, wins over the restore. */
  lemma PendingHoldWins(w: World, t: nat, raw: bool)
    requires Paused(w) && Live(w) && HoldShaped(w) && !HoldAgrees(w, t)
    ensures var r := BeginRestore(w, t, raw);
            exists es :: UndisturbedRun(r, es) && Thaws(Run(r, es), FrameTick)
                && !Shows(AtThaw(Run(r, es), FrameTick), t)
  {
    var r := BeginRestore(w, t, raw);
    assert r.clock.awaiting && r.clock.hold == w.clock.hold && EngineElapsed(r.env) == t && Live(r);
    var tick := Advance(Later(r, w.clock.thawAt.value));
    var es := [tick];
    assert es[1..] == [];
    assert Run(r, es) == Next(r, tick);
    var u := Next(r, tick);
    assert UndisturbedRun(r, es);
    hide BeginRestore;
    assert Thaws(u, FrameTick);
    assert EngineElapsed(u.env) == t + 1;
    var v := Thaw(u);
    assert v.clock.startMap == Some(u.env.time - w.clock.hold.value);
    assert !w.clock.fromRestore ==> EngineElapsed(v.env) == t + 1;
  }

  /**
   Exactly when a restore of a paused, live match is kept: on every continuation both clocks show its
   time at the thaw, if and only if no hold was pending, or the pending one came from a restore to the
   same time. Only the hold decides; the later restore does not replace it.
   */
  lemma RestoreKeptIff(w: World, t: nat, raw: bool)
    requires Paused(w) && Live(w) && HoldShaped(w)
    ensures var r := BeginRestore(w, t, raw);
            (forall es, e :: UndisturbedRun(r, es) && Thaws(Run(r, es), e) ==> Shows(AtThaw(Run(r, es), e), t))
            <==> HoldAgrees(w, t)
  {
    var r := BeginRestore(w, t, raw);
    if HoldAgrees(w, t) {
      RestoreOwes(w, t, raw);
      hide BeginRestore, Owes, Next, Shows, Thaws, AtThaw, Live;
      forall es, e | UndisturbedRun(r, es) && Thaws(Run(r, es), e) ensures Shows(AtThaw(Run(r, es), e), t) {
        OwesRun(r, es, t);
        OwesThaw(Run(r, es), e, t);
      }
    } else {
      hide BeginRestore, Owes, Next, Shows, Thaws, AtThaw, HoldAgrees, Live;
      PendingHoldWins(w, t, raw);
    }
  }

  ghost predicate PossibleRun(w: World, es: seq<Event>)
    decreases |es|
  {
    es == [] || (Possible(w, es[0]) && PossibleRun(Next(w, es[0]), es[1..]))
  }

  /**
   A server gets there, whatever its engine shows: a match starts, the operator pauses, unpauses, and pauses
   again before the hold is over. A restore to any time is then lost to the pending hold.
   */
  lemma PendingHoldReachable(env: Env, t: nat)
    ensures exists es :: PossibleRun(World(NEW_CLOCK, env), es)
              && var w := Run(World(NEW_CLOCK, env), es);
                 Paused(w) && Live(w) && HoldShaped(w) && !HoldAgrees(w, t)
  {
    var w := World(NEW_CLOCK, env);
    var pause, unpause := PauseText(true), PauseText(false);
    var w0 := Next(w, Started);
    assert w0.clock == NEW_CLOCK.(lastState := Some(InProgress), startMap := Some(env.time)) && w0.env == env;
    var w1 := Next(w0, pause);
    assert w1.clock.latch.None? && !w1.clock.awaiting && !w1.clock.skipHooks && w1.clock.lastState == Some(InProgress);
    var w2 := Next(w1, unpause);
    assert w2.clock.awaiting && w2.clock.hold.Some? && w2.clock.thawAt.Some? && !w2.clock.fromRestore;
    var w3 := Next(w2, pause);
    assert Paused(w3) && Live(w3) && HoldShaped(w3) && !HoldAgrees(w3, t);
    hide Next;
    var es := [Started] + ([pause] + ([unpause] + ([pause] + [])));
    RunFirst(w2, pause, []);
    RunFirst(w1, unpause, [pause] + []);
    RunFirst(w0, pause, [unpause] + ([pause] + []));
    RunFirst(w, Started, [pause] + ([unpause] + ([pause] + [])));
    assert PossibleRun(w3, []) && Run(w3, []) == w3;
    assert PossibleRun(w, es) && Run(w, es) == w3;
  }

  lemma RunFirst(w: World, e: Event, es: seq<Event>)
    requires Possible(w, e)
    ensures PossibleRun(w, [e] + es) <==> PossibleRun(Next(w, e), es)
    ensures Run(w, [e] + es) == Run(Next(w, e), es)
  {
    hide Next, Possible;
    assert ([e] + es)[1..] == es;
  }

  // ---- a plain pause ------------------------------------------------------------------------------

  /** No restore is on its way to a thaw. */
  predicate Plain(w: World) {
    w.clock.latch.None? && (w.clock.awaiting ==> !w.clock.fromRestore)
  }

  lemma PlainEffect(w: World, v: World)
    requires Plain(w) && Effect(w, v)
    ensures Plain(v) && v.env.startTime == w.env.startTime
  {}

  lemma PlainThaw(w: World, e: Event)
    requires Thaws(w, e) && Plain(w)
    ensures Plain(AtThaw(w, e)) && AtThaw(w, e).env.startTime == w.env.startTime
  {}

  lemma PlainStep(w: World, e: Event)
    requires Plain(w) && Possible(w, e) && !e.Restore?
    ensures Plain(Next(w, e))
    ensures !e.Advance? ==> Next(w, e).env.startTime == w.env.startTime
  {
    if Thaws(w, e) {
      AfterThaw(w, e);
      PlainThaw(w, e);
      hide Next, Effect, Thaws, Possible, AtThaw;
      PlainEffect(AtThaw(w, e), Next(w, e));
    } else if Settled(e) {
      hide Next, Effect, Thaws, Possible;
      StepEffect(w, e);
      PlainEffect(w, Next(w, e));
    }
  }

  /** A thaw, after a restore or not, is the end of it. */
  lemma ThawIsPlain(w: World, e: Event)
    requires Thaws(w, e)
    ensures Plain(AtThaw(w, e))
  {}

  ghost predicate PlainRun(w: World, es: seq<Event>)
    decreases |es|
  {
    es == [] || (Possible(w, es[0]) && !es[0].Restore? && PlainRun(Next(w, es[0]), es[1..]))
  }

  /** The start time the engine itself left behind. */
  function EngineStart(start: int, es: seq<Event>): int {
    if es == [] then start
    else if es[|es| - 1].Advance? then es[|es| - 1].to.startTime
    else EngineStart(start, es[..|es| - 1])
  }

  lemma {:induction false} EngineStartTail(start: int, es: seq<Event>)
    requires es != []
    ensures EngineStart(start, es) == EngineStart(if es[0].Advance? then es[0].to.startTime else start, es[1..])
  {
    if |es| > 1 && !es[|es| - 1].Advance? {
      EngineStartTail(start, es[..|es| - 1]);
      assert es[..|es| - 1][1..] == es[1..][..|es[1..]| - 1];
    } else if |es| == 1 {
      assert es[..|es| - 1] == [];
    }
  }

  /** With no restore since the last thaw, the plugin never writes the engine's clock, on any run. */
  lemma {:induction false} PlainNeverWrites(w: World, es: seq<Event>)
    requires Plain(w) && PlainRun(w, es)
    ensures Plain(Run(w, es)) && Run(w, es).env.startTime == EngineStart(w.env.startTime, es)
    decreases |es|
  {
    hide Plain, EngineStart;
    if es != [] {
      EngineStartTail(w.env.startTime, es);
      PlainStep(w, es[0]);
      assert es[0].Advance? ==> Next(w, es[0]).env.startTime == es[0].to.startTime;
      hide Next, Possible;
      PlainNeverWrites(Next(w, es[0]), es[1..]);
    } else {
      assert EngineStart(w.env.startTime, es) == w.env.startTime by { EngineStartNone(w.env.startTime, es); }
    }
  }

  lemma EngineStartNone(start: int, es: seq<Event>)
    requires es == []
    ensures EngineStart(start, es) == start
  {}

  /** The map clock of a plain pause is to resume at p. */
  predicate PauseOwes(w: World, p: nat) {
    && Plain(w)
    && (if w.clock.awaiting then w.clock.hold == Some(p)
        else w.clock.frozen == Some(p) && w.env.pauseLatch && !w.clock.skipHooks)
  }

  lemma PauseOwesEffect(w: World, v: World, p: nat)
    requires PauseOwes(w, p) && w.clock.awaiting && SameHold(w, v)
    ensures PauseOwes(v, p)
  {}

  /** While a hold is pending and the match goes on, a frame without a thaw does not touch it. */
  lemma HoldStays(w: World, v: World)
    requires Effect(w, v) && w.clock.awaiting && Live(v)
    ensures SameHold(w, v)
  {}

  /** A frame of a latched pause only snaps the frozen time again. */
  lemma PausedFrame(w: World, p: nat)
    requires w.env.pauseLatch && w.clock.frozen == Some(p) && w.clock.latch.None? && !w.clock.awaiting
    ensures var v := Poll(w);
            && !v.clock.awaiting && v.clock.latch.None? && v.clock.frozen == Some(p) && v.env.pauseLatch
            && v.clock.skipHooks == w.clock.skipHooks
  {
    hide Track, LiveElapsed, NoteUnpause;
  }

  lemma PauseOwesFrame(w: World, p: nat)
    requires PauseOwes(w, p) && !ThawDue(w) && Live(Frame(w))
    ensures PauseOwes(Frame(w), p)
  {
    hide Poll, Effect, SameHold;
    if w.clock.awaiting {
      PollEffect(w);
      HoldStays(w, Poll(w));
      PauseOwesEffect(w, Poll(w), p);
    } else {
      PausedFrame(w, p);
    }
  }

  lemma PauseOwesStep(w: World, e: Event, p: nat)
    requires PauseOwes(w, p) && Undisturbed(w, e) && !Thaws(w, e) && !e.Aborted?
    ensures PauseOwes(Next(w, e), p) && Live(Next(w, e))
  {
    hide Frame, MatchElapsed, LiveElapsed;
    if e.FrameTick? {
      PauseOwesFrame(w, p);
    }
  }

  ghost predicate PauseRun(w: World, es: seq<Event>)
    decreases |es|
  {
    es == [] || (Undisturbed(w, es[0]) && !Thaws(w, es[0]) && !es[0].Aborted? && PauseRun(Next(w, es[0]), es[1..]))
  }

  lemma {:induction false} PauseOwesRun(w: World, es: seq<Event>, p: nat)
    requires PauseOwes(w, p) && Live(w) && PauseRun(w, es)
    ensures PauseOwes(Run(w, es), p) && Live(Run(w, es))
    decreases |es|
  {
    hide PauseOwes, Next, Thaws, Undisturbed, Live;
    if es != [] {
      PauseOwesStep(w, es[0], p);
      PauseOwesRun(Next(w, es[0]), es[1..], p);
    }
  }

  lemma PauseThaw(w: World, e: Event, p: nat)
    requires PauseOwes(w, p) && Live(w) && Thaws(w, e)
    ensures AtThaw(w, e).clock.startMap == Some(w.env.time - p)
    ensures AtThaw(w, e).env.startTime == w.env.startTime
  {}

  /** A pause begins: the operator's line, or the first frame that sees the match paused. */
  predicate PauseBegins(w: World, e: Event) {
    e == PauseText(true) || (e == FrameTick && Paused(w) && !w.clock.wasPaused)
  }

  lemma PauseBegun(w: World, e: Event)
    requires Plain(w) && !w.clock.awaiting && w.clock.frozen.None? && !w.clock.skipHooks
    requires Live(w) && PauseBegins(w, e)
    ensures PauseOwes(Next(w, e), LiveElapsed(w)) && Live(Next(w, e))
  {
    if e == FrameTick {
      hide Track, NoteUnpause;
    }
  }

  /**
   A plain pause of a live match: until its thaw every read gives the elapsed time at the pause (the engine's
   own, while the match is in progress), and at the thaw the clock counted from the map time resumes there,
   the engine's being left alone.
   */
  lemma PlainPauseResumes(w: World, e: Event, es: seq<Event>)
    requires Plain(w) && !w.clock.awaiting && w.clock.frozen.None? && !w.clock.skipHooks
    requires Live(w) && PauseBegins(w, e) && PauseRun(Next(w, e), es)
    ensures var u, p := Run(Next(w, e), es), LiveElapsed(w);
            && (w.env.game == Some(InProgress) ==> p == AtLeastZero(EngineElapsed(w.env)))
            && (u.clock.awaiting || Paused(u) ==> ReadValue(u) == p)
            && forall f :: Thaws(u, f) ==>
                 AtThaw(u, f).clock.startMap == Some(u.env.time - p) && AtThaw(u, f).env.startTime == u.env.startTime
  {
    var p := LiveElapsed(w);
    PauseBegun(w, e);
    hide PauseOwes, Next, AtThaw, Thaws, Plain, Live;
    PauseOwesRun(Next(w, e), es, p);
    var u := Run(Next(w, e), es);
    PauseReads(u, p);
    forall f | Thaws(u, f)
      ensures AtThaw(u, f).clock.startMap == Some(u.env.time - p) && AtThaw(u, f).env.startTime == u.env.startTime
    {
      PauseThaw(u, f, p);
    }
  }

  lemma PauseReads(w: World, p: nat)
    requires PauseOwes(w, p)
    ensures w.clock.awaiting || Paused(w) ==> ReadValue(w) == p
  {}
}
