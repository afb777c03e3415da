/**
 The match clock across pause, restore and thaw: the plugin's clock fields, the engine's level times,
 and one function for each of the plugin's steps. All times are milliseconds.
 */
module ClockModel {
  import opened Common

  datatype GameState = Warmup | Countdown | InProgress

  /** The engine and the shared pause latch, as the plugin reads and writes them. */
  datatype Env = Env(time: nat, startTime: int, gameTime: int, game: Option<GameState>, rawPaused: bool,
                     pauseLatch: bool, wall: int, delay: nat, nativeClock: bool)

  datatype Clock = Clock(latch: Option<nat>, frozen: Option<nat>, hold: Option<nat>, awaiting: bool,
                         fromRestore: bool, thawAt: Option<int>, wasPaused: bool, holdUntilUnpause: bool,
                         skipHooks: bool, elapsed: int, startMap: Option<int>, lastState: Option<GameState>,
                         engineSynced: bool)

  datatype World = World(clock: Clock, env: Env)

  const NEW_CLOCK := Clock(None, None, None, false, false, None, false, false, false, 0, None, None, false)

  // ---- reading ---------------------------------------------------------------------------------

  predicate Paused(w: World) {
    w.env.rawPaused || w.env.pauseLatch
  }

  /** Asking whether the match is paused latches a real pause. */
  function Look(w: World): World {
    w.(env := w.env.(pauseLatch := Paused(w)))
  }

  predicate IsLive(state: Option<GameState>) {
    state == Some(Countdown) || state == Some(InProgress)
  }

  function Effective(w: World): Option<GameState> {
    if IsLive(w.env.game) then w.env.game
    else if IsLive(w.clock.lastState) then w.clock.lastState
    else if w.env.game.Some? then w.env.game else w.clock.lastState
  }

  predicate Live(w: World) {
    IsLive(Effective(w))
  }

  function AtLeastZero(x: int): nat {
    if x < 0 then 0 else x
  }

  function EngineElapsed(env: Env): int {
    env.time - env.startTime
  }

  function NativeElapsed(w: World): Option<nat> {
    if w.env.game == Some(InProgress) || w.env.nativeClock || w.clock.engineSynced
    then Some(AtLeastZero(EngineElapsed(w.env))) else None
  }

  function MapElapsed(w: World, at: int): nat {
    AtLeastZero(match w.clock.startMap case Some(start) => at - start case None => at)
  }

  /** Elapsed time of a running match, at the edge of a pause. */
  function LiveElapsed(w: World): nat {
    if w.clock.latch.Some? then w.clock.latch.value
    else if Paused(w) && w.clock.frozen.Some? then w.clock.frozen.value
    else if !Live(w) then AtLeastZero(w.clock.elapsed)
    else if NativeElapsed(w).Some? then NativeElapsed(w).value
    else if w.clock.startMap.Some? then
      Max(MapElapsed(w, w.env.time), if w.env.gameTime > 0 then MapElapsed(w, w.env.gameTime) else 0)
    else if w.env.gameTime > 0 then w.env.gameTime
    else AtLeastZero(w.clock.elapsed)
  }

  function MatchElapsed(w: World): nat {
    if !Live(w) then 0
    else if NativeElapsed(w).Some? then NativeElapsed(w).value
    else if w.clock.startMap.Some? then MapElapsed(w, w.env.time)
    else AtLeastZero(w.clock.elapsed)
  }

  function First(a: Option<nat>, b: Option<nat>, elapsed: int): nat {
    if a.Some? then a.value else if b.Some? then b.value else AtLeastZero(elapsed)
  }

  // ---- the plugin's steps -------------------------------------------------------------------------

  /** Everything but the pause edges and the open live window starts afresh. */
  function Reset(w: World): World {
    World(Clock(None, None, None, false, false, None, w.clock.wasPaused, w.clock.holdUntilUnpause, w.clock.skipHooks,
                0, None, None, false), w.env)
  }

  function LatchStart(w: World): World {
    w.(clock := w.clock.(startMap := Some(w.env.time), elapsed := 0))
  }

  function RefreshFrozen(w: World): World {
    if !Paused(w) then w
    else
      var seen := Look(w);
      var ms := if w.clock.latch.Some? then w.clock.latch.value
                else if w.clock.frozen.Some? then w.clock.frozen.value else LiveElapsed(seen);
      seen.(clock := w.clock.(frozen := Some(ms), elapsed := ms))
  }

  function BeginHold(w: World): World {
    if w.clock.awaiting then w
    else
      var ms := First(w.clock.latch, w.clock.frozen, w.clock.elapsed);
      w.(clock := w.clock.(hold := Some(ms), fromRestore := w.clock.latch.Some?, awaiting := true, elapsed := ms))
  }

  function NoteUnpause(w: World): World {
    if w.clock.skipHooks then w
    else if w.clock.awaiting then w.(clock := w.clock.(holdUntilUnpause := false))
    else
      var held := BeginHold(w);
      held.(clock := held.clock.(holdUntilUnpause := false, thawAt := Some(w.env.wall + w.env.delay)))
  }

  lemma SkippedUnpause(w: World)
    requires w.clock.skipHooks
    ensures NoteUnpause(w) == w
  {}

  function NotePause(w: World): World {
    if w.clock.awaiting then w else RefreshFrozen(w.(clock := w.clock.(hold := None)))
  }

  function SyncEngine(w: World, ms: nat): World {
    World(w.clock.(engineSynced := true), w.env.(startTime := w.env.time - ms))
  }

  /** Re-anchors the clocks at the frozen value; the engine's only after a restore. */
  function Resync(w: World, syncEngine: bool): World {
    var frozen := if w.clock.latch.Some? then w.clock.latch else w.clock.frozen;
    if frozen.None? then w.(clock := w.clock.(frozen := None, latch := None))
    else
      var anchored := w.(clock := w.clock.(frozen := None, latch := None, elapsed := frozen.value));
      if !Live(w) then anchored
      else
        var mapped := anchored.(clock := anchored.clock.(startMap := Some(w.env.time - frozen.value)));
        if syncEngine then SyncEngine(mapped, frozen.value) else mapped
  }

  function Thaw(w: World): World {
    if !w.clock.awaiting then w
    else
      var ms := First(w.clock.hold, w.clock.frozen, w.clock.elapsed);
      var synced := Resync(w.(clock := w.clock.(latch := Some(ms))), w.clock.fromRestore);
      synced.(clock := synced.clock.(fromRestore := false, awaiting := false, hold := None, thawAt := None))
  }

  /** The game state's edges: a match that starts, a match that is over. */
  function Edge(w: World): World {
    var game := w.env.game;
    if game.None? || game == w.clock.lastState then w
    else
      var crossed :=
        if game == Some(InProgress) && w.clock.lastState in {None, Some(Warmup), Some(Countdown)} then LatchStart(w)
        else if game == Some(Warmup) && IsLive(w.clock.lastState) then Reset(w)
        else w;
      crossed.(clock := crossed.clock.(lastState := game))
  }

  function Track(w: World): World {
    var at := Edge(w);
    if Paused(at) then
      var seen := Look(at);
      var ms := if at.clock.frozen.Some? then at.clock.frozen.value else LiveElapsed(seen);
      seen.(clock := at.clock.(frozen := Some(ms), elapsed := ms))
    else if at.clock.awaiting then
      at.(clock := at.clock.(elapsed := if at.clock.hold.Some? then at.clock.hold.value else 0))
    else at.(clock := at.clock.(elapsed := MatchElapsed(at)))
  }

  predicate ThawDue(w: World) {
    w.clock.awaiting && w.clock.thawAt.Some? && w.env.wall >= w.clock.thawAt.value
  }

  function ThawIfDue(w: World): World {
    if ThawDue(w) then Thaw(w) else w
  }

  /** The rest of a frame, after the thaw. */
  function Poll(w: World): World {
    var seen := Look(w);
    var paused := Paused(w);
    var noted :=
      if paused && !w.clock.wasPaused then (if w.clock.awaiting then seen else NotePause(seen))
      else if w.clock.wasPaused && !paused then NoteUnpause(seen)
      else if w.clock.holdUntilUnpause && !paused then NoteUnpause(seen)
      else seen;
    var tracked := if Paused(noted) then Look(noted) else Track(Look(noted));
    tracked.(clock := tracked.clock.(wasPaused := paused))
  }

  function Frame(w: World): World {
    Poll(ThawIfDue(w))
  }

  /** A pause or unpause line of an operator: the shared latch first, then the plugin. */
  function Text(w: World, pause: bool): World {
    var latched := w.(env := w.env.(pauseLatch := pause));
    if pause then NotePause(latched) else NoteUnpause(latched)
  }

  function GameStart(w: World): World {
    var started := w.(clock := w.clock.(lastState := Some(InProgress)));
    if started.clock.awaiting then Thaw(started) else LatchStart(started)
  }

  function Abort(w: World): World {
    w.(clock := w.clock.(holdUntilUnpause := false, awaiting := false, thawAt := None))
  }

  /** Setting the clocks to t, as a restore does. */
  function ApplyTime(w: World, t: nat): World {
    var seen := Look(w);
    var synced := if Live(seen) then SyncEngine(seen, t) else seen;
    synced.(clock := synced.clock.(startMap := if Live(seen) then Some(w.env.time - t) else w.clock.startMap,
        elapsed := t,
                                   frozen := if Paused(w) then Some(t) else w.clock.frozen))
  }

  /** The clock phase of a restore. */
  function PhaseTime(w: World, t: nat): World {
    ApplyTime(w.(clock := w.clock.(latch := Some(t), frozen := Some(t))), t)
  }

  /**
   The start of a restore. A paused match gets a short live window, in which pause edges are ignored; `raw`
   is what the engine's pause flags show after the command. A running match is restored as it runs.
   */
  function BeginRestore(w: World, t: nat, raw: bool): World {
    if Paused(w) then
      PhaseTime(World(w.clock.(holdUntilUnpause := true, skipHooks := true, wasPaused := false),
                      w.env.(rawPaused := raw, pauseLatch := false)), t)
    else PhaseTime(w.(clock := w.clock.(holdUntilUnpause := true)), t)
  }

  /** The end of the window: paused again, unless the match is in warmup and the engine ignores the command. */
  function EndRestore(w: World, raw: bool): World {
    var closed := w.(clock := w.clock.(skipHooks := false));
    if Paused(w) then Look(closed)
    else if !raw && Effective(w) == Some(Warmup) then closed
    else closed.(env := closed.env.(rawPaused := raw, pauseLatch := true))
  }

  /** Reading the match clock, as an export does. */
  function ReadState(w: World): World {
    if w.clock.awaiting then w
    else if Paused(w) then
      var seen := Look(w);
      if w.clock.latch.Some? || w.clock.frozen.Some? then seen
      else var tracked := Track(seen); tracked.(clock := tracked.clock.(frozen := Some(AtLeastZero(tracked.clock.elapsed))))
    else Track(Look(w))
  }

  function ReadValue(w: World): nat {
    if w.clock.awaiting then (if w.clock.hold.Some? then w.clock.hold.value else 0)
    else if Paused(w) && w.clock.latch.Some? then w.clock.latch.value
    else if Paused(w) && w.clock.frozen.Some? then w.clock.frozen.value
    else AtLeastZero(Track(Look(w)).clock.elapsed)
  }
}
