/** The plugin's clock as the object its hooks change in place; each method is tied to its function in ClockModel. */
module MatchClock {
  import opened Common
  import opened ClockModel

  /** What the plugin reads and writes outside itself: the engine and the shared pause latch. */
  class Engine {
    var time: nat
    var startTime: int
    var gameTime: int
    var game: Option<GameState>
    var rawPaused: bool
    var pauseLatch: bool
    var wall: int
    var delay: nat
    var nativeClock: bool

    ghost function View(): Env
      reads this
    {
      Env(time, startTime, gameTime, game, rawPaused, pauseLatch, wall, delay, nativeClock)
    }
  }

  /** The hold between an unpause and the moment the engine lets the players go. */
  datatype Unfreeze = Unfreeze(hold: Option<nat>, awaiting: bool, fromRestore: bool, thawAt: Option<int>)

  class Plugin {
    const engine: Engine
    var latch: Option<nat>
    var frozen: Option<nat>
    var unfreeze: Unfreeze
    var wasPaused: bool
    var holdUntilUnpause: bool
    var skipHooks: bool
    var elapsed: int
    var startMap: Option<int>
    var lastState: Option<GameState>
    var engineSynced: bool

    ghost function Fields(): Clock
      reads this
    {
      Clock(latch, frozen, unfreeze.hold, unfreeze.awaiting, unfreeze.fromRestore, unfreeze.thawAt, wasPaused,
            holdUntilUnpause, skipHooks, elapsed, startMap, lastState, engineSynced)
    }

    ghost function View(): World
      reads this, engine
    {
      World(Fields(), engine.View())
    }

    constructor (engine: Engine)
      ensures View() == World(NEW_CLOCK, engine.View()) && this.engine == engine
    {
      this.engine := engine;
      latch, frozen, unfreeze := None, None, Unfreeze(None, false, false, None);
      wasPaused, holdUntilUnpause, skipHooks := false, false, false;
      elapsed, startMap, lastState, engineSynced := 0, None, None, false;
    }

    method SvPaused() returns (paused: bool)
      modifies engine`pauseLatch
      ensures View() == Look(old(View())) && paused == Paused(old(View())) == Paused(View())
    {
      if engine.rawPaused {
        engine.pauseLatch := true;
      }
      paused := engine.pauseLatch;
    }

    method EffectiveState() returns (state: Option<GameState>)
      ensures state == Effective(View())
    {
      if engine.game == Some(Countdown) || engine.game == Some(InProgress) {
        return engine.game;
      }
      if lastState == Some(Countdown) || lastState == Some(InProgress) {
        return lastState;
      }
      return if engine.game.Some? then engine.game else lastState;
    }

    method Native() returns (ms: Option<nat>)
      ensures ms == NativeElapsed(View())
    {
      if !(engine.game == Some(InProgress) || nativeOn() || engineSynced) {
        return None;
      }
      var x := engine.time - engine.startTime;
      return Some(if x < 0 then 0 else x);
    }

    function nativeOn(): bool
      reads this, engine
    {
      engine.nativeClock
    }

    method ComputeLiveElapsed() returns (ms: nat)
      modifies engine`pauseLatch
      ensures ms == LiveElapsed(old(View()))
      ensures View() == if old(latch).None? then Look(old(View())) else old(View())
    {
      if latch.Some? {
        return latch.value;
      }
      var paused := SvPaused();
      if paused && frozen.Some? {
        return frozen.value;
      }
      var state := EffectiveState();
      if !(state == Some(Countdown) || state == Some(InProgress)) {
        return AtLeastZero(elapsed);
      }
      var native := Native();
      if native.Some? {
        return native.value;
      }
      var best: Option<nat> := None;
      if startMap.Some? {
        best := Some(AtLeastZero(engine.time - startMap.value));
      }
      if engine.gameTime > 0 {
        var ms := AtLeastZero(if startMap.Some? then engine.gameTime - startMap.value else engine.gameTime);
        best := if best.None? || best.value < ms then Some(ms) else best;
      }
      return if best.Some? then best.value else AtLeastZero(elapsed);
    }

    method RefreshPauseFrozen()
      modifies this, engine`pauseLatch
      ensures View() == RefreshFrozen(old(View()))
    {
      var paused := SvPaused();
      if !paused {
        return;
      }
      var ms: nat;
      if latch.Some? {
        ms := latch.value;
      } else if frozen.Some? {
        ms := frozen.value;
      } else {
        ms := ComputeLiveElapsed();
      }
      frozen, elapsed := Some(ms), ms;
    }

    method BeginUnpauseHold()
      modifies this
      ensures View() == BeginHold(old(View()))
    {
      if unfreeze.awaiting {
        return;
      }
      var ms := if latch.Some? then latch else frozen;
      elapsed := if ms.Some? then ms.value else AtLeastZero(elapsed);
      unfreeze := unfreeze.(hold := Some(elapsed), fromRestore := latch.Some?, awaiting := true);
    }

    method NoteUnpauseCommand()
      modifies this
      ensures View() == NoteUnpause(old(View()))
    {
      if skipHooks {
        return;
      }
      if unfreeze.awaiting {
        holdUntilUnpause := false;
        return;
      }
      holdUntilUnpause := false;
      BeginUnpauseHold();
      unfreeze := unfreeze.(thawAt := Some(engine.wall + engine.delay));
    }

    method NotePauseCommand()
      modifies this, engine`pauseLatch
      ensures View() == NotePause(old(View()))
    {
      if unfreeze.awaiting {
        return;
      }
      unfreeze := unfreeze.(awaiting := false, hold := None);
      RefreshPauseFrozen();
    }

    method SyncEngineLevelTime(ms: nat)
      modifies this`engineSynced, engine`startTime
      ensures View() == SyncEngine(old(View()), ms)
    {
      engine.startTime := engine.time - ms;
      engineSynced := true;
    }

    method ResyncAfterUnpause(syncEngine: bool)
      modifies this, engine`startTime
      ensures View() == Resync(old(View()), syncEngine)
    {
      var ms := if latch.Some? then latch else frozen;
      frozen := None;
      if ms.None? {
        latch := None;
        return;
      }
      elapsed := ms.value;
      var state := EffectiveState();
      if !(state == Some(Countdown) || state == Some(InProgress)) {
        latch := None;
        return;
      }
      startMap := Some(engine.time - ms.value);
      if syncEngine {
        SyncEngineLevelTime(ms.value);
      }
      latch := None;
    }

    method FinishThaw()
      modifies this, engine`startTime
      ensures View() == Thaw(old(View()))
    {
      if !unfreeze.awaiting {
        return;
      }
      var ms := if unfreeze.hold.Some? then unfreeze.hold else frozen;
      latch := Some(if ms.Some? then ms.value else AtLeastZero(elapsed));
      ResyncAfterUnpause(unfreeze.fromRestore);
      unfreeze := Unfreeze(None, false, false, None);
    }

    method ResetMatchClock()
      modifies this
      ensures View() == Reset(old(View()))
    {
      startMap := None;
      elapsed := 0;
      lastState := None;
      latch := None;
      frozen := None;
      unfreeze := Unfreeze(None, false, false, None);
      engineSynced := false;
    }

    method MatchElapsedMs() returns (ms: nat)
      ensures ms == MatchElapsed(View())
    {
      var state := EffectiveState();
      if !(state == Some(Countdown) || state == Some(InProgress)) {
        return 0;
      }
      var native := Native();
      if native.Some? {
        return native.value;
      }
      if startMap.Some? {
        return AtLeastZero(engine.time - startMap.value);
      }
      return AtLeastZero(elapsed);
    }

    /** The first half of _track_match_clock: the game state's edges. */
    method NoteStateEdge()
      modifies this
      ensures View() == Edge(old(View()))
    {
      var state := engine.game;
      if state.Some? && state != lastState {
        if state == Some(InProgress) && (lastState.None? || lastState == Some(Warmup) || lastState == Some(Countdown)) {
          startMap, elapsed := Some(engine.time), 0;
        } else if state == Some(Warmup) && (lastState == Some(InProgress) || lastState == Some(Countdown)) {
          ResetMatchClock();
        }
        lastState := state;
      }
    }

    method TrackMatchClock()
      modifies this, engine`pauseLatch
      ensures View() == Track(old(View()))
    {
      hide Edge;
      NoteStateEdge();
      var paused := SvPaused();
      if paused {
        if frozen.Some? {
          elapsed := frozen.value;
        } else {
          var ms := ComputeLiveElapsed();
          elapsed, frozen := ms, Some(ms);
        }
        return;
      }
      if unfreeze.awaiting {
        elapsed := if unfreeze.hold.Some? then unfreeze.hold.value else 0;
        return;
      }
      elapsed := MatchElapsedMs();
    }

    method FramePoll()
      modifies this, engine`pauseLatch, engine`startTime
      ensures View() == Frame(old(View()))
    {
      hide Thaw, Poll;
      if unfreeze.awaiting {
        if unfreeze.thawAt.Some? && engine.wall >= unfreeze.thawAt.value {
          FinishThaw();
        }
      }
      PollPause();
    }

    /** The frame poll after the thaw: pause edges, then the running clock. */
    method PollPause()
      modifies this, engine`pauseLatch
      ensures View() == Poll(old(View()))
    {
      hide Track, NotePause, NoteUnpause, Effective;
      var paused := SvPaused();
      if paused && !wasPaused {
        if !unfreeze.awaiting {
          NotePauseCommand();
        }
      } else if (wasPaused || holdUntilUnpause) && !paused {
        if !skipHooks {
          NoteUnpauseCommand();
        } else {
          SkippedUnpause(View());
        }
      }
      var still := SvPaused();
      if !still {
        TrackMatchClock();
      }
      wasPaused := paused;
    }

    method NotePauseText(pause: bool)
      modifies this, engine`pauseLatch
      ensures View() == Text(old(View()), pause)
    {
      engine.pauseLatch := pause;
      if pause {
        NotePauseCommand();
      } else {
        NoteUnpauseCommand();
      }
    }

    method OnGameStart()
      modifies this, engine`startTime
      ensures View() == GameStart(old(View()))
    {
      lastState := Some(InProgress);
      if unfreeze.awaiting {
        FinishThaw();
        return;
      }
      startMap, elapsed := Some(engine.time), 0;
    }

    method AbortRestoreSession()
      modifies this
      ensures View() == Abort(old(View()))
    {
      holdUntilUnpause, unfreeze := false, unfreeze.(awaiting := false, thawAt := None);
    }

    method ApplyMatchTime(t: nat)
      modifies this, engine`startTime, engine`pauseLatch
      ensures View() == ApplyTime(old(View()), t)
    {
      var paused := SvPaused();
      var state := EffectiveState();
      if state == Some(Countdown) || state == Some(InProgress) {
        SyncEngineLevelTime(t);
        startMap := Some(engine.time - t);
      }
      elapsed := t;
      if paused {
        frozen := Some(t);
      }
    }

    method RestorePhaseTime(t: nat)
      modifies this, engine`startTime, engine`pauseLatch
      ensures View() == PhaseTime(old(View()), t)
    {
      latch, frozen := Some(t), Some(t);
      ApplyMatchTime(t);
    }

    /** The engine obeys the console command, or still shows its pause flags; tells whether there is a window. */
    method OpenLiveWindow(t: nat, raw: bool) returns (live: bool)
      modifies this, engine`startTime, engine`pauseLatch, engine`rawPaused
      ensures View() == BeginRestore(old(View()), t, raw) && live == Paused(old(View()))
    {
      hide PhaseTime;
      holdUntilUnpause := true;
      live := SvPaused();
      if live {
        skipHooks := true;
        engine.rawPaused := raw;
        engine.pauseLatch := false;
        wasPaused := false;
      }
      RestorePhaseTime(t);
    }

    method CloseLiveWindow(raw: bool) returns (ok: bool)
      modifies this, engine`pauseLatch, engine`rawPaused
      ensures View() == EndRestore(old(View()), raw)
      ensures ok <==> Paused(View())
    {
      ok := SvPaused();
      if !ok {
        engine.rawPaused := raw;
        var state := EffectiveState();
        ok := raw || state != Some(Warmup);
        if ok {
          engine.pauseLatch := true;
        }
      }
      skipHooks := false;
    }

    method ReadLevelTime() returns (ms: nat)
      modifies this, engine`pauseLatch
      ensures View() == ReadState(old(View())) && ms == ReadValue(old(View()))
    {
      hide Track;
      if unfreeze.awaiting {
        return if unfreeze.hold.Some? then unfreeze.hold.value else 0;
      }
      var paused := SvPaused();
      if paused {
        if latch.Some? {
          return latch.value;
        }
        if frozen.Some? {
          return frozen.value;
        }
        TrackMatchClock();
        frozen := Some(AtLeastZero(elapsed));
        return frozen.value;
      }
      TrackMatchClock();
      return AtLeastZero(elapsed);
    }
  }
}
