/**
 Dead or alive at a restore target, told from a recording's events: the victim's stream is silent after
 a death, and the first jump of its position is the respawn. Times are match milliseconds.
 */
module RespawnScan {
  import opened Common

  datatype Pos = Pos(x: real, y: real, z: real)

  /** One player of a positions snapshot; a client number or position that cannot be read is None. */
  datatype Sample = Sample(clientNum: Option<int>, pos: Option<Pos>)

  datatype Event =
    | Positions(t: Option<int>, players: seq<Sample>)
    | Death(t: Option<int>, victim: Option<int>)
    | OtherEvent(t: Option<int>)

  /** The square of the least distance that counts as a teleport. */
  const MIN_TELEPORT_SQUARE := 22500.0

  function SquareDistance(a: Pos, b: Pos): real {
    (a.x - b.x) * (a.x - b.x) + (a.y - b.y) * (a.y - b.y) + (a.z - b.z) * (a.z - b.z)
  }

  predicate IsTeleport(a: Option<Pos>, b: Pos) {
    a.Some? && SquareDistance(b, a.value) >= MIN_TELEPORT_SQUARE
  }

  // ---- the last death ---------------------------------------------------------------------------

  predicate DeathOf(e: Event, cn: int, target: int) {
    e.Death? && e.victim == Some(cn) && e.t.Some? && e.t.value <= target
  }

  function LastDeath(events: seq<Event>, cn: int, target: int): Option<int> {
    if events == [] then None
    else
      var before, e := LastDeath(events[..|events| - 1], cn, target), events[|events| - 1];
      if DeathOf(e, cn, target) && (before.None? || e.t.value > before.value) then e.t else before
  }

  method LastDeathMs(events: seq<Event>, cn: int, target: int) returns (best: Option<int>)
    ensures best == LastDeath(events, cn, target)
  {
    best := None;
    for i := 0 to |events|
      invariant best == LastDeath(events[..i], cn, target)
    {
      assert events[..i + 1][..i] == events[..i];
      var e := events[i];
      if e.Death? && e.victim == Some(cn) && e.t.Some? && e.t.value <= target {
        if best.None? || e.t.value > best.value {
          best := e.t;
        }
      }
    }
    assert events[..|events|] == events;
  }

  /** The latest recorded death of the player up to the target, if there is one. */
  lemma {:induction false} LastDeathMeans(events: seq<Event>, cn: int, target: int)
    ensures var d := LastDeath(events, cn, target);
            && (d.None? <==> forall e :: e in events ==> !DeathOf(e, cn, target))
            && (d.Some? ==> exists e :: e in events && DeathOf(e, cn, target) && e.t == d)
            && (d.Some? ==> forall e :: e in events && DeathOf(e, cn, target) ==> e.t.value <= d.value)
  {
    if events != [] {
      var before, last := events[..|events| - 1], events[|events| - 1];
      LastDeathMeans(before, cn, target);
      assert forall e :: e in events <==> e in before || e == last;
    }
  }

  // ---- positions ------------------------------------------------------------------------------------

  /** The first sample of the player, as _player_xyz_at finds it. */
  function PosOf(players: seq<Sample>, cn: int): Option<Pos> {
    if players == [] then None
    else if players[0].clientNum == Some(cn) then players[0].pos
    else PosOf(players[1..], cn)
  }

  predicate SnapshotBy(e: Event, target: int) {
    e.Positions? && e.t.Some? && e.t.value <= target
  }

  /** The latest snapshot at or before the target, the first of several at the same time. */
  function Nearest(events: seq<Event>, target: int): Option<Event> {
    if events == [] then None
    else
      var before, e := Nearest(events[..|events| - 1], target), events[|events| - 1];
      if SnapshotBy(e, target) && (before.None? || before.value.t.None? || e.t.value > before.value.t.value)
      then Some(e) else before
  }

  method NearestPositions(events: seq<Event>, target: int) returns (best: Option<Event>)
    ensures best == Nearest(events, target)
  {
    best := None;
    for i := 0 to |events|
      invariant best == Nearest(events[..i], target)
      invariant best.Some? ==> SnapshotBy(best.value, target)
    {
      assert events[..i + 1][..i] == events[..i];
      var e := events[i];
      if e.Positions? && e.t.Some? && e.t.value <= target {
        if best.None? || e.t.value > best.value.t.value {
          best := Some(e);
        }
      }
    }
    assert events[..|events|] == events;
  }

  // ---- snapshots in time order, equal times in the order of the file ---------------------------------

  function TimeKey(e: Event): int {
    if e.t.Some? then e.t.value else -1
  }

  function Insert(e: Event, sorted: seq<Event>): seq<Event> {
    if sorted == [] || TimeKey(e) < TimeKey(sorted[0]) then [e] + sorted
    else [sorted[0]] + Insert(e, sorted[1..])
  }

  function Snapshots(events: seq<Event>): seq<Event> {
    if events == [] then []
    else
      var before, e := Snapshots(events[..|events| - 1]), events[|events| - 1];
      if e.Positions? then Insert(e, before) else before
  }

  predicate InTimeOrder(events: seq<Event>) {
    forall i, j :: 0 <= i < j < |events| ==> TimeKey(events[i]) <= TimeKey(events[j])
  }

  /** The snapshots of one time, in order. */
  function AtTime(events: seq<Event>, key: int): seq<Event> {
    if events == [] then []
    else
      var e := events[|events| - 1];
      AtTime(events[..|events| - 1], key) + if e.Positions? && TimeKey(e) == key then [e] else []
  }

  lemma {:induction false} AtTimePrepend(e: Event, rest: seq<Event>, key: int)
    ensures AtTime([e] + rest, key) == AtTime([e], key) + AtTime(rest, key)
  {
    if rest == [] {
      assert [e] + rest == [e];
    } else {
      var front := rest[..|rest| - 1];
      AtTimePrepend(e, front, key);
      assert ([e] + rest)[..|rest|] == [e] + front;
    }
  }

  lemma {:induction false} InsertInOrder(e: Event, sorted: seq<Event>)
    requires InTimeOrder(sorted)
    ensures InTimeOrder(Insert(e, sorted))
    ensures forall x :: x in Insert(e, sorted) <==> x == e || x in sorted
  {
    if sorted != [] && TimeKey(e) >= TimeKey(sorted[0]) {
      var tail := Insert(e, sorted[1..]);
      InsertInOrder(e, sorted[1..]);
      forall i | 0 <= i < |tail| ensures TimeKey(sorted[0]) <= TimeKey(tail[i]) {
        assert tail[i] in tail;
        if tail[i] != e {
          var k :| 0 <= k < |sorted[1..]| && sorted[1..][k] == tail[i];
        }
      }
    }
  }

  lemma AtTimeAppend(events: seq<Event>, e: Event, key: int)
    ensures AtTime(events + [e], key) == AtTime(events, key) + if e.Positions? && TimeKey(e) == key then [e] else []
  {
    assert (events + [e])[..|events|] == events;
  }

  /** In front of later snapshots, or behind them: the same to the snapshots of one time. */
  lemma InsertInFront(e: Event, sorted: seq<Event>, key: int)
    requires e.Positions? && forall i :: 0 <= i < |sorted| ==> TimeKey(e) < TimeKey(sorted[i])
    ensures AtTime([e] + sorted, key) == AtTime(sorted + [e], key)
  {
    AtTimePrepend(e, sorted, key);
    AtTimeAppend(sorted, e, key);
    AtTimeAppend([], e, key);
    assert [] + [e] == [e] && AtTime([], key) == [];
    hide AtTime;
    if key == TimeKey(e) {
      NoneAtTime(sorted, key);
    }
  }

  lemma {:induction false} InsertAtTime(e: Event, sorted: seq<Event>, key: int)
    requires InTimeOrder(sorted) && e.Positions?
    ensures AtTime(Insert(e, sorted), key) == AtTime(sorted + [e], key)
    decreases |sorted|
  {
    hide AtTime;
    if sorted == [] || TimeKey(e) < TimeKey(sorted[0]) {
      InsertInFront(e, sorted, key);
    } else {
      var first, rest := sorted[0], sorted[1..];
      InsertAtTime(e, rest, key);
      AtTimePrepend(first, Insert(e, rest), key);
      AtTimePrepend(first, rest + [e], key);
      assert [first] + (rest + [e]) == sorted + [e];
    }
  }

  lemma {:induction false} NoneAtTime(events: seq<Event>, key: int)
    requires forall i :: 0 <= i < |events| ==> TimeKey(events[i]) != key
    ensures AtTime(events, key) == []
  {
    if events != [] {
      NoneAtTime(events[..|events| - 1], key);
    }
  }

  /** The sort: in time order, the same snapshots, and those of one time as in the file. */
  lemma {:induction false} SnapshotsSorted(events: seq<Event>)
    ensures InTimeOrder(Snapshots(events))
    ensures forall e :: e in Snapshots(events) <==> e in events && e.Positions?
    ensures forall key :: AtTime(Snapshots(events), key) == AtTime(events, key)
  {
    if events != [] {
      var before, e := events[..|events| - 1], events[|events| - 1];
      SnapshotsSorted(before);
      assert forall x :: x in events <==> x in before || x == e;
      if e.Positions? {
        InsertInOrder(e, Snapshots(before));
        forall key ensures AtTime(Snapshots(events), key) == AtTime(events, key) {
          InsertAtTime(e, Snapshots(before), key);
          assert (Snapshots(before) + [e])[..|Snapshots(before)|] == Snapshots(before);
        }
      }
    }
  }

  // ---- the scan ----------------------------------------------------------------------------------------

  predicate Scanned(e: Event, seedT: Option<int>, bound: Option<int>) {
    e.t.Some? && !(bound.Some? && e.t.value > bound.value) && !(seedT.Some? && e.t.value <= seedT.value)
  }

  /** The first teleport-sized jump in the snapshots, seen from the position `prev`. */
  function Scan(snapshots: seq<Event>, cn: int, seedT: Option<int>, bound: Option<int>, prev: Option<Pos>): Option<int>
    requires forall i :: 0 <= i < |snapshots| ==> snapshots[i].Positions?
    decreases |snapshots|
  {
    if snapshots == [] then None
    else
      var e := snapshots[0];
      if !Scanned(e, seedT, bound) then Scan(snapshots[1..], cn, seedT, bound, prev)
      else
        var at := PosOf(e.players, cn);
        if at.None? then Scan(snapshots[1..], cn, seedT, bound, prev)
        else if IsTeleport(prev, at.value) then e.t
        else Scan(snapshots[1..], cn, seedT, bound, at)
  }

  function SeedTime(events: seq<Event>, deathMs: int): Option<int> {
    match Nearest(events, deathMs) case Some(e) => e.t case None => None
  }

  function SeedPos(events: seq<Event>, cn: int, deathMs: int): Option<Pos> {
    match Nearest(events, deathMs)
    case Some(Positions(_, players)) => PosOf(players, cn)
    case _ => None
  }

  /** _first_respawn_teleport_ms, unbounded if `bound` is None. */
  ghost function FirstRespawn(events: seq<Event>, cn: int, deathMs: int, bound: Option<int>): Option<int> {
    SnapshotsSorted(events);
    Scan(Snapshots(events), cn, SeedTime(events, deathMs), bound, SeedPos(events, cn, deathMs))
  }

  /** The loop of _first_respawn_teleport_ms. */
  method ScanSnapshots(snapshots: seq<Event>, cn: int, seedT: Option<int>, bound: Option<int>, seed: Option<Pos>)
    returns (r: Option<int>)
    requires forall i :: 0 <= i < |snapshots| ==> snapshots[i].Positions?
    ensures r == Scan(snapshots, cn, seedT, bound, seed)
  {
    var prev := seed;
    for i := 0 to |snapshots|
      invariant Scan(snapshots[i..], cn, seedT, bound, prev) == Scan(snapshots, cn, seedT, bound, seed)
    {
      var e := snapshots[i];
      assert snapshots[i..][1..] == snapshots[i + 1..];
      if e.t.None? {
        continue;
      }
      if bound.Some? && e.t.value > bound.value {
        continue;
      }
      if seedT.Some? && e.t.value <= seedT.value {
        continue;
      }
      var at := PosOf(e.players, cn);
      if at.None? {
        continue;
      }
      if IsTeleport(prev, at.value) {
        return e.t;
      }
      prev := at;
    }
    r := None;
  }

  method FirstRespawnTeleportMs(events: seq<Event>, cn: int, deathMs: int, bound: Option<int>) returns (r: Option<int>)
    ensures r == FirstRespawn(events, cn, deathMs, bound)
    ensures FindsFirstJump(Snapshots(events), cn, SeedTime(events, deathMs), bound, SeedPos(events, cn, deathMs), r)
  {
    hide FindsFirstJump, Scan, Snapshots, Nearest;
    var seed := NearestPositions(events, deathMs);
    var seedT := if seed.Some? then seed.value.t else None;
    var seedPos := if seed.Some? && seed.value.Positions? then PosOf(seed.value.players, cn) else None;
    var snapshots := Snapshots(events);
    SnapshotsSorted(events);
    r := ScanSnapshots(snapshots, cn, seedT, bound, seedPos);
    RespawnIsFirstJump(events, cn, deathMs, bound);
  }

  // ---- what the scan finds ---------------------------------------------------------------------------

  /** Snapshot k shows where the player is, after the seed and within the bound. */
  predicate Sighted(snapshots: seq<Event>, k: nat, cn: int, seedT: Option<int>, bound: Option<int>)
    requires k < |snapshots|
  {
    Scanned(snapshots[k], seedT, bound) && PosIn(snapshots[k], cn).Some?
  }

  function PosIn(e: Event, cn: int): Option<Pos> {
    if e.Positions? then PosOf(e.players, cn) else None
  }

  /** j is the last sighting before snapshot k. */
  predicate LastSighting(snapshots: seq<Event>, j: nat, k: nat, cn: int, seedT: Option<int>, bound: Option<int>)
    requires k <= |snapshots|
  {
    && j < k && Sighted(snapshots, j, cn, seedT, bound)
    && forall i :: j < i < k ==> !Sighted(snapshots, i, cn, seedT, bound)
  }

  predicate NoneSighted(snapshots: seq<Event>, k: nat, cn: int, seedT: Option<int>, bound: Option<int>)
    requires k <= |snapshots|
  {
    forall i :: 0 <= i < k ==> !Sighted(snapshots, i, cn, seedT, bound)
  }

  /** The player is `prev` before snapshot k: the last sighting, or the seed if there was none. */
  ghost predicate WasAt(snapshots: seq<Event>, k: nat, cn: int, seedT: Option<int>, bound: Option<int>,
                        seed: Option<Pos>, prev: Option<Pos>)
    requires k <= |snapshots|
  {
    || (NoneSighted(snapshots, k, cn, seedT, bound) && prev == seed)
    || exists j: nat :: LastSighting(snapshots, j, k, cn, seedT, bound) && prev == PosIn(snapshots[j], cn)
  }

  /** Between two consecutive sightings, the second in snapshot k, the player moved a teleport's distance. */
  ghost predicate JumpAt(snapshots: seq<Event>, k: nat, cn: int, seedT: Option<int>, bound: Option<int>, seed: Option<Pos>)
    requires k < |snapshots|
  {
    && Sighted(snapshots, k, cn, seedT, bound)
    && exists prev :: WasAt(snapshots, k, cn, seedT, bound, seed, prev)
                      && IsTeleport(prev, PosIn(snapshots[k], cn).value)
  }

  ghost predicate NoJump(snapshots: seq<Event>, k: nat, cn: int, seedT: Option<int>, bound: Option<int>, seed: Option<Pos>)
    requires k <= |snapshots|
  {
    forall i :: 0 <= i < k ==> !JumpAt(snapshots, i, cn, seedT, bound, seed)
  }

  /** There is one place the player was before. */
  lemma WasAtOnePlace(snapshots: seq<Event>, k: nat, cn: int, seedT: Option<int>, bound: Option<int>,
                      seed: Option<Pos>, a: Option<Pos>, b: Option<Pos>)
    requires k <= |snapshots| && WasAt(snapshots, k, cn, seedT, bound, seed, a)
    requires WasAt(snapshots, k, cn, seedT, bound, seed, b)
    ensures a == b
  {
    hide Sighted, PosIn;
  }

  lemma NextSighting(snapshots: seq<Event>, k: nat, cn: int, seedT: Option<int>, bound: Option<int>,
                     seed: Option<Pos>, prev: Option<Pos>)
    requires k < |snapshots| && WasAt(snapshots, k, cn, seedT, bound, seed, prev)
    ensures WasAt(snapshots, k + 1, cn, seedT, bound, seed,
                  if Sighted(snapshots, k, cn, seedT, bound) then PosIn(snapshots[k], cn) else prev)
  {
    hide Sighted, PosIn;
    if Sighted(snapshots, k, cn, seedT, bound) {
      assert LastSighting(snapshots, k, k + 1, cn, seedT, bound);
    } else if j: nat :| LastSighting(snapshots, j, k, cn, seedT, bound) && prev == PosIn(snapshots[j], cn) {
      assert LastSighting(snapshots, j, k + 1, cn, seedT, bound);
    }
  }

  /** The scan's result: the time of the first jump, and None exactly when there is none. */
  ghost predicate FindsFirstJump(snapshots: seq<Event>, cn: int, seedT: Option<int>, bound: Option<int>,
                                 seed: Option<Pos>, r: Option<int>)
  {
    && (r.None? <==> NoJump(snapshots, |snapshots|, cn, seedT, bound, seed))
    && (r.Some? ==> exists k :: 0 <= k < |snapshots| && JumpAt(snapshots, k, cn, seedT, bound, seed)
                                && snapshots[k].t == r && NoJump(snapshots, k, cn, seedT, bound, seed))
  }

  lemma {:induction false} ScanFrom(snapshots: seq<Event>, k: nat, cn: int, seedT: Option<int>, bound: Option<int>,
                                    seed: Option<Pos>, prev: Option<Pos>)
    requires k <= |snapshots| && forall i :: 0 <= i < |snapshots| ==> snapshots[i].Positions?
    requires WasAt(snapshots, k, cn, seedT, bound, seed, prev) && NoJump(snapshots, k, cn, seedT, bound, seed)
    ensures FindsFirstJump(snapshots, cn, seedT, bound, seed, Scan(snapshots[k..], cn, seedT, bound, prev))
    decreases |snapshots| - k
  {
    if k < |snapshots| {
      var e := snapshots[k];
      assert snapshots[k..][0] == e && snapshots[k..][1..] == snapshots[k + 1..];
      NextSighting(snapshots, k, cn, seedT, bound, seed, prev);
      JumpHere(snapshots, k, cn, seedT, bound, seed, prev);
      var at := PosOf(e.players, cn);
      assert Sighted(snapshots, k, cn, seedT, bound) <==> Scanned(e, seedT, bound) && at.Some?;
      hide Sighted, WasAt, Scanned, IsTeleport, PosOf, PosIn, JumpAt;
      if !JumpAt(snapshots, k, cn, seedT, bound, seed) {
        ScanFrom(snapshots, k + 1, cn, seedT, bound, seed, if Sighted(snapshots, k, cn, seedT, bound) then at else prev);
      }
    }
  }

  lemma JumpHere(snapshots: seq<Event>, k: nat, cn: int, seedT: Option<int>, bound: Option<int>,
                 seed: Option<Pos>, prev: Option<Pos>)
    requires k < |snapshots| && WasAt(snapshots, k, cn, seedT, bound, seed, prev)
    ensures JumpAt(snapshots, k, cn, seedT, bound, seed) <==>
            Sighted(snapshots, k, cn, seedT, bound) && IsTeleport(prev, PosIn(snapshots[k], cn).value)
  {
    hide WasAt, IsTeleport, PosIn;
    forall other | WasAt(snapshots, k, cn, seedT, bound, seed, other) ensures other == prev {
      WasAtOnePlace(snapshots, k, cn, seedT, bound, seed, other, prev);
    }
  }

  /**
   The respawn found is the first teleport-sized jump between consecutive sightings of the player, seen from
   the seed's position; none is found exactly when there is no such jump.
   */
  lemma RespawnIsFirstJump(events: seq<Event>, cn: int, deathMs: int, bound: Option<int>)
    ensures FindsFirstJump(Snapshots(events), cn, SeedTime(events, deathMs), bound, SeedPos(events, cn, deathMs),
                           FirstRespawn(events, cn, deathMs, bound))
  {
    SnapshotsSorted(events);
    var snapshots := Snapshots(events);
    assert NoneSighted(snapshots, 0, cn, SeedTime(events, deathMs), bound);
    assert snapshots[0..] == snapshots;
    ScanFrom(snapshots, 0, cn, SeedTime(events, deathMs), bound, SeedPos(events, cn, deathMs),
             SeedPos(events, cn, deathMs));
  }

  /** Whatever a scan finds is the time of a scanned snapshot. */
  lemma {:induction false} ScanFinds(snapshots: seq<Event>, cn: int, seedT: Option<int>, bound: Option<int>,
      prev: Option<Pos>)
    requires forall i :: 0 <= i < |snapshots| ==> snapshots[i].Positions?
    ensures var r := Scan(snapshots, cn, seedT, bound, prev);
            r.Some? ==> exists i :: 0 <= i < |snapshots| && snapshots[i].t == r && Scanned(snapshots[i], seedT, bound)
    decreases |snapshots|
  {
    if snapshots != [] {
      var at := PosOf(snapshots[0].players, cn);
      var rest := snapshots[1..];
      ScanFinds(rest, cn, seedT, bound, prev);
      ScanFinds(rest, cn, seedT, bound, at);
      var r := Scan(snapshots, cn, seedT, bound, prev);
      if r.Some? && !(Scanned(snapshots[0], seedT, bound) && snapshots[0].t == r) {
        var i :| 0 <= i < |rest| && rest[i].t == r && Scanned(rest[i], seedT, bound);
        assert snapshots[i + 1] == rest[i];
      }
    }
  }

  /** The bounded scan is a prefix of the unbounded one: it finds the same jump, if that is within the bound. */
  lemma {:induction false} BoundedScan(snapshots: seq<Event>, cn: int, seedT: Option<int>, bound: int,
      prev: Option<Pos>)
    requires (forall i :: 0 <= i < |snapshots| ==> snapshots[i].Positions?) && InTimeOrder(snapshots)
    ensures var r := Scan(snapshots, cn, seedT, None, prev);
            Scan(snapshots, cn, seedT, Some(bound), prev) == if r.Some? && r.value <= bound then r else None
    decreases |snapshots|
  {
    if snapshots != [] {
      var e, rest := snapshots[0], snapshots[1..];
      if e.t.Some? && e.t.value > bound {
        ScanFinds(snapshots, cn, seedT, None, prev);
        ScanFinds(snapshots, cn, seedT, Some(bound), prev);
        forall i | 0 <= i < |snapshots| && snapshots[i].t.Some? ensures snapshots[i].t.value > bound {
          assert TimeKey(snapshots[0]) <= TimeKey(snapshots[i]);
        }
      } else {
        BoundedScan(rest, cn, seedT, bound, prev);
        BoundedScan(rest, cn, seedT, bound, PosOf(e.players, cn));
      }
    }
  }

  lemma BoundedRespawn(events: seq<Event>, cn: int, deathMs: int, target: int)
    ensures var r := FirstRespawn(events, cn, deathMs, None);
            FirstRespawn(events, cn, deathMs, Some(target)) == if r.Some? && r.value <= target then r else None
  {
    SnapshotsSorted(events);
    BoundedScan(Snapshots(events), cn, SeedTime(events, deathMs), target, SeedPos(events, cn, deathMs));
  }

  // ---- the override -----------------------------------------------------------------------------------

  /** The part of a player row the override touches. */
  datatype Row = Row(cid: int, health: int, dead: bool, respawnIn: Option<int>)

  ghost function Overridden(row: Row, events: seq<Event>, target: int): Row {
    var d := LastDeath(events, row.cid, target);
    if d.None? || FirstRespawn(events, row.cid, d.value, Some(target)).Some? then row
    else
      var r := FirstRespawn(events, row.cid, d.value, None);
      row.(health := 0, dead := true,
           respawnIn := if r.Some? && r.value > target then Some(r.value - target) else row.respawnIn)
  }

  method ApplyDeathOverrides(players: array<Row>, events: seq<Event>, target: int)
    modifies players
    ensures forall i :: 0 <= i < players.Length ==> players[i] == Overridden(old(players[i]), events, target)
  {
    for i := 0 to players.Length
      invariant forall k :: 0 <= k < i ==> players[k] == Overridden(old(players[k]), events, target)
      invariant forall k :: i <= k < players.Length ==> players[k] == old(players[k])
    {
      var d := LastDeathMs(events, players[i].cid, target);
      if d.None? {
        continue;
      }
      var seen := FirstRespawnTeleportMs(events, players[i].cid, d.value, Some(target));
      if seen.Some? {
        continue;
      }
      players[i] := players[i].(health := 0, dead := true);
      var respawn := FirstRespawnTeleportMs(events, players[i].cid, d.value, None);
      if respawn.Some? && respawn.value > target {
        players[i] := players[i].(respawnIn := Some(respawn.value - target));
      }
    }
  }

  /** canonicalize() keeps a dead player's time left, never below zero. */
  function CanonicalRespawnIn(row: Row): Option<int> {
    if row.dead && row.respawnIn.Some? then Some(Max(0, row.respawnIn.value)) else None
  }

  /**
   The override agrees with the recording. A player with no recorded death by the target is left alone.
   With last death d and the first respawn at r, a target in [d, r) gives a dead player whose time left ends
   at r, and a target from r on leaves the row alone.
   */
  lemma DeathOverrideAgrees(row: Row, events: seq<Event>, target: int)
    ensures var after := Overridden(row, events, target);
            if forall e :: e in events ==> !DeathOf(e, row.cid, target) then after == row
            else
              LastDeath(events, row.cid, target).Some?
              && var r := FirstRespawn(events, row.cid, LastDeath(events, row.cid, target).value, None);
                 && (r.Some? && r.value <= target ==> after == row)
                 && (r.Some? && target < r.value ==>
                       after.dead && after.health == 0 && CanonicalRespawnIn(after) == Some(r.value - target))
                 && (r.None? ==> after == row.(dead := true, health := 0))
  {
    LastDeathMeans(events, row.cid, target);
    var d := LastDeath(events, row.cid, target);
    if d.Some? {
      BoundedRespawn(events, row.cid, d.value, target);
    }
    hide FirstRespawn, LastDeath, DeathOf;
  }

  /** The respawn does not depend on the target: every target between two deaths sees the same one. */
  lemma SameDeathSameRespawn(row: Row, events: seq<Event>, target: int, later: int)
    requires target <= later && LastDeath(events, row.cid, target).Some?
    requires forall e :: e in events && DeathOf(e, row.cid, later) ==> e.t.value <= target
    ensures LastDeath(events, row.cid, later) == LastDeath(events, row.cid, target)
  {
    LastDeathMeans(events, row.cid, target);
    LastDeathMeans(events, row.cid, later);
  }

  /** Where a respawn is found, it is a snapshot after the death's, with a jump. */
  lemma RespawnAfterDeath(events: seq<Event>, cn: int, deathMs: int)
    ensures var r := FirstRespawn(events, cn, deathMs, None);
            r.Some? ==> (exists e :: e in events && e.Positions? && e.t == r) && r.value > deathMs
  {
    SnapshotsSorted(events);
    NearestMeans(events, deathMs);
    var r := FirstRespawn(events, cn, deathMs, None);
    ScanFinds(Snapshots(events), cn, SeedTime(events, deathMs), None, SeedPos(events, cn, deathMs));
    if r.Some? {
      var i :| 0 <= i < |Snapshots(events)| && Snapshots(events)[i].t == r
          && Scanned(Snapshots(events)[i], SeedTime(events, deathMs), None);
      var e := Snapshots(events)[i];
      assert e in events && (SnapshotBy(e, deathMs) <==> r.value <= deathMs);
    }
  }

  /** The nearest snapshot is the latest one by the target. */
  lemma {:induction false} NearestMeans(events: seq<Event>, target: int)
    ensures var n := Nearest(events, target);
            && (n.None? <==> forall e :: e in events ==> !SnapshotBy(e, target))
            && (n.Some? ==> n.value in events && SnapshotBy(n.value, target)
                            && forall e :: e in events && SnapshotBy(e, target) ==> e.t.value <= n.value.t.value)
  {
    if events != [] {
      var before, last := events[..|events| - 1], events[|events| - 1];
      NearestMeans(before, target);
      assert forall e :: e in events <==> e in before || e == last;
    }
  }
}
