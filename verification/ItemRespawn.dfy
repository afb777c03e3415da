/**
 From a recording's pickups to the moment a restored item reappears: the fold over the pickup events,
 the spot of a spawn point, the checkpoint row, its canonical form and the restore plan.
 */
module ItemRespawn {
  import opened Common

  // ---- the pickup log -----------------------------------------------------------------------------

  /** An item spot: the class name and the rounded coordinates. */
  datatype Spot = Spot(item: string, x: int, y: int, z: int)

  datatype Action = PickedUp | Respawned | OtherAction

  /** A pickup event with a known item and spot; respawn is in seconds. */
  datatype Pickup = Pickup(t: Option<int>, spot: Spot, action: Action, respawn: Option<real>)

  datatype Info = Info(pickupMs: int, respawn: Option<real>)

  predicate Counts(e: Pickup, target: int) {
    e.t.Some? && e.t.value <= target && e.spot.item != "" && e.action != OtherAction
  }

  function Fold(events: seq<Pickup>, target: int): map<Spot, Info> {
    if events == [] then map[]
    else
      var before, e := Fold(events[..|events| - 1], target), events[|events| - 1];
      if !Counts(e, target) then before
      else if e.action == PickedUp then before[e.spot := Info(e.t.value, e.respawn)]
      else before - {e.spot}
  }

  /** The respawn time is known and over. */
  predicate IsBack(info: Info, target: int) {
    info.respawn.Some? && target as real >= info.pickupMs as real + info.respawn.value * 1000.0
  }

  function Pending(events: seq<Pickup>, target: int): map<Spot, Info> {
    var all := Fold(events, target);
    map s | s in all && !IsBack(all[s], target) :: all[s]
  }

  method PickupStateAt(events: seq<Pickup>, target: int) returns (byKey: map<Spot, Info>)
    ensures byKey == Pending(events, target)
  {
    byKey := map[];
    for i := 0 to |events|
      invariant byKey == Fold(events[..i], target)
    {
      assert events[..i + 1][..i] == events[..i];
      var e := events[i];
      if e.t.None? || e.t.value > target || e.spot.item == "" {
        continue;
      }
      if e.action == PickedUp {
        byKey := byKey[e.spot := Info(e.t.value, e.respawn)];
      } else if e.action == Respawned {
        byKey := byKey - {e.spot};
      }
    }
    assert events[..|events|] == events;
    ghost var all := byKey;
    var back := set s | s in byKey && IsBack(byKey[s], target);
    var todo := back;
    while todo != {}
      invariant todo <= back && byKey == all - (back - todo)
      decreases todo
    {
      var s :| s in todo;
      byKey := byKey - {s};
      todo := todo - {s};
    }
  }

  /** The last event of a spot by the target, in the order of the file. */
  function LastOf(events: seq<Pickup>, target: int, spot: Spot): (last: Option<Pickup>)
    ensures last.Some? ==> last.value in events && Counts(last.value, target) && last.value.spot == spot
  {
    if events == [] then None
    else
      var e := events[|events| - 1];
      if Counts(e, target) && e.spot == spot then Some(e) else LastOf(events[..|events| - 1], target, spot)
  }

  lemma {:induction false} FoldIsLast(events: seq<Pickup>, target: int, spot: Spot)
    ensures var last, all := LastOf(events, target, spot), Fold(events, target);
            && (spot in all <==> last.Some? && last.value.action == PickedUp)
            && (spot in all ==> last.value.t.Some? && all[spot] == Info(last.value.t.value, last.value.respawn))
  {
    if events != [] {
      FoldIsLast(events[..|events| - 1], target, spot);
    }
  }

  // ---- the spot of a spawn point ----------------------------------------------------------------------

  const MATCH_MAX_Z_DELTA := 64

  function Gap(a: int, b: int): nat {
    if a < b then b - a else a - b
  }

  /** A spot that can stand for the spawn point: same class, same column, and near enough. */
  predicate CanMatch(s: Spot, spawn: Spot) {
    s.item == spawn.item && s.x == spawn.x && s.y == spawn.y && Gap(s.z, spawn.z) <= MATCH_MAX_Z_DELTA
  }

  /** What a spawn point finds: its own spot, else a nearest one that can match, and none only if none can. */
  ghost predicate Finds(state: map<Spot, Info>, spawn: Spot, found: Option<Spot>) {
    && (spawn in state ==> found == Some(spawn))
    && (found.None? <==> forall s :: s in state ==> !CanMatch(s, spawn))
    && (found.Some? ==>
          && found.value in state && CanMatch(found.value, spawn)
          && forall s :: s in state && CanMatch(s, spawn) ==> Gap(found.value.z, spawn.z) <= Gap(s.z, spawn.z))
  }

  /** The dictionary may be visited in any order; ties are broken by it. */
  method PickupForSpawn(state: map<Spot, Info>, spawn: Spot) returns (found: Option<Spot>)
    ensures Finds(state, spawn, found)
  {
    if spawn in state {
      return Some(spawn);
    }
    found := None;
    var bestGap := MATCH_MAX_Z_DELTA + 1;
    var todo := state.Keys;
    while todo != {}
      invariant todo <= state.Keys
      invariant bestGap == if found.None? then MATCH_MAX_Z_DELTA + 1 else Gap(found.value.z, spawn.z)
      invariant found.Some? ==> found.value in state && CanMatch(found.value, spawn)
      invariant forall s :: s in state.Keys - todo && CanMatch(s, spawn) ==> bestGap <= Gap(s.z, spawn.z)
      decreases todo
    {
      var s :| s in todo;
      todo := todo - {s};
      if s.item != spawn.item || s.x != spawn.x || s.y != spawn.y {
        continue;
      }
      var gap := Gap(s.z, spawn.z);
      if gap <= MATCH_MAX_Z_DELTA && gap < bestGap {
        found, bestGap := Some(s), gap;
      }
    }
  }

  // ---- the checkpoint row -------------------------------------------------------------------------------

  predicate StartsWith(s: string, prefix: string) {
    prefix <= s
  }

  const POWERUPS: set<string> :=
    {"item_quad", "item_regen", "item_haste", "item_enviro", "item_invis", "item_invisibility",
     "item_invulnerability", "item_flight"}

  function VanillaRespawn(name: string, mapKey: string): real {
    if StartsWith(name, "weapon_") then 5.0
    else if name == "item_health_mega" then (if mapKey == "proq3tourney4" then 120.0 else 35.0)
    else if StartsWith(name, "item_armor") then 25.0
    else if StartsWith(name, "ammo_") then 40.0
    else if name in POWERUPS then 120.0
    else if StartsWith(name, "item_health") then 35.0
    else if StartsWith(name, "item_") then 120.0
    else 35.0
  }

  /** int() of a float: toward zero. */
  function Truncate(x: real): int {
    if x >= 0.0 then x.Floor else -((-x).Floor)
  }

  /** round(x, 2), ties to the even digit. */
  function RoundCents(x: real): real {
    var cents := x * 100.0;
    var low := cents.Floor;
    var rest := cents - low as real;
    var n := if rest < 0.5 || (rest == 0.5 && low % 2 == 0) then low else low + 1;
    n as real / 100.0
  }

  /** s is 1 for an item that is there and 2 for one that waits; inSec and atMs say when it comes back. */
  datatype Row = Row(k: string, s: int, inSec: Option<real>, atMs: Option<int>)

  /** A zero or missing respawn time falls back on the game's own. */
  function RespawnOf(info: Info, vanilla: real): real {
    if info.respawn.Some? && info.respawn.value != 0.0 then info.respawn.value else vanilla
  }

  /** Milliseconds left and the moment the item reappears, if it is still away; the second way is a fallback. */
  function Away(info: Info, vanilla: real, now: int): Option<(real, int)> {
    var r := RespawnOf(info, vanilla);
    var back := Truncate(info.pickupMs as real + r * 1000.0);
    if info.pickupMs > 0 && back > now then Some(((back - now) as real / 1000.0, back))
    else if now > 0 && info.pickupMs > 0 then
      var left := Truncate(r * 1000.0) - Max(0, now - info.pickupMs);
      if left > 50 then Some((left as real / 1000.0, now + left)) else None
    else None
  }

  function Export(alias: string, name: string, mapKey: string, now: int, info: Option<Info>): Row {
    if info.None? then Row(alias, 1, None, None)
    else
      var away := Away(info.value, VanillaRespawn(name, mapKey), now);
      if away.Some? && away.value.0 > 0.05 then Row(alias, 2, Some(RoundCents(away.value.0)), Some(away.value.1))
      else Row(alias, 1, None, None)
  }

  /** canonicalize() for one item row that has a key: visible items are dropped. */
  function Canonical(row: Row): Option<Row> {
    if row.s == 1 then None else Some(Row(row.k, row.s, if row.s == 2 then row.inSec else None,
        if row.s == 2 then row.atMs else None))
  }

  /** Match time at which a restored item appears; None hides it. */
  function VisibleAt(row: Row, checkpoint: int): Option<int> {
    var now := Max(0, checkpoint);
    if row.s == 0 then None
    else if row.s == 1 then Some(now)
    else if row.s != 2 then None
    else
      var inSec := if row.inSec.Some? then row.inSec.value else 0.0;
      var at := if row.atMs.Some? then row.atMs
                else if inSec > 0.0 then Some(Truncate(now as real + inSec * 1000.0)) else None;
      if at.None? then None else Some(Max(now, at.value))
  }

  // ---- deadlines survive ----------------------------------------------------------------------------------

  lemma TruncateSum(p: int, x: real)
    requires x >= 0.0 && p >= 0
    ensures Truncate(p as real + x) == p + Truncate(x)
  {
    assert (p as real + x).Floor == p + x.Floor;
  }

  lemma TruncateSmall(x: real)
    requires x <= 0.0
    ensures Truncate(x) <= 0
  {}

  /** The fallback never fires: an item not away by its own deadline is not away by the elapsed time either. */
  lemma FallbackNeverFires(info: Info, vanilla: real, now: int)
    ensures var back := Truncate(info.pickupMs as real + RespawnOf(info, vanilla) * 1000.0);
            Away(info, vanilla, now) ==
            if info.pickupMs > 0 && back > now then Some(((back - now) as real / 1000.0, back)) else None
  {
    var x := RespawnOf(info, vanilla) * 1000.0;
    if x >= 0.0 {
      if info.pickupMs >= 0 {
        TruncateSum(info.pickupMs, x);
      }
    } else {
      TruncateSmall(x);
    }
  }

  /** The moment the item of a pickup is back. */
  function Deadline(info: Info, vanilla: real): int {
    Truncate(info.pickupMs as real + RespawnOf(info, vanilla) * 1000.0)
  }

  /** The row waits exactly when more than 50 ms are left, and then carries the deadline. */
  lemma ExportMeans(alias: string, name: string, mapKey: string, now: int, info: Info)
    ensures var row, at := Export(alias, name, mapKey, now, Some(info)), Deadline(info, VanillaRespawn(name, mapKey));
            if info.pickupMs > 0 && at - now > 50 then row.s == 2 && row.atMs == Some(at) && row.k == alias
            else row == Row(alias, 1, None, None)
  {
    FallbackNeverFires(info, VanillaRespawn(name, mapKey), now);
    var at := Deadline(info, VanillaRespawn(name, mapKey));
    assert (at - now) as real / 1000.0 > 0.05 <==> at - now > 50;
  }

  /** The respawn time of a recorded pickup in seconds: its own, or the game's where it has none. */
  function SecondsOf(e: Pickup, mapKey: string): real {
    if e.respawn.Some? then e.respawn.value else VanillaRespawn(e.spot.item, mapKey)
  }

  /**
   The whole chain: a spot whose last event by the target is a pickup at p > 0 with more than 50 ms of
   its respawn time r left is restored to reappear at exactly p plus r; any other spot gets no row.
   */
  lemma DeadlineSurvives(events: seq<Pickup>, target: int, spot: Spot, alias: string, mapKey: string)
    requires target >= 0
    ensures var state, last := Pending(events, target), LastOf(events, target, spot);
            var row := Canonical(Export(alias, spot.item, mapKey, target,
                if spot in state then Some(state[spot]) else None));
            if last.Some? && last.value.action == PickedUp && SecondsOf(last.value, mapKey) > 0.0
            then
              var p, back := last.value.t.value, last.value.t.value + Truncate(SecondsOf(last.value, mapKey) * 1000.0);
              && (row.Some? <==> p > 0 && back - target > 50)
              && (row.Some? ==> VisibleAt(row.value, target) == Some(back))
            else row.None?
  {
    FoldIsLast(events, target, spot);
    var last := LastOf(events, target, spot);
    if last.Some? && last.value.action == PickedUp && SecondsOf(last.value, mapKey) > 0.0 {
      var info := Info(last.value.t.value, last.value.respawn);
      if info.pickupMs >= 0 {
        TruncateSum(info.pickupMs, SecondsOf(last.value, mapKey) * 1000.0);
      }
      ExportMeans(alias, spot.item, mapKey, target, info);
    }
  }

  datatype Spawn = Spawn(alias: string, spot: Spot)

  /** The row of a spawn point that found the pickups of `spot`. */
  function RowFor(state: map<Spot, Info>, spawn: Spawn, spot: Option<Spot>, target: int, mapKey: string): Row
    requires spot.Some? ==> spot.value in state
  {
    Export(spawn.alias, spawn.spot.item, mapKey, target, if spot.Some? then Some(state[spot.value]) else None)
  }

  /** The row of a spawn point, by what it finds. */
  ghost predicate IsRowOf(state: map<Spot, Info>, spawn: Spawn, target: int, mapKey: string, row: Row) {
    exists found :: Finds(state, spawn.spot, found) && row == RowFor(state, spawn, found, target, mapKey)
  }

  /** A row for every spawn point that still waits, and none for the others: each is the row of what it finds. */
  method BuildItemRows(state: map<Spot, Info>, spawns: seq<Spawn>, target: int, mapKey: string) returns (rows: seq<Row>)
    ensures forall row :: row in rows ==>
              row.s == 2 && exists i :: 0 <= i < |spawns| && IsRowOf(state, spawns[i], target, mapKey, row)
    ensures forall i :: 0 <= i < |spawns| && spawns[i].spot.item != "" ==>
              exists row :: IsRowOf(state, spawns[i], target, mapKey, row) && (row in rows || row.s == 1)
  {
    rows := [];
    hide Finds, RowFor;
    for i := 0 to |spawns|
      invariant forall row :: row in rows ==>
                  row.s == 2 && exists k :: 0 <= k < i && IsRowOf(state, spawns[k], target, mapKey, row)
      invariant forall k :: 0 <= k < i && spawns[k].spot.item != "" ==>
                  exists row :: IsRowOf(state, spawns[k], target, mapKey, row) && (row in rows || row.s == 1)
    {
      if spawns[i].spot.item == "" {
        continue;
      }
      ghost var before := rows;
      var found := PickupForSpawn(state, spawns[i].spot);
      FindsInState(state, spawns[i].spot, found);
      var row := RowFor(state, spawns[i], found, target, mapKey);
      RowStates(state, spawns[i], found, target, mapKey);
      assert IsRowOf(state, spawns[i], target, mapKey, row);
      if row.s != 1 {
        rows := rows + [row];
      }
      assert forall r :: r in before ==> r in rows;
      assert row in rows || row.s == 1;
    }
  }

  lemma FindsInState(state: map<Spot, Info>, spawn: Spot, found: Option<Spot>)
    requires Finds(state, spawn, found)
    ensures found.Some? ==> found.value in state && found.value.item == spawn.item
  {}

  lemma RowStates(state: map<Spot, Info>, spawn: Spawn, spot: Option<Spot>, target: int, mapKey: string)
    requires spot.Some? ==> spot.value in state
    ensures RowFor(state, spawn, spot, target, mapKey).s in {1, 2}
  {
    hide Away, VanillaRespawn, RoundCents;
  }

  /**
   The chain for a spawn point: whatever it finds in the recording's pending pickups, its own spot or one it
   matches, it is restored to reappear exactly when that pickup's respawn time is over, if more than 50 ms are
   left; a spawn point that finds nothing has no row, so it is there.
   */
  lemma SpawnDeadlineSurvives(events: seq<Pickup>, target: int, spawn: Spawn, found: Option<Spot>, mapKey: string)
    requires target >= 0 && Finds(Pending(events, target), spawn.spot, found)
    ensures found.Some? ==> found.value in Pending(events, target)
    ensures var row := Canonical(RowFor(Pending(events, target), spawn, found, target, mapKey));
            if found.None? then row.None?
            else
              var last := LastOf(events, target, found.value);
              && last.Some? && last.value.action == PickedUp
              && var p, r := last.value.t.value, SecondsOf(last.value, mapKey);
                 var back := p + Truncate(r * 1000.0);
                 && (row.Some? <==> r > 0.0 && p > 0 && back - target > 50)
                 && (row.Some? ==> VisibleAt(row.value, target) == Some(back) && row.value.k == spawn.alias)
  {
    FindsInState(Pending(events, target), spawn.spot, found);
    if found.Some? {
      FoldIsLast(events, target, found.value);
      DeadlineSurvives(events, target, found.value, spawn.alias, mapKey);
      var row := Export(spawn.alias, found.value.item, mapKey, target, Some(Pending(events, target)[found.value]));
      assert row.k == spawn.alias;
    }
    hide Export, Fold, LastOf, Finds;
  }
}
