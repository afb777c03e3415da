/** Gun Game: a ladder of weapons, one counter per player, and the leader. */
module GunGame {
  import opened Common

  datatype Rung = Rung(weapon: string, frags: nat)

  datatype Standing = Standing(step: nat, frags: nat)

  datatype Event = Frag | Skip | Back | Demote

  datatype Outcome = Unchanged | OneBack | Down | Up | Win

  const BOTTOM := Standing(0, 0)

  /** As parse_ladder leaves it: not empty, and at least one frag a step. */
  predicate IsLadder(ladder: seq<Rung>) {
    ladder != [] && forall i :: 0 <= i < |ladder| ==> ladder[i].frags >= 1
  }

  /** The standing of a player who has not won. */
  predicate OnLadder(ladder: seq<Rung>, s: Standing) {
    s.step < |ladder| && s.frags < ladder[s.step].frags
  }

  function Advance(s: Standing, ladder: seq<Rung>, e: Event): (Standing, Outcome)
    requires IsLadder(ladder) && s.step < |ladder|
  {
    match e
    case Back =>
      if s.frags > 0 then (Standing(s.step, s.frags - 1), OneBack)
      else if s.step == 0 then (BOTTOM, Unchanged)
      else (Standing(s.step - 1, ladder[s.step - 1].frags - 1), Down)
    case Skip =>
      if s.step == |ladder| - 1 then (Standing(s.step, s.frags + 1), Win) else (Standing(s.step + 1, 0), Up)
    case Frag =>
      if s.frags + 1 < ladder[s.step].frags then (Standing(s.step, s.frags + 1), Unchanged)
      else if s.step == |ladder| - 1 then (Standing(s.step, s.frags + 1), Win)
      else (Standing(s.step + 1, 0), Up)
    case Demote =>
      if s.step == 0 then (BOTTOM, if s.frags > 0 then Down else Unchanged) else (Standing(s.step - 1, 0), Down)
  }

  // ---- one counter --------------------------------------------------------------------------------

  /** Frags it takes to reach a step. */
  function StartOf(ladder: seq<Rung>, step: nat): nat
    requires step <= |ladder|
  {
    if step == 0 then 0 else StartOf(ladder, step - 1) + ladder[step - 1].frags
  }

  function Position(ladder: seq<Rung>, s: Standing): nat
    requires s.step <= |ladder|
  {
    StartOf(ladder, s.step) + s.frags
  }

  lemma {:induction false} StartGrows(ladder: seq<Rung>, low: nat, high: nat)
    requires IsLadder(ladder) && low < high <= |ladder|
    ensures StartOf(ladder, low) + ladder[low].frags <= StartOf(ladder, high)
    decreases high
  {
    if low < high - 1 {
      StartGrows(ladder, low, high - 1);
    }
  }

  /** The counter tells the standing: two on the ladder with the same position are the same. */
  lemma PositionDecides(ladder: seq<Rung>, s: Standing, t: Standing)
    requires IsLadder(ladder) && OnLadder(ladder, s) && OnLadder(ladder, t)
    ensures s.step < t.step ==> Position(ladder, s) < Position(ladder, t)
    ensures Position(ladder, s) == Position(ladder, t) <==> s == t
  {
    if s.step < t.step {
      StartGrows(ladder, s.step, t.step);
    } else if t.step < s.step {
      StartGrows(ladder, t.step, s.step);
    }
  }

  /**
   Every event is a move of the counter: a frag adds one, "back" takes one away down to zero, a skip and
   a demotion go to the start of a step; and without a win the player stays on the ladder. A frag wins
   exactly when the counter reaches the end of the ladder.
   */
  lemma CounterMoves(ladder: seq<Rung>, s: Standing, e: Event)
    requires IsLadder(ladder) && OnLadder(ladder, s)
    ensures var (t, outcome) := Advance(s, ladder, e);
            && (outcome != Win ==> OnLadder(ladder, t))
            && (e.Frag? ==> Position(ladder, t) == Position(ladder, s) + 1
                            && (outcome == Win <==> Position(ladder, t) == StartOf(ladder, |ladder|)))
            && (e.Back? ==> Position(ladder, t) == Max(0, Position(ladder, s) - 1))
            && (e.Skip? && s.step < |ladder| - 1 ==> Position(ladder, t) == StartOf(ladder, s.step + 1))
            && (e.Skip? ==> (outcome == Win <==> s.step == |ladder| - 1))
            && (e.Demote? ==> Position(ladder, t) == StartOf(ladder, Max(0, s.step - 1)))
            && (outcome == Up <==> t.step == s.step + 1)
            && (outcome in {Unchanged, OneBack, Win} ==> t.step == s.step)
  {
    if s.step < |ladder| - 1 {
      StartGrows(ladder, s.step, |ladder|);
      StartGrows(ladder, s.step + 1, |ladder|);
    }
  }

  /** "back" exactly undoes a frag, a winning one too. */
  lemma BackUndoesFrag(ladder: seq<Rung>, s: Standing)
    requires IsLadder(ladder) && OnLadder(ladder, s)
    ensures Advance(Advance(s, ladder, Frag).0, ladder, Back).0 == s
  {}

  // ---- the leader -------------------------------------------------------------------------------------

  predicate IsTop(standings: map<string, Standing>, key: string) {
    key in standings && forall k :: k in standings ==> standings[k].step <= standings[key].step
  }

  /** The stored leader has the highest step, and there is one exactly when somebody has left step 0. */
  predicate LeaderRight(standings: map<string, Standing>, leader: Option<string>) {
    && (leader.Some? ==> IsTop(standings, leader.value) && standings[leader.value].step >= 1)
    && (leader.None? ==> forall k :: k in standings ==> standings[k].step == 0)
  }

  /** The new leader after `current`, who keeps a tie. */
  predicate Picked(standings: map<string, Standing>, current: Option<string>, leader: Option<string>) {
    && LeaderRight(standings, leader)
    && (current.Some? && IsTop(standings, current.value) && standings[current.value].step >= 1 ==> leader == current)
  }

  method PickLeader(standings: map<string, Standing>, current: Option<string>) returns (leader: Option<string>)
    ensures Picked(standings, current, leader)
  {
    var top, todo := 0, standings.Keys;
    while todo != {}
      invariant todo <= standings.Keys
      invariant forall k :: k in standings.Keys - todo ==> standings[k].step <= top
      invariant top >= 1 ==> exists k :: k in standings && standings[k].step == top
      decreases todo
    {
      var k :| k in todo;
      todo := todo - {k};
      if standings[k].step > top {
        top := standings[k].step;
      }
    }
    if top < 1 {
      return None;
    }
    if current.Some? && current.value in standings && standings[current.value].step == top {
      return current;
    }
    var key :| key in standings && standings[key].step == top;
    leader := Some(key);
  }

  // ---- the match ------------------------------------------------------------------------------------------

  function StandingOf(standings: map<string, Standing>, key: string): Standing {
    if key in standings then standings[key] else BOTTOM
  }

  ghost predicate AllOnLadder(ladder: seq<Rung>, standings: map<string, Standing>) {
    forall k :: k in standings ==> OnLadder(ladder, standings[k])
  }

  /** The operator's switches. */
  datatype Switches = Switches(gauntletSkip: bool, gauntletDemote: bool, suicideDemote: bool)

  function KillEvent(gauntlet: bool, sw: Switches): Event {
    if gauntlet && sw.gauntletSkip then Skip else Frag
  }

  /** One player moved by an event. */
  ghost function Moved(ladder: seq<Rung>, standings: map<string, Standing>, key: string, e: Event): (map<string,
      Standing>, Outcome)
    requires IsLadder(ladder) && AllOnLadder(ladder, standings)
  {
    var moved := Advance(StandingOf(standings, key), ladder, e);
    (standings[key := moved.0], moved.1)
  }

  lemma MovedStays(ladder: seq<Rung>, standings: map<string, Standing>, key: string, e: Event)
    requires IsLadder(ladder) && AllOnLadder(ladder, standings)
    ensures Moved(ladder, standings, key, e).1 != Win ==> AllOnLadder(ladder, Moved(ladder, standings, key, e).0)
  {
    BottomOnLadder(ladder);
    CounterMoves(ladder, StandingOf(standings, key), e);
  }

  /** The standings after a kill, and whether it won the match; a win demotes nobody. */
  ghost function Killed(ladder: seq<Rung>, standings: map<string, Standing>, victim: string, killer: string, e: Event,
                        demotes: bool): (map<string, Standing>, bool)
    requires IsLadder(ladder) && AllOnLadder(ladder, standings)
  {
    MovedStays(ladder, standings, killer, e);
    var (after, outcome) := Moved(ladder, standings, killer, e);
    (if demotes && outcome != Win then Moved(ladder, after, victim, Demote).0 else after, outcome == Win)
  }

  class Match {
    var ladder: seq<Rung>
    var standings: map<string, Standing>
    var leader: Option<string>
    var won: bool

    /** While the match is open every player is on the ladder; the leader is always right. */
    ghost predicate Valid()
      reads this
    {
      && IsLadder(ladder)
      && (!won ==> AllOnLadder(ladder, standings))
      && LeaderRight(standings, leader)
    }

    constructor (ladder: seq<Rung>)
      requires IsLadder(ladder)
      ensures Valid() && this.ladder == ladder && standings == map[] && !won
    {
      this.ladder := ladder;
      standings, leader, won := map[], None, false;
    }

    /** A new game; the ladder is read again, a bad one keeps the old. */
    method Reset(ladder: Option<seq<Rung>>)
      requires Valid() && (ladder.Some? ==> IsLadder(ladder.value))
      modifies this
      ensures Valid() && standings == map[] && leader == None && !won
      ensures this.ladder == if ladder.Some? then ladder.value else old(this.ladder)
    {
      standings, leader, won := map[], None, false;
      if ladder.Some? {
        this.ladder := ladder.value;
      }
    }

    /** _demote: the leader is picked again only when the player lost a step. */
    method MoveBack(key: string, e: Event)
      requires IsLadder(ladder) && AllOnLadder(ladder, standings) && (e == Back || e == Demote)
      modifies this`standings, this`leader
      ensures AllOnLadder(ladder, old(standings)) && standings == Moved(ladder, old(standings), key, e).0
      ensures AllOnLadder(ladder, standings)
      ensures leader == old(leader) || Picked(standings, old(leader), leader)
      ensures LeaderRight(old(standings), old(leader)) ==> Picked(standings, old(leader), leader)
    {
      hide IsLadder;
      ghost var before := StandingOf(standings, key);
      assert OnLadder(ladder, before) by { BottomOnLadder(ladder); }
      assert before.step < |ladder|;
      var moved := Advance(if key in standings then standings[key] else BOTTOM, ladder, e);
      MovedOnLadder(ladder, standings, key, before, e);
      if LeaderRight(standings, leader) {
        SameStepLeader(standings, leader, key, moved.0);
      }
      standings := standings[key := moved.0];
      if moved.1 == Down {
        leader := PickLeader(standings, leader);
      }
    }

    /** The killer's own move. */
    method CountFrag(killer: string, e: Event) returns (outcome: Outcome)
      requires IsLadder(ladder) && AllOnLadder(ladder, standings) && LeaderRight(standings, leader)
      requires e == Frag || e == Skip
      modifies this`standings
      ensures AllOnLadder(ladder, old(standings))
      ensures (standings, outcome) == Moved(ladder, old(standings), killer, e)
      ensures outcome != Win ==> AllOnLadder(ladder, standings)
      ensures outcome != Up ==> LeaderRight(standings, leader)
    {
      ghost var before := StandingOf(standings, killer);
      BottomOnLadder(ladder);
      assert OnLadder(ladder, before);
      var moved := Advance(if killer in standings then standings[killer] else BOTTOM, ladder, e);
      CounterMoves(ladder, before, e);
      hide IsLadder, Advance, LeaderRight;
      SameStepLeader(standings, leader, killer, moved.0);
      standings := standings[killer := moved.0];
      outcome := moved.1;
    }

    /**
     A frag that counts; `counts` is false once the match is won, before it starts, or with the game off. A
     victim who is the killer moves twice: up by the kill, then down by the gauntlet.
     */
    method HandleKill(victim: string, killer: Option<string>, gauntlet: bool, sw: Switches, counts: bool)
      requires Valid()
      modifies this
      ensures Valid() && ladder == old(ladder) && Picked(standings, old(leader), leader)
      ensures killer.None? || !counts || old(won) ==>
                standings == old(standings) && leader == old(leader) && won == old(won)
      ensures killer.Some? && counts && !old(won) ==>
                AllOnLadder(ladder, old(standings))
                && (standings, won) == Killed(ladder, old(standings), victim, killer.value, KillEvent(gauntlet, sw),
                                              gauntlet && sw.gauntletDemote)
    {
      hide IsLadder, Moved, Picked, LeaderRight, AllOnLadder;
      KeptLeader(standings, leader);
      if killer.None? || won || !counts {
        return;
      }
      var outcome := CountFrag(killer.value, KillEvent(gauntlet, sw));
      if outcome != Up {
        KeptLeader(standings, leader);
      }
      if outcome == Win {
        won := true;
        return;
      }
      if gauntlet && sw.gauntletDemote {
        MoveBack(victim, Demote);
      }
      if outcome == Up {
        PickTwice(standings, old(leader), leader);
        leader := PickLeader(standings, leader);
      }
      PickedRight(standings, old(leader), leader);
    }

    method HandleDeath(victim: string, killer: Option<string>, switchTeams: bool, sw: Switches, counts: bool)
      requires Valid()
      modifies this
      ensures Valid() && ladder == old(ladder) && won == old(won) && Picked(standings, old(leader), leader)
      ensures standings ==
              if (killer.None? || killer == Some(victim)) && !switchTeams && counts && !won && sw.suicideDemote
              then Moved(ladder, old(standings), victim, Back).0 else old(standings)
    {
      if killer.Some? && killer.value != victim {
        return;
      }
      if switchTeams || won || !counts {
        return;
      }
      if sw.suicideDemote {
        MoveBack(victim, Back);
      }
    }
  }

  /** Picking again with the same standings changes nothing. */
  lemma PickTwice(standings: map<string, Standing>, current: Option<string>, first: Option<string>)
    requires first == current || Picked(standings, current, first)
    ensures forall leader :: Picked(standings, first, leader) ==> Picked(standings, current, leader)
  {}

  lemma KeptLeader(standings: map<string, Standing>, leader: Option<string>)
    requires LeaderRight(standings, leader)
    ensures Picked(standings, leader, leader)
  {}

  lemma PickedRight(standings: map<string, Standing>, current: Option<string>, leader: Option<string>)
    requires Picked(standings, current, leader)
    ensures LeaderRight(standings, leader)
  {}

  lemma BottomOnLadder(ladder: seq<Rung>)
    requires IsLadder(ladder)
    ensures OnLadder(ladder, BOTTOM)
  {}

  lemma MovedOnLadder(ladder: seq<Rung>, standings: map<string, Standing>, key: string, s: Standing, e: Event)
    requires IsLadder(ladder) && AllOnLadder(ladder, standings) && OnLadder(ladder, s) && (e == Back || e == Demote)
    ensures var (t, outcome) := Advance(s, ladder, e);
            AllOnLadder(ladder, standings[key := t]) && (outcome != Down ==> t.step == s.step)
  {
    CounterMoves(ladder, s, e);
  }

  /** A move within a step does not change who leads. */
  lemma SameStepLeader(standings: map<string, Standing>, leader: Option<string>, key: string, t: Standing)
    requires LeaderRight(standings, leader)
    ensures t.step == StandingOf(standings, key).step ==> LeaderRight(standings[key := t], leader)
  {}
}
