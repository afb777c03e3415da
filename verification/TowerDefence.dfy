/**
 Tower defence: the wave machine and the team's money. Times are milliseconds; the messages the
 operations return are left out.
 */
module TowerDefence {
  import opened Common

  const START_MONEY := 300
  const START_LIVES := 20
  const PAUSE_MS := 25000
  const SPAWN_INTERVAL_MS := 1000
  const MAX_CREEPS := 60
  const OVER_MS := 15000

  datatype Creep = Normal | Fast | Heavy | Shooter | Boss

  datatype Kind = Plasma | Rocket

  function Reward(c: Creep): nat {
    match c
    case Normal => 5
    case Fast => 5
    case Heavy => 20
    case Shooter => 15
    case Boss => 50
  }

  function LivesLost(c: Creep): nat {
    match c
    case Heavy => 2
    case Boss => 5
    case _ => 1
  }

  const PLASMA_PRICES := [100, 100, 200]
  const ROCKET_PRICES := [200, 200, 400]

  function Prices(k: Kind): (prices: seq<nat>)
    ensures |prices| == 3
  {
    match k
    case Plasma => PLASMA_PRICES
    case Rocket => ROCKET_PRICES
  }

  datatype Group = Group(creep: Creep, count: nat)

  const LAST_WAVE := 15

  const WAVES: seq<seq<Group>> := [
    [Group(Normal, 8)],
    [Group(Normal, 12)],
    [Group(Normal, 10), Group(Fast, 6)],
    [Group(Normal, 12), Group(Heavy, 2)],
    [Group(Normal, 12), Group(Boss, 1)],
    [Group(Fast, 14), Group(Normal, 8)],
    [Group(Normal, 14), Group(Shooter, 4)],
    [Group(Normal, 12), Group(Heavy, 6)],
    [Group(Fast, 16), Group(Shooter, 6)],
    [Group(Normal, 16), Group(Heavy, 4), Group(Boss, 1)],
    [Group(Normal, 18), Group(Shooter, 8)],
    [Group(Fast, 20), Group(Heavy, 8)],
    [Group(Normal, 20), Group(Shooter, 10)],
    [Group(Fast, 18), Group(Heavy, 10), Group(Shooter, 6)],
    [Group(Normal, 20), Group(Heavy, 8), Group(Shooter, 8), Group(Boss, 1)]]

  function Repeat(c: Creep, n: nat): seq<Creep> {
    if n == 0 then [] else [c] + Repeat(c, n - 1)
  }

  function Spawns(groups: seq<Group>): seq<Creep> {
    if groups == [] then [] else Repeat(groups[0].creep, groups[0].count) + Spawns(groups[1..])
  }

  predicate IsWave(wave: int) {
    1 <= wave <= LAST_WAVE
  }

  /** The creeps of a wave, in order. */
  function WaveList(wave: int): seq<Creep>
    requires IsWave(wave)
  {
    Spawns(WAVES[wave - 1])
  }

  function WaveBonus(wave: int): int {
    100 + 20 * wave
  }

  // ---- the rules ---------------------------------------------------------------------------------

  datatype Phase = Idle | Pause | Wave | Over

  datatype Result = NoResult | Win | Loss

  datatype Turret = Turret(kind: Kind, level: nat, spent: nat)

  datatype Game = Game(padCount: nat, phase: Phase, wave: nat, lives: nat, money: int, pads: map<nat, Turret>,
                       result: Result, toSpawn: seq<Creep>, nextAt: int, overAt: Option<int>)

  function Fresh(padCount: nat): Game {
    Game(padCount, Idle, 0, START_LIVES, START_MONEY, map[], NoResult, [], 0, None)
  }

  function Started(g: Game, now: int): Game {
    Fresh(g.padCount).(phase := Pause, nextAt := now + PAUSE_MS)
  }

  function Jumped(g: Game, wave: nat, now: int): Game
    requires IsWave(wave)
  {
    g.(phase := Pause, wave := wave - 1, result := NoResult, toSpawn := [], nextAt := now, overAt := None)
  }

  /** The pause is over: the next wave begins. */
  predicate WaveBegins(g: Game, now: int) {
    g.phase == Pause && now >= g.nextAt && g.wave < LAST_WAVE
  }

  function Begun(g: Game, now: int): Game {
    if WaveBegins(g, now)
    then g.(wave := g.wave + 1, phase := Wave, toSpawn := WaveList(g.wave + 1), nextAt := now) else g
  }

  predicate SpawnsNow(g: Game, now: int, alive: nat) {
    g.phase == Wave && g.toSpawn != [] && now >= g.nextAt && alive < MAX_CREEPS
  }

  predicate WaveEnds(g: Game, alive: nat) {
    g.phase == Wave && g.toSpawn == [] && alive == 0
  }

  function Ticked(g: Game, now: int, alive: nat): (Game, Option<Creep>) {
    if g.phase == Over then
      (if g.overAt.None? then g.(overAt := Some(now))
       else if now - g.overAt.value >= OVER_MS then Fresh(g.padCount) else g, None)
    else
      var b := Begun(g, now);
      if SpawnsNow(b, now, alive) then (b.(nextAt := now + SPAWN_INTERVAL_MS, toSpawn := b.toSpawn[1..]),
          Some(b.toSpawn[0]))
      else if WaveEnds(b, alive) then
        var paid := b.(money := b.money + WaveBonus(b.wave));
        (if b.wave >= LAST_WAVE then paid.(phase := Over, result := Win)
         else paid.(phase := Pause, nextAt := now + PAUSE_MS), None)
      else (b, None)
  }

  function Killed(g: Game, c: Creep): Game {
    g.(money := g.money + Reward(c))
  }

  function Leaked(g: Game, c: Creep): Game {
    var lives := Max(0, g.lives - LivesLost(c));
    if lives == 0 && g.phase != Over then g.(lives := lives, phase := Over, result := Loss) else g.(lives := lives)
  }

  function Price(k: Kind, level: nat): nat
    requires level < 3
  {
    Prices(k)[level]
  }

  /** None is a kind no table has. */
  predicate CanBuild(g: Game, pad: int, kind: Option<Kind>) {
    kind.Some? && 0 <= pad < g.padCount && pad !in g.pads && g.money >= Price(kind.value, 0)
  }

  function Built(g: Game, pad: int, kind: Option<Kind>): Game {
    if !CanBuild(g, pad, kind) then g
    else g.(money := g.money - Price(kind.value, 0), pads := g.pads[pad := Turret(kind.value, 0, Price(kind.value, 0))])
  }

  predicate CanUpgrade(g: Game, pad: nat) {
    pad in g.pads && g.pads[pad].level + 1 < 3 && g.money >= Price(g.pads[pad].kind, g.pads[pad].level + 1)
  }

  function Upgraded(g: Game, pad: nat): Game {
    if !CanUpgrade(g, pad) then g
    else
      var t := g.pads[pad];
      var price := Price(t.kind, t.level + 1);
      g.(money := g.money - price, pads := g.pads[pad := Turret(t.kind, t.level + 1, t.spent + price)])
  }

  /** Seven tenths, rounded down. */
  function Refund(spent: nat): nat {
    spent * 7 / 10
  }

  function Sold(g: Game, pad: nat): Game {
    if pad !in g.pads then g else g.(money := g.money + Refund(g.pads[pad].spent), pads := g.pads - {pad})
  }

  class Rules {
    const padCount: nat
    var phase: Phase
    var wave: nat
    var lives: nat
    var money: int
    var pads: map<nat, Turret>
    var result: Result
    var toSpawn: seq<Creep>
    var nextAt: int
    var overAt: Option<int>

    ghost function View(): Game
      reads this
    {
      Game(padCount, phase, wave, lives, money, pads, result, toSpawn, nextAt, overAt)
    }

    constructor (padCount: nat)
      ensures View() == Fresh(padCount)
    {
      this.padCount := padCount;
      phase, wave, lives, money, pads := Idle, 0, START_LIVES, START_MONEY, map[];
      result, toSpawn, nextAt, overAt := NoResult, [], 0, None;
    }

    method Reset()
      modifies this
      ensures View() == Fresh(padCount)
    {
      phase, wave, lives, money, pads := Idle, 0, START_LIVES, START_MONEY, map[];
      result, toSpawn, nextAt, overAt := NoResult, [], 0, None;
    }

    method Start(now: int)
      modifies this
      ensures View() == Started(old(View()), now)
    {
      Reset();
      phase := Pause;
      nextAt := now + PAUSE_MS;
    }

    method Jump(wave: nat, now: int)
      requires IsWave(wave)
      modifies this
      ensures View() == Jumped(old(View()), wave, now)
    {
      phase := Pause;
      this.wave := wave - 1;
      result := NoResult;
      toSpawn := [];
      nextAt := now;
      overAt := None;
    }

    /** The wave list has an entry for every wave a pause can lead to. */
    method Tick(now: int, alive: nat) returns (spawn: Option<Creep>)
      requires phase == Pause ==> wave < LAST_WAVE
      modifies this
      ensures (View(), spawn) == Ticked(old(View()), now, alive)
    {
      hide Begun, WaveList, WaveBonus;
      spawn := None;
      if phase == Over {
        if overAt.None? {
          overAt := Some(now);
        } else if now - overAt.value >= OVER_MS {
          Reset();
        }
        return;
      }
      BeginWave(now);
      if phase != Wave {
        return;
      }
      if toSpawn != [] {
        if now >= nextAt && alive < MAX_CREEPS {
          nextAt := now + SPAWN_INTERVAL_MS;
          spawn := Some(toSpawn[0]);
          toSpawn := toSpawn[1..];
        }
        return;
      }
      if alive == 0 {
        money := money + WaveBonus(wave);
        if wave >= LAST_WAVE {
          phase := Over;
          result := Win;
        } else {
          phase := Pause;
          nextAt := now + PAUSE_MS;
        }
      }
    }

    /** The first step of a tick. */
    method BeginWave(now: int)
      requires phase == Pause ==> wave < LAST_WAVE
      modifies this`wave, this`phase, this`toSpawn, this`nextAt
      ensures View() == Begun(old(View()), now)
    {
      hide WaveList;
      if phase == Pause && now >= nextAt {
        wave := wave + 1;
        phase := Wave;
        toSpawn := WaveList(wave);
        nextAt := now;
      }
    }

    method Kill(c: Creep)
      modifies this`money
      ensures View() == Killed(old(View()), c)
    {
      money := money + Reward(c);
    }

    method Leak(c: Creep)
      modifies this`lives, this`phase, this`result
      ensures View() == Leaked(old(View()), c)
    {
      lives := if lives < LivesLost(c) then 0 else lives - LivesLost(c);
      if lives == 0 && phase != Over {
        phase := Over;
        result := Loss;
      }
    }

    method Build(pad: int, kind: Option<Kind>) returns (ok: bool)
      modifies this`money, this`pads
      ensures View() == Built(old(View()), pad, kind) && ok == CanBuild(old(View()), pad, kind)
    {
      if kind.None? {
        return false;
      }
      if !(0 <= pad < padCount) {
        return false;
      }
      if pad in pads {
        return false;
      }
      var price := Price(kind.value, 0);
      if money < price {
        return false;
      }
      money := money - price;
      pads := pads[pad := Turret(kind.value, 0, price)];
      ok := true;
    }

    method Upgrade(pad: nat) returns (ok: bool)
      modifies this`money, this`pads
      ensures View() == Upgraded(old(View()), pad) && ok == CanUpgrade(old(View()), pad)
    {
      if pad !in pads {
        return false;
      }
      var t := pads[pad];
      if t.level + 1 >= |Prices(t.kind)| {
        return false;
      }
      var price := Price(t.kind, t.level + 1);
      if money < price {
        return false;
      }
      money := money - price;
      pads := pads[pad := Turret(t.kind, t.level + 1, t.spent + price)];
      ok := true;
    }

    method Sell(pad: nat) returns (ok: bool)
      modifies this`money, this`pads
      ensures View() == Sold(old(View()), pad) && ok == (pad in old(pads))
    {
      if pad !in pads {
        return false;
      }
      money := money + Refund(pads[pad].spent);
      pads := pads - {pad};
      ok := true;
    }
  }

  // ---- a whole game --------------------------------------------------------------------------------------

  datatype Event =
    | Start(now: int)
    | Jump(to: nat, now: int)
    | Tick(now: int, alive: nat)
    | Kill(creep: Creep)
    | Leak(creep: Creep)
    | Build(pad: int, kind: Option<Kind>)
    | Upgrade(at: nat)
    | Sell(at: nat)

  /** A wave that began: what it has spawned, and how often its bonus was paid. */
  datatype WaveRun = WaveRun(number: nat, spawned: seq<Creep>, paid: nat)

  /** The books since the last reset. */
  datatype Books = Books(rewards: int, bonuses: int, prices: int, refunds: int, waves: seq<WaveRun>, jumped: bool)

  const NEW_BOOKS := Books(0, 0, 0, 0, [], false)

  datatype World = World(game: Game, books: Books)

  predicate Possible(e: Event) {
    e.Jump? ==> IsWave(e.to)
  }

  function NextGame(g: Game, e: Event): Game
    requires Possible(e)
  {
    match e
    case Start(now) => Started(g, now)
    case Jump(to, now) => Jumped(g, to, now)
    case Tick(now, alive) => Ticked(g, now, alive).0
    case Kill(c) => Killed(g, c)
    case Leak(c) => Leaked(g, c)
    case Build(pad, kind) => Built(g, pad, kind)
    case Upgrade(pad) => Upgraded(g, pad)
    case Sell(pad) => Sold(g, pad)
  }

  function LastSpawned(waves: seq<WaveRun>, c: Creep): seq<WaveRun>
    requires waves != []
  {
    var w := waves[|waves| - 1];
    waves[|waves| - 1 := w.(spawned := w.spawned + [c])]
  }

  function LastPaid(waves: seq<WaveRun>): seq<WaveRun>
    requires waves != []
  {
    var w := waves[|waves| - 1];
    waves[|waves| - 1 := w.(paid := w.paid + 1)]
  }

  /** What a tick writes into the books: a wave begun, a creep spawned, a bonus paid. */
  function TickBooks(g: Game, b: Books, now: int, alive: nat): Books {
    if g.phase == Over then (if g.overAt.Some? && now - g.overAt.value >= OVER_MS then NEW_BOOKS else b)
    else
      var begun := Begun(g, now);
      var listed := if WaveBegins(g, now) then b.(waves := b.waves + [WaveRun(g.wave + 1, [], 0)]) else b;
      if listed.waves == [] then listed
      else if SpawnsNow(begun, now, alive) then listed.(waves := LastSpawned(listed.waves, begun.toSpawn[0]))
      else if WaveEnds(begun, alive) then
        listed.(bonuses := listed.bonuses + WaveBonus(begun.wave), waves := LastPaid(listed.waves))
      else listed
  }

  function NextBooks(g: Game, b: Books, e: Event): Books {
    match e
    case Start(_) => NEW_BOOKS
    case Jump(_, _) => b.(jumped := true)
    case Tick(now, alive) => TickBooks(g, b, now, alive)
    case Kill(c) => b.(rewards := b.rewards + Reward(c))
    case Leak(_) => b
    case Build(pad, kind) => if CanBuild(g, pad, kind) then b.(prices := b.prices + Price(kind.value, 0)) else b
    case Upgrade(pad) =>
      if CanUpgrade(g, pad) then b.(prices := b.prices + Price(g.pads[pad].kind, g.pads[pad].level + 1)) else b
    case Sell(pad) => if pad in g.pads then b.(refunds := b.refunds + Refund(g.pads[pad].spent)) else b
  }

  ghost function Run(padCount: nat, es: seq<Event>): World
    requires forall i :: 0 <= i < |es| ==> Possible(es[i])
  {
    if es == [] then World(Fresh(padCount), NEW_BOOKS)
    else
      var w := Run(padCount, es[..|es| - 1]);
      World(NextGame(w.game, es[|es| - 1]), NextBooks(w.game, w.books, es[|es| - 1]))
  }

  // ---- the money ------------------------------------------------------------------------------------------

  predicate TurretOk(t: Turret) {
    t.level < 3 && t.spent == (if t.level == 0 then Price(t.kind, 0)
                               else if t.level == 1 then Price(t.kind, 0) + Price(t.kind, 1)
                               else Price(t.kind, 0) + Price(t.kind, 1) + Price(t.kind, 2))
  }

  /** The money is what came in less what went out, and every turret's price is on its pad. */
  ghost predicate MoneyRight(w: World) {
    && w.game.money >= 0
    && w.game.money == START_MONEY + w.books.rewards + w.books.bonuses - w.books.prices + w.books.refunds
    && (forall p :: p in w.game.pads ==> p < w.game.padCount && TurretOk(w.game.pads[p]))
  }

  /** The money of a wave: the bonuses booked are those of the waves paid. */
  function Bonuses(waves: seq<WaveRun>): int {
    if waves == [] then 0
    else Bonuses(waves[..|waves| - 1]) + BonusOf(waves[|waves| - 1])
  }

  function BonusOf(r: WaveRun): int {
    r.paid * WaveBonus(r.number)
  }

  // ---- the waves ------------------------------------------------------------------------------------------

  /** A wave spawns a prefix of its list, and is paid at most once, and only in full. */
  predicate WaveRunOk(r: WaveRun) {
    IsWave(r.number) && r.spawned <= WaveList(r.number) && r.paid <= 1 && (r.paid == 1
        ==> r.spawned == WaveList(r.number))
  }

  predicate AllOk(waves: seq<WaveRun>) {
    forall i :: 0 <= i < |waves| ==> WaveRunOk(waves[i])
  }

  /** The wave that runs is the last one of the books; what it has spawned and what is to come are its list. */
  predicate Running(g: Game, waves: seq<WaveRun>) {
    g.phase == Wave ==>
      && waves != [] && IsWave(g.wave)
      && var last := waves[|waves| - 1];
         last.number == g.wave && last.paid == 0 && last.spawned + g.toSpawn == WaveList(g.wave)
  }

  predicate PhaseOk(g: Game) {
    && (g.phase == Pause ==> g.wave < LAST_WAVE) && (g.result == Win ==> g.phase == Over)
    && (g.result == Loss ==> g.phase == Over && g.lives == 0)
  }

  predicate WavesRight(w: World) {
    && AllOk(w.books.waves) && w.books.bonuses == Bonuses(w.books.waves)
    && Running(w.game, w.books.waves) && PhaseOk(w.game)
  }

  predicate Numbered(waves: seq<WaveRun>) {
    forall i :: 0 <= i < |waves| ==> waves[i].number == i + 1
  }

  predicate LastPaidUp(waves: seq<WaveRun>) {
    waves != [] ==> waves[|waves| - 1].paid == 1
  }

  predicate PaidBefore(waves: seq<WaveRun>) {
    forall i :: 0 <= i < |waves| - 1 ==> waves[i].paid == 1
  }

  /** Without a jump the waves come one after the other, all but the last one paid. */
  predicate InSequence(w: World) {
    var g, waves := w.game, w.books.waves;
    !w.books.jumped ==>
      && |waves| == g.wave && Numbered(waves) && PaidBefore(waves)
      && (g.phase == Pause ==> LastPaidUp(waves))
      && (g.result == Win ==> |waves| == LAST_WAVE && LastPaidUp(waves))
  }

  lemma Appended(waves: seq<WaveRun>, r: WaveRun)
    ensures AllOk(waves) && WaveRunOk(r) ==> AllOk(waves + [r])
    ensures Numbered(waves) && r.number == |waves| + 1 ==> Numbered(waves + [r])
    ensures PaidBefore(waves) && LastPaidUp(waves) ==> PaidBefore(waves + [r])
  {
    hide WaveRunOk;
  }

  lemma LastReplaced(waves: seq<WaveRun>, r: WaveRun)
    requires waves != [] && r.number == waves[|waves| - 1].number
    ensures var after := waves[|waves| - 1 := r];
            && (AllOk(waves) && WaveRunOk(r) ==> AllOk(after))
            && (Numbered(waves) ==> Numbered(after)) && (PaidBefore(waves) ==> PaidBefore(after))
            && (r.paid == 1 ==> LastPaidUp(after))
  {
    hide WaveRunOk;
  }

  lemma MoneyStep(w: World, e: Event)
    requires MoneyRight(w) && Possible(e)
    requires w.game.phase == Wave ==> w.books.waves != []
    ensures MoneyRight(World(NextGame(w.game, e), NextBooks(w.game, w.books, e)))
  {
    hide WaveList;
  }

  lemma OneMoreBonus(r: WaveRun)
    ensures BonusOf(r.(paid := r.paid + 1)) == BonusOf(r) + WaveBonus(r.number)
  {}

  lemma BonusesLast(front: seq<WaveRun>, r: WaveRun)
    ensures Bonuses(front + [r]) == Bonuses(front) + BonusOf(r)
  {
    hide BonusOf;
    assert (front + [r])[..|front|] == front;
  }

  lemma ReplacedLast(waves: seq<WaveRun>, r: WaveRun)
    requires waves != []
    ensures waves == waves[..|waves| - 1] + [waves[|waves| - 1]]
            && waves[|waves| - 1 := r] == waves[..|waves| - 1] + [r]
  {}

  lemma BonusesPaid(waves: seq<WaveRun>)
    requires waves != []
    ensures Bonuses(LastPaid(waves)) == Bonuses(waves) + WaveBonus(waves[|waves| - 1].number)
  {
    hide Bonuses, BonusOf, WaveBonus;
    var front, w := waves[..|waves| - 1], waves[|waves| - 1];
    OneMoreBonus(w);
    ReplacedLast(waves, w.(paid := w.paid + 1));
    BonusesLast(front, w);
    BonusesLast(front, w.(paid := w.paid + 1));
  }

  lemma BonusesSame(waves: seq<WaveRun>, c: Creep)
    requires waves != []
    ensures Bonuses(LastSpawned(waves, c)) == Bonuses(waves)
  {
    assert LastSpawned(waves, c)[..|waves| - 1] == waves[..|waves| - 1];
    hide WaveBonus;
  }

  lemma BonusesBegun(waves: seq<WaveRun>, number: nat)
    ensures Bonuses(waves + [WaveRun(number, [], 0)]) == Bonuses(waves)
  {
    assert BonusOf(WaveRun(number, [], 0)) == 0;
    hide BonusOf;
    assert (waves + [WaveRun(number, [], 0)])[..|waves|] == waves;
  }

  /** The wave begins, before anything else happens in the tick. */
  function BeginWorld(w: World, now: int): World {
    if WaveBegins(w.game, now)
    then World(Begun(w.game, now), w.books.(waves := w.books.waves + [WaveRun(w.game.wave + 1, [], 0)])) else w
  }

  lemma NewRunOk(number: nat)
    requires IsWave(number)
    ensures WaveRunOk(WaveRun(number, [], 0)) && [] + WaveList(number) == WaveList(number)
  {
    hide WaveList;
  }

  lemma BeginRight(w: World, now: int)
    requires WavesRight(w) && InSequence(w)
    ensures WavesRight(BeginWorld(w, now)) && InSequence(BeginWorld(w, now))
  {
    hide WaveRunOk, WaveList, Bonuses, AllOk, Numbered, PaidBefore, LastPaidUp;
    if WaveBegins(w.game, now) {
      var r := WaveRun(w.game.wave + 1, [], 0);
      BonusesBegun(w.books.waves, r.number);
      NewRunOk(r.number);
      Appended(w.books.waves, r);
    }
  }

  /** One more creep of the list; the rest of the list is shorter by it. */
  lemma SpawnedOk(r: WaveRun, toSpawn: seq<Creep>)
    requires WaveRunOk(r) && r.paid == 0 && toSpawn != [] && r.spawned + toSpawn == WaveList(r.number)
    ensures WaveRunOk(r.(spawned := r.spawned + [toSpawn[0]]))
    ensures (r.spawned + [toSpawn[0]]) + toSpawn[1..] == WaveList(r.number)
  {
    hide WaveList;
    assert (r.spawned + [toSpawn[0]]) + toSpawn[1..] == r.spawned + toSpawn;
  }

  lemma LastIsOk(waves: seq<WaveRun>)
    requires AllOk(waves) && waves != []
    ensures WaveRunOk(waves[|waves| - 1])
  {
    hide WaveRunOk;
  }

  function SpawnWorld(w: World, now: int): World
    requires w.game.toSpawn != [] && w.books.waves != []
  {
    World(w.game.(nextAt := now + SPAWN_INTERVAL_MS, toSpawn := w.game.toSpawn[1..]),
          w.books.(waves := LastSpawned(w.books.waves, w.game.toSpawn[0])))
  }

  lemma SpawnRight(w: World, now: int, alive: nat)
    requires WavesRight(w) && InSequence(w) && SpawnsNow(w.game, now, alive)
    ensures WavesRight(SpawnWorld(w, now)) && InSequence(SpawnWorld(w, now))
  {
    hide WaveRunOk, WaveList, Bonuses, AllOk, Numbered, PaidBefore, LastPaidUp;
    var waves, c := w.books.waves, w.game.toSpawn[0];
    var last := waves[|waves| - 1];
    BonusesSame(waves, c);
    LastIsOk(waves);
    SpawnedOk(last, w.game.toSpawn);
    LastReplaced(waves, last.(spawned := last.spawned + [c]));
  }

  lemma PaidOk(r: WaveRun, toSpawn: seq<Creep>)
    requires WaveRunOk(r) && r.paid == 0 && toSpawn == [] && r.spawned + toSpawn == WaveList(r.number)
    ensures WaveRunOk(r.(paid := 1))
  {
    hide WaveList;
    assert r.spawned + [] == r.spawned;
  }

  function EndWorld(w: World, now: int): World
    requires w.books.waves != []
  {
    var paid := w.game.(money := w.game.money + WaveBonus(w.game.wave));
    World(if w.game.wave >= LAST_WAVE then paid.(phase := Over, result := Win)
          else paid.(phase := Pause, nextAt := now + PAUSE_MS),
          w.books.(bonuses := w.books.bonuses + WaveBonus(w.game.wave), waves := LastPaid(w.books.waves)))
  }

  lemma EndRight(w: World, now: int, alive: nat)
    requires WavesRight(w) && InSequence(w) && WaveEnds(w.game, alive)
    ensures WavesRight(EndWorld(w, now)) && InSequence(EndWorld(w, now))
  {
    hide WaveRunOk, WaveList, Bonuses, AllOk, Numbered, PaidBefore, LastPaidUp, WaveBonus;
    var waves := w.books.waves;
    var last := waves[|waves| - 1];
    BonusesPaid(waves);
    LastIsOk(waves);
    PaidOk(last, w.game.toSpawn);
    LastReplaced(waves, last.(paid := 1));
  }

  lemma FreshRight(padCount: nat, phase: Phase, nextAt: int)
    requires phase == Idle || phase == Pause
    ensures var w := World(Fresh(padCount).(phase := phase, nextAt := nextAt), NEW_BOOKS);
            WavesRight(w) && InSequence(w)
  {}

  /** A tick is a wave that may begin, then a spawn or the end of the wave, or neither. */
  lemma TickParts(w: World, now: int, alive: nat)
    requires w.game.phase != Over && (BeginWorld(w, now).game.phase == Wave ==> BeginWorld(w, now).books.waves != [])
    ensures var b, w' := BeginWorld(w, now), World(Ticked(w.game, now, alive).0, TickBooks(w.game, w.books, now,
            alive));
            w' == if SpawnsNow(b.game, now, alive) then SpawnWorld(b, now)
                  else if WaveEnds(b.game, alive) then EndWorld(b, now) else b
  {
    hide WaveList, LastPaid, LastSpawned, WaveBonus;
  }

  lemma RunsListed(w: World)
    requires WavesRight(w)
    ensures w.game.phase == Wave ==> w.books.waves != []
  {
    hide WaveList;
  }

  lemma TickRight(w: World, now: int, alive: nat)
    requires WavesRight(w) && InSequence(w)
    ensures var w' := World(Ticked(w.game, now, alive).0, TickBooks(w.game, w.books, now, alive));
            WavesRight(w') && InSequence(w')
  {
    if w.game.phase == Over {
      OverRight(w, now, alive);
    } else {
      hide *;
      BeginRight(w, now);
      var b := BeginWorld(w, now);
      RunsListed(b);
      TickParts(w, now, alive);
      if SpawnsNow(b.game, now, alive) {
        SpawnRight(b, now, alive);
      } else if WaveEnds(b.game, alive) {
        EndRight(b, now, alive);
      }
    }
  }

  lemma OverRight(w: World, now: int, alive: nat)
    requires WavesRight(w) && InSequence(w) && w.game.phase == Over
    ensures var w' := World(Ticked(w.game, now, alive).0, TickBooks(w.game, w.books, now, alive));
            WavesRight(w') && InSequence(w')
  {
    hide AllOk, WaveList, Numbered, PaidBefore, Bonuses;
    if w.game.overAt.Some? && now - w.game.overAt.value >= OVER_MS {
      FreshRight(w.game.padCount, Idle, 0);
    }
  }

  /** Everything but a tick leaves the waves of the books alone. */
  lemma OtherRight(w: World, e: Event)
    requires WavesRight(w) && InSequence(w) && Possible(e) && !e.Tick?
    ensures var w' := World(NextGame(w.game, e), NextBooks(w.game, w.books, e)); WavesRight(w') && InSequence(w')
  {
    hide AllOk, WaveList, Numbered, PaidBefore, Bonuses, LastPaidUp, Price, Reward, LivesLost;
    if e.Start? {
      FreshRight(w.game.padCount, Pause, e.now + PAUSE_MS);
    }
  }

  lemma WavesStep(w: World, e: Event)
    requires WavesRight(w) && InSequence(w) && Possible(e)
    ensures var w' := World(NextGame(w.game, e), NextBooks(w.game, w.books, e)); WavesRight(w') && InSequence(w')
  {
    hide Ticked, TickBooks, WavesRight, InSequence;
    if e.Tick? {
      TickRight(w, e.now, e.alive);
    } else {
      OtherRight(w, e);
    }
  }

  /**
   Over a whole game: the money is never negative and is what came in less what went out since the
   reset, the bonuses are those of the waves paid, every wave spawns a prefix of its list and is paid at
   most once and only in full, and without a jump the waves come in order.
   */
  lemma {:induction false} GameLaw(padCount: nat, es: seq<Event>)
    requires forall i :: 0 <= i < |es| ==> Possible(es[i])
    ensures var w := Run(padCount, es); MoneyRight(w) && WavesRight(w) && InSequence(w)
  {
    if es == [] {
      FreshRight(padCount, Idle, 0);
    } else {
      GameLaw(padCount, es[..|es| - 1]);
      hide MoneyRight, WavesRight, InSequence, NextGame, NextBooks;
      var w := Run(padCount, es[..|es| - 1]);
      RunsListed(w);
      MoneyStep(w, es[|es| - 1]);
      WavesStep(w, es[|es| - 1]);
    }
  }

  /** A win without a jump: all the waves, in order, each spawned in full and paid once. */
  lemma {:induction false} WinMeansAllWaves(padCount: nat, es: seq<Event>)
    requires forall i :: 0 <= i < |es| ==> Possible(es[i])
    requires Run(padCount, es).game.result == Win && !Run(padCount, es).books.jumped
    ensures var waves := Run(padCount, es).books.waves;
            && |waves| == LAST_WAVE
            && forall i :: 0 <= i < LAST_WAVE ==> waves[i] == WaveRun(i + 1, WaveList(i + 1), 1)
  {
    hide *;
    GameLaw(padCount, es);
    WonInFull(Run(padCount, es));
  }

  lemma WonInFull(w: World)
    requires WavesRight(w) && InSequence(w) && w.game.result == Win && !w.books.jumped
    ensures var waves := w.books.waves;
            && |waves| == LAST_WAVE
            && forall i :: 0 <= i < LAST_WAVE ==> waves[i] == WaveRun(i + 1, WaveList(i + 1), 1)
  {
    hide WaveList, Bonuses, Running, WaveRunOk;
    var waves := w.books.waves;
    forall i | 0 <= i < LAST_WAVE ensures waves[i] == WaveRun(i + 1, WaveList(i + 1), 1) {
      assert WaveRunOk(waves[i]) && waves[i].number == i + 1 && waves[i].paid == 1;
      PaidInFull(waves[i]);
    }
  }

  lemma PaidInFull(r: WaveRun)
    requires WaveRunOk(r) && r.paid == 1
    ensures IsWave(r.number) && r == WaveRun(r.number, WaveList(r.number), 1)
  {
    hide WaveList;
  }

  // ---- trading with pads ---------------------------------------------------------------------------------

  function SpentMap(pads: map<nat, Turret>): map<nat, int> {
    map p | p in pads :: pads[p].spent
  }

  /** Money and the prices standing on pads. */
  ghost function Worth(g: Game): int {
    g.money + Sum(g.pads.Keys, SpentMap(g.pads))
  }

  lemma SpentSet(pads: map<nat, Turret>, p: nat, t: Turret)
    ensures Sum(pads[p := t].Keys, SpentMap(pads[p := t])) ==
            Sum(pads.Keys - {p}, SpentMap(pads)) + t.spent
  {
    var after := pads[p := t];
    assert after.Keys == (pads.Keys - {p}) + {p};
    SumAdd(pads.Keys - {p}, p, SpentMap(after));
    SumAgree(pads.Keys - {p}, SpentMap(after), SpentMap(pads));
  }

  lemma SpentOf(pads: map<nat, Turret>, p: nat)
    ensures Sum(pads.Keys, SpentMap(pads)) ==
            Sum(pads.Keys - {p}, SpentMap(pads)) + (if p in pads then pads[p].spent else 0)
    ensures Sum((pads - {p}).Keys, SpentMap(pads - {p})) == Sum(pads.Keys - {p}, SpentMap(pads))
  {
    var rest := pads.Keys - {p};
    if p in pads {
      assert rest + {p} == pads.Keys;
      SumAdd(rest, p, SpentMap(pads));
    } else {
      assert rest == pads.Keys;
    }
    assert (pads - {p}).Keys == rest;
    SumAgree(rest, SpentMap(pads - {p}), SpentMap(pads));
  }

  /** Building and upgrading move money onto a pad, selling brings back no more: trading never gains. */
  lemma TradingNeverGains(g: Game, e: Event)
    requires e.Build? || e.Upgrade? || e.Sell?
    ensures Worth(NextGame(g, e)) <= Worth(g)
    ensures !e.Sell? ==> Worth(NextGame(g, e)) == Worth(g)
    ensures e.Sell? && e.at in g.pads ==>
              Worth(g) - Worth(NextGame(g, e)) == g.pads[e.at].spent - Refund(g.pads[e.at].spent)
  {
    hide Sum, SpentMap;
    match e
    case Build(pad, kind) =>
      if CanBuild(g, pad, kind) {
        SpentOf(g.pads, pad);
        SpentSet(g.pads, pad, Turret(kind.value, 0, Price(kind.value, 0)));
      }
    case Upgrade(pad) =>
      if CanUpgrade(g, pad) {
        var t := g.pads[pad];
        SpentOf(g.pads, pad);
        SpentSet(g.pads, pad, Turret(t.kind, t.level + 1, t.spent + Price(t.kind, t.level + 1)));
      }
    case Sell(pad) => SpentOf(g.pads, pad);
  }
}
