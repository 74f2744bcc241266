/**
 * The battle scene of scenes/battle.go: the speed control, the pause and
 * game-over gates, the fixed-timestep gate in front of the simulation step,
 * the wave timer and the wave itself, the death check, the reset, and the
 * high score file.
 *
 * The scene's mutable state is a class; `Scene` is the value of all of it,
 * and every method is proved to leave the value a ghost function of the old
 * value computes. What the source promises is proved about those functions.
 */
module Battle {
  import opened Wrappers
  import opened Geometry
  import opened Components
  import opened Entities
  import opened Strconv
  import opened Board
  import opened Player
  import opened Creeps
  import Scores

  const MinSpeed: int := 0
  const MaxSpeed: int := 60
  const MaxCreepTimer: int := 90
  const StartCreepTimer: int := 30
  /** The wave timer of a new battle: the first wave comes StartCreepTimer steps in. */
  const OpeningTimer: int := MaxCreepTimer - StartCreepTimer

  // ---------------------------------------------------------------------
  // Speed
  // ---------------------------------------------------------------------

  /** NewBattleScene's clamp: a negative speed becomes 1, one above MaxSpeed becomes MaxSpeed. */
  function ClampSpeed(speed: int): (s: int)
    ensures MinSpeed <= s <= MaxSpeed
    ensures speed < MinSpeed ==> s == 1
    ensures MinSpeed <= speed <= MaxSpeed ==> s == speed
    ensures speed > MaxSpeed ==> s == MaxSpeed
  {
    if speed < MinSpeed then Scores.Max(1, MinSpeed)
    else if speed > MaxSpeed then MaxSpeed
    else speed
  }

  /** The = key: five faster, capped at MaxSpeed. */
  function Faster(speed: int): int {
    if speed + 5 < MaxSpeed then speed + 5 else MaxSpeed
  }

  /** The - key: five slower, floored at MinSpeed. */
  function Slower(speed: int): int {
    Scores.Max(speed - 5, MinSpeed)
  }

  /** The speed after this tick's keys; = is handled before -. */
  function KeySpeed(speed: int, faster: bool, slower: bool): (s: int)
    requires MinSpeed <= speed <= MaxSpeed
    ensures MinSpeed <= s <= MaxSpeed
    ensures !faster && !slower ==> s == speed
    ensures faster && !slower ==> speed <= s <= speed + 5 && (s == speed + 5 || s == MaxSpeed)
    ensures slower && !faster ==> speed - 5 <= s <= speed && (s == speed - 5 || s == MinSpeed)
    ensures faster && slower ==> s == if speed > MaxSpeed - 5 then MaxSpeed - 5 else speed
  {
    var s1 := if faster then Faster(speed) else speed;
    if slower then Slower(s1) else s1
  }

  /**
   * The fixed-timestep gate: float32(tickCounter) > float32(TPS)/float32(speed),
   * with the float32 values taken as exact reals.
   */
  predicate Due(tick: int, speed: int, tps: int) {
    speed != 0 && (tick as real) > (tps as real) / (speed as real)
  }

  /** Speed 0 never runs the simulation; otherwise it runs once tickCounter times speed passes TPS. */
  lemma DueByProduct(tick: int, speed: int, tps: int)
    requires speed >= 0
    ensures speed == 0 ==> !Due(tick, speed, tps)
    ensures speed > 0 ==> (Due(tick, speed, tps) <==> tick * speed > tps)
  {
    if speed > 0 {
      var q := (tps as real) / (speed as real);
      assert q * (speed as real) == tps as real;
      assert (tick as real) * (speed as real) == (tick * speed) as real;
      if tick as real > q {
        assert (tick as real) * (speed as real) > q * (speed as real);
      } else {
        assert (tick as real) * (speed as real) <= q * (speed as real);
      }
    }
  }

  // ---------------------------------------------------------------------
  // The wave timer
  // ---------------------------------------------------------------------

  /** A wave is due when the incremented timer reaches MaxCreepTimer. */
  predicate Spawns(timer: int) {
    timer + 1 >= MaxCreepTimer
  }

  /** The timer after one UpdateEntities: reset to 0 after a wave. */
  function NextTimer(timer: int): int {
    if Spawns(timer) then 0 else timer + 1
  }

  /** The timer after k calls of UpdateEntities. */
  function TimerAfter(timer: int, k: nat): int
    decreases k
  {
    if k == 0 then timer else TimerAfter(NextTimer(timer), k - 1)
  }

  /** Below MaxCreepTimer the timer simply counts the calls. */
  lemma {:induction false} TimerCounts(timer: int, k: nat)
    requires timer + k < MaxCreepTimer
    decreases k
    ensures TimerAfter(timer, k) == timer + k
  {
    if k > 0 {
      assert NextTimer(timer) == timer + 1;
      TimerCounts(timer + 1, k - 1);
    }
  }

  /**
   * From the starting timer the first wave comes with the 30th call of
   * UpdateEntities; from then on one in every MaxCreepTimer calls brings one.
   */
  lemma FirstWaveOnThirtiethCall()
    ensures forall k: nat :: k < 29 ==> !Spawns(TimerAfter(OpeningTimer, k))
    ensures Spawns(TimerAfter(OpeningTimer, 29))
    ensures TimerAfter(OpeningTimer, 30) == 0
  {
    forall k: nat | k < 29 ensures !Spawns(TimerAfter(OpeningTimer, k)) {
      TimerCounts(OpeningTimer, k);
    }
    TimerCounts(OpeningTimer, 29);
    TimerAfterStep(OpeningTimer, 29);
  }

  /** After a wave the next one comes with the MaxCreepTimer-th call. */
  lemma WaveEveryNinetyCalls()
    ensures forall k: nat :: k < MaxCreepTimer - 1 ==> !Spawns(TimerAfter(0, k))
    ensures Spawns(TimerAfter(0, MaxCreepTimer - 1))
    ensures TimerAfter(0, MaxCreepTimer) == 0
  {
    forall k: nat | k < MaxCreepTimer - 1 ensures !Spawns(TimerAfter(0, k)) {
      TimerCounts(0, k);
    }
    TimerCounts(0, MaxCreepTimer - 1);
    TimerAfterStep(0, MaxCreepTimer - 1);
  }

  /** One more call is one more step. */
  lemma {:induction false} TimerAfterStep(timer: int, k: nat)
    ensures TimerAfter(timer, k + 1) == NextTimer(TimerAfter(timer, k))
    decreases k
  {
    if k > 0 {
      TimerAfterStep(NextTimer(timer), k - 1);
    }
  }

  // ---------------------------------------------------------------------
  // The wave
  // ---------------------------------------------------------------------

  /** SpawnCreeps' count from its rand.Float32 draw. */
  function WaveSize(val: real): (count: int)
    ensures 1 <= count <= 5
    ensures count == 5 <==> val < 0.2
    ensures count >= 4 <==> val < 0.4
    ensures count >= 3 <==> val < 0.6
    ensures count >= 2 <==> val < 0.8
  {
    if val < 0.2 then 5
    else if val < 0.4 then 4
    else if val < 0.6 then 3
    else if val < 0.8 then 2
    else 1
  }

  /**
   * The random draws of one wave: the count draw, then for each creep its
   * rand.Intn(Width/count) offset and the two draws of NewCreep.
   */
  datatype Wave = Wave(val: real, offsets: seq<int>, rolls: seq<real>, picks: seq<int>)

  /** Draws rand could make: each offset below Width/count (rand.Intn panics on a bound of 0 or less). */
  predicate WaveFits(wave: Wave, width: int) {
    var n := WaveSize(wave.val);
    && |wave.offsets| >= n && |wave.rolls| >= n && |wave.picks| >= n
    && forall i :: 0 <= i < n ==> 0 <= wave.offsets[i] < Quo(width, n) && 0 <= wave.picks[i] < 3
  }

  /** Creep i's x: its offset into the i-th of count equal strips, moved inside the spawn border. */
  function SpawnX(width: int, count: int, i: int, offset: int, border: int): (x: int)
    requires count > 0
    ensures border <= width - border ==> border <= x <= width - border
    ensures var x0 := offset + Quo(width, count) * i;
      border <= x0 <= width - border ==> x == x0
    ensures var x0 := offset + Quo(width, count) * i;
      (x0 < border ==> x == border) && (border <= x0 && x0 > width - border ==> x == width - border)
  {
    var x0 := offset + Quo(width, count) * i;
    if x0 < border then border
    else if x0 > width - border then width - border
    else x0
  }

  /** The i-th creep of the wave, under the id the world gives it. */
  function SpawnedCreep(wave: Wave, width: int, border: int, bounds: Rect, next: nat, i: nat): Entity
    requires WaveFits(wave, width) && i < WaveSize(wave.val)
  {
    var n := WaveSize(wave.val);
    NewCreepEntity(SpawnX(width, n, i, wave.offsets[i], border), border, wave.rolls[i], wave.picks[i], bounds).(id := next + i)
  }

  /** The first k creeps of the wave, in spawn order. */
  function Spawned(wave: Wave, width: int, border: int, bounds: Rect, next: nat, k: nat): (cs: seq<Entity>)
    requires WaveFits(wave, width) && k <= WaveSize(wave.val)
    ensures |cs| == k
    ensures forall i :: 0 <= i < k ==> cs[i] == SpawnedCreep(wave, width, border, bounds, next, i)
  {
    if k == 0 then [] else Spawned(wave, width, border, bounds, next, k - 1) + [SpawnedCreep(wave, width, border, bounds, next, k - 1)]
  }

  /**
   * A wave is WaveSize creeps, each a creep at y = SpawnBorder with its x
   * inside the spawn border (when the board is wide enough to have an
   * inside), each with the world's next id in turn.
   */
  lemma SpawnedWave(wave: Wave, width: int, border: int, bounds: Rect, next: nat)
    requires WaveFits(wave, width)
    ensures var cs := Spawned(wave, width, border, bounds, next, WaveSize(wave.val));
      && |cs| == WaveSize(wave.val)
      && (forall i :: 0 <= i < |cs| ==> cs[i].creep.Some? && cs[i].id == next + i && cs[i].pos.value.y == border)
      && (border <= width - border ==> forall i :: 0 <= i < |cs| ==> border <= cs[i].pos.value.x <= width - border)
  {
  }

  // ---------------------------------------------------------------------
  // The scene as a value
  // ---------------------------------------------------------------------

  /** The world's records and next id, and the BattleScene fields that change. */
  datatype Scene = Scene(
    es: seq<Entity>,
    nextId: nat,
    gameOver: bool,
    paused: bool,
    highScore: int,
    speed: int,
    creepTimer: int,
    tickCounter: int)

  /** A scene after an update, the error the update returns, and the text End wrote to the high score file. */
  datatype Tick = Tick(scene: Scene, err: Option<string>, saved: Option<string>)

  /**
   * What the pass of UpdateEntities over creeps, towers and bullets (lines
   * 154-190) leaves: the records, the next id, and the error it reports. The
   * pass runs code this model does not include, so it enters as an input.
   */
  datatype Pass = Pass(es: seq<Entity>, nextId: nat, err: Option<string>)

  /**
   * What the rest of UpdateEntities needs of the pass: the records stay on
   * the board with increasing ids, and the Player that MustFirst looks for
   * is still there.
   */
  ghost predicate PassOn(p: Pass, b: BoardInfo) {
    WorldOn(p.es, p.nextId, b) && HasPlayer(p.es)
  }

  /** This tick's keys: R, =, -, P or Space, and the player's input. */
  datatype Keys = Keys(reset: bool, faster: bool, slower: bool, pause: bool, input: Input)

  /**
   * What code outside this model supplies: the tower environment, ebiten's
   * TPS, the base image bounds and starting tower level of NewPlayer, the
   * creep image bounds, and comp.SpawnBorder.
   */
  datatype Outside = Outside(env: TowerEnv, tps: int, baseBounds: Rect, startingTowerLevel: int, creepBounds: Rect, spawnBorder: int)
  {
    ghost predicate Valid() {
      env.Valid()
    }
  }

  /** There is a board, and every board in the world is b. */
  ghost predicate BoardsAre(es: seq<Entity>, b: BoardInfo) {
    && FirstWith(es, BoardTag).Some?
    && (forall i :: 0 <= i < |es| && es[i].board.Some? ==> es[i].board == Some(b))
  }

  lemma TheBoardIs(es: seq<Entity>, b: BoardInfo)
    requires BoardsAre(es, b)
    ensures TheBoard(es) == b
  {
  }

  /** The world of a battle on board b: ordered ids, well-formed records, and b as its only board. */
  ghost predicate WorldOn(es: seq<Entity>, next: nat, b: BoardInfo) {
    IdsOrdered(es, next) && AllWellFormed(es) && BoardsAre(es, b)
  }

  ghost predicate HasPlayer(es: seq<Entity>) {
    FirstWith(es, PlayerTag).Some?
  }

  /**
   * A change that keeps the tags keeps the board, and the Player that
   * MustFirst finds is found at the same place.
   */
  lemma KeptOn(es: seq<Entity>, next: nat, after: seq<Entity>, next': nat, b: BoardInfo)
    requires WorldOn(es, next, b) && IdsOrdered(after, next') && AllWellFormed(after) && KeepsTags(es, after)
    ensures WorldOn(after, next', b)
    ensures FirstWith(after, PlayerTag) == FirstWith(es, PlayerTag)
  {
    var f := FirstWith(es, BoardTag).value;
    assert HasTag(after[f], BoardTag);
    forall i | 0 <= i < |after| && after[i].board.Some? ensures after[i].board == Some(b) {
      assert i < |es| && after[i].board == es[i].board;
    }
    var g := FirstWith(es, PlayerTag);
    var h := FirstWith(after, PlayerTag);
    if g.Some? {
      assert HasTag(after[g.value], PlayerTag);
      assert h.Some? && h.value <= g.value;
      assert HasTag(es[h.value], PlayerTag);
    } else {
      forall i | 0 <= i < |after| ensures !HasTag(after[i], PlayerTag) {
        if i < |es| {
          assert !HasTag(es[i], PlayerTag);
        }
      }
    }
  }

  /** The invariant of a scene on board b. */
  ghost predicate SceneOk(s: Scene, b: BoardInfo) {
    && WorldOn(s.es, s.nextId, b)
    && MinSpeed <= s.speed <= MaxSpeed
    && 0 <= s.creepTimer < MaxCreepTimer
    && s.tickCounter >= 0
  }

  // ---------------------------------------------------------------------
  // Clear
  // ---------------------------------------------------------------------

  /** Clear's query: filter.Or over Bullet, Player, Tower and Creep. */
  predicate Cleared(e: Entity) {
    e.bullet.Some? || e.player.Some? || e.tower || e.creep.Some?
  }

  /** The records Clear leaves, in their order. */
  function Survivors(es: seq<Entity>): (r: seq<Entity>)
    ensures |r| <= |es|
    ensures forall e :: e in r <==> e in es && !Cleared(e)
  {
    if es == [] then []
    else
      var last := es[|es| - 1];
      assert es == es[..|es| - 1] + [last];
      Survivors(es[..|es| - 1]) + (if Cleared(last) then [] else [last])
  }

  /** Removing records keeps the ids in order. */
  lemma {:induction false} SurvivorsOrdered(es: seq<Entity>, next: nat)
    requires IdsOrdered(es, next)
    ensures IdsOrdered(Survivors(es), next)
  {
    if es != [] {
      var last := es[|es| - 1];
      var init := es[..|es| - 1];
      assert IdsOrdered(init, last.id);
      SurvivorsOrdered(init, last.id);
      var s := Survivors(init);
      if !Cleared(last) {
        forall i, j | 0 <= i < j < |s + [last]| ensures (s + [last])[i].id < (s + [last])[j].id {
          if j == |s| {
            assert s[i] in s;
          }
        }
      }
    }
  }

  /** What Clear leaves: a well-formed world with the same boards and no player, tower, creep or bullet. */
  lemma SurvivorsOk(es: seq<Entity>, next: nat, b: BoardInfo)
    requires WorldOn(es, next, b)
    ensures var r := Survivors(es);
      && WorldOn(r, next, b)
      && forall i :: 0 <= i < |r| ==> !Cleared(r[i])
  {
    var r := Survivors(es);
    SurvivorsOrdered(es, next);
    forall i | 0 <= i < |r| ensures WellFormed(r[i]) && !Cleared(r[i]) && (r[i].board.Some? ==> r[i].board == Some(b)) {
      assert r[i] in r;
      var j :| 0 <= j < |es| && es[j] == r[i];
    }
    var k := FirstWith(es, BoardTag).value;
    assert WellFormed(es[k]) && es[k] in es;
    assert es[k] in r;
    var m :| 0 <= m < |r| && r[m] == es[k];
    assert HasTag(r[m], BoardTag);
  }

  /** Clear: the flags and counters back to a new battle's, every Bullet, Player, Tower and Creep removed. */
  ghost function ClearScene(s: Scene, b: BoardInfo): (r: Scene)
    requires SceneOk(s, b)
    ensures SceneOk(r, b) && !HasPlayer(r.es)
    ensures !r.gameOver && !r.paused && r.tickCounter == 0 && r.creepTimer == OpeningTimer
    ensures r.speed == s.speed && r.highScore == s.highScore && r.nextId == s.nextId
    ensures forall e :: e in r.es <==> e in s.es && !Cleared(e)
  {
    SurvivorsOk(s.es, s.nextId, b);
    s.(es := Survivors(s.es), gameOver := false, paused := false,
       creepTimer := OpeningTimer, tickCounter := 0)
  }

  /** How one pass of Clear's loop moves the remaining records. */
  lemma ClearStep(snapshot: seq<Entity>, k: nat, next: nat)
    requires k < |snapshot| && IdsOrdered(Survivors(snapshot[..k]) + snapshot[k..], next)
    ensures var cur, s := Survivors(snapshot[..k]) + snapshot[k..], Survivors(snapshot[..k]);
      && (Cleared(snapshot[k]) ==>
            IndexOf(cur, snapshot[k].id) == Some(|s|) &&
            RemoveAt(cur, |s|) == Survivors(snapshot[..k + 1]) + snapshot[k + 1..])
      && (!Cleared(snapshot[k]) ==> cur == Survivors(snapshot[..k + 1]) + snapshot[k + 1..])
  {
    var s := Survivors(snapshot[..k]);
    var cur := s + snapshot[k..];
    assert snapshot[..k + 1][..k] == snapshot[..k];
    assert snapshot[k..] == [snapshot[k]] + snapshot[k + 1..];
    assert cur[|s|] == snapshot[k];
    if Cleared(snapshot[k]) {
      var r := IndexOf(cur, snapshot[k].id);
      assert r.Some?;
      assert r.value == |s|;
      assert RemoveAt(cur, |s|) == s + snapshot[k + 1..];
    }
  }

  /** Clear's query and removal: each Bullet, Player, Tower or Creep in the world is removed in turn. */
  method RemoveCleared(w: World)
    requires w.Valid()
    modifies w
    ensures w.Valid() && w.nextId == old(w.nextId)
    ensures w.entities == Survivors(old(w.entities))
  {
    var snapshot := w.entities;
    for k := 0 to |snapshot|
      invariant w.Valid() && w.nextId == old(w.nextId)
      invariant w.entities == Survivors(snapshot[..k]) + snapshot[k..]
    {
      ClearStep(snapshot, k, w.nextId);
      if Cleared(snapshot[k]) {
        w.Remove(snapshot[k].id);
      }
    }
    assert snapshot[..|snapshot|] == snapshot && snapshot[|snapshot|..] == [];
  }

  // ---------------------------------------------------------------------
  // Init and UpdateEntities
  // ---------------------------------------------------------------------

  /** Init: NewPlayer adds the base under the next id. */
  ghost function InitScene(s: Scene, b: BoardInfo, o: Outside): (r: Scene)
    requires SceneOk(s, b)
    ensures SceneOk(r, b) && HasPlayer(r.es)
    ensures r == s.(es := r.es, nextId := s.nextId + 1)
    ensures |r.es| == |s.es| + 1 && r.es[..|s.es|] == s.es && r.es[|s.es|].player.Some?
  {
    var p := NewPlayerEntity(b.height, o.startingTowerLevel, o.baseBounds).(id := s.nextId);
    AppendPlayerOn(s.es, p, s.nextId, b);
    s.(es := s.es + [p], nextId := s.nextId + 1)
  }

  /** A player under the next id keeps the world on the board and gives it a player. */
  lemma AppendPlayerOn(es: seq<Entity>, p: Entity, next: nat, b: BoardInfo)
    requires WorldOn(es, next, b) && WellFormed(p) && p.player.Some? && p.id == next
    ensures WorldOn(es + [p], next + 1, b) && HasPlayer(es + [p])
    ensures (es + [p])[..|es|] == es
  {
    var r := es + [p];
    assert HasTag(r[|es|], PlayerTag);
    assert r[..|es|] == es;
    var k := FirstWith(es, BoardTag).value;
    assert HasTag(r[k], BoardTag);
  }

  /** One more creep of the wave keeps the world on the board. */
  lemma SpawnOne(es0: seq<Entity>, es: seq<Entity>, next: nat, i: nat, wave: Wave, b: BoardInfo, o: Outside)
    requires WaveFits(wave, b.width) && i < WaveSize(wave.val)
    requires es == es0 + Spawned(wave, b.width, o.spawnBorder, o.creepBounds, next, i)
    requires WorldOn(es, next + i, b)
    ensures var c := SpawnedCreep(wave, b.width, o.spawnBorder, o.creepBounds, next, i);
      && es + [c] == es0 + Spawned(wave, b.width, o.spawnBorder, o.creepBounds, next, i + 1)
      && WorldOn(es + [c], next + i + 1, b)
  {
    var c := SpawnedCreep(wave, b.width, o.spawnBorder, o.creepBounds, next, i);
    assert Spawned(wave, b.width, o.spawnBorder, o.creepBounds, next, i + 1) ==
      Spawned(wave, b.width, o.spawnBorder, o.creepBounds, next, i) + [c];
    AppendCreepOn(es, c, next + i, b);
  }

  /** A creep under the next id keeps the world on the board. */
  lemma AppendCreepOn(es: seq<Entity>, c: Entity, next: nat, b: BoardInfo)
    requires WorldOn(es, next, b) && WellFormed(c) && c.creep.Some? && c.id == next
    ensures WorldOn(es + [c], next + 1, b)
  {
    var f := FirstWith(es, BoardTag).value;
    assert HasTag((es + [c])[f], BoardTag);
  }

  /** SpawnCreeps: the wave's creeps go to the end of the world, one by one. */
  method SpawnCreeps(w: World, b: BoardInfo, wave: Wave, o: Outside)
    requires WorldOn(w.entities, w.nextId, b) && WaveFits(wave, b.width)
    modifies w
    ensures w.nextId == old(w.nextId) + WaveSize(wave.val)
    ensures w.entities == old(w.entities) + Spawned(wave, b.width, o.spawnBorder, o.creepBounds, old(w.nextId), WaveSize(wave.val))
    ensures WorldOn(w.entities, w.nextId, b)
  {
    var count := WaveSize(wave.val);
    for i := 0 to count
      invariant w.nextId == old(w.nextId) + i
      invariant w.entities == old(w.entities) + Spawned(wave, b.width, o.spawnBorder, o.creepBounds, old(w.nextId), i)
      invariant WorldOn(w.entities, w.nextId, b)
    {
      SpawnNth(w, b, wave, o, i, old(w.entities), old(w.nextId));
    }
  }

  /** One round of SpawnCreeps' loop: the i-th creep of the wave, at its place on the spawn line. */
  method SpawnNth(w: World, b: BoardInfo, wave: Wave, o: Outside, i: nat, ghost es0: seq<Entity>, ghost next0: nat)
    requires WaveFits(wave, b.width) && i < WaveSize(wave.val)
    requires w.nextId == next0 + i
    requires w.entities == es0 + Spawned(wave, b.width, o.spawnBorder, o.creepBounds, next0, i)
    requires WorldOn(w.entities, w.nextId, b)
    modifies w
    ensures w.nextId == next0 + i + 1
    ensures w.entities == es0 + Spawned(wave, b.width, o.spawnBorder, o.creepBounds, next0, i + 1)
    ensures WorldOn(w.entities, w.nextId, b)
  {
    var board := TheBoard(w.entities);
    TheBoardIs(w.entities, b);
    var x := SpawnX(board.width, WaveSize(wave.val), i, wave.offsets[i], o.spawnBorder);
    ghost var e := NewCreepEntity(x, o.spawnBorder, wave.rolls[i], wave.picks[i], o.creepBounds);
    assert e.(id := w.nextId) == SpawnedCreep(wave, b.width, o.spawnBorder, o.creepBounds, next0, i);
    SpawnOne(es0, w.entities, next0, i, wave, b, o);
    ghost var es1 := w.entities + [e.(id := w.nextId)];
    var id := NewCreep(w, x, o.spawnBorder, wave.rolls[i], wave.picks[i], o.creepBounds);
    assert w.entities == es1;
  }

  /** The Player's health is at most 0. */
  ghost predicate Dies(es: seq<Entity>)
    requires HasPlayer(es) && AllWellFormed(es)
  {
    var pi := FirstWith(es, PlayerTag).value;
    assert WellFormed(es[pi]);
    es[pi].health.value.health <= 0
  }

  /** The death check's effect on the world: a Player at health 0 or less is killed. */
  ghost function Killed(es: seq<Entity>): (r: seq<Entity>)
    requires HasPlayer(es) && AllWellFormed(es)
  {
    var pi := FirstWith(es, PlayerTag).value;
    if Dies(es) then WithPlayer(es, pi, Kill(es[pi].player.value)) else es
  }

  lemma KilledOn(es: seq<Entity>, next: nat, b: BoardInfo)
    requires WorldOn(es, next, b) && HasPlayer(es)
    ensures WorldOn(Killed(es), next, b) && KeepsTags(es, Killed(es))
    ensures FirstWith(Killed(es), PlayerTag) == FirstWith(es, PlayerTag)
  {
    var pi := FirstWith(es, PlayerTag).value;
    WithPlayerKeeps(es, pi, Kill(es[pi].player.value), next);
    KeptOn(es, next, Killed(es), next, b);
  }

  /** Lines 200-204 of UpdateEntities: the timer counts, and a wave comes when it reaches MaxCreepTimer. */
  method WaveTimer(w: World, b: BoardInfo, timer: int, wave: Wave, o: Outside) returns (timer': int)
    requires WorldOn(w.entities, w.nextId, b) && WaveFits(wave, b.width)
    modifies w
    ensures timer' == NextTimer(timer)
    ensures w.nextId == old(w.nextId) + WaveCount(timer, wave)
    ensures w.entities == old(w.entities) + Spawned(wave, b.width, o.spawnBorder, o.creepBounds, old(w.nextId), WaveCount(timer, wave))
  {
    timer' := timer + 1;
    if timer' >= MaxCreepTimer {
      SpawnCreeps(w, b, wave, o);
      timer' := 0;
    } else {
      assert Spawned(wave, b.width, o.spawnBorder, o.creepBounds, w.nextId, 0) == [];
    }
  }

  /** Lines 192-197 of UpdateEntities without End: a Player at health 0 or less is killed. */
  method KillIfDead(w: World) returns (dies: bool)
    requires w.Valid() && HasPlayer(w.entities)
    modifies w
    ensures dies == Dies(old(w.entities)) && w.entities == Killed(old(w.entities))
    ensures w.nextId == old(w.nextId)
  {
    var pi := FirstWith(w.entities, PlayerTag).value;
    assert WellFormed(w.entities[pi]);
    dies := w.entities[pi].health.value.health <= 0;
    if dies {
      var rec := w.entities[pi];
      w.Put(pi, rec.(player := Some(Kill(rec.player.value))));
    }
  }

  /** The player's score, read on the Player MustFirst finds. */
  ghost function Score(es: seq<Entity>): int
    requires HasPlayer(es)
  {
    es[FirstWith(es, PlayerTag).value].player.value.score
  }

  /** A creep under the next id keeps the world well formed; it is neither a board nor a player. */
  lemma AppendCreepKeeps(es: seq<Entity>, c: Entity, next: nat)
    requires IdsOrdered(es, next) && AllWellFormed(es) && WellFormed(c) && c.creep.Some? && c.id == next
    ensures IdsOrdered(es + [c], next + 1) && AllWellFormed(es + [c]) && KeepsTags(es, es + [c])
  {
  }

  /**
   * A wave keeps the world well formed and its tags, and gives its creeps
   * the next ids in turn.
   */
  lemma {:induction false} SpawnedKeeps(es: seq<Entity>, wave: Wave, width: int, border: int, bounds: Rect, next: nat, k: nat)
    requires WaveFits(wave, width) && k <= WaveSize(wave.val)
    requires IdsOrdered(es, next) && AllWellFormed(es)
    ensures var r := es + Spawned(wave, width, border, bounds, next, k);
      IdsOrdered(r, next + k) && AllWellFormed(r) && KeepsTags(es, r)
  {
    if k > 0 {
      SpawnedKeeps(es, wave, width, border, bounds, next, k - 1);
      var q := es + Spawned(wave, width, border, bounds, next, k - 1);
      var c := SpawnedCreep(wave, width, border, bounds, next, k - 1);
      assert es + Spawned(wave, width, border, bounds, next, k) == q + [c];
      AppendCreepKeeps(q, c, next + k - 1);
      KeepsTagsTrans(es, q, q + [c]);
    }
  }

  /** How many creeps UpdateEntities spawns with this timer. */
  function WaveCount(timer: int, wave: Wave): nat {
    if Spawns(timer) then WaveSize(wave.val) else 0
  }

  /** Lines 192-198 of UpdateEntities: a Player at health 0 or less is killed and the battle ends. */
  ghost function DeathStep(s: Scene): (r: Scene)
    requires HasPlayer(s.es) && AllWellFormed(s.es)
  {
    s.(es := Killed(s.es), gameOver := s.gameOver || Dies(s.es))
  }

  /** Lines 200-204 of UpdateEntities: the timer counts, and a wave follows the records when it is due. */
  function WaveStep(s: Scene, b: BoardInfo, o: Outside, wave: Wave): (r: Scene)
    requires WaveFits(wave, b.width)
  {
    var n := WaveCount(s.creepTimer, wave);
    s.(es := s.es + Spawned(wave, b.width, o.spawnBorder, o.creepBounds, s.nextId, n),
       nextId := s.nextId + n, creepTimer := NextTimer(s.creepTimer))
  }

  /**
   * UpdateEntities: after the pass over creeps, towers and bullets comes the
   * death check on what the pass left (which also calls End), then the wave
   * timer and the wave. The pass's error is returned last.
   */
  ghost function EntitiesScene(s: Scene, b: BoardInfo, o: Outside, wave: Wave, pass: Pass): (t: Tick)
    requires SceneOk(s, b) && WaveFits(wave, b.width) && PassOn(pass, b)
    ensures SceneOk(t.scene, b) && HasPlayer(t.scene.es)
    ensures t.scene.speed == s.speed && t.scene.paused == s.paused && t.scene.highScore == s.highScore
    ensures t.scene.tickCounter == s.tickCounter
  {
    KilledSpawnedOn(pass.es, pass.nextId, b, o, wave, WaveCount(s.creepTimer, wave));
    Tick(WaveStep(DeathStep(s.(es := pass.es, nextId := pass.nextId)), b, o, wave),
         pass.err,
         if Dies(pass.es) then Some(Itoa(s.highScore)) else None)
  }

  /** The death check and then the wave keep the world on the board, with its player. */
  lemma KilledSpawnedOn(es: seq<Entity>, next: nat, b: BoardInfo, o: Outside, wave: Wave, n: nat)
    requires WorldOn(es, next, b) && HasPlayer(es) && WaveFits(wave, b.width) && n <= WaveSize(wave.val)
    ensures var after := Killed(es) + Spawned(wave, b.width, o.spawnBorder, o.creepBounds, next, n);
      WorldOn(after, next + n, b) && HasPlayer(after)
  {
    var after := Killed(es) + Spawned(wave, b.width, o.spawnBorder, o.creepBounds, next, n);
    KilledOn(es, next, b);
    SpawnedKeeps(Killed(es), wave, b.width, o.spawnBorder, o.creepBounds, next, n);
    KeptOn(Killed(es), next, after, next + n, b);
  }

  /** The scene UpdateEntities leaves, field by field. */
  lemma EntitiesSceneIs(s: Scene, b: BoardInfo, o: Outside, wave: Wave, pass: Pass)
    requires SceneOk(s, b) && WaveFits(wave, b.width) && PassOn(pass, b)
    ensures var n := WaveCount(s.creepTimer, wave);
      var s1 := s.(es := Killed(pass.es) + Spawned(wave, b.width, o.spawnBorder, o.creepBounds, pass.nextId, n),
                   nextId := pass.nextId + n, gameOver := s.gameOver || Dies(pass.es), creepTimer := NextTimer(s.creepTimer));
      EntitiesScene(s, b, o, wave, pass) == Tick(s1, pass.err, if Dies(pass.es) then Some(Itoa(s.highScore)) else None)
  {
  }

  /**
   * A wave comes exactly when the incremented timer reaches MaxCreepTimer,
   * and its creeps follow the records the death check leaves of the pass's
   * world, under the ids after the pass's. The pass's error is returned.
   */
  lemma EntitiesStep(s: Scene, b: BoardInfo, o: Outside, wave: Wave, pass: Pass)
    requires SceneOk(s, b) && WaveFits(wave, b.width) && PassOn(pass, b)
    ensures var t := EntitiesScene(s, b, o, wave, pass);
      && (Spawns(s.creepTimer) <==> s.creepTimer == MaxCreepTimer - 1)
      && (Spawns(s.creepTimer) ==>
            t.scene.es == Killed(pass.es) + Spawned(wave, b.width, o.spawnBorder, o.creepBounds, pass.nextId, WaveSize(wave.val))
            && t.scene.nextId == pass.nextId + WaveSize(wave.val) && t.scene.creepTimer == 0)
      && (!Spawns(s.creepTimer) ==>
            t.scene.es == Killed(pass.es) && t.scene.nextId == pass.nextId && t.scene.creepTimer == s.creepTimer + 1)
      && t.err == pass.err
  {
    assert Spawned(wave, b.width, o.spawnBorder, o.creepBounds, pass.nextId, 0) == [];
  }

  /**
   * A Player whose health the pass left at 0 or less is killed, the battle
   * is over, and the high score as it stood is written to the file;
   * otherwise the Player is as the pass left it and nothing ends.
   */
  lemma DeathEndsBattle(s: Scene, b: BoardInfo, o: Outside, wave: Wave, pass: Pass)
    requires SceneOk(s, b) && WaveFits(wave, b.width) && PassOn(pass, b)
    ensures var t := EntitiesScene(s, b, o, wave, pass); var pi := FirstWith(pass.es, PlayerTag).value;
      && pi < |t.scene.es| && FirstWith(t.scene.es, PlayerTag) == Some(pi)
      && (Dies(pass.es) ==> t.scene.gameOver && t.saved == Some(Itoa(s.highScore)) && t.scene.es[pi].player.value.dead)
      && (!Dies(pass.es) ==> t.saved.None? && t.scene.gameOver == s.gameOver && t.scene.es[pi] == pass.es[pi])
  {
    var pi := FirstWith(pass.es, PlayerTag).value;
    var n := WaveCount(s.creepTimer, wave);
    KilledOn(pass.es, pass.nextId, b);
    SpawnedKeeps(Killed(pass.es), wave, b.width, o.spawnBorder, o.creepBounds, pass.nextId, n);
    var es := Killed(pass.es) + Spawned(wave, b.width, o.spawnBorder, o.creepBounds, pass.nextId, n);
    KeptOn(Killed(pass.es), pass.nextId, es, pass.nextId + n, b);
    assert es[pi] == Killed(pass.es)[pi];
  }

  // ---------------------------------------------------------------------
  // Update
  // ---------------------------------------------------------------------

  /** Lines 130-135 of Update: the Player's own step, which may add a tower or spend money. */
  ghost function InputScene(s: Scene, b: BoardInfo, input: Input, o: Outside): (t: Tick)
    requires SceneOk(s, b) && HasPlayer(s.es) && InputNamesTowers(s.es, input) && o.Valid()
    ensures SceneOk(t.scene, b) && HasPlayer(t.scene.es)
    ensures FirstWith(t.scene.es, PlayerTag) == FirstWith(s.es, PlayerTag)
    ensures t.scene == s.(es := t.scene.es, nextId := t.scene.nextId) && t.saved.None?
  {
    var pi := FirstWith(s.es, PlayerTag).value;
    var st := InputStep(s.es, pi, input, o.env, s.nextId);
    InputStepKeeps(s.es, pi, input, o.env, s.nextId);
    KeptOn(s.es, s.nextId, st.after, st.nextId, b);
    Tick(s.(es := st.after, nextId := st.nextId), st.err, None)
  }

  /** Lines 137-146 of Update: the fixed-timestep gate in front of UpdateEntities. */
  ghost function GateScene(s: Scene, b: BoardInfo, o: Outside, wave: Wave, pass: Pass): (t: Tick)
    requires SceneOk(s, b) && HasPlayer(s.es) && WaveFits(wave, b.width) && PassOn(pass, b)
    ensures SceneOk(t.scene, b) && HasPlayer(t.scene.es)
    ensures t.scene.highScore == s.highScore && t.scene.speed == s.speed && t.scene.paused == s.paused
  {
    if Due(s.tickCounter, s.speed, o.tps) then EntitiesScene(s.(tickCounter := 0), b, o, wave, pass)
    else Tick(s.(tickCounter := s.tickCounter + 1), None, None)
  }

  /** Line 148 of Update: the high score rises to the player's score. */
  ghost function RaiseScore(s: Scene): (r: Scene)
    requires HasPlayer(s.es)
    ensures r == s.(highScore := r.highScore)
    ensures r.highScore >= s.highScore && r.highScore >= Score(s.es)
    ensures r.highScore == s.highScore || r.highScore == Score(s.es)
  {
    s.(highScore := Scores.Max(Score(s.es), s.highScore))
  }

  /** Lines 129-150 of Update: the Player's step, the gated simulation step, the high score. */
  ghost function PlayScene(s: Scene, b: BoardInfo, input: Input, o: Outside, wave: Wave, pass: Pass): (t: Tick)
    requires SceneOk(s, b) && HasPlayer(s.es) && InputNamesTowers(s.es, input) && o.Valid() && WaveFits(wave, b.width) && PassOn(pass, b)
    ensures SceneOk(t.scene, b) && HasPlayer(t.scene.es)
    ensures t.scene.highScore >= s.highScore
    ensures t.scene.speed == s.speed && t.scene.paused == s.paused
  {
    var i := InputScene(s, b, input, o);
    if i.err.Some? then i
    else
      var g := GateScene(i.scene, b, o, wave, pass);
      if g.err.Some? then g else Tick(RaiseScore(g.scene), None, g.saved)
  }

  /** Lines 99-102 of Update: R clears the scene and adds a new Player. */
  ghost function AfterReset(s: Scene, b: BoardInfo, reset: bool, o: Outside): (r: Scene)
    requires SceneOk(s, b)
    ensures SceneOk(r, b)
    ensures reset ==> HasPlayer(r.es) && !r.gameOver && !r.paused
    ensures r.highScore == s.highScore && r.speed == s.speed
  {
    if reset then InitScene(ClearScene(s, b), b, o) else s
  }

  /** The input names towers of the world it is applied to: after a reset, an input that names none. */
  lemma NamesTowersAfterReset(es: seq<Entity>, es': seq<Entity>, input: Input, reset: bool)
    requires InputNamesTowers(if reset then [] else es, input) && (reset || es' == es)
    ensures InputNamesTowers(es', input)
  {
  }

  /** Lines 108-127 of Update: the speed keys and the pause toggle. */
  ghost function KeysScene(s: Scene, keys: Keys): (r: Scene)
    requires MinSpeed <= s.speed <= MaxSpeed
    ensures r == s.(speed := r.speed, paused := r.paused)
    ensures r.paused <==> s.paused != keys.pause
  {
    s.(speed := KeySpeed(s.speed, keys.faster, keys.slower), paused := s.paused != keys.pause)
  }

  /**
   * BattleScene.Update: R resets; a finished battle then does nothing; the
   * speed keys and the pause toggle apply; a paused battle then does
   * nothing; otherwise the player step and the gated simulation step run.
   */
  ghost function UpdateScene(s: Scene, b: BoardInfo, keys: Keys, o: Outside, wave: Wave, pass: Pass): (t: Tick)
    requires SceneOk(s, b) && o.Valid() && WaveFits(wave, b.width) && PassOn(pass, b)
    requires keys.reset || s.gameOver || s.paused != keys.pause || HasPlayer(s.es)
    requires InputNamesTowers(if keys.reset then [] else s.es, keys.input)
    ensures SceneOk(t.scene, b)
    ensures t.scene.highScore >= s.highScore
  {
    var r := AfterReset(s, b, keys.reset, o);
    if r.gameOver then Tick(r, None, None)
    else
      var c := KeysScene(r, keys);
      if c.paused then Tick(c, None, None)
      else
        NamesTowersAfterReset(s.es, c.es, keys.input, keys.reset);
        PlayScene(c, b, keys.input, o, wave, pass)
  }

  // ---------------------------------------------------------------------
  // What Update promises
  // ---------------------------------------------------------------------

  /** A finished battle ignores every key except R. */
  lemma GameOverFreezes(s: Scene, b: BoardInfo, keys: Keys, o: Outside, wave: Wave, pass: Pass)
    requires SceneOk(s, b) && o.Valid() && WaveFits(wave, b.width) && PassOn(pass, b)
    requires s.gameOver && !keys.reset
    requires InputNamesTowers(s.es, keys.input)
    ensures UpdateScene(s, b, keys, o, wave, pass) == Tick(s, None, None)
  {
  }

  /**
   * While paused neither the player step nor the simulation runs: only the
   * speed keys and the pause toggle act on the scene (after the reset, if any).
   */
  lemma PauseFreezes(s: Scene, b: BoardInfo, keys: Keys, o: Outside, wave: Wave, pass: Pass)
    requires SceneOk(s, b) && o.Valid() && WaveFits(wave, b.width) && PassOn(pass, b)
    requires keys.reset || s.gameOver || s.paused != keys.pause || HasPlayer(s.es)
    requires InputNamesTowers(if keys.reset then [] else s.es, keys.input)
    requires var r := AfterReset(s, b, keys.reset, o); !r.gameOver && r.paused != keys.pause
    ensures var r := AfterReset(s, b, keys.reset, o);
      UpdateScene(s, b, keys, o, wave, pass) ==
        Tick(r.(speed := KeySpeed(s.speed, keys.faster, keys.slower), paused := true), None, None)
  {
  }

  /** Speed 0 never runs the simulation: the gate only counts the tick, and the wave timer stands still. */
  lemma StoppedNeverSimulates(s: Scene, b: BoardInfo, o: Outside, wave: Wave, pass: Pass)
    requires SceneOk(s, b) && HasPlayer(s.es) && WaveFits(wave, b.width) && PassOn(pass, b)
    requires s.speed == 0
    ensures GateScene(s, b, o, wave, pass) == Tick(s.(tickCounter := s.tickCounter + 1), None, None)
  {
    DueByProduct(s.tickCounter, 0, o.tps);
  }

  /**
   * At a positive speed the gate opens on the first tickCounter above
   * TPS / speed: it stays shut for tickCounter 0 to TPS / speed, so one
   * simulation step runs every TPS / speed + 2 updates.
   */
  lemma GatePeriod(speed: int, tps: int)
    requires speed > 0 && tps >= 0
    ensures forall k :: 0 <= k <= tps / speed ==> !Due(k, speed, tps)
    ensures Due(tps / speed + 1, speed, tps)
  {
    var q := tps / speed;
    assert q * speed <= tps < (q + 1) * speed;
    forall k | 0 <= k <= q ensures !Due(k, speed, tps) {
      DueByProduct(k, speed, tps);
      assert k * speed <= q * speed;
    }
    DueByProduct(q + 1, speed, tps);
  }

  /** When the gate is open the tick counter restarts and UpdateEntities runs on the scene. */
  lemma GateOpens(s: Scene, b: BoardInfo, o: Outside, wave: Wave, pass: Pass)
    requires SceneOk(s, b) && HasPlayer(s.es) && WaveFits(wave, b.width) && PassOn(pass, b)
    requires s.speed > 0 && s.tickCounter * s.speed > o.tps
    ensures GateScene(s, b, o, wave, pass) == EntitiesScene(s.(tickCounter := 0), b, o, wave, pass)
    ensures GateScene(s, b, o, wave, pass).scene.tickCounter == 0
  {
    DueByProduct(s.tickCounter, s.speed, o.tps);
  }

  // ---------------------------------------------------------------------
  // The high score file
  // ---------------------------------------------------------------------

  /** LoadScores: Atoi of the file's content (kept even on a parse error); 0 when the file cannot be read. */
  function LoadScores(content: Option<string>): int {
    if content.None? then 0 else Atoi(content.value).value
  }

  /** What SaveScores writes is what LoadScores reads back, for every 64-bit high score. */
  lemma SavedScoreLoads(highScore: int)
    requires MinInt64 <= highScore <= MaxInt64
    ensures LoadScores(Some(Itoa(highScore))) == highScore
  {
    AtoiItoa(highScore);
  }

  /**
   * A missing file or an empty one loads 0; so does one ending in a stray
   * character, unless its leading digits pass MaxUint64, which load the bound.
   */
  lemma UnreadableScoreLoadsZero(content: Option<string>)
    requires content.None? || |content.value| == 0 || !IsDigit(content.value[|content.value| - 1])
    ensures LoadScores(content) == if content.Some? && RunOverflows(content.value) then Bound(content.value) else 0
  {
    if content.Some? && |content.value| > 0 {
      AtoiSyntaxError(content.value);
    }
  }

  // ---------------------------------------------------------------------
  // The scene
  // ---------------------------------------------------------------------

  /** The scene NewBattleScene builds: the board alone, the speed clamped, the high score loaded. */
  function NewScene(width: int, height: int, speed: int, scoreFile: Option<string>): (s: Scene)
    ensures SceneOk(s, BoardInfo(width, height))
  {
    var es := [Blank(0).(board := Some(BoardInfo(width, height)))];
    assert HasTag(es[0], BoardTag);
    Scene(es, 1, false, false, LoadScores(scoreFile), ClampSpeed(speed), OpeningTimer, 0)
  }

  class BattleScene {
    const world: World
    const width: int
    const height: int
    var gameOver: bool
    var paused: bool
    var highScore: int
    var speed: int
    var creepTimer: int
    var tickCounter: int

    function Board(): BoardInfo {
      BoardInfo(width, height)
    }

    function Snapshot(): Scene
      reads this, world
    {
      Scene(world.entities, world.nextId, gameOver, paused, highScore, speed, creepTimer, tickCounter)
    }

    /** The world alone (SpawnCreeps runs while the timer is past its bound). */
    ghost predicate WorldOk()
      reads world
    {
      WorldOn(world.entities, world.nextId, Board())
    }

    ghost predicate Valid()
      reads this, world
    {
      SceneOk(Snapshot(), Board())
    }

    /** NewBattleScene: a world holding the board, the speed clamped, the high score loaded. */
    constructor (width: int, height: int, speed: int, scoreFile: Option<string>)
      ensures fresh(world) && this.width == width && this.height == height
      ensures Snapshot() == NewScene(width, height, speed, scoreFile)
      ensures Valid()
    {
      var w := new World();
      // NewBoard's error is always nil at this revision.
      var b, err := NewBoard(w, width, height);
      assert b == BoardInfo(width, height);
      assert w.entities == [Blank(0).(board := Some(b))];
      world := w;
      this.width, this.height := width, height;
      gameOver, paused := false, false;
      this.speed := ClampSpeed(speed);
      highScore := LoadScores(scoreFile);
      creepTimer := OpeningTimer;
      tickCounter := 0;
      new;
      ghost var s := NewScene(width, height, speed, scoreFile);
      assert world.entities == s.es;
      assert Snapshot() == s;
      assert SceneOk(s, Board());
    }

    /** SaveScores: the text written to the high score file. */
    function SaveScores(): string
      reads this
    {
      Itoa(highScore)
    }

    method Init(o: Outside) returns (err: Option<string>)
      requires Valid()
      modifies world
      ensures Snapshot() == InitScene(old(Snapshot()), Board(), o) && err.None?
      ensures Valid()
    {
      TheBoardIs(world.entities, Board());
      err := NewPlayer(world, o.startingTowerLevel, o.baseBounds);
    }

    method Clear()
      requires Valid()
      modifies this, world
      ensures Snapshot() == ClearScene(old(Snapshot()), Board())
      ensures Valid()
    {
      ghost var s0 := Snapshot();
      RemoveCleared(world);
      gameOver, paused := false, false;
      creepTimer := OpeningTimer;
      tickCounter := 0;
    }

    method End() returns (text: string)
      modifies this
      ensures Snapshot() == old(Snapshot()).(gameOver := true)
      ensures text == SaveScores()
    {
      gameOver := true;
      text := SaveScores();
    }

    /** Lines 154-190 of UpdateEntities: the pass, whose outcome is an input, leaves its records in the world. */
    method RunPass(pass: Pass) returns (err: Option<string>)
      requires WorldOn(pass.es, pass.nextId, Board())
      modifies world
      ensures Snapshot() == old(Snapshot()).(es := pass.es, nextId := pass.nextId) && err == pass.err
      ensures world.Valid()
    {
      world.entities := pass.es;
      world.nextId := pass.nextId;
      err := pass.err;
    }

    /** Lines 192-198 of UpdateEntities: the death check, which calls End. */
    method DeathCheck() returns (saved: Option<string>)
      requires world.Valid() && HasPlayer(world.entities)
      modifies this, world
      ensures Snapshot() == DeathStep(old(Snapshot()))
      ensures saved == if Dies(old(world.entities)) then Some(Itoa(highScore)) else None
    {
      saved := None;
      var dies := KillIfDead(world);
      if dies {
        var text := End();
        saved := Some(text);
      }
    }

    /** Lines 200-204 of UpdateEntities. */
    method NextWave(wave: Wave, o: Outside)
      requires WorldOk() && WaveFits(wave, width)
      modifies this, world
      ensures Snapshot() == WaveStep(old(Snapshot()), Board(), o, wave)
    {
      creepTimer := WaveTimer(world, Board(), creepTimer, wave, o);
    }

    method UpdateEntities(wave: Wave, o: Outside, pass: Pass) returns (err: Option<string>, saved: Option<string>)
      requires Valid() && WaveFits(wave, width) && PassOn(pass, Board())
      modifies this, world
      ensures Tick(Snapshot(), err, saved) == EntitiesScene(old(Snapshot()), Board(), o, wave, pass)
      ensures Valid()
    {
      KilledOn(pass.es, pass.nextId, Board());
      err := RunPass(pass);
      saved := DeathCheck();
      NextWave(wave, o);
    }

    /** Lines 130-135 of Update. */
    method PlayerStep(input: Input, o: Outside) returns (err: Option<string>)
      requires Valid() && HasPlayer(world.entities) && InputNamesTowers(world.entities, input) && o.Valid()
      modifies world
      ensures Tick(Snapshot(), err, None) == InputScene(old(Snapshot()), Board(), input, o)
      ensures Valid()
    {
      TheBoardIs(world.entities, Board());
      var pi := FirstWith(world.entities, PlayerTag).value;
      err := UserSpeedUpdate(world, pi, input, o.env);
    }

    /** Lines 137-146 of Update. */
    method GateStep(o: Outside, wave: Wave, pass: Pass) returns (err: Option<string>, saved: Option<string>)
      requires Valid() && HasPlayer(world.entities) && WaveFits(wave, width) && PassOn(pass, Board())
      modifies this, world
      ensures Tick(Snapshot(), err, saved) == GateScene(old(Snapshot()), Board(), o, wave, pass)
      ensures Valid()
    {
      ghost var s0 := Snapshot();
      if speed != 0 && (tickCounter as real) > (o.tps as real) / (speed as real) {
        tickCounter := 0;
        assert Snapshot() == s0.(tickCounter := 0);
        err, saved := UpdateEntities(wave, o, pass);
      } else {
        tickCounter := tickCounter + 1;
        assert Snapshot() == s0.(tickCounter := s0.tickCounter + 1);
        err, saved := None, None;
      }
    }

    /** Lines 129-150 of Update. */
    method Play(input: Input, o: Outside, wave: Wave, pass: Pass) returns (err: Option<string>, saved: Option<string>)
      requires Valid() && HasPlayer(world.entities) && InputNamesTowers(world.entities, input)
      requires o.Valid() && WaveFits(wave, width) && PassOn(pass, Board())
      modifies this, world
      ensures Tick(Snapshot(), err, saved) == PlayScene(old(Snapshot()), Board(), input, o, wave, pass)
      ensures Valid()
    {
      ghost var s0 := Snapshot();
      saved := None;
      err := PlayerStep(input, o);
      ghost var i := InputScene(s0, Board(), input, o);
      assert Snapshot() == i.scene;
      if err.None? {
        err, saved := GateStep(o, wave, pass);
        if err.None? {
          RaiseHighScore();
        }
      }
    }

    /** Line 148 of Update. */
    method RaiseHighScore()
      requires Valid() && HasPlayer(world.entities)
      modifies this
      ensures Snapshot() == RaiseScore(old(Snapshot()))
      ensures Valid()
    {
      var p := FirstWith(world.entities, PlayerTag).value;
      highScore := Scores.Max(world.entities[p].player.value.score, highScore);
    }

    method Update(keys: Keys, o: Outside, wave: Wave, pass: Pass) returns (err: Option<string>, saved: Option<string>)
      requires Valid() && o.Valid() && WaveFits(wave, width) && PassOn(pass, Board())
      requires keys.reset || gameOver || paused != keys.pause || HasPlayer(world.entities)
      requires InputNamesTowers(if keys.reset then [] else world.entities, keys.input)
      modifies this, world
      ensures Tick(Snapshot(), err, saved) == UpdateScene(old(Snapshot()), Board(), keys, o, wave, pass)
      ensures Valid()
    {
      ghost var s0 := Snapshot();
      err, saved := None, None;
      Reset(keys.reset, o);
      if gameOver {
        return;
      }
      ApplyKeys(keys);
      if paused {
        return;
      }
      NamesTowersAfterReset(s0.es, world.entities, keys.input, keys.reset);
      err, saved := Play(keys.input, o, wave, pass);
    }

    /** Lines 99-102 of Update. */
    method Reset(reset: bool, o: Outside)
      requires Valid()
      modifies this, world
      ensures Snapshot() == AfterReset(old(Snapshot()), Board(), reset, o)
      ensures Valid()
    {
      if reset {
        Clear();
        var initErr := Init(o);
      }
    }

    /** Lines 108-127 of Update. */
    method ApplyKeys(keys: Keys)
      requires Valid()
      modifies this
      ensures Snapshot() == KeysScene(old(Snapshot()), keys)
      ensures Valid()
    {
      if keys.faster {
        speed := Faster(speed);
      }
      if keys.slower {
        speed := Slower(speed);
      }
      if keys.pause {
        paused := !paused;
      }
    }
  }
}
