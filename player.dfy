/**
 * The player of components/player.go: the base entity, its money and score,
 * tower placement on the board, the guarded heal and upgrade purchases, and
 * the per-tick input and attack steps. A player is the entity at index `pi`
 * of the world; its PlayerData is the record's `player` component.
 */
module Player {
  import opened Wrappers
  import opened Geometry
  import opened Components
  import opened Entities
  import opened Strconv
  import opened Board
  import opened Towers
  import opened Attacks

  const StartingMoney: int := 500
  const StartingHealth: int := 100

  // ---------------------------------------------------------------------
  // PlayerData
  // ---------------------------------------------------------------------

  /** AddMoney: only Money changes, by exactly the amount. */
  function AddMoney(p: PlayerData, money: int): (q: PlayerData)
    ensures q.money - p.money == money
    ensures q.score == p.score && q.dead == p.dead && q.towerLevels == p.towerLevels
  {
    p.(money := p.money + money)
  }

  /** AddScore: only Score changes, by exactly the amount. */
  function AddScore(p: PlayerData, score: int): (q: PlayerData)
    ensures q.score - p.score == score
    ensures q.money == p.money && q.dead == p.dead && q.towerLevels == p.towerLevels
  {
    p.(score := p.score + score)
  }

  /** Kill: the player is dead and nothing else changes. */
  function Kill(p: PlayerData): (q: PlayerData)
    ensures q.dead
    ensures q.money == p.money && q.score == p.score && q.towerLevels == p.towerLevels
  {
    p.(dead := true)
  }

  /** A debit the Try operations make only after checking Money >= cost. */
  function Debit(p: PlayerData, cost: int): (q: PlayerData)
    requires p.money >= cost
    ensures q.money >= 0 && q.money + cost == p.money
    ensures q.score == p.score && q.dead == p.dead && q.towerLevels == p.towerLevels
  {
    p.(money := p.money - cost)
  }

  /** GetCreepLevel: one level per five tower levels, starting at 1 (the float division truncates). */
  function GetCreepLevel(p: PlayerData): (level: int)
    ensures p.towerLevels >= 0 ==> level >= 1 && 5 * (level - 1) <= p.towerLevels < 5 * level
    ensures p.towerLevels < 0 ==> level <= 1 && 5 * (level - 1) - 5 < p.towerLevels <= 5 * (level - 1)
  {
    Quo(p.towerLevels, 5) + 1
  }

  /** More tower levels never lower the creep level. */
  lemma CreepLevelMonotone(p: PlayerData, q: PlayerData)
    requires 0 <= p.towerLevels <= q.towerLevels
    ensures GetCreepLevel(p) <= GetCreepLevel(q)
  {
  }

  // ---------------------------------------------------------------------
  // NewPlayer
  // ---------------------------------------------------------------------

  /** The record NewPlayer attaches to the new entity, given the board's height and the base image's bounds. */
  function NewPlayerEntity(boardHeight: int, startingTowerLevel: int, bounds: Rect): (e: Entity)
    ensures WellFormed(e) && HasRect(e)
    ensures e.player == Some(PlayerData(StartingMoney, 0, false, startingTowerLevel))
    ensures e.pos == Some(Point(0, boardHeight - YBorderBottom))
    ensures e.health.value.health == StartingHealth
    ensures e.attack == Some(AttackData(1, 15, 10, 0, false, RangedSingle))
  {
    Blank(0).(
      pos := Some(Point(0, boardHeight - YBorderBottom)),
      player := Some(PlayerData(StartingMoney, 0, false, startingTowerLevel)),
      health := Some(HealthData(StartingHealth, StartingHealth)),
      attack := Some(AttackData(1, 15, 10, 0, false, RangedSingle)),
      sprite := Some(SpriteData("base", bounds)))
  }

  /** NewPlayer: the player entity goes last; the network registration's error is not modelled. */
  method NewPlayer(w: World, startingTowerLevel: int, bounds: Rect) returns (err: Option<string>)
    requires w.Valid() && FirstWith(w.entities, BoardTag).Some?
    modifies w
    ensures w.Valid() && err.None? && w.nextId == old(w.nextId) + 1
    ensures w.entities == old(w.entities) + [NewPlayerEntity(TheBoard(old(w.entities)).height, startingTowerLevel, bounds).(id := old(w.nextId))]
  {
    var board := TheBoard(w.entities);
    var id := w.Create(NewPlayerEntity(board.height, startingTowerLevel, bounds));
    err := None;
  }

  // ---------------------------------------------------------------------
  // PlaceTower and the Try purchases
  // ---------------------------------------------------------------------

  /**
   * What code of the game this model does not include supplies: the tower image's
   * bounds, the tower record NewTower attaches and its error, the heal and
   * upgrade costs, and whether Tower.Heal and Tower.Upgrade succeed on the
   * tower with a given id.
   */
  datatype TowerEnv = TowerEnv(
    towerBounds: Rect,
    tower: Entity,
    towerErr: Option<string>,
    healCost: int,
    upgradeCost: int,
    healOk: nat -> bool,
    upgradeOk: nat -> bool)
  {
    ghost predicate Valid() {
      tower.tower && tower.pos.Some? && WellFormed(tower)
    }
  }

  /** The tower image's rect centred on the cursor. */
  function TowerRect(bounds: Rect, x: int, y: int): (r: Rect)
    ensures Dx(r) == Dx(bounds) && Dy(r) == Dy(bounds)
    ensures bounds.min == Point(0, 0) && Dx(bounds) >= 0 ==> Dx(bounds) - 1 <= 2 * (x - r.min.x) <= Dx(bounds)
    ensures bounds.min == Point(0, 0) && Dy(bounds) >= 0 ==> Dy(bounds) - 1 <= 2 * (y - r.min.y) <= Dy(bounds)
  {
    Translate(bounds, Point(x - Quo(Dx(bounds), 2), y - Quo(Dy(bounds), 2)))
  }

  /**
   * DetectCollisionsWorld with filter.Contains(Player), read as selecting the
   * entities that block: only the Player blocks a placement. Its definition
   * is not part of this model, so this reading is an assumption.
   */
  const OnlyPlayer: Filter := Not(AnyOf({PlayerTag}))

  /** The entities that block a placement are exactly the Player sprites overlapping the rect. */
  lemma BlockedByPlayer(e: Entity, rect: Rect)
    ensures Collides(e, rect, OnlyPlayer) <==>
      HasTag(e, PlayerTag) && e.sprite.Some? && e.pos.Some? && Overlaps(rect, GetRect(e))
  {
    AnyOfOne(e, PlayerTag);
    assert MatchesFilter(e, OnlyPlayer) == !MatchesFilter(e, AnyOf({PlayerTag}));
  }

  datatype PlaceError = PlacementError(message: string) | TowerError(message: string)

  function OutOfBoundsMessage(x: int, y: int): string {
    "Invalid tower location " + Itoa(x) + ", " + Itoa(y) + ", image out of bounds"
  }

  function CollisionMessage(x: int, y: int): string {
    "Invalid tower location " + Itoa(x) + ", " + Itoa(y) + ", collision with entity"
  }

  /** The error PlaceTower returns, or none when it creates the tower. */
  ghost function PlaceResult(es: seq<Entity>, x: int, y: int, env: TowerEnv): Option<PlaceError>
    requires FirstWith(es, BoardTag).Some?
  {
    var rect := TowerRect(env.towerBounds, x, y);
    if !In(rect, Bounds(TheBoard(es))) then Some(PlacementError(OutOfBoundsMessage(x, y)))
    else if exists j :: 0 <= j < |es| && Collides(es[j], rect, OnlyPlayer) then Some(PlacementError(CollisionMessage(x, y)))
    else match env.towerErr
      case Some(m) => Some(TowerError(m))
      case None => None
  }

  /** The tower NewTower adds, at the rect's Min corner. */
  function PlacedTower(x: int, y: int, env: TowerEnv, id: nat): Entity {
    env.tower.(pos := Some(TowerRect(env.towerBounds, x, y).min), id := id)
  }

  /** Only the Player entity can block a placement: a tower or a creep in the way does not. */
  lemma OnlyPlayerBlocks(es: seq<Entity>, x: int, y: int, env: TowerEnv)
    requires FirstWith(es, BoardTag).Some?
    requires forall j :: 0 <= j < |es| ==> es[j].player.None?
    requires In(TowerRect(env.towerBounds, x, y), Bounds(TheBoard(es))) && env.towerErr.None?
    ensures PlaceResult(es, x, y, env).None?
  {
    forall j | 0 <= j < |es| ensures !Collides(es[j], TowerRect(env.towerBounds, x, y), OnlyPlayer) {
      BlockedByPlayer(es[j], TowerRect(env.towerBounds, x, y));
    }
  }

  /** A rect outside the board is refused with the out-of-bounds message, whatever else is there. */
  lemma OutOfBoundsRefused(es: seq<Entity>, x: int, y: int, env: TowerEnv)
    requires FirstWith(es, BoardTag).Some?
    requires !In(TowerRect(env.towerBounds, x, y), Bounds(TheBoard(es)))
    ensures PlaceResult(es, x, y, env) == Some(PlacementError(OutOfBoundsMessage(x, y)))
  {
  }

  /** A placement succeeds only inside the board, clear of every Player sprite, and without a NewTower error. */
  lemma PlacedMeansClear(es: seq<Entity>, x: int, y: int, env: TowerEnv)
    requires FirstWith(es, BoardTag).Some?
    requires PlaceResult(es, x, y, env).None?
    ensures In(TowerRect(env.towerBounds, x, y), Bounds(TheBoard(es))) && env.towerErr.None?
    ensures forall j :: 0 <= j < |es| && HasTag(es[j], PlayerTag) && es[j].sprite.Some? && es[j].pos.Some? ==>
      !Overlaps(TowerRect(env.towerBounds, x, y), GetRect(es[j]))
  {
    forall j | 0 <= j < |es| && HasTag(es[j], PlayerTag) && es[j].sprite.Some? && es[j].pos.Some?
      ensures !Overlaps(TowerRect(env.towerBounds, x, y), GetRect(es[j]))
    {
      BlockedByPlayer(es[j], TowerRect(env.towerBounds, x, y));
    }
  }

  /** Inside the board, a placement error means a Player sprite overlaps the rect. */
  lemma CollisionRefused(es: seq<Entity>, x: int, y: int, env: TowerEnv)
    requires FirstWith(es, BoardTag).Some?
    requires In(TowerRect(env.towerBounds, x, y), Bounds(TheBoard(es)))
    requires PlaceResult(es, x, y, env).Some? && PlaceResult(es, x, y, env).value.PlacementError?
    ensures PlaceResult(es, x, y, env) == Some(PlacementError(CollisionMessage(x, y)))
    ensures exists j ::
      0 <= j < |es| && HasTag(es[j], PlayerTag) && es[j].sprite.Some? && es[j].pos.Some? &&
      Overlaps(TowerRect(env.towerBounds, x, y), GetRect(es[j]))
  {
    var j :| 0 <= j < |es| && Collides(es[j], TowerRect(env.towerBounds, x, y), OnlyPlayer);
    BlockedByPlayer(es[j], TowerRect(env.towerBounds, x, y));
  }

  /** PlaceTower: the bounds test, the collision test, then NewTower. */
  method PlaceTower(w: World, x: int, y: int, env: TowerEnv) returns (err: Option<PlaceError>)
    requires w.Valid() && env.Valid() && FirstWith(w.entities, BoardTag).Some?
    modifies w
    ensures w.Valid()
    ensures err == PlaceResult(old(w.entities), x, y, env)
    ensures err.None? ==> w.entities == old(w.entities) + [PlacedTower(x, y, env, old(w.nextId))]
    ensures err.Some? ==> w.entities == old(w.entities) && w.nextId == old(w.nextId)
    ensures err.None? ==> w.nextId == old(w.nextId) + 1
  {
    var rect := TowerRect(env.towerBounds, x, y);
    var board := TheBoard(w.entities);
    if !In(rect, Bounds(board)) {
      return Some(PlacementError(OutOfBoundsMessage(x, y)));
    }
    var collision := DetectCollisions(w.entities, rect, OnlyPlayer);
    if collision.Some? {
      return Some(PlacementError(CollisionMessage(x, y)));
    }
    if env.towerErr.Some? {
      return Some(TowerError(env.towerErr.value));
    }
    var id := w.Create(env.tower.(pos := Some(rect.min)));
    err := None;
  }

  /** The player entity: a record carrying PlayerData. */
  ghost predicate IsPlayer(es: seq<Entity>, pi: nat) {
    pi < |es| && es[pi].player.Some?
  }

  /** A tower entity (Tower.Get panics on anything else). */
  ghost predicate IsTower(es: seq<Entity>, ti: nat) {
    ti < |es| && es[ti].tower
  }

  function WithPlayer(es: seq<Entity>, pi: nat, p: PlayerData): seq<Entity>
    requires pi < |es|
  {
    es[pi := es[pi].(player := Some(p))]
  }

  datatype PlaceOutcome = PlaceOutcome(placed: bool, err: Option<string>, after: seq<Entity>)

  /** The whole effect of TryPlaceTower with a Ranged tower's cost. */
  ghost function TryPlace(es: seq<Entity>, pi: nat, x: int, y: int, env: TowerEnv, nextId: nat): PlaceOutcome
    requires IsPlayer(es, pi) && FirstWith(es, BoardTag).Some?
  {
    var p := es[pi].player.value;
    var cost := GetCost("Ranged");
    if p.money < cost then PlaceOutcome(false, None, es)
    else match PlaceResult(es, x, y, env)
      case None => PlaceOutcome(true, None, WithPlayer(es, pi, Debit(p, cost)) + [PlacedTower(x, y, env, nextId)])
      case Some(PlacementError(_)) => PlaceOutcome(false, None, es)
      case Some(TowerError(m)) => PlaceOutcome(false, Some(m), es)
  }

  /**
   * What TryPlaceTower promises: without the money nothing happens; with it,
   * exactly the cost is debited exactly when the tower is placed; a
   * placement error is swallowed and leaves the money alone; any other error
   * is passed on.
   */
  lemma TryPlaceEffects(es: seq<Entity>, pi: nat, x: int, y: int, env: TowerEnv, nextId: nat)
    requires IsPlayer(es, pi) && FirstWith(es, BoardTag).Some? && env.Valid()
    ensures var r := TryPlace(es, pi, x, y, env, nextId);
      var money := es[pi].player.value.money;
      && (money < 50 ==> !r.placed && r.err.None? && r.after == es)
      && (r.placed <==> money >= 50 && PlaceResult(es, x, y, env).None?)
      && (r.placed ==> r.after[pi].player.value.money == money - 50 && |r.after| == |es| + 1 && r.after[|es|].tower)
      && (!r.placed ==> r.after == es)
      && (r.err.Some? <==> money >= 50 && PlaceResult(es, x, y, env).Some? && PlaceResult(es, x, y, env).value.TowerError?)
  {
    KnownCosts();
  }

  /** TryPlaceTower. */
  method TryPlaceTower(w: World, pi: nat, x: int, y: int, env: TowerEnv) returns (placed: bool, err: Option<string>)
    requires w.Valid() && env.Valid() && IsPlayer(w.entities, pi) && FirstWith(w.entities, BoardTag).Some?
    modifies w
    ensures w.Valid()
    ensures PlaceOutcome(placed, err, w.entities) == TryPlace(old(w.entities), pi, x, y, env, old(w.nextId))
    ensures !placed ==> w.nextId == old(w.nextId)
    ensures placed ==> w.nextId == old(w.nextId) + 1
  {
    placed, err := false, None;
    var p := w.entities[pi].player.value;
    var cost := GetCost("Ranged");
    if p.money >= cost {
      var e := PlaceTower(w, x, y, env);
      if e.Some? {
        if e.value.TowerError? {
          return false, Some(e.value.message);
        }
      } else {
        var rec := w.entities[pi];
        w.Put(pi, rec.(player := Some(Debit(p, cost))));
        placed := true;
      }
    }
  }

  datatype BuyOutcome = BuyOutcome(done: bool, after: seq<Entity>)

  /** The whole effect of TryHealTower: the tower's own change is Tower.Heal's and is not modelled. */
  ghost function TryHeal(es: seq<Entity>, pi: nat, ti: nat, env: TowerEnv): BuyOutcome
    requires IsPlayer(es, pi) && IsTower(es, ti)
  {
    var p := es[pi].player.value;
    if p.money >= env.healCost && env.healOk(es[ti].id) then BuyOutcome(true, WithPlayer(es, pi, Debit(p, env.healCost)))
    else BuyOutcome(false, es)
  }

  /** The whole effect of TryUpgradeTower on the player: a debit and one more tower level. */
  ghost function TryUpgrade(es: seq<Entity>, pi: nat, ti: nat, env: TowerEnv): BuyOutcome
    requires IsPlayer(es, pi) && IsTower(es, ti)
  {
    var p := es[pi].player.value;
    if p.money >= env.upgradeCost && env.upgradeOk(es[ti].id)
    then BuyOutcome(true, WithPlayer(es, pi, Debit(p, env.upgradeCost).(towerLevels := p.towerLevels + 1)))
    else BuyOutcome(false, es)
  }

  /** A heal costs exactly its price when it succeeds, never touches TowerLevels, and changes nothing when it fails. */
  lemma TryHealEffects(es: seq<Entity>, pi: nat, ti: nat, env: TowerEnv)
    requires IsPlayer(es, pi) && IsTower(es, ti)
    ensures var r := TryHeal(es, pi, ti, env); var p := es[pi].player.value;
      && (r.done <==> p.money >= env.healCost && env.healOk(es[ti].id))
      && (r.done ==> r.after[pi].player.value.money == p.money - env.healCost)
      && r.after[pi].player.value.towerLevels == p.towerLevels
      && (!r.done ==> r.after == es)
  {
  }

  /** An upgrade costs exactly its price and adds one tower level when it succeeds; on failure neither changes. */
  lemma TryUpgradeEffects(es: seq<Entity>, pi: nat, ti: nat, env: TowerEnv)
    requires IsPlayer(es, pi) && IsTower(es, ti)
    ensures var r := TryUpgrade(es, pi, ti, env); var p := es[pi].player.value;
      && (r.done <==> p.money >= env.upgradeCost && env.upgradeOk(es[ti].id))
      && (r.done ==> r.after[pi].player.value.money == p.money - env.upgradeCost)
      && (r.done ==> r.after[pi].player.value.towerLevels == p.towerLevels + 1)
      && (!r.done ==> r.after == es)
  {
  }

  /** Every debit is guarded, so no Try operation can take Money below 0. */
  lemma MoneyStaysNonNegative(es: seq<Entity>, pi: nat, ti: nat, x: int, y: int, env: TowerEnv, nextId: nat)
    requires IsPlayer(es, pi) && IsTower(es, ti) && FirstWith(es, BoardTag).Some?
    requires es[pi].player.value.money >= 0
    ensures TryPlace(es, pi, x, y, env, nextId).after[pi].player.value.money >= 0
    ensures TryHeal(es, pi, ti, env).after[pi].player.value.money >= 0
    ensures TryUpgrade(es, pi, ti, env).after[pi].player.value.money >= 0
  {
  }

  /** TryHealTower. */
  method TryHealTower(w: World, pi: nat, ti: nat, env: TowerEnv) returns (healed: bool)
    requires w.Valid() && IsPlayer(w.entities, pi) && IsTower(w.entities, ti)
    modifies w
    ensures w.Valid() && w.nextId == old(w.nextId)
    ensures BuyOutcome(healed, w.entities) == TryHeal(old(w.entities), pi, ti, env)
  {
    healed := false;
    var p := w.entities[pi].player.value;
    if p.money >= env.healCost {
      if env.healOk(w.entities[ti].id) {
        var rec := w.entities[pi];
        w.Put(pi, rec.(player := Some(Debit(p, env.healCost))));
        healed := true;
      }
    }
  }

  /** TryUpgradeTower. */
  method TryUpgradeTower(w: World, pi: nat, ti: nat, env: TowerEnv) returns (upgraded: bool)
    requires w.Valid() && IsPlayer(w.entities, pi) && IsTower(w.entities, ti)
    modifies w
    ensures w.Valid() && w.nextId == old(w.nextId)
    ensures BuyOutcome(upgraded, w.entities) == TryUpgrade(old(w.entities), pi, ti, env)
  {
    upgraded := false;
    var p := w.entities[pi].player.value;
    if p.money >= env.upgradeCost {
      if env.upgradeOk(w.entities[ti].id) {
        var q := Debit(p, env.upgradeCost);
        var rec := w.entities[pi];
        w.Put(pi, rec.(player := Some(q.(towerLevels := q.towerLevels + 1))));
        upgraded := true;
      }
    }
  }

  // ---------------------------------------------------------------------
  // The per-tick steps
  // ---------------------------------------------------------------------

  /**
   * This tick's input: a left click at the cursor, or H or U with the index
   * of the tower under the cursor that findTower (not part of this model)
   * found, if any.
   */
  datatype Input = NoInput | LeftClick(x: int, y: int) | HealKey(tower: Option<nat>) | UpgradeKey(tower: Option<nat>)

  /** A tower index the input names is a tower. */
  ghost predicate InputNamesTowers(es: seq<Entity>, input: Input) {
    match input
    case HealKey(Some(ti)) => IsTower(es, ti)
    case UpgradeKey(Some(ti)) => IsTower(es, ti)
    case _ => true
  }

  /** The world, the next id and the error after an input step. */
  datatype Stepped = Stepped(after: seq<Entity>, nextId: nat, err: Option<string>)

  /** The whole effect of UserSpeedUpdate. */
  ghost function InputStep(es: seq<Entity>, pi: nat, input: Input, env: TowerEnv, nextId: nat): Stepped
    requires IsPlayer(es, pi) && FirstWith(es, BoardTag).Some? && InputNamesTowers(es, input)
  {
    if es[pi].player.value.dead then Stepped(es, nextId, None)
    else match input
      case LeftClick(x, y) =>
        var r := TryPlace(es, pi, x, y, env, nextId);
        Stepped(r.after, if r.placed then nextId + 1 else nextId, r.err)
      case HealKey(Some(ti)) => Stepped(TryHeal(es, pi, ti, env).after, nextId, None)
      case UpgradeKey(Some(ti)) => Stepped(TryUpgrade(es, pi, ti, env).after, nextId, None)
      case _ => Stepped(es, nextId, None)
  }

  /**
   * `after` keeps every record of `es` in place with its board and with its
   * player component present or absent as before; any record it adds is
   * neither a board nor a player.
   */
  ghost predicate KeepsTags(es: seq<Entity>, after: seq<Entity>) {
    && |es| <= |after|
    && (forall i :: 0 <= i < |es| ==> after[i].board == es[i].board && after[i].player.Some? == es[i].player.Some?)
    && (forall i :: |es| <= i < |after| ==> after[i].board.None? && after[i].player.None?)
  }

  lemma KeepsTagsTrans(a: seq<Entity>, b: seq<Entity>, c: seq<Entity>)
    requires KeepsTags(a, b) && KeepsTags(b, c)
    ensures KeepsTags(a, c)
  {
  }

  /** An input step keeps the world well formed, and keeps its tags: at most a tower is added. */
  lemma InputStepKeeps(es: seq<Entity>, pi: nat, input: Input, env: TowerEnv, nextId: nat)
    requires IsPlayer(es, pi) && FirstWith(es, BoardTag).Some? && InputNamesTowers(es, input)
    requires IdsOrdered(es, nextId) && AllWellFormed(es) && env.Valid()
    ensures var r := InputStep(es, pi, input, env, nextId);
      IdsOrdered(r.after, r.nextId) && AllWellFormed(r.after) && KeepsTags(es, r.after)
  {
    if es[pi].player.value.dead {
    } else if input.LeftClick? {
      TryPlaceKeeps(es, pi, input.x, input.y, env, nextId);
    } else if input.HealKey? && input.tower.Some? {
      TryHealKeeps(es, pi, input.tower.value, env, nextId);
    } else if input.UpgradeKey? && input.tower.Some? {
      TryUpgradeKeeps(es, pi, input.tower.value, env, nextId);
    }
  }

  lemma TryPlaceKeeps(es: seq<Entity>, pi: nat, x: int, y: int, env: TowerEnv, nextId: nat)
    requires IsPlayer(es, pi) && FirstWith(es, BoardTag).Some?
    requires IdsOrdered(es, nextId) && AllWellFormed(es) && env.Valid()
    ensures var t := TryPlace(es, pi, x, y, env, nextId);
      IdsOrdered(t.after, if t.placed then nextId + 1 else nextId) && AllWellFormed(t.after) && KeepsTags(es, t.after)
  {
    var t := TryPlace(es, pi, x, y, env, nextId);
    if t.placed {
      var p := es[pi].player.value;
      var q := WithPlayer(es, pi, Debit(p, GetCost("Ranged")));
      assert t.after == q + [PlacedTower(x, y, env, nextId)];
      WithPlayerKeeps(es, pi, Debit(p, GetCost("Ranged")), nextId);
      AppendTowerKeeps(q, PlacedTower(x, y, env, nextId), nextId);
      KeepsTagsTrans(es, q, t.after);
    } else {
      assert t.after == es;
    }
  }

  lemma TryHealKeeps(es: seq<Entity>, pi: nat, ti: nat, env: TowerEnv, nextId: nat)
    requires IsPlayer(es, pi) && IsTower(es, ti) && IdsOrdered(es, nextId) && AllWellFormed(es)
    ensures var t := TryHeal(es, pi, ti, env);
      IdsOrdered(t.after, nextId) && AllWellFormed(t.after) && KeepsTags(es, t.after)
  {
    var p := es[pi].player.value;
    if p.money >= env.healCost && env.healOk(es[ti].id) {
      WithPlayerKeeps(es, pi, Debit(p, env.healCost), nextId);
    }
  }

  lemma TryUpgradeKeeps(es: seq<Entity>, pi: nat, ti: nat, env: TowerEnv, nextId: nat)
    requires IsPlayer(es, pi) && IsTower(es, ti) && IdsOrdered(es, nextId) && AllWellFormed(es)
    ensures var t := TryUpgrade(es, pi, ti, env);
      IdsOrdered(t.after, nextId) && AllWellFormed(t.after) && KeepsTags(es, t.after)
  {
    var p := es[pi].player.value;
    if p.money >= env.upgradeCost && env.upgradeOk(es[ti].id) {
      WithPlayerKeeps(es, pi, Debit(p, env.upgradeCost).(towerLevels := p.towerLevels + 1), nextId);
    }
  }

  /** Rewriting the player's PlayerData keeps the world well formed and every record's tags. */
  lemma WithPlayerKeeps(es: seq<Entity>, pi: nat, p: PlayerData, nextId: nat)
    requires IsPlayer(es, pi) && IdsOrdered(es, nextId) && AllWellFormed(es)
    ensures var r := WithPlayer(es, pi, p);
      IdsOrdered(r, nextId) && AllWellFormed(r) && KeepsTags(es, r) && |r| == |es|
  {
    assert WellFormed(es[pi]);
  }

  /** A new tower under the next id keeps the world well formed; it is neither a board nor a player. */
  lemma AppendTowerKeeps(es: seq<Entity>, t: Entity, nextId: nat)
    requires IdsOrdered(es, nextId) && AllWellFormed(es) && WellFormed(t) && t.tower && t.id == nextId
    ensures IdsOrdered(es + [t], nextId + 1) && AllWellFormed(es + [t]) && KeepsTags(es, es + [t])
  {
  }

  /** UserSpeedUpdate: the input step; a dead player's step does nothing. */
  method UserSpeedUpdate(w: World, pi: nat, input: Input, env: TowerEnv) returns (err: Option<string>)
    requires w.Valid() && env.Valid() && IsPlayer(w.entities, pi) && FirstWith(w.entities, BoardTag).Some?
    requires InputNamesTowers(w.entities, input)
    modifies w
    ensures w.Valid()
    ensures old(w.entities[pi].player.value.dead) ==> w.entities == old(w.entities) && err.None?
    ensures !old(w.entities[pi].player.value.dead) ==>
      match input
      case LeftClick(x, y) =>
        var r := TryPlace(old(w.entities), pi, x, y, env, old(w.nextId));
        w.entities == r.after && err == r.err
      case HealKey(Some(ti)) => w.entities == TryHeal(old(w.entities), pi, ti, env).after && err.None?
      case UpgradeKey(Some(ti)) => w.entities == TryUpgrade(old(w.entities), pi, ti, env).after && err.None?
      case _ => w.entities == old(w.entities) && err.None?
    ensures Stepped(w.entities, w.nextId, err) == InputStep(old(w.entities), pi, input, env, old(w.nextId))
  {
    err := None;
    if w.entities[pi].player.value.dead {
      return;
    }
    match input {
      case LeftClick(x, y) =>
        var placed;
        placed, err := TryPlaceTower(w, pi, x, y, env);
      case HealKey(t) =>
        if t.Some? {
          var healed := TryHealTower(w, pi, t.value, env);
        }
      case UpgradeKey(t) =>
        if t.Some? {
          var upgraded := TryUpgradeTower(w, pi, t.value, env);
        }
      case NoInput =>
    }
  }

  /** GameSpeedUpdate: the base makes one ranged attack step against Creeps. */
  method GameSpeedUpdate(w: World, pi: nat, lead: LeadFn) returns (target: Option<nat>)
    requires w.Valid() && IsPlayer(w.entities, pi)
    modifies w
    ensures w.Valid()
    ensures WellFormed(old(w.entities)[pi]) && EnemiesHaveRects(old(w.entities), {CreepTag})
    ensures RangeResult(target, w.entities) == RangeAttack(old(w.entities), pi, {CreepTag}, lead, old(w.nextId))
  {
    WellFormedEnemies(w.entities, {CreepTag});
    target := AttackEnemyRange(w, pi, {CreepTag}, lead);
  }
}
