/**
 * The component records of the entity simulation (the Go package
 * `components`). An entity is a record of optional components; which
 * components are present decides what the entity is.
 */
module Components {
  import opened Wrappers
  import opened Geometry

  datatype VelocityData = VelocityData(x: int, y: int, blocked: bool)

  /** Health; `maxHealth` is the field later revisions add, which strategy.go reads. */
  datatype HealthData = HealthData(health: int, maxHealth: int)

  datatype AttackType = MeleeSingle | RangedSingle | MeleeArea | RangedArea

  /**
   * The attack component of components/attacks.go, with its inline cooldown
   * machine: `ticker` runs only while `inCooldown`, and a check ends the
   * cooldown once `ticker` has reached `cooldown`.
   */
  datatype AttackData = AttackData(
    power: int,
    range: int,
    cooldown: int,
    ticker: int,
    inCooldown: bool,
    attackType: AttackType)
  {
    function GetTicker(): int { ticker }

    function IncrementTicker(): (a: AttackData)
      ensures a.inCooldown == inCooldown && a.cooldown == cooldown
      ensures a.power == power && a.range == range && a.attackType == attackType
      ensures inCooldown ==> a.ticker == ticker + 1
      ensures !inCooldown ==> a == this
    {
      if inCooldown then this.(ticker := ticker + 1) else this
    }

    function CheckCooldown(): (a: AttackData)
      ensures a.cooldown == cooldown && a.power == power && a.range == range && a.attackType == attackType
      ensures ticker >= cooldown ==> a.ticker == 0 && !a.inCooldown
      ensures ticker < cooldown ==> a == this
    {
      if ticker >= cooldown then this.(ticker := 0, inCooldown := false) else this
    }

    function StartCooldown(): (a: AttackData)
      ensures a.inCooldown
      ensures a == this.(inCooldown := true)
    {
      this.(inCooldown := true)
    }
  }

  datatype CreepData = CreepData(scoreValue: int)

  datatype BulletData = BulletData(start: Point, end: Point, speed: int, creep: bool)

  datatype BulletColor = CreepBulletColor | TowerBulletColor

  datatype BulletRenderData = BulletRenderData(color: BulletColor, size: int)

  /** A sprite: the image's name and the image's bounds, which GetRect moves to the position. */
  datatype SpriteData = SpriteData(name: string, bounds: Rect)

  datatype PlayerData = PlayerData(money: int, score: int, dead: bool, towerLevels: int)

  datatype BoardInfo = BoardInfo(width: int, height: int)

  /** One entity of the world: its identity and the components attached to it. */
  datatype Entity = Entity(
    id: nat,
    pos: Option<Point>,
    vel: Option<VelocityData>,
    sprite: Option<SpriteData>,
    bulletRender: Option<BulletRenderData>,
    health: Option<HealthData>,
    attack: Option<AttackData>,
    creep: Option<CreepData>,
    tower: bool,
    level: Option<int>,
    bullet: Option<BulletData>,
    player: Option<PlayerData>,
    board: Option<BoardInfo>)

  /** An entity carrying no component yet (donburi's world.Create before SetValue). */
  function Blank(id: nat): Entity {
    Entity(id, None, None, None, None, None, None, None, false, None, None, None, None)
  }

  /** The component types that queries filter on. */
  datatype Tag = CreepTag | TowerTag | BulletTag | PlayerTag | BoardTag

  predicate HasTag(e: Entity, t: Tag) {
    match t
    case CreepTag => e.creep.Some?
    case TowerTag => e.tower
    case BulletTag => e.bullet.Some?
    case PlayerTag => e.player.Some?
    case BoardTag => e.board.Some?
  }

  /** filter.Or over filter.Contains of each tag: the entity has at least one of them. */
  predicate HasAnyTag(e: Entity, tags: set<Tag>) {
    exists t :: t in tags && HasTag(e, t)
  }

  /** A one-tag filter matches exactly the entities with that tag. */
  lemma AnyOfOne(e: Entity, t: Tag)
    ensures HasAnyTag(e, {t}) <==> HasTag(e, t)
  {
    if HasTag(e, t) {
      assert t in {t};
    }
  }

  /** The entity has what GetRect needs: a position and a sprite or a bullet render. */
  predicate HasRect(e: Entity) {
    e.pos.Some? && (e.sprite.Some? || e.bulletRender.Some?)
  }

  /**
   * What the constructors of the archetypes attach, and what the update code
   * later fetches with Get (which panics on a missing component).
   */
  predicate WellFormed(e: Entity) {
    && ((e.creep.Some? || e.tower || e.player.Some? || e.bullet.Some?) ==> HasRect(e))
    && (e.creep.Some? ==> e.vel.Some? && e.health.Some? && e.attack.Some? && e.sprite.Some?)
    && (e.bullet.Some? ==> e.attack.Some?)
    && (e.tower ==> e.health.Some? && e.level.Some?)
    && (e.player.Some? ==> e.health.Some? && e.attack.Some? && e.creep.None? && !e.tower && e.bullet.None?)
    && (e.board.Some? ==> e.creep.None? && !e.tower && e.bullet.None? && e.player.None?)
  }
}
