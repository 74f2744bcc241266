/**
 * The creeps of components/creeps.go: their spawn stats, and the per-tick
 * step that moves a creep by its velocity unless the way is blocked and
 * then makes a ranged attack on Towers and the Player.
 */
module Creeps {
  import opened Wrappers
  import opened Geometry
  import opened Components
  import opened Entities
  import opened Strconv
  import opened Attacks

  /** bigCreepChance: a draw below 0.3 makes a big creep. */
  const BigCreepChance: real := 0.3

  /** The augment of a creep: 2 for a big one, 1 otherwise. */
  function Augment(roll: real): int {
    if roll < BigCreepChance then 2 else 1
  }

  /**
   * The record NewCreep attaches, before the world assigns its id. `roll` is
   * the rand.Float32 draw, `pick` the rand.Intn(3) draw, `bounds` the bounds
   * of the chosen sprite image.
   */
  function NewCreepEntity(x: int, y: int, roll: real, pick: int, bounds: Rect): (e: Entity)
    requires 0 <= pick < 3
    ensures WellFormed(e) && e.pos == Some(Point(x, y)) && e.creep.Some?
    ensures !e.tower && e.player.None? && e.bullet.None? && e.board.None?
    ensures e.attack.Some? && !e.attack.value.inCooldown && e.attack.value.ticker == 0
    ensures e.attack.value.attackType == RangedSingle && e.sprite.value.bounds == bounds
    ensures roll < 0.3 ==>
      && e.vel == Some(VelocityData(0, 3, false)) && e.creep.value.scoreValue == 20
      && e.health.value.health == 5 && e.attack.value.power == 6
      && e.attack.value.range == 30 && e.attack.value.cooldown == 15
      && e.sprite.value.name == "creep4"
    ensures roll >= 0.3 ==>
      && e.vel == Some(VelocityData(0, 4, false)) && e.creep.value.scoreValue == 10
      && e.health.value.health == 3 && e.attack.value.power == 4
      && e.attack.value.range == 20 && e.attack.value.cooldown == 10
      && e.sprite.value.name in {"creep1", "creep2", "creep3"}
  {
    var augment := Augment(roll);
    var choose := if roll < BigCreepChance then 4 else 1 + pick;
    assert "creep" + Itoa(1) == "creep1" && "creep" + Itoa(2) == "creep2";
    assert "creep" + Itoa(3) == "creep3" && "creep" + Itoa(4) == "creep4";
    Blank(0).(
      pos := Some(Point(x, y)),
      vel := Some(VelocityData(0, 5 - augment, false)),
      sprite := Some(SpriteData("creep" + Itoa(choose), bounds)),
      creep := Some(CreepData(10 * augment)),
      health := Some(HealthData(1 + 2 * augment, 0)),
      attack := Some(AttackData(2 + 2 * augment, 10 + 10 * augment, 5 + 5 * augment, 0, false, RangedSingle)))
  }

  /** NewCreep: one new creep entity at the end of the world. */
  method NewCreep(w: World, x: int, y: int, roll: real, pick: int, bounds: Rect) returns (id: nat)
    requires w.Valid() && 0 <= pick < 3
    modifies w
    ensures w.Valid() && id == old(w.nextId) && w.nextId == old(w.nextId) + 1
    ensures w.entities == old(w.entities) + [NewCreepEntity(x, y, roll, pick, bounds).(id := id)]
  {
    id := w.Create(NewCreepEntity(x, y, roll, pick, bounds));
  }

  /** The exclude filter of the move test: creeps and bullets never block a creep. */
  const CreepOrBullet: Filter := AnyOf({CreepTag, BulletTag})

  /** The creep's rect shifted by its velocity. */
  function ShiftedRect(e: Entity): Rect
    requires HasRect(e) && e.vel.Some?
  {
    Translate(GetRect(e), Point(e.vel.value.x, e.vel.value.y))
  }

  /** The shifted rect would overlap a sprite that is neither a creep nor a bullet. */
  ghost predicate Blocked(es: seq<Entity>, i: nat)
    requires i < |es| && HasRect(es[i]) && es[i].vel.Some?
  {
    exists j :: 0 <= j < |es| && Collides(es[j], ShiftedRect(es[i]), CreepOrBullet)
  }

  /** The creep after the move test: moved by its velocity unless blocked, and the flag set. */
  ghost function Moved(es: seq<Entity>, i: nat): (e: Entity)
    requires i < |es| && es[i].creep.Some? && WellFormed(es[i])
    ensures WellFormed(e) && e.id == es[i].id
  {
    var e := es[i];
    var v := e.vel.value;
    var blocked := Blocked(es, i);
    e.(pos := if blocked then e.pos else Some(Add(e.pos.value, Point(v.x, v.y))),
       vel := Some(v.(blocked := blocked)))
  }

  /** The whole effect of one creep Update on the world's records. */
  ghost function Step(es: seq<Entity>, i: nat, lead: LeadFn, nextId: nat): RangeResult
    requires AllWellFormed(es) && i < |es| && es[i].creep.Some?
  {
    var moved := es[i := Moved(es, i)];
    WellFormedEnemies(moved, {TowerTag, PlayerTag});
    RangeAttack(moved, i, {TowerTag, PlayerTag}, lead, nextId)
  }

  /**
   * What the move test promises: the creep moves by exactly its velocity
   * when the shifted rect hits no sprite other than creeps and bullets, and
   * stays put otherwise; the blocked flag records which happened; nothing
   * else about the creep changes.
   */
  lemma MoveOrBlock(es: seq<Entity>, i: nat)
    requires i < |es| && es[i].creep.Some? && WellFormed(es[i])
    ensures var e := es[i]; var m := Moved(es, i); var v := e.vel.value;
      && (m.vel.value.blocked <==> exists j :: 0 <= j < |es| && Collides(es[j], ShiftedRect(e), CreepOrBullet))
      && (!m.vel.value.blocked ==> m.pos.value == Point(e.pos.value.x + v.x, e.pos.value.y + v.y))
      && (m.vel.value.blocked ==> m.pos == e.pos)
      && m == e.(pos := m.pos, vel := Some(v.(blocked := m.vel.value.blocked)))
  {
  }

  /** Other creeps and bullets in the way never block a creep. */
  lemma CreepsNeverBlock(es: seq<Entity>, i: nat)
    requires i < |es| && es[i].creep.Some? && WellFormed(es[i])
    requires forall j :: 0 <= j < |es| && es[j].creep.None? && es[j].bullet.None? ==> es[j].sprite.None?
    ensures !Moved(es, i).vel.value.blocked
  {
    forall j | 0 <= j < |es|
      ensures !Collides(es[j], ShiftedRect(es[i]), CreepOrBullet)
    {
      if es[j].creep.Some? {
        assert HasTag(es[j], CreepTag);
      } else if es[j].bullet.Some? {
        assert HasTag(es[j], BulletTag);
      }
    }
  }

  /** CreepData.Update: the move test, then one ranged attack step against Towers and the Player. */
  method Update(w: World, i: nat, lead: LeadFn) returns (target: Option<nat>)
    requires w.Valid() && i < |w.entities| && w.entities[i].creep.Some?
    modifies w
    ensures w.Valid()
    ensures RangeResult(target, w.entities) == Step(old(w.entities), i, lead, old(w.nextId))
  {
    var e := w.entities[i];
    var v := e.vel.value;
    var newPt := Point(v.x, v.y);
    var rect := Translate(GetRect(e), newPt);
    var collision := DetectCollisions(w.entities, rect, CreepOrBullet);
    var moved := if collision.None? then e.(pos := Some(Add(e.pos.value, newPt))) else e;
    w.Put(i, moved.(vel := Some(v.(blocked := collision.Some?))));
    WellFormedEnemies(w.entities, {TowerTag, PlayerTag});
    target := AttackEnemyRange(w, i, {TowerTag, PlayerTag}, lead);
  }
}
