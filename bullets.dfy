/** Bullet construction of components/bullets.go: the bullet record and its render data. */
module Bullets {
  import opened Wrappers
  import opened Geometry
  import opened Components
  import opened Entities

  /** NewBulletRender: creep bullets are red and 3 px, tower bullets green and 4 px. */
  function NewBulletRender(creep: bool): (r: BulletRenderData)
    ensures creep ==> r.color == CreepBulletColor && r.size == 3
    ensures !creep ==> r.color == TowerBulletColor && r.size == 4
  {
    if creep then BulletRenderData(CreepBulletColor, 3) else BulletRenderData(TowerBulletColor, 4)
  }

  /** The record NewBullet attaches (before the world assigns its id). */
  function NewBulletEntity(start: Point, end: Point, creep: bool): (e: Entity)
    ensures WellFormed(e) && HasRect(e)
    ensures e.pos == Some(start) && e.vel == Some(VelocityData(0, 0, false))
    ensures e.attack == Some(AttackData(1, 1, 30, 0, false, RangedSingle))
    ensures e.bullet == Some(BulletData(start, end, 4, creep))
    ensures e.bulletRender == Some(NewBulletRender(creep)) && e.sprite.None?
    ensures e.creep.None? && !e.tower && e.player.None? && e.health.None?
    ensures GetRect(e) == Rect(start, Point(start.x + NewBulletRender(creep).size, start.y + NewBulletRender(creep).size))
  {
    Blank(0).(
      pos := Some(start),
      vel := Some(VelocityData(0, 0, false)),
      bulletRender := Some(NewBulletRender(creep)),
      attack := Some(AttackData(1, 1, 30, 0, false, RangedSingle)),
      bullet := Some(BulletData(start, end, 4, creep)))
  }

  /** NewBullet: one new bullet entity at the end of the world. */
  method NewBullet(w: World, start: Point, end: Point, creep: bool)
    requires w.Valid()
    modifies w
    ensures w.Valid() && w.nextId == old(w.nextId) + 1
    ensures w.entities == old(w.entities) + [NewBulletEntity(start, end, creep).(id := old(w.nextId))]
  {
    var id := w.Create(NewBulletEntity(start, end, creep));
  }

  /** AfterBulletAttack: the bullet removes itself. */
  method AfterBulletAttack(w: World, bulletId: nat)
    requires w.Valid()
    modifies w
    ensures w.Valid() && w.nextId == old(w.nextId)
    ensures IndexOf(w.entities, bulletId).None?
    ensures w.entities == Without(old(w.entities), bulletId)
  {
    NoIdAfterRemove(w.entities, bulletId, w.nextId);
    w.Remove(bulletId);
  }

  /** The records without the one carrying this id. */
  function Without(es: seq<Entity>, id: nat): seq<Entity> {
    match IndexOf(es, id)
    case None => es
    case Some(k) => RemoveAt(es, k)
  }

  /** With increasing ids, removing the record with an id leaves no record with it. */
  lemma NoIdAfterRemove(es: seq<Entity>, id: nat, next: nat)
    requires IdsOrdered(es, next)
    ensures IndexOf(Without(es, id), id).None?
  {
    if IndexOf(es, id).None? {
      return;
    }
    var k := IndexOf(es, id).value;
    var r := RemoveAt(es, k);
    forall i | 0 <= i < |r| ensures r[i].id != id {
      if i < k { assert r[i] == es[i]; } else { assert r[i] == es[i + 1]; }
    }
  }
}
