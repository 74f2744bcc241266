/**
 * BulletData.Update of components/bullets.go: a bullet that would leave the
 * board disappears; otherwise it makes an intersect attack on its target
 * type, removes itself after a hit, and moves on when it did not hit.
 * The float step towards the end point is an input: `next` is (newX, newY).
 */
module BulletMotion {
  import opened Wrappers
  import opened Geometry
  import opened Components
  import opened Entities
  import opened Board
  import opened Bullets
  import opened Attacks

  /** The enemies of a bullet: Towers for a creep's bullet, Creeps for a tower's. */
  function Targets(creep: bool): set<Tag> {
    if creep then {TowerTag} else {CreepTag}
  }

  /** The bounds test of Update: inclusive on all four sides. */
  predicate OnBoard(p: Point, b: BoardInfo) {
    0 <= p.x <= b.width && 0 <= p.y <= b.height
  }

  datatype Flight = Expired | Flew(strike: Strike)

  datatype FlightResult = FlightResult(flight: Flight, after: seq<Entity>)

  /** The whole effect of one bullet Update on the world's records. */
  function Fly(es: seq<Entity>, i: nat, next: Point): FlightResult
    requires AllWellFormed(es) && i < |es| && es[i].bullet.Some? && FirstWith(es, BoardTag).Some?
  {
    if !OnBoard(next, TheBoard(es)) then FlightResult(Expired, RemoveAt(es, i))
    else
      var targets := Targets(es[i].bullet.value.creep);
      WellFormedEnemies(es, targets);
      var r := IntersectAttack(es, i, targets);
      if r.outcome.Struck() then FlightResult(Flew(r.outcome), Without(r.after, es[i].id))
      else FlightResult(Flew(r.outcome), r.after[i := r.after[i].(pos := Some(next))])
  }

  /**
   * What bullet Update promises: off the board the bullet is removed and no
   * attack is made; on the board the attack is the intersect attack on the
   * bullet's own target type; a hit leaves the records of that attack with
   * the bullet removed, so it damages at most one target once; otherwise the
   * bullet takes its cooldown step without firing, sits at the new position,
   * and nothing but it changes.
   */
  lemma FlyEffects(es: seq<Entity>, nextId: nat, i: nat, p: Point)
    requires IdsOrdered(es, nextId) && AllWellFormed(es)
    requires i < |es| && es[i].bullet.Some? && FirstWith(es, BoardTag).Some?
    requires var targets := if es[i].bullet.value.creep then {TowerTag} else {CreepTag};
      EnemiesHaveRects(es, targets) && EnemiesHaveHealth(es, targets)
    ensures var r := Fly(es, i, p);
      var targets := if es[i].bullet.value.creep then {TowerTag} else {CreepTag};
      && (r.flight.Expired? <==> !OnBoard(p, TheBoard(es)))
      && (r.flight.Expired? ==> r.after == RemoveAt(es, i) && |r.after| == |es| - 1 && IndexOf(r.after, es[i].id).None?)
      && (r.flight.Flew? ==> r.flight.strike == IntersectAttack(es, i, targets).outcome)
      && (r.flight.Flew? && r.flight.strike.Struck() ==>
            r.after == Without(IntersectAttack(es, i, targets).after, es[i].id) && IndexOf(r.after, es[i].id).None?)
      && (r.flight.Flew? && !r.flight.strike.Struck() ==>
            |r.after| == |es|
            && r.after[i] == es[i].(attack := Some(AfterCall(es[i].attack.value, false)), pos := Some(p))
            && forall j :: 0 <= j < |es| && j != i ==> r.after[j] == es[j])
  {
    if OnBoard(p, TheBoard(es)) {
      var targets := Targets(es[i].bullet.value.creep);
      WellFormedEnemies(es, targets);
      var r := IntersectAttack(es, i, targets);
      if r.outcome.Struck() {
        assert Fly(es, i, p) == FlightResult(Flew(r.outcome), Without(r.after, es[i].id));
        StrikeKeepsIds(es, i, targets, nextId);
        NoIdAfterRemove(r.after, es[i].id, nextId);
      } else {
        IntersectAttackEffects(es, i, targets);
        assert Fly(es, i, p) == FlightResult(Flew(r.outcome), r.after[i := r.after[i].(pos := Some(p))]);
      }
    } else {
      assert Fly(es, i, p) == FlightResult(Expired, RemoveAt(es, i));
      IndexOfOrdered(es, i, nextId);
      NoIdAfterRemove(es, es[i].id, nextId);
    }
  }

  /** An intersect attack keeps the ids increasing. */
  lemma StrikeKeepsIds(es: seq<Entity>, i: nat, enemies: set<Tag>, next: nat)
    requires IdsOrdered(es, next) && AllWellFormed(es)
    requires CanAttack(es, i) && EnemiesHaveRects(es, enemies) && EnemiesHaveHealth(es, enemies)
    ensures IdsOrdered(IntersectAttack(es, i, enemies).after, next)
  {
    var e := es[i];
    var a := e.attack.value;
    if a.CheckCooldown().GetTicker() != 0 {
      SameIdKeeps(es, i, e.(attack := Some(AfterCall(a, false))), next);
    } else {
      match FirstTouch(es, GetExpandedRect(e), enemies, 0)
      case None =>
        SameIdKeeps(es, i, e.(attack := Some(AfterCall(a, false))), next);
      case Some(k) =>
        var updated := es[i := e.(attack := Some(AfterCall(a, true)))];
        SameIdKeeps(es, i, e.(attack := Some(AfterCall(a, true))), next);
        var remaining := es[k].health.value.health - a.power;
        if remaining <= 0 {
          assert WellFormed(updated[i]);
          RemoveAtKeeps(updated, k, next);
        } else {
          SameIdKeeps(updated, k, updated[k].(health := Some(es[k].health.value.(health := remaining))), next);
        }
    }
  }

  /** BulletData.Update. */
  method Update(w: World, i: nat, next: Point) returns (f: Flight)
    requires w.Valid() && i < |w.entities| && w.entities[i].bullet.Some?
    requires FirstWith(w.entities, BoardTag).Some?
    modifies w
    ensures w.Valid() && w.nextId == old(w.nextId)
    ensures FlightResult(f, w.entities) == Fly(old(w.entities), i, next)
  {
    var e := w.entities[i];
    var board := TheBoard(w.entities);
    if !OnBoard(next, board) {
      IndexOfOrdered(w.entities, i, w.nextId);
      w.Remove(e.id);
      return Expired;
    }
    var targets := if e.bullet.value.creep then {TowerTag} else {CreepTag};
    WellFormedEnemies(w.entities, targets);
    var s := AttackEnemyIntersect(w, i, targets);
    if s.Struck() {
      AfterBulletAttack(w, e.id);
    } else {
      var b := w.entities[i];
      w.Put(i, b.(pos := Some(next)));
    }
    f := Flew(s);
  }
}
