/**
 * The entity store and the queries of components/entity.go and
 * components/base.go. The world is an insertion-ordered sequence of entity
 * records; a query visits them in that order, and removing an entity deletes
 * its record.
 */
module Entities {
  import opened Wrappers
  import opened Geometry
  import opened Components

  /** Entity ids are handed out in increasing order and never reused. */
  ghost predicate IdsOrdered(es: seq<Entity>, next: nat) {
    && (forall i, j :: 0 <= i < j < |es| ==> es[i].id < es[j].id)
    && (forall i :: 0 <= i < |es| ==> es[i].id < next)
  }

  ghost predicate AllWellFormed(es: seq<Entity>) {
    forall i :: 0 <= i < |es| ==> WellFormed(es[i])
  }

  /** The sequence without its k-th record. */
  function RemoveAt(es: seq<Entity>, k: nat): (r: seq<Entity>)
    requires k < |es|
    ensures |r| == |es| - 1
    ensures forall i :: 0 <= i < k ==> r[i] == es[i]
    ensures forall i :: k <= i < |r| ==> r[i] == es[i + 1]
  {
    es[..k] + es[k + 1..]
  }

  /** Replacing a record by one under the same id keeps the ids increasing. */
  lemma SameIdKeeps(es: seq<Entity>, k: nat, e: Entity, next: nat)
    requires k < |es| && IdsOrdered(es, next) && e.id == es[k].id
    ensures IdsOrdered(es[k := e], next)
  {
    var r := es[k := e];
    assert forall j :: 0 <= j < |es| ==> r[j].id == es[j].id;
  }

  lemma RemoveAtKeeps(es: seq<Entity>, k: nat, next: nat)
    requires k < |es| && IdsOrdered(es, next) && AllWellFormed(es)
    ensures IdsOrdered(RemoveAt(es, k), next) && AllWellFormed(RemoveAt(es, k))
  {
    var r := RemoveAt(es, k);
    forall i, j | 0 <= i < j < |r| ensures r[i].id < r[j].id {
      var i', j' := if i < k then i else i + 1, if j < k then j else j + 1;
      assert r[i] == es[i'] && r[j] == es[j'];
    }
    forall i | 0 <= i < |r| ensures r[i].id < next && WellFormed(r[i]) {
      assert r[i] == es[if i < k then i else i + 1];
    }
  }

  /** The index of the record with the given id, if it is still in the world. */
  function IndexOf(es: seq<Entity>, id: nat): (r: Option<nat>)
    ensures r.Some? ==> r.value < |es| && es[r.value].id == id
    ensures r.None? <==> forall i :: 0 <= i < |es| ==> es[i].id != id
  {
    if es == [] then None
    else if es[0].id == id then Some(0)
    else match IndexOf(es[1..], id)
      case None => None
      case Some(k) => Some(k + 1)
  }

  /** Component.MustFirst: the first entity in query order that has the tag. */
  function FirstWith(es: seq<Entity>, t: Tag): (r: Option<nat>)
    ensures r.None? <==> forall i :: 0 <= i < |es| ==> !HasTag(es[i], t)
    ensures r.Some? ==> r.value < |es| && HasTag(es[r.value], t)
    ensures r.Some? ==> forall j :: 0 <= j < r.value ==> !HasTag(es[j], t)
  {
    if es == [] then None
    else if HasTag(es[0], t) then Some(0)
    else match FirstWith(es[1..], t)
      case None => None
      case Some(k) => Some(k + 1)
  }

  class World {
    var entities: seq<Entity>
    var nextId: nat

    ghost predicate Valid()
      reads this
    {
      IdsOrdered(entities, nextId) && AllWellFormed(entities)
    }

    /** donburi.NewWorld */
    constructor ()
      ensures Valid() && entities == [] && nextId == 0
    {
      entities := [];
      nextId := 0;
    }

    /** world.Create followed by the SetValue calls: the record goes last, under a fresh id. */
    method Create(e: Entity) returns (id: nat)
      requires Valid() && WellFormed(e)
      modifies this
      ensures Valid()
      ensures id == old(nextId) && nextId == old(nextId) + 1
      ensures entities == old(entities) + [e.(id := id)]
    {
      id := nextId;
      entities := entities + [e.(id := id)];
      nextId := nextId + 1;
    }

    /** entry.Remove: the record with this id leaves the world; the others keep their order. */
    method Remove(id: nat)
      requires Valid()
      modifies this
      ensures Valid() && nextId == old(nextId)
      ensures IndexOf(old(entities), id).None? ==> entities == old(entities)
      ensures IndexOf(old(entities), id).Some? ==> entities == RemoveAt(old(entities), IndexOf(old(entities), id).value)
    {
      var k := IndexOf(entities, id);
      if k.Some? {
        RemoveAtKeeps(entities, k.value, nextId);
        entities := RemoveAt(entities, k.value);
      }
    }

    /** Writing components of an entity in place: the record keeps its id and position. */
    method Put(i: nat, e: Entity)
      requires Valid() && i < |entities| && e.id == entities[i].id && WellFormed(e)
      modifies this
      ensures Valid() && nextId == old(nextId)
      ensures entities == old(entities)[i := e]
    {
      entities := entities[i := e];
    }
  }

  /**
   * GetRect of components/base.go: the sprite's bounds moved to the position,
   * else the bullet's square at the position. An entity with neither panics in
   * the source, which here is the precondition.
   */
  function GetRect(e: Entity): (r: Rect)
    requires HasRect(e)
    ensures e.sprite.Some? ==> r.min == Add(e.sprite.value.bounds.min, e.pos.value)
    ensures e.sprite.Some? ==> Dx(r) == Dx(e.sprite.value.bounds) && Dy(r) == Dy(e.sprite.value.bounds)
    ensures e.sprite.None? && e.bulletRender.value.size >= 0 ==> r.min == e.pos.value
    ensures e.sprite.None? ==> Dx(r) == Abs(e.bulletRender.value.size) && Dy(r) == Abs(e.bulletRender.value.size)
  {
    if e.sprite.Some? then Translate(e.sprite.value.bounds, e.pos.value)
    else BulletRect(e.pos.value, e.bulletRender.value)
  }

  /** BulletRenderData.GetRect: image.Rect(pos, pos + size), a square of side size. */
  function BulletRect(pos: Point, r: BulletRenderData): (rect: Rect)
    ensures r.size >= 0 ==> rect.min == pos
    ensures Dx(rect) == Abs(r.size) && Dy(rect) == Abs(r.size)
  {
    MakeRect(pos.x, pos.y, pos.x + r.size, pos.y + r.size)
  }

  /** An exclude filter: the tags of filter.Contains / CreateOrFilter, or the negation of a filter. */
  datatype Filter = AnyOf(tags: set<Tag>) | Not(inner: Filter)

  predicate MatchesFilter(e: Entity, f: Filter) {
    match f
    case AnyOf(tags) => HasAnyTag(e, tags)
    case Not(g) => !MatchesFilter(e, g)
  }

  /**
   * The entities the collision query visits: those with a sprite and a
   * position that the exclude filter does not match, whose rectangle
   * overlaps the probe.
   */
  predicate Collides(e: Entity, rect: Rect, exclude: Filter) {
    e.sprite.Some? && e.pos.Some? && !MatchesFilter(e, exclude) && Overlaps(rect, GetRect(e))
  }

  /**
   * DetectCollisions (components/entity.go and components/base.go): the first
   * entity in query order that collides with the probe, or none. It changes
   * nothing.
   */
  method DetectCollisions(es: seq<Entity>, rect: Rect, exclude: Filter) returns (collision: Option<nat>)
    ensures collision.None? <==> forall i :: 0 <= i < |es| ==> !Collides(es[i], rect, exclude)
    ensures collision.Some? ==> collision.value < |es| && Collides(es[collision.value], rect, exclude)
    ensures collision.Some? ==> forall j :: 0 <= j < collision.value ==> !Collides(es[j], rect, exclude)
  {
    collision := None;
    var i := 0;
    while i < |es|
      invariant 0 <= i <= |es|
      invariant collision.None? ==> forall j :: 0 <= j < i ==> !Collides(es[j], rect, exclude)
      invariant collision.Some? ==> collision.value < i && Collides(es[collision.value], rect, exclude)
      invariant collision.Some? ==> forall j :: 0 <= j < collision.value ==> !Collides(es[j], rect, exclude)
    {
      if collision.None? {
        var e := es[i];
        if e.sprite.Some? && e.pos.Some? && !MatchesFilter(e, exclude) {
          var testRect := GetRect(e);
          if Overlaps(rect, testRect) {
            collision := Some(i);
          }
        }
      }
      i := i + 1;
    }
  }

  /** An entity excluded by the filter is never reported, even when it overlaps. */
  lemma ExcludedNeverCollides(e: Entity, rect: Rect, exclude: Filter)
    requires MatchesFilter(e, exclude)
    ensures !Collides(e, rect, exclude)
  {
  }

  /** Only entities with both a sprite and a position are collision candidates. */
  lemma OnlySpritesCollide(e: Entity, rect: Rect, exclude: Filter)
    requires e.sprite.None? || e.pos.None?
    ensures !Collides(e, rect, exclude)
  {
  }

  /** The debug figure of InfoRenderData.Draw: ticks left while in cooldown, 0 otherwise. */
  function DebugCooldown(a: AttackData): (cd: int)
    ensures !a.inCooldown ==> cd == 0
    ensures a.inCooldown ==> cd + a.GetTicker() == a.cooldown
  {
    if a.inCooldown then a.cooldown - a.GetTicker() else 0
  }
}
