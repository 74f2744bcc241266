/**
 * Targeting and combat of components/attacks.go. An attack call is made for
 * the entity at index `i` of the world; the enemy types are a set of tags
 * (callers pass one type or several, which the query joins with an Or).
 * Callbacks become the returned outcome, which the caller acts on.
 */
module Attacks {
  import opened Wrappers
  import opened Geometry
  import opened Components
  import opened Entities
  import opened Bullets

  /** Every entity of an enemy type has what GetRect needs (Render.Get panics otherwise). */
  ghost predicate EnemiesHaveRects(es: seq<Entity>, enemies: set<Tag>) {
    forall k :: 0 <= k < |es| && HasAnyTag(es[k], enemies) ==> HasRect(es[k])
  }

  /** Every entity of an enemy type carries Health (Health.Get panics otherwise). */
  ghost predicate EnemiesHaveHealth(es: seq<Entity>, enemies: set<Tag>) {
    forall k :: 0 <= k < |es| && HasAnyTag(es[k], enemies) ==> es[k].health.Some?
  }

  /** In a well-formed world, creeps, towers and the player all have a rect and health. */
  lemma WellFormedEnemies(es: seq<Entity>, enemies: set<Tag>)
    requires AllWellFormed(es) && enemies <= {CreepTag, TowerTag, PlayerTag}
    ensures EnemiesHaveRects(es, enemies) && EnemiesHaveHealth(es, enemies)
  {
    forall k | 0 <= k < |es| && HasAnyTag(es[k], enemies)
      ensures HasRect(es[k]) && es[k].health.Some?
    {
      var t :| t in enemies && HasTag(es[k], t);
      assert WellFormed(es[k]);
    }
  }

  /** The entities an attack can be made for: they have a rect and an attack. */
  ghost predicate CanAttack(es: seq<Entity>, i: nat) {
    i < |es| && HasRect(es[i]) && es[i].attack.Some?
  }

  /** GetExpandedRect: the render rectangle grown by Range on every side. */
  function GetExpandedRect(e: Entity): (r: Rect)
    requires HasRect(e) && e.attack.Some?
    ensures r.min == Sub(GetRect(e).min, Point(e.attack.value.range, e.attack.value.range))
    ensures r.max == Add(GetRect(e).max, Point(e.attack.value.range, e.attack.value.range))
    ensures Dx(r) == Dx(GetRect(e)) + 2 * e.attack.value.range
    ensures Dy(r) == Dy(GetRect(e)) + 2 * e.attack.value.range
  {
    var rect := GetRect(e);
    var ptRange := Point(e.attack.value.range, e.attack.value.range);
    Rect(Sub(rect.min, ptRange), Add(rect.max, ptRange))
  }

  // ---------------------------------------------------------------------
  // The cooldown gate shared by both attack kinds
  // ---------------------------------------------------------------------

  /** An attack call fires when the ticker is 0 after CheckCooldown and a target is found. */
  predicate Fires(a: AttackData, found: bool) {
    a.CheckCooldown().GetTicker() == 0 && found
  }

  /** The attack component after one call: check, start the cooldown on firing, then tick. */
  function AfterCall(a: AttackData, found: bool): (b: AttackData)
    ensures b.power == a.power && b.range == a.range && b.cooldown == a.cooldown
    ensures Fires(a, found) ==> b.inCooldown && b.ticker == 1
    ensures !Fires(a, found) ==> b == a.CheckCooldown().IncrementTicker()
  {
    var c := a.CheckCooldown();
    (if Fires(a, found) then c.StartCooldown() else c).IncrementTicker()
  }

  /** A freshly built attack: ticker 0 and not in cooldown. */
  function Fresh(power: int, range: int, cooldown: int, t: AttackType): AttackData {
    AttackData(power, range, cooldown, 0, false, t)
  }

  /** `n` attack calls with a target present at each search, and the number that fired. */
  function Run(a: AttackData, n: nat): (AttackData, nat)
    decreases n
  {
    if n == 0 then (a, 0)
    else
      var (b, fired) := Run(a, n - 1);
      (AfterCall(b, true), if Fires(b, true) then fired + 1 else fired)
  }

  /**
   * With a target always present and Cooldown >= 1, the k-th call leaves the
   * ticker in 1..Cooldown and fires * Cooldown == k + Cooldown - ticker: so
   * the attack fires on calls 1, 1 + Cooldown, 1 + 2 Cooldown, ... and the
   * ticker never exceeds Cooldown.
   */
  lemma {:induction false} FiringCycle(a: AttackData, n: nat)
    requires a.ticker == 0 && !a.inCooldown && a.cooldown >= 1
    requires n >= 1
    ensures var (b, fired) := Run(a, n);
      && b.inCooldown && 1 <= b.ticker <= a.cooldown && b.cooldown == a.cooldown
      && fired * a.cooldown == n + a.cooldown - b.ticker
  {
    if n == 1 {
      assert Run(a, 0) == (a, 0);
    } else {
      FiringCycle(a, n - 1);
      var (b, fired) := Run(a, n - 1);
      if b.ticker >= b.cooldown {
        assert Fires(b, true);
        assert (fired + 1) * a.cooldown == fired * a.cooldown + a.cooldown;
      } else {
        assert !Fires(b, true);
      }
    }
  }

  /** The number of firings in n >= 1 calls is the ceiling of n / Cooldown. */
  lemma FiringCount(a: AttackData, n: nat)
    requires a.ticker == 0 && !a.inCooldown && a.cooldown >= 1
    requires n >= 1
    ensures (Run(a, n).1 - 1) * a.cooldown < n <= Run(a, n).1 * a.cooldown
  {
    FiringCycle(a, n);
    var (b, fired) := Run(a, n);
    assert (fired - 1) * a.cooldown == fired * a.cooldown - a.cooldown;
  }

  /** The debug figure of a reachable attack is never negative. */
  lemma DebugCooldownNonNegative(a: AttackData, n: nat)
    requires a.ticker == 0 && !a.inCooldown && a.cooldown >= 1
    ensures DebugCooldown(Run(a, n).0) >= 0
  {
    if n >= 1 {
      FiringCycle(a, n);
    }
  }

  // ---------------------------------------------------------------------
  // FindEnemyRange
  // ---------------------------------------------------------------------

  /** The square of the Dx + Dy bound; a non-positive bound admits nothing. */
  function BoundSq(aRect: Rect): (b: int)
    ensures b >= 0
    ensures Dx(aRect) + Dy(aRect) <= 0 ==> b == 0
  {
    var s := Dx(aRect) + Dy(aRect);
    if s > 0 then s * s else 0
  }

  /** The squared midpoint distance from the attack rect to the k-th entity. */
  function Dist(es: seq<Entity>, aRect: Rect, k: nat): int
    requires k < |es| && HasRect(es[k])
  {
    DistanceRectsSq(aRect, GetRect(es[k]))
  }

  /** A candidate of FindEnemyRange: an enemy overlapping the attack rect and inside the bound. */
  predicate InRange(es: seq<Entity>, aRect: Rect, enemies: set<Tag>, k: nat) {
    && k < |es| && HasAnyTag(es[k], enemies) && HasRect(es[k])
    && Overlaps(aRect, GetRect(es[k]))
    && Dist(es, aRect, k) < BoundSq(aRect)
  }

  /**
   * Among the first n entities, k is a candidate no farther than any other,
   * and strictly nearer than every earlier candidate: the closest, with the
   * earliest winning a tie.
   */
  ghost predicate IsClosest(es: seq<Entity>, aRect: Rect, enemies: set<Tag>, n: nat, k: nat)
    requires n <= |es|
  {
    && k < n && InRange(es, aRect, enemies, k)
    && (forall j :: 0 <= j < n && InRange(es, aRect, enemies, j) ==> Dist(es, aRect, k) <= Dist(es, aRect, j))
    && (forall j :: 0 <= j < k && InRange(es, aRect, enemies, j) ==> Dist(es, aRect, k) < Dist(es, aRect, j))
  }

  /** At most one entity is the closest. */
  lemma ClosestUnique(es: seq<Entity>, aRect: Rect, enemies: set<Tag>, n: nat, k1: nat, k2: nat)
    requires n <= |es|
    requires IsClosest(es, aRect, enemies, n, k1) && IsClosest(es, aRect, enemies, n, k2)
    ensures k1 == k2
  {
  }

  /** One more entity that is a candidate strictly nearer than the previous closest one becomes the closest. */
  lemma ClosestNew(es: seq<Entity>, aRect: Rect, enemies: set<Tag>, n: nat, prev: Option<nat>)
    requires 1 <= n <= |es|
    requires prev.None? ==> forall j :: 0 <= j < n - 1 ==> !InRange(es, aRect, enemies, j)
    requires prev.Some? ==> IsClosest(es, aRect, enemies, n - 1, prev.value)
    requires InRange(es, aRect, enemies, n - 1)
    requires prev.None? || Dist(es, aRect, n - 1) < Dist(es, aRect, prev.value)
    ensures IsClosest(es, aRect, enemies, n, n - 1)
  {
    var k := n - 1;
    forall j | 0 <= j < k && InRange(es, aRect, enemies, j)
      ensures Dist(es, aRect, k) < Dist(es, aRect, j)
    {
      assert Dist(es, aRect, prev.value) <= Dist(es, aRect, j);
    }
  }

  /** One more entity that is not such a candidate leaves the closest one as it was. */
  lemma ClosestKept(es: seq<Entity>, aRect: Rect, enemies: set<Tag>, n: nat, prev: Option<nat>)
    requires 1 <= n <= |es|
    requires prev.None? <==> forall j :: 0 <= j < n - 1 ==> !InRange(es, aRect, enemies, j)
    requires prev.Some? ==> IsClosest(es, aRect, enemies, n - 1, prev.value)
    requires !(InRange(es, aRect, enemies, n - 1) && (prev.None? || Dist(es, aRect, n - 1) < Dist(es, aRect, prev.value)))
    ensures prev.None? <==> forall j :: 0 <= j < n ==> !InRange(es, aRect, enemies, j)
    ensures prev.Some? ==> IsClosest(es, aRect, enemies, n, prev.value)
  {
  }

  /** The closest candidate among the first n entities, or none when there is no candidate. */
  function ClosestUpTo(es: seq<Entity>, aRect: Rect, enemies: set<Tag>, n: nat): (r: Option<nat>)
    requires n <= |es|
    ensures r.None? <==> forall j :: 0 <= j < n ==> !InRange(es, aRect, enemies, j)
    ensures r.Some? ==> IsClosest(es, aRect, enemies, n, r.value)
    decreases n
  {
    if n == 0 then None
    else
      var prev := ClosestUpTo(es, aRect, enemies, n - 1);
      if InRange(es, aRect, enemies, n - 1) && (prev.None? || Dist(es, aRect, n - 1) < Dist(es, aRect, prev.value))
      then ClosestNew(es, aRect, enemies, n, prev); Some(n - 1)
      else ClosestKept(es, aRect, enemies, n, prev); prev
  }

  /**
   * FindEnemyRange: the closest enemy whose rect overlaps the expanded rect
   * and whose distance is below Dx + Dy of that rect. Nothing changes.
   */
  method FindEnemyRange(es: seq<Entity>, i: nat, enemies: set<Tag>) returns (found: Option<nat>)
    requires CanAttack(es, i) && EnemiesHaveRects(es, enemies)
    ensures found == ClosestUpTo(es, GetExpandedRect(es[i]), enemies, |es|)
    ensures found.None? <==> forall j :: 0 <= j < |es| ==> !InRange(es, GetExpandedRect(es[i]), enemies, j)
    ensures found.Some? ==> IsClosest(es, GetExpandedRect(es[i]), enemies, |es|, found.value)
  {
    var aRect := GetExpandedRect(es[i]);
    var minDist := BoundSq(aRect);
    found := None;
    var k := 0;
    while k < |es|
      invariant 0 <= k <= |es|
      invariant found == ClosestUpTo(es, aRect, enemies, k)
      invariant found.None? ==> minDist == BoundSq(aRect)
      invariant found.Some? ==> found.value < k && minDist == Dist(es, aRect, found.value)
    {
      if HasAnyTag(es[k], enemies) {
        var eRect := GetRect(es[k]);
        var dist := DistanceRectsSq(aRect, eRect);
        if Overlaps(aRect, eRect) && dist < minDist {
          minDist := dist;
          found := Some(k);
        }
      }
      k := k + 1;
    }
  }

  // ---------------------------------------------------------------------
  // FindEnemyIntersect
  // ---------------------------------------------------------------------

  predicate Touches(es: seq<Entity>, rect: Rect, enemies: set<Tag>, k: nat) {
    k < |es| && HasAnyTag(es[k], enemies) && HasRect(es[k]) && Overlaps(rect, GetRect(es[k]))
  }

  /** The first enemy in query order whose rect overlaps `rect`. */
  function FirstTouch(es: seq<Entity>, rect: Rect, enemies: set<Tag>, from: nat): (r: Option<nat>)
    requires from <= |es|
    ensures r.None? <==> forall j :: from <= j < |es| ==> !Touches(es, rect, enemies, j)
    ensures r.Some? ==> from <= r.value < |es| && Touches(es, rect, enemies, r.value)
    ensures r.Some? ==> forall j :: from <= j < r.value ==> !Touches(es, rect, enemies, j)
    decreases |es| - from
  {
    if from == |es| then None
    else if Touches(es, rect, enemies, from) then Some(from)
    else FirstTouch(es, rect, enemies, from + 1)
  }

  /** FindEnemyIntersect: the first enemy overlapping the expanded rect, with no distance test. */
  method FindEnemyIntersect(es: seq<Entity>, i: nat, enemies: set<Tag>) returns (found: Option<nat>)
    requires CanAttack(es, i) && EnemiesHaveRects(es, enemies)
    ensures found == FirstTouch(es, GetExpandedRect(es[i]), enemies, 0)
    ensures found.None? <==> forall j :: 0 <= j < |es| ==> !Touches(es, GetExpandedRect(es[i]), enemies, j)
    ensures found.Some? ==> Touches(es, GetExpandedRect(es[i]), enemies, found.value)
    ensures found.Some? ==> forall j :: 0 <= j < found.value ==> !Touches(es, GetExpandedRect(es[i]), enemies, j)
  {
    var rect := GetExpandedRect(es[i]);
    found := None;
    var k := 0;
    while k < |es|
      invariant 0 <= k <= |es|
      invariant found.None? ==> forall j :: 0 <= j < k ==> !Touches(es, rect, enemies, j)
      invariant found.Some? ==> found.value < k && Touches(es, rect, enemies, found.value)
      invariant found.Some? ==> forall j :: 0 <= j < found.value ==> !Touches(es, rect, enemies, j)
    {
      if found.None? && HasAnyTag(es[k], enemies) {
        var eRect := GetRect(es[k]);
        if Overlaps(rect, eRect) {
          found := Some(k);
        }
      }
      k := k + 1;
    }
    FirstTouchIsFirst(es, rect, enemies, found);
  }

  /** Any index that touches with no earlier touching index is the FirstTouch result. */
  lemma FirstTouchIsFirst(es: seq<Entity>, rect: Rect, enemies: set<Tag>, found: Option<nat>)
    requires found.None? <==> forall j :: 0 <= j < |es| ==> !Touches(es, rect, enemies, j)
    requires found.Some? ==> Touches(es, rect, enemies, found.value)
    requires found.Some? ==> forall j :: 0 <= j < found.value ==> !Touches(es, rect, enemies, j)
    ensures found == FirstTouch(es, rect, enemies, 0)
  {
  }

  // ---------------------------------------------------------------------
  // LaunchBullet and AttackEnemyRange
  // ---------------------------------------------------------------------

  /** The float lead-aim offset, given the start, the end and the target's Y velocity. */
  type LeadFn = (Point, Point, int) -> int

  datatype Path = Path(start: Point, end: Point)

  /** The integer part of LaunchBullet: from the firer's midpoint towards the target's midpoint. */
  function BulletPath(shooter: Entity, target: Entity, lead: LeadFn): (p: Path)
    requires HasRect(shooter) && HasRect(target)
    ensures p.start == MidpointRect(GetRect(shooter))
    ensures p.end.x == MidpointRect(GetRect(target)).x
    ensures (target.vel.None? || target.vel.value.blocked) ==> p.end == MidpointRect(GetRect(target))
    ensures target.vel.Some? && !target.vel.value.blocked ==>
      p.end.y == MidpointRect(GetRect(target)).y + lead(p.start, MidpointRect(GetRect(target)), target.vel.value.y)
  {
    var start := MidpointRect(GetRect(shooter));
    var end := MidpointRect(GetRect(target));
    if target.vel.Some? && !target.vel.value.blocked
    then Path(start, end.(y := end.y + lead(start, end, target.vel.value.y)))
    else Path(start, end)
  }

  /** The bullet LaunchBullet appends: a creep's bullet exactly when the target is a Tower. */
  function LaunchedBullet(shooter: Entity, target: Entity, lead: LeadFn, id: nat): (b: Entity)
    requires HasRect(shooter) && HasRect(target)
    ensures b.id == id && b.bullet.Some? && b.bullet.value.creep == target.tower
    ensures b.pos == Some(MidpointRect(GetRect(shooter)))
    ensures b.bullet.value.end == BulletPath(shooter, target, lead).end
  {
    var p := BulletPath(shooter, target, lead);
    NewBulletEntity(p.start, p.end, target.tower).(id := id)
  }

  /** LaunchBullet: one new bullet entity; the shot sound is not modelled. */
  method LaunchBullet(w: World, i: nat, k: nat, lead: LeadFn)
    requires w.Valid() && i < |w.entities| && k < |w.entities|
    requires HasRect(w.entities[i]) && HasRect(w.entities[k])
    modifies w
    ensures w.Valid() && w.nextId == old(w.nextId) + 1
    ensures w.entities == old(w.entities) + [LaunchedBullet(old(w.entities)[i], old(w.entities)[k], lead, old(w.nextId))]
  {
    var p := BulletPath(w.entities[i], w.entities[k], lead);
    NewBullet(w, p.start, p.end, w.entities[k].tower);
  }

  datatype RangeResult = RangeResult(target: Option<nat>, after: seq<Entity>)

  /** The whole effect of one AttackEnemyRange call on the world's records. */
  function RangeAttack(es: seq<Entity>, i: nat, enemies: set<Tag>, lead: LeadFn, nextId: nat): RangeResult
    requires CanAttack(es, i) && EnemiesHaveRects(es, enemies)
  {
    var e := es[i];
    var a := e.attack.value;
    var target := if a.CheckCooldown().GetTicker() == 0 then ClosestUpTo(es, GetExpandedRect(e), enemies, |es|) else None;
    var updated := es[i := e.(attack := Some(AfterCall(a, target.Some?)))];
    match target
    case None => RangeResult(None, updated)
    case Some(k) => RangeResult(target, updated + [LaunchedBullet(e, es[k], lead, nextId)])
  }

  /**
   * What AttackEnemyRange promises: at most one new record, a bullet, added
   * exactly when the call fires; firing starts the cooldown; a target is only
   * looked for when the ticker is 0 after CheckCooldown; every other record
   * stays as it was.
   */
  lemma RangeAttackEffects(es: seq<Entity>, i: nat, enemies: set<Tag>, lead: LeadFn, nextId: nat)
    requires CanAttack(es, i) && EnemiesHaveRects(es, enemies)
    ensures var r := RangeAttack(es, i, enemies, lead, nextId);
      var a := es[i].attack.value;
      && (r.target.Some? <==> Fires(a, ClosestUpTo(es, GetExpandedRect(es[i]), enemies, |es|).Some?))
      && (r.target.Some? ==> IsClosest(es, GetExpandedRect(es[i]), enemies, |es|, r.target.value))
      && (r.target.Some? ==> |r.after| == |es| + 1 && r.after[|es|].bullet.Some? && r.after[|es|].id == nextId)
      && (r.target.Some? ==> r.after[i].attack.value.inCooldown)
      && (r.target.None? ==> |r.after| == |es|)
      && (forall j :: 0 <= j < |es| && j != i ==> r.after[j] == es[j])
      && r.after[i] == es[i].(attack := r.after[i].attack)
  {
  }

  /** AttackEnemyRange: the cooldown gate, the closest-enemy search and the launch. */
  method AttackEnemyRange(w: World, i: nat, enemies: set<Tag>, lead: LeadFn) returns (target: Option<nat>)
    requires w.Valid() && CanAttack(w.entities, i) && EnemiesHaveRects(w.entities, enemies)
    modifies w
    ensures w.Valid()
    ensures w.nextId == old(w.nextId) + (if target.Some? then 1 else 0)
    ensures RangeResult(target, w.entities) == RangeAttack(old(w.entities), i, enemies, lead, old(w.nextId))
  {
    var e := w.entities[i];
    var a := e.attack.value.CheckCooldown();
    target := None;
    if a.GetTicker() == 0 {
      target := FindEnemyRange(w.entities, i, enemies);
    }
    var es := w.entities;
    w.Put(i, e.(attack := Some(AfterCall(e.attack.value, target.Some?))));
    if target.Some? {
      var k := target.value;
      var p := BulletPath(e, es[k], lead);
      NewBullet(w, p.start, p.end, es[k].tower);
    }
  }

  // ---------------------------------------------------------------------
  // AttackEnemyIntersect
  // ---------------------------------------------------------------------

  /** How an intersect attack ended; `target` indexes the records before the call. */
  datatype Strike = Cooling | Missed | Hit(target: nat, remaining: int) | Killed(target: nat)
  {
    predicate Struck() { Hit? || Killed? }
  }

  datatype StrikeResult = StrikeResult(outcome: Strike, after: seq<Entity>)

  /** The whole effect of one AttackEnemyIntersect call on the world's records. */
  function IntersectAttack(es: seq<Entity>, i: nat, enemies: set<Tag>): (r: StrikeResult)
    requires CanAttack(es, i) && EnemiesHaveRects(es, enemies) && EnemiesHaveHealth(es, enemies)
  {
    var e := es[i];
    var a := e.attack.value;
    if a.CheckCooldown().GetTicker() != 0 then
      StrikeResult(Cooling, es[i := e.(attack := Some(AfterCall(a, false)))])
    else match FirstTouch(es, GetExpandedRect(e), enemies, 0)
      case None => StrikeResult(Missed, es[i := e.(attack := Some(AfterCall(a, false)))])
      case Some(k) =>
        var updated := es[i := e.(attack := Some(AfterCall(a, true)))];
        var remaining := es[k].health.value.health - a.power;
        if remaining <= 0 then StrikeResult(Killed(k), RemoveAt(updated, k))
        else StrikeResult(Hit(k, remaining), updated[k := updated[k].(health := Some(es[k].health.value.(health := remaining)))])
  }

  /**
   * What AttackEnemyIntersect promises: the first overlapping enemy loses
   * Power health and keeps the rest when that is positive, and is removed
   * otherwise; the cooldown starts only when a target was found.
   */
  lemma IntersectAttackEffects(es: seq<Entity>, i: nat, enemies: set<Tag>)
    requires CanAttack(es, i) && EnemiesHaveRects(es, enemies) && EnemiesHaveHealth(es, enemies)
    ensures var r := IntersectAttack(es, i, enemies);
      var a := es[i].attack.value;
      var rect := GetExpandedRect(es[i]);
      && (r.outcome == Cooling <==> a.CheckCooldown().GetTicker() != 0)
      && (r.outcome == Missed <==> a.CheckCooldown().GetTicker() == 0 && forall j :: 0 <= j < |es| ==> !Touches(es, rect, enemies, j))
      && (r.outcome.Struck() ==>
            Touches(es, rect, enemies, r.outcome.target)
            && forall j :: 0 <= j < r.outcome.target ==> !Touches(es, rect, enemies, j))
      && (r.outcome.Hit? ==>
            r.outcome.remaining == es[r.outcome.target].health.value.health - a.power > 0
            && |r.after| == |es| && r.after[r.outcome.target].health.value.health == r.outcome.remaining)
      && (r.outcome.Killed? ==> es[r.outcome.target].health.value.health - a.power <= 0 && |r.after| == |es| - 1)
      && (!r.outcome.Struck() ==> r.after == es[i := es[i].(attack := Some(a.CheckCooldown().IncrementTicker()))])
  {
  }

  /**
   * The records around a strike: a hit leaves every record but the
   * attacker's and the target's as it was; a kill drops the target and keeps
   * every other record in order; in both the attacker (unless it was the
   * target) now carries the attack after a call that found its target.
   */
  lemma StrikeKeepsOthers(es: seq<Entity>, i: nat, enemies: set<Tag>)
    requires CanAttack(es, i) && EnemiesHaveRects(es, enemies) && EnemiesHaveHealth(es, enemies)
    ensures var r := IntersectAttack(es, i, enemies);
      var fired := es[i].(attack := Some(AfterCall(es[i].attack.value, true)));
      && (r.outcome.Hit? ==>
            var k := r.outcome.target;
            && (forall j :: 0 <= j < |es| && j != k && j != i ==> r.after[j] == es[j])
            && (k != i ==> r.after[i] == fired))
      && (r.outcome.Killed? ==>
            var k := r.outcome.target;
            && k < |es|
            && (forall j :: 0 <= j < |es| && j != k && j != i ==> r.after[if j < k then j else j - 1] == es[j])
            && (k != i ==> r.after[if i < k then i else i - 1] == fired))
  {
    var e := es[i];
    var a := e.attack.value;
    var fired := e.(attack := Some(AfterCall(a, true)));
    if a.CheckCooldown().GetTicker() == 0 {
      var hit := FirstTouch(es, GetExpandedRect(e), enemies, 0);
      if hit.Some? {
        var k := hit.value;
        var remaining := es[k].health.value.health - a.power;
        if remaining <= 0 {
          RemoveAfterUpdate(es, i, fired, k);
        } else {
          UpdateTwice(es, i, fired, k, es[i := fired][k].(health := Some(es[k].health.value.(health := remaining))));
        }
      }
    }
  }

  /** Removing record k after replacing record i shifts every other record by one past k. */
  lemma RemoveAfterUpdate(es: seq<Entity>, i: nat, e: Entity, k: nat)
    requires i < |es| && k < |es|
    ensures var r := RemoveAt(es[i := e], k);
      && (forall j :: 0 <= j < |es| && j != k && j != i ==> r[if j < k then j else j - 1] == es[j])
      && (k != i ==> r[if i < k then i else i - 1] == e)
  {
  }

  /** Replacing records i and then k leaves every other record as it was. */
  lemma UpdateTwice(es: seq<Entity>, i: nat, e: Entity, k: nat, f: Entity)
    requires i < |es| && k < |es|
    ensures var r := es[i := e][k := f];
      && (forall j :: 0 <= j < |es| && j != k && j != i ==> r[j] == es[j])
      && (k != i ==> r[i] == e)
  {
  }

  /** With increasing ids, a killed target's id is no longer in the world. */
  lemma KilledTargetGone(es: seq<Entity>, i: nat, enemies: set<Tag>, next: nat)
    requires IdsOrdered(es, next)
    requires CanAttack(es, i) && EnemiesHaveRects(es, enemies) && EnemiesHaveHealth(es, enemies)
    requires IntersectAttack(es, i, enemies).outcome.Killed?
    ensures var r := IntersectAttack(es, i, enemies);
      IndexOf(r.after, es[r.outcome.target].id).None?
  {
    var r := IntersectAttack(es, i, enemies);
    var k := r.outcome.target;
    StrikeKeepsOthers(es, i, enemies);
    forall j | 0 <= j < |r.after| ensures r.after[j].id != es[k].id {
      var src := if j < k then j else j + 1;
      assert r.after[j].id == es[src].id;
    }
  }

  /** A struck target other than the attacker keeps everything but its health. */
  lemma HitChangesOnlyHealth(es: seq<Entity>, i: nat, enemies: set<Tag>)
    requires CanAttack(es, i) && EnemiesHaveRects(es, enemies) && EnemiesHaveHealth(es, enemies)
    requires IntersectAttack(es, i, enemies).outcome.Hit?
    ensures var r := IntersectAttack(es, i, enemies);
      var k := r.outcome.target;
      k != i ==> r.after[k] == es[k].(health := r.after[k].health) && r.after[k].health.value.maxHealth == es[k].health.value.maxHealth
  {
  }

  /** AttackEnemyIntersect: the cooldown gate, the first-overlap search and the damage. */
  method AttackEnemyIntersect(w: World, i: nat, enemies: set<Tag>) returns (s: Strike)
    requires w.Valid() && CanAttack(w.entities, i)
    requires EnemiesHaveRects(w.entities, enemies) && EnemiesHaveHealth(w.entities, enemies)
    modifies w
    ensures w.Valid() && w.nextId == old(w.nextId)
    ensures StrikeResult(s, w.entities) == IntersectAttack(old(w.entities), i, enemies)
  {
    var e := w.entities[i];
    var a := e.attack.value;
    if a.CheckCooldown().GetTicker() != 0 {
      w.Put(i, e.(attack := Some(AfterCall(a, false))));
      return Cooling;
    }
    var enemy := FindEnemyIntersect(w.entities, i, enemies);
    if enemy.None? {
      w.Put(i, e.(attack := Some(AfterCall(a, false))));
      return Missed;
    }
    var k := enemy.value;
    var target := w.entities[k];
    var remaining := target.health.value.health - a.power;
    w.Put(i, e.(attack := Some(AfterCall(a, true))));
    if remaining <= 0 {
      IndexOfOrdered(w.entities, k, w.nextId);
      w.Remove(w.entities[k].id);
      s := Killed(k);
    } else {
      var victim := w.entities[k];
      w.Put(k, victim.(health := Some(target.health.value.(health := remaining))));
      s := Hit(k, remaining);
    }
  }

  /** With increasing ids, looking up the k-th record's id finds index k. */
  lemma IndexOfOrdered(es: seq<Entity>, k: nat, next: nat)
    requires IdsOrdered(es, next) && k < |es|
    ensures IndexOf(es, es[k].id) == Some(k)
  {
    assert forall j :: 0 <= j < |es| && j != k ==> es[j].id != es[k].id;
  }
}
