/**
 * The computer player of strategy/strategy.go: seven tower lanes across the
 * middle row of the board, the choice of the most damaged and of the least
 * upgraded tower, and the per-tick policy that makes at most one successful
 * purchase: a tower below a creep, an upgrade or a heal, or a tower on the
 * second row.
 *
 * Each Try call of the policy is an `Action`. A failed Try changes nothing,
 * so every Try of one call sees the world the call started from, and the
 * policy is the list of actions it would try (`Plan`) pursued until the
 * first one that succeeds or reports an error (`Pursue`).
 */
module Strategy {
  import opened Wrappers
  import opened Geometry
  import opened Components
  import opened Entities
  import opened Strconv
  import opened Board
  import opened Player

  const TowersPerRow: int := 7
  const TowerWidth: int := 48
  const HalfTowerWidth: int := TowerWidth / 2
  const LaneSpacing: int := 44

  // ---------------------------------------------------------------------
  // Lanes
  // ---------------------------------------------------------------------

  /** The centre of lane i: half a tower in, then a tower and a gap per lane. */
  function LaneX(i: int): int {
    HalfTowerWidth + i * (TowerWidth + LaneSpacing)
  }

  /** The package-level lanes, as makeLanes fills them. */
  const Lanes: seq<int> := [24, 116, 208, 300, 392, 484, 576]

  lemma LanesClosedForm()
    ensures |Lanes| == TowersPerRow
    ensures forall i :: 0 <= i < |Lanes| ==> Lanes[i] == LaneX(i)
  {
  }

  /** makeLanes: the first lane at half a tower, each next one a tower width and a gap further. */
  method MakeLanes() returns (lanes: array<int>)
    ensures fresh(lanes) && lanes.Length == TowersPerRow
    ensures forall i :: 0 <= i < lanes.Length ==> lanes[i] == LaneX(i)
    ensures lanes[..] == Lanes
  {
    lanes := new int[TowersPerRow];
    lanes[0] := HalfTowerWidth;
    var i := 1;
    while i < lanes.Length
      invariant 1 <= i <= lanes.Length
      invariant forall j :: 0 <= j < i ==> lanes[j] == LaneX(j)
    {
      lanes[i] := lanes[i - 1] + TowerWidth + LaneSpacing;
      i := i + 1;
    }
    LanesClosedForm();
  }

  predicate NearLane(x: int, lane: int) {
    Abs(x - lane) < TowerWidth
  }

  /** The first lane within a tower width of x. */
  function FirstNear(lanes: seq<int>, x: int): (r: Option<nat>)
    ensures r.None? <==> forall k :: 0 <= k < |lanes| ==> !NearLane(x, lanes[k])
    ensures r.Some? ==> r.value < |lanes| && NearLane(x, lanes[r.value])
    ensures r.Some? ==> forall k :: 0 <= k < r.value ==> !NearLane(x, lanes[k])
  {
    if lanes == [] then None
    else if NearLane(x, lanes[0]) then Some(0)
    else match FirstNear(lanes[1..], x)
      case None => None
      case Some(k) => Some(k + 1)
  }

  /** findLane: the first lane within a tower width of x, or -1. */
  method FindLane(lanes: seq<int>, x: int) returns (lane: int)
    ensures FirstNear(lanes, x).None? ==> lane == -1
    ensures FirstNear(lanes, x).Some? ==> lane == lanes[FirstNear(lanes, x).value]
  {
    for k := 0 to |lanes|
      invariant forall j :: 0 <= j < k ==> !NearLane(x, lanes[j])
    {
      if Abs(x - lanes[k]) < TowerWidth {
        return lanes[k];
      }
    }
    return -1;
  }

  /** The lanes cover exactly the x range from half a tower left of the board to just past the last lane. */
  lemma LanesCoverRow(x: int)
    ensures FirstNear(Lanes, x).Some? <==> -HalfTowerWidth < x < LaneX(TowersPerRow - 1) + TowerWidth
  {
    LanesClosedForm();
    if -HalfTowerWidth < x < LaneX(TowersPerRow - 1) + TowerWidth {
      var q := (x + 22) / 92;
      var k := if q < 0 then 0 else if q > 6 then 6 else q;
      assert NearLane(x, Lanes[k]);
    } else {
      forall k | 0 <= k < |Lanes| ensures !NearLane(x, Lanes[k]) {
        assert 24 <= Lanes[k] <= 576;
      }
    }
  }

  /** No lane is -1, so findLane's -1 means exactly that no lane is near. */
  lemma LanesPositive()
    ensures forall i :: 0 <= i < |Lanes| ==> Lanes[i] >= HalfTowerWidth
  {
    LanesClosedForm();
  }

  // ---------------------------------------------------------------------
  // The Creep-or-Tower query, split into towers and creeps
  // ---------------------------------------------------------------------

  /** The indices of the towers among the first n records, in query order. */
  function TowersUpTo(es: seq<Entity>, n: nat): (ts: seq<nat>)
    requires n <= |es|
    ensures forall k :: 0 <= k < |ts| ==> ts[k] < n && es[ts[k]].tower
    ensures forall i :: 0 <= i < n && es[i].tower ==> i in ts
    ensures forall k, l :: 0 <= k < l < |ts| ==> ts[k] < ts[l]
  {
    if n == 0 then [] else TowersUpTo(es, n - 1) + (if es[n - 1].tower then [n - 1] else [])
  }

  /** The indices of the creeps that are not towers among the first n records, in query order. */
  function CreepsUpTo(es: seq<Entity>, n: nat): (cs: seq<nat>)
    requires n <= |es|
    ensures forall k :: 0 <= k < |cs| ==> cs[k] < n && es[cs[k]].creep.Some? && !es[cs[k]].tower
    ensures forall i :: 0 <= i < n && es[i].creep.Some? && !es[i].tower ==> i in cs
    ensures forall k, l :: 0 <= k < l < |cs| ==> cs[k] < cs[l]
  {
    if n == 0 then []
    else CreepsUpTo(es, n - 1) + (if es[n - 1].creep.Some? && !es[n - 1].tower then [n - 1] else [])
  }

  /** The query.Each pass: a tower goes to towers, else a creep to creeps. */
  method Collect(es: seq<Entity>) returns (towers: seq<nat>, creeps: seq<nat>)
    ensures towers == TowersUpTo(es, |es|) && creeps == CreepsUpTo(es, |es|)
  {
    towers, creeps := [], [];
    for i := 0 to |es|
      invariant towers == TowersUpTo(es, i) && creeps == CreepsUpTo(es, i)
    {
      if es[i].tower {
        towers := towers + [i];
      } else if es[i].creep.Some? {
        creeps := creeps + [i];
      }
    }
  }

  // ---------------------------------------------------------------------
  // findLowestLevelTower and findLowestHealthTower
  // ---------------------------------------------------------------------

  /** A list of tower indices whose records carry what Level.Get and Health.Get fetch. */
  predicate TowerList(es: seq<Entity>, ts: seq<nat>) {
    forall k :: 0 <= k < |ts| ==>
      ts[k] < |es| && es[ts[k]].tower && es[ts[k]].level.Some? && es[ts[k]].health.Some?
  }

  function LevelAt(es: seq<Entity>, ts: seq<nat>, k: nat): int
    requires TowerList(es, ts) && k < |ts|
  {
    es[ts[k]].level.value
  }

  function HealthAt(es: seq<Entity>, ts: seq<nat>, k: nat): HealthData
    requires TowerList(es, ts) && k < |ts|
  {
    es[ts[k]].health.value
  }

  /**
   * The position in ts of the first tower of least level among the first n,
   * the running minimum starting at math.MaxInt and moving only on a strictly
   * smaller level.
   */
  function LowestLevelUpTo(es: seq<Entity>, ts: seq<nat>, n: nat): (r: Option<nat>)
    requires TowerList(es, ts) && n <= |ts|
    ensures r.None? <==> forall k :: 0 <= k < n ==> LevelAt(es, ts, k) >= MaxInt64
    ensures r.Some? ==> r.value < n && LevelAt(es, ts, r.value) < MaxInt64
    ensures r.Some? ==> forall k :: 0 <= k < n ==> LevelAt(es, ts, r.value) <= LevelAt(es, ts, k)
    ensures r.Some? ==> forall k :: 0 <= k < r.value ==> LevelAt(es, ts, r.value) < LevelAt(es, ts, k)
  {
    if n == 0 then None
    else
      var prev := LowestLevelUpTo(es, ts, n - 1);
      var lowest := if prev.None? then MaxInt64 else LevelAt(es, ts, prev.value);
      if LevelAt(es, ts, n - 1) < lowest then Some(n - 1) else prev
  }

  /** findLowestLevelTower, returning the position in the tower list (nil is None). */
  method FindLowestLevelTower(es: seq<Entity>, ts: seq<nat>) returns (lowest: Option<nat>)
    requires TowerList(es, ts)
    ensures lowest == LowestLevelUpTo(es, ts, |ts|)
  {
    lowest := None;
    var lowestLevel := MaxInt64;
    for k := 0 to |ts|
      invariant lowest == LowestLevelUpTo(es, ts, k)
      invariant lowestLevel == if lowest.None? then MaxInt64 else LevelAt(es, ts, lowest.value)
    {
      var level := es[ts[k]].level.value;
      if level < lowestLevel {
        lowest := Some(k);
        lowestLevel := level;
      }
    }
  }

  /**
   * float32(Health) / float32(MaxHealth) < 0.25 in exact arithmetic: a
   * negative MaxHealth flips the comparison, and a zero one gives -Inf
   * (below), NaN or +Inf (not below).
   */
  predicate BelowQuarter(h: HealthData) {
    if h.maxHealth > 0 then 4 * h.health < h.maxHealth
    else if h.maxHealth < 0 then 4 * h.health > h.maxHealth
    else h.health < 0
  }

  /** The integer test is the quotient test whenever the quotient exists. */
  lemma BelowQuarterIsQuotient(h: HealthData)
    requires h.maxHealth != 0
    ensures BelowQuarter(h) <==> (h.health as real) / (h.maxHealth as real) < 0.25
  {
    var x, m := h.health as real, h.maxHealth as real;
    if h.maxHealth > 0 {
      QuotientBelowQuarter(x, m);
    } else {
      assert x / m == (-x) / (-m);
      QuotientBelowQuarter(-x, -m);
    }
  }

  /** For a positive divisor m, x / m < 1/4 exactly when 4 * x < m. */
  lemma QuotientBelowQuarter(x: real, m: real)
    requires m > 0.0
    ensures x / m < 0.25 <==> 4.0 * x < m
  {
    var q := x / m;
    assert q * m == x;
    if q < 0.25 {
      assert (0.25 - q) * m > 0.0;
    } else {
      assert (q - 0.25) * m >= 0.0;
    }
  }

  /** A tower findLowestHealthTower may pick: below a quarter of its health, and not above math.MaxInt. */
  predicate HealthCandidate(es: seq<Entity>, ts: seq<nat>, k: nat)
    requires TowerList(es, ts) && k < |ts|
  {
    BelowQuarter(HealthAt(es, ts, k)) && HealthAt(es, ts, k).health <= MaxInt64
  }

  /**
   * The position in ts of the last candidate of least health among the first
   * n: the running minimum starts at math.MaxInt and moves on an equal health
   * too.
   */
  function LowestHealthUpTo(es: seq<Entity>, ts: seq<nat>, n: nat): (r: Option<nat>)
    requires TowerList(es, ts) && n <= |ts|
    ensures r.None? <==> forall k :: 0 <= k < n ==> !HealthCandidate(es, ts, k)
    ensures r.Some? ==> r.value < n && HealthCandidate(es, ts, r.value)
    ensures r.Some? ==> forall k :: 0 <= k < n && HealthCandidate(es, ts, k) ==>
      HealthAt(es, ts, r.value).health <= HealthAt(es, ts, k).health
    ensures r.Some? ==> forall k :: r.value < k < n && HealthCandidate(es, ts, k) ==>
      HealthAt(es, ts, r.value).health < HealthAt(es, ts, k).health
  {
    if n == 0 then None
    else
      var prev := LowestHealthUpTo(es, ts, n - 1);
      var lowest := if prev.None? then MaxInt64 else HealthAt(es, ts, prev.value).health;
      var h := HealthAt(es, ts, n - 1);
      if BelowQuarter(h) && h.health <= lowest then
        assert HealthCandidate(es, ts, n - 1);
        Some(n - 1)
      else prev
  }

  /** findLowestHealthTower, returning the position in the tower list (nil is None). */
  method FindLowestHealthTower(es: seq<Entity>, ts: seq<nat>) returns (lowest: Option<nat>)
    requires TowerList(es, ts)
    ensures lowest == LowestHealthUpTo(es, ts, |ts|)
  {
    lowest := None;
    var lowestHealth := MaxInt64;
    for k := 0 to |ts|
      invariant lowest == LowestHealthUpTo(es, ts, k)
      invariant lowestHealth == if lowest.None? then MaxInt64 else HealthAt(es, ts, lowest.value).health
    {
      var health := es[ts[k]].health.value;
      if BelowQuarter(health) && health.health <= lowestHealth {
        lowest := Some(k);
        lowestHealth := health.health;
      }
    }
  }

  // ---------------------------------------------------------------------
  // Actions and their pursuit
  // ---------------------------------------------------------------------

  /** One Try call: TryPlaceTower at (x, y), or TryHealTower / TryUpgradeTower on the tower at an index. */
  datatype Action = Place(x: int, y: int) | Heal(tower: nat) | Upgrade(tower: nat)

  /** What tries come to: the action that succeeded, the error passed on, and the world after. */
  datatype Turn = Turn(done: Option<Action>, err: Option<string>, after: seq<Entity>)

  /** Nothing succeeded and no error: Update goes on to its next try. */
  predicate Idle(t: Turn) {
    t.done.None? && t.err.None?
  }

  /** A heal or upgrade names a tower. */
  ghost predicate Targets(es: seq<Entity>, a: Action) {
    (a.Heal? || a.Upgrade?) ==> IsTower(es, a.tower)
  }

  ghost predicate AllTarget(es: seq<Entity>, acts: seq<Action>) {
    forall k :: 0 <= k < |acts| ==> Targets(es, acts[k])
  }

  /** A player at pi and a board, which every Try needs. */
  ghost predicate Ready(es: seq<Entity>, pi: nat) {
    IsPlayer(es, pi) && FirstWith(es, BoardTag).Some?
  }

  /** One Try on the world es; a failed one leaves es as it was. */
  ghost function Attempt(es: seq<Entity>, pi: nat, a: Action, env: TowerEnv, nextId: nat): (t: Turn)
    requires Ready(es, pi) && Targets(es, a)
    ensures t.done.None? ==> t.after == es
    ensures t.done.Some? ==> t.done == Some(a) && t.err.None?
    ensures !a.Place? ==> t.err.None?
  {
    match a
    case Place(x, y) =>
      var r := TryPlace(es, pi, x, y, env, nextId);
      Turn(if r.placed then Some(a) else None, r.err, r.after)
    case Heal(t) =>
      var r := TryHeal(es, pi, t, env);
      Turn(if r.done then Some(a) else None, None, r.after)
    case Upgrade(t) =>
      var r := TryUpgrade(es, pi, t, env);
      Turn(if r.done then Some(a) else None, None, r.after)
  }

  /** The actions tried in order on es until one succeeds or reports an error. */
  ghost function Pursue(es: seq<Entity>, pi: nat, acts: seq<Action>, env: TowerEnv, nextId: nat): Turn
    requires Ready(es, pi) && AllTarget(es, acts)
    decreases |acts|
  {
    if acts == [] then Turn(None, None, es)
    else
      var t := Attempt(es, pi, acts[0], env, nextId);
      if Idle(t) then Pursue(es, pi, acts[1..], env, nextId) else t
  }

  lemma {:induction false} PursueAppend(es: seq<Entity>, pi: nat, a: seq<Action>, b: seq<Action>, env: TowerEnv, n: nat)
    requires Ready(es, pi) && AllTarget(es, a) && AllTarget(es, b)
    ensures AllTarget(es, a + b)
    ensures Pursue(es, pi, a + b, env, n) ==
      if Idle(Pursue(es, pi, a, env, n)) then Pursue(es, pi, b, env, n) else Pursue(es, pi, a, env, n)
    decreases |a|
  {
    if a == [] {
      assert a + b == b;
    } else {
      assert (a + b)[0] == a[0];
      assert (a + b)[1..] == a[1..] + b;
      PursueAppend(es, pi, a[1..], b, env, n);
    }
  }

  /**
   * At most one action takes effect: with none the world is unchanged, and
   * otherwise the world is exactly what that one action makes of it.
   */
  lemma {:induction false} PursueOneAction(es: seq<Entity>, pi: nat, acts: seq<Action>, env: TowerEnv, n: nat)
    requires Ready(es, pi) && AllTarget(es, acts)
    ensures var t := Pursue(es, pi, acts, env, n);
      && (t.done.None? ==> t.after == es)
      && (t.done.Some? ==> t.done.value in acts && t.err.None? && t == Attempt(es, pi, t.done.value, env, n))
    decreases |acts|
  {
    if acts != [] {
      var t := Attempt(es, pi, acts[0], env, n);
      if Idle(t) {
        PursueOneAction(es, pi, acts[1..], env, n);
      }
    }
  }

  /**
   * The pursuit ends idle exactly when every attempt of the plan is idle
   * (every action failed).
   */
  lemma {:induction false} PursueIdle(es: seq<Entity>, pi: nat, acts: seq<Action>, env: TowerEnv, n: nat)
    requires Ready(es, pi) && AllTarget(es, acts)
    ensures Idle(Pursue(es, pi, acts, env, n)) <==>
      forall k :: 0 <= k < |acts| ==> Idle(Attempt(es, pi, acts[k], env, n))
    decreases |acts|
  {
    if acts != [] {
      PursueIdle(es, pi, acts[1..], env, n);
      if Idle(Attempt(es, pi, acts[0], env, n)) {
        if Idle(Pursue(es, pi, acts[1..], env, n)) {
          forall k | 0 <= k < |acts| ensures Idle(Attempt(es, pi, acts[k], env, n)) {
            if k > 0 {
              assert acts[k] == acts[1..][k - 1];
            }
          }
        } else {
          var k :| 0 <= k < |acts[1..]| && !Idle(Attempt(es, pi, acts[1..][k], env, n));
          assert acts[1..][k] == acts[k + 1];
        }
      }
    }
  }

  /**
   * A pursuit that does something stops at the first action that succeeds
   * or errs, every earlier one having failed.
   */
  lemma {:induction false} PursueFirst(es: seq<Entity>, pi: nat, acts: seq<Action>, env: TowerEnv, n: nat)
    requires Ready(es, pi) && AllTarget(es, acts)
    ensures !Idle(Pursue(es, pi, acts, env, n)) ==>
      exists k :: 0 <= k < |acts| && Pursue(es, pi, acts, env, n) == Attempt(es, pi, acts[k], env, n) &&
        forall j :: 0 <= j < k ==> Idle(Attempt(es, pi, acts[j], env, n))
    decreases |acts|
  {
    if acts != [] && Idle(Attempt(es, pi, acts[0], env, n)) {
      PursueFirst(es, pi, acts[1..], env, n);
      if !Idle(Pursue(es, pi, acts[1..], env, n)) {
        var k :| 0 <= k < |acts[1..]| && Pursue(es, pi, acts[1..], env, n) == Attempt(es, pi, acts[1..][k], env, n) &&
          forall j :: 0 <= j < k ==> Idle(Attempt(es, pi, acts[1..][j], env, n));
        assert acts[1..][k] == acts[k + 1];
        forall j | 0 <= j < k + 1 ensures Idle(Attempt(es, pi, acts[j], env, n)) {
          if j > 0 {
            assert acts[j] == acts[1..][j - 1];
          }
        }
      }
    } else if acts != [] {
      assert Pursue(es, pi, acts, env, n) == Attempt(es, pi, acts[0], env, n);
    }
  }

  lemma PrefixTargets(es: seq<Entity>, p: seq<Action>, plan: seq<Action>)
    requires p <= plan && AllTarget(es, plan)
    ensures AllTarget(es, p)
  {
    forall k | 0 <= k < |p| ensures Targets(es, p[k]) {
      assert p[k] == plan[k];
    }
  }

  /** Every Try call of Update: a placement, a heal or an upgrade. */
  method Perform(w: World, pi: nat, a: Action, env: TowerEnv) returns (done: bool, err: Option<string>)
    requires w.Valid() && env.Valid() && Ready(w.entities, pi) && Targets(w.entities, a)
    modifies w
    ensures w.Valid()
    ensures Turn(if done then Some(a) else None, err, w.entities) == Attempt(old(w.entities), pi, a, env, old(w.nextId))
    ensures !done ==> w.nextId == old(w.nextId)
  {
    match a {
      case Place(x, y) =>
        done, err := TryPlaceTower(w, pi, x, y, env);
      case Heal(t) =>
        done := TryHealTower(w, pi, t, env);
        err := None;
      case Upgrade(t) =>
        done := TryUpgradeTower(w, pi, t, env);
        err := None;
    }
  }

  /**
   * The next Try of a pursuit: `tried` are the actions of `plan` before `a`,
   * all of which failed on the world es0 that is still the world.
   */
  method TryNext(w: World, pi: nat, a: Action, env: TowerEnv,
                 ghost es0: seq<Entity>, ghost n0: nat, ghost plan: seq<Action>, ghost tried: seq<Action>)
    returns (done: bool, err: Option<string>)
    requires w.Valid() && env.Valid() && w.entities == es0 && w.nextId == n0
    requires Ready(es0, pi) && AllTarget(es0, plan)
    requires tried + [a] <= plan && AllTarget(es0, tried) && Idle(Pursue(es0, pi, tried, env, n0))
    modifies w
    ensures w.Valid()
    ensures a.Place? || err.None?
    ensures done ==> err.None?
    ensures done || err.Some? ==>
      Turn(if done then Some(a) else None, err, w.entities) == Pursue(es0, pi, plan, env, n0)
    ensures !done && err.None? ==>
      w.entities == es0 && w.nextId == n0 && Idle(Pursue(es0, pi, tried + [a], env, n0))
  {
    PrefixTargets(es0, tried + [a], plan);
    assert Targets(es0, (tried + [a])[|tried|]);
    assert AllTarget(es0, [a]);
    done, err := Perform(w, pi, a, env);
    var rest := plan[|tried| + 1..];
    assert plan == (tried + [a]) + rest;
    assert [a][1..] == [];
    PursueAppend(es0, pi, tried, [a], env, n0);
    PursueAppend(es0, pi, tried + [a], rest, env, n0);
  }

  // ---------------------------------------------------------------------
  // Placing a tower below a creep
  // ---------------------------------------------------------------------

  /** The lane findLane picks under the midpoint of the entity's rect, if any. */
  function LaneUnder(e: Entity): Option<nat>
    requires HasRect(e)
  {
    FirstNear(Lanes, MidpointRect(GetRect(e)).x)
  }

  predicate CreepList(es: seq<Entity>, cs: seq<nat>) {
    forall k :: 0 <= k < |cs| ==> cs[k] < |es| && HasRect(es[cs[k]])
  }

  function BelowCreep(e: Entity, y: int): (acts: seq<Action>)
    requires HasRect(e)
    ensures forall k :: 0 <= k < |acts| ==> acts[k].Place? && acts[k].y == y
  {
    match LaneUnder(e)
    case None => []
    case Some(l) => [Place(Lanes[l], y)]
  }

  /** The creep-following placements at row y: one per creep with a lane near its midpoint, in creep order. */
  function CreepAttempts(es: seq<Entity>, cs: seq<nat>, y: int): (acts: seq<Action>)
    requires CreepList(es, cs)
    ensures forall k :: 0 <= k < |acts| ==> acts[k].Place? && acts[k].y == y
    decreases |cs|
  {
    if cs == [] then [] else BelowCreep(es[cs[0]], y) + CreepAttempts(es, cs[1..], y)
  }

  lemma CreepListSlice(es: seq<Entity>, cs: seq<nat>, i: nat, j: nat)
    requires CreepList(es, cs) && i <= j <= |cs|
    ensures CreepList(es, cs[i..j])
  {
    forall k | 0 <= k < j - i ensures cs[i..j][k] < |es| && HasRect(es[cs[i..j][k]]) {
      assert cs[i..j][k] == cs[i + k];
    }
  }

  lemma {:induction false} CreepAttemptsAppend(es: seq<Entity>, a: seq<nat>, b: seq<nat>, y: int)
    requires CreepList(es, a) && CreepList(es, b) && CreepList(es, a + b)
    ensures CreepAttempts(es, a + b, y) == CreepAttempts(es, a, y) + CreepAttempts(es, b, y)
    decreases |a|
  {
    if a == [] {
      assert a + b == b;
    } else {
      assert (a + b)[0] == a[0];
      assert (a + b)[1..] == a[1..] + b;
      CreepListSlice(es, a, 1, |a|);
      CreepAttemptsAppend(es, a[1..], b, y);
    }
  }

  /** Every creep-following placement is at row y, in the lane under some creep's midpoint. */
  lemma {:induction false} CreepPlacements(es: seq<Entity>, cs: seq<nat>, y: int, a: Action)
    requires CreepList(es, cs) && a in CreepAttempts(es, cs, y)
    ensures a.Place? && a.y == y
    ensures exists k :: 0 <= k < |cs| && LaneUnder(es[cs[k]]).Some? && a.x == Lanes[LaneUnder(es[cs[k]]).value]
    decreases |cs|
  {
    if a in BelowCreep(es[cs[0]], y) {
      assert LaneUnder(es[cs[0]]).Some? && a.x == Lanes[LaneUnder(es[cs[0]]).value];
    } else {
      CreepPlacements(es, cs[1..], y, a);
      var k :| 0 <= k < |cs[1..]| && LaneUnder(es[cs[1..][k]]).Some? && a.x == Lanes[LaneUnder(es[cs[1..][k]]).value];
      assert cs[1..][k] == cs[k + 1];
    }
  }

  /** One more creep adds its placement, if any, and the creeps so far give a prefix of all the placements. */
  lemma CreepStep(es: seq<Entity>, cs: seq<nat>, i: nat, y: int)
    requires CreepList(es, cs) && i < |cs|
    ensures CreepList(es, cs[..i]) && CreepList(es, cs[..i + 1])
    ensures CreepAttempts(es, cs[..i + 1], y) == CreepAttempts(es, cs[..i], y) + BelowCreep(es[cs[i]], y)
    ensures CreepAttempts(es, cs[..i + 1], y) <= CreepAttempts(es, cs, y)
  {
    assert cs == cs[..i + 1] + cs[i + 1..];
    assert cs[..i + 1] == cs[..i] + [cs[i]];
    CreepListSlice(es, cs, 0, i + 1);
    CreepListSlice(es, cs, i + 1, |cs|);
    CreepListSlice(es, cs, 0, i);
    CreepListSlice(es, cs, i, i + 1);
    assert cs[i..i + 1] == [cs[i]];
    CreepAttemptsAppend(es, cs[..i + 1], cs[i + 1..], y);
    CreepAttemptsAppend(es, cs[..i], [cs[i]], y);
    assert [cs[i]][1..] == [];
    assert CreepAttempts(es, [cs[i]], y) == BelowCreep(es[cs[i]], y) + [];
  }

  /** The body of the creep loop: findLane under the creep's midpoint, and a placement there if a lane is near. */
  method PlaceBelow(w: World, pi: nat, c: nat, y: int, env: TowerEnv,
                    ghost es0: seq<Entity>, ghost n0: nat, ghost plan: seq<Action>, ghost tried: seq<Action>)
    returns (done: Option<Action>, err: Option<string>)
    requires w.Valid() && env.Valid() && w.entities == es0 && w.nextId == n0
    requires Ready(es0, pi) && AllTarget(es0, plan) && c < |es0| && HasRect(es0[c])
    requires tried + BelowCreep(es0[c], y) <= plan && AllTarget(es0, tried) && Idle(Pursue(es0, pi, tried, env, n0))
    modifies w
    ensures w.Valid()
    ensures !Idle(Turn(done, err, w.entities)) ==> Turn(done, err, w.entities) == Pursue(es0, pi, plan, env, n0)
    ensures Idle(Turn(done, err, w.entities)) ==>
      && w.entities == es0 && w.nextId == n0
      && AllTarget(es0, tried + BelowCreep(es0[c], y))
      && Idle(Pursue(es0, pi, tried + BelowCreep(es0[c], y), env, n0))
  {
    LanesPositive();
    var pt := MidpointRect(GetRect(w.entities[c]));
    var lane := FindLane(Lanes, pt.x);
    if lane != -1 {
      var placed, e := TryNext(w, pi, Place(lane, y), env, es0, n0, plan, tried);
      done, err := if placed then Some(Place(lane, y)) else None, e;
    } else {
      assert tried + BelowCreep(es0[c], y) == tried;
      done, err := None, None;
    }
  }

  /** The first pass of Update: a tower below each creep in turn, until one is placed or NewTower errs. */
  method FollowCreeps(w: World, pi: nat, cs: seq<nat>, y: int, env: TowerEnv) returns (done: Option<Action>, err: Option<string>)
    requires w.Valid() && env.Valid() && Ready(w.entities, pi) && CreepList(w.entities, cs)
    modifies w
    ensures w.Valid()
    ensures Turn(done, err, w.entities) == Pursue(old(w.entities), pi, CreepAttempts(old(w.entities), cs, y), env, old(w.nextId))
    ensures Idle(Turn(done, err, w.entities)) ==> w.entities == old(w.entities) && w.nextId == old(w.nextId)
  {
    ghost var es0, n0 := w.entities, w.nextId;
    ghost var plan := CreepAttempts(es0, cs, y);
    ghost var tried: seq<Action> := [];
    for i := 0 to |cs|
      invariant w.Valid() && w.entities == es0 && w.nextId == n0
      invariant CreepList(es0, cs[..i]) && tried == CreepAttempts(es0, cs[..i], y)
      invariant AllTarget(es0, tried) && Idle(Pursue(es0, pi, tried, env, n0))
    {
      CreepStep(es0, cs, i, y);
      done, err := PlaceBelow(w, pi, cs[i], y, env, es0, n0, plan, tried);
      if !Idle(Turn(done, err, w.entities)) {
        assert Turn(done, err, w.entities) == Pursue(es0, pi, plan, env, n0);
        return;
      }
      tried := tried + BelowCreep(es0[cs[i]], y);
    }
    assert cs[..|cs|] == cs;
    PursueOneAction(es0, pi, plan, env, n0);
    return None, None;
  }

  // ---------------------------------------------------------------------
  // Healing and upgrading
  // ---------------------------------------------------------------------

  /** allowUpgrades: a full row of towers and at least 75 money. */
  ghost predicate AllowUpgrades(es: seq<Entity>, pi: nat, ts: seq<nat>)
    requires IsPlayer(es, pi)
  {
    |ts| >= TowersPerRow && es[pi].player.value.money >= 75
  }

  /** The lowest-level tower exists whenever there are towers (the source dereferences it). */
  predicate LowestDefined(es: seq<Entity>, ts: seq<nat>)
    requires TowerList(es, ts)
  {
    |ts| > 0 ==> LowestLevelUpTo(es, ts, |ts|).Some?
  }

  /** Lines 83-96: when the lowest-health tower is also the lowest-level one, an upgrade (if allowed), then a heal. */
  ghost function SameAttempts(es: seq<Entity>, th: nat, tl: nat, allow: bool): (acts: seq<Action>)
    requires IsTower(es, th) && tl < |es|
    ensures AllTarget(es, acts)
  {
    if es[th].id == es[tl].id then (if allow then [Upgrade(th)] else []) + [Heal(th)] else []
  }

  /**
   * Lines 99-115: a heal when the lowest-level tower is two levels above the
   * lowest-health one or that one is at the maximum level; otherwise an
   * upgrade (if allowed).
   */
  ghost function GapAttempts(es: seq<Entity>, th: nat, tl: nat, allow: bool, maxLevel: int): (acts: seq<Action>)
    requires IsTower(es, th) && tl < |es| && es[th].level.Some? && es[tl].level.Some?
    ensures AllTarget(es, acts)
  {
    var levelHealth, levelLevel := es[th].level.value, es[tl].level.value;
    if levelLevel >= levelHealth + 2 || levelHealth == maxLevel then [Heal(th)]
    else if allow then [Upgrade(th)] else []
  }

  /** Lines 119-135: an upgrade of the lowest-level tower if allowed, else a heal of the lowest-health one. */
  ghost function FallbackAttempts(es: seq<Entity>, ts: seq<nat>, lh: Option<nat>, ll: Option<nat>, allow: bool): (acts: seq<Action>)
    requires TowerList(es, ts)
    requires allow ==> ll.Some? && ll.value < |ts|
    requires lh.Some? ==> lh.value < |ts|
    ensures AllTarget(es, acts)
  {
    if allow then [Upgrade(ts[ll.value])] else if lh.Some? then [Heal(ts[lh.value])] else []
  }

  /** Every heal and upgrade Update tries, in order. */
  ghost function TowerAttempts(es: seq<Entity>, pi: nat, ts: seq<nat>, maxLevel: int): (acts: seq<Action>)
    requires IsPlayer(es, pi) && TowerList(es, ts) && LowestDefined(es, ts)
    ensures AllTarget(es, acts)
  {
    var allow := AllowUpgrades(es, pi, ts);
    var lh := LowestHealthUpTo(es, ts, |ts|);
    var ll := LowestLevelUpTo(es, ts, |ts|);
    var fallback := FallbackAttempts(es, ts, lh, ll, allow);
    if lh.None? then fallback
    else
      var th, tl := ts[lh.value], ts[ll.value];
      SameAttempts(es, th, tl, allow) + (GapAttempts(es, th, tl, allow, maxLevel) + fallback)
  }

  /**
   * Upgrades are tried only when allowed, on the lowest-health or the
   * lowest-level tower; heals only on the lowest-health tower.
   */
  lemma TowerAttemptTargets(es: seq<Entity>, pi: nat, ts: seq<nat>, maxLevel: int, a: Action)
    requires IsPlayer(es, pi) && TowerList(es, ts) && LowestDefined(es, ts)
    requires a in TowerAttempts(es, pi, ts, maxLevel)
    ensures !a.Place?
    ensures a.Upgrade? ==> AllowUpgrades(es, pi, ts)
    ensures a.Upgrade? ==>
      || (LowestHealthUpTo(es, ts, |ts|).Some? && a.tower == ts[LowestHealthUpTo(es, ts, |ts|).value])
      || a.tower == ts[LowestLevelUpTo(es, ts, |ts|).value]
    ensures a.Heal? ==> LowestHealthUpTo(es, ts, |ts|).Some? && a.tower == ts[LowestHealthUpTo(es, ts, |ts|).value]
  {
    var allow := AllowUpgrades(es, pi, ts);
    var lh := LowestHealthUpTo(es, ts, |ts|);
    var ll := LowestLevelUpTo(es, ts, |ts|);
    var fallback := FallbackAttempts(es, ts, lh, ll, allow);
    if lh.Some? {
      var th, tl := ts[lh.value], ts[ll.value];
      var same, gap := SameAttempts(es, th, tl, allow), GapAttempts(es, th, tl, allow, maxLevel);
      assert a in same || a in gap || a in fallback;
    }
  }

  /** A single try is pursued by making it. */
  lemma PursueSingle(es: seq<Entity>, pi: nat, a: Action, env: TowerEnv, n: nat)
    requires Ready(es, pi) && Targets(es, a)
    ensures AllTarget(es, [a])
    ensures Pursue(es, pi, [a], env, n) == if Idle(Attempt(es, pi, a, env, n)) then Turn(None, None, es) else Attempt(es, pi, a, env, n)
  {
    assert [a][1..] == [];
  }

  /** One heal or upgrade, as the blocks of Update make it. */
  method TryTower(w: World, pi: nat, a: Action, env: TowerEnv) returns (done: Option<Action>)
    requires w.Valid() && env.Valid() && Ready(w.entities, pi) && !a.Place? && Targets(w.entities, a)
    modifies w
    ensures w.Valid()
    ensures Turn(done, None, w.entities) == Pursue(old(w.entities), pi, [a], env, old(w.nextId))
    ensures done.None? ==> w.entities == old(w.entities) && w.nextId == old(w.nextId)
  {
    PursueSingle(w.entities, pi, a, env, w.nextId);
    var ok, e := Perform(w, pi, a, env);
    done := if ok then Some(a) else None;
  }

  /** Lines 83-96. */
  method TrySame(w: World, pi: nat, th: nat, tl: nat, allow: bool, env: TowerEnv) returns (done: Option<Action>)
    requires w.Valid() && env.Valid() && Ready(w.entities, pi) && IsTower(w.entities, th) && tl < |w.entities|
    modifies w
    ensures w.Valid()
    ensures Turn(done, None, w.entities) == Pursue(old(w.entities), pi, SameAttempts(old(w.entities), th, tl, allow), env, old(w.nextId))
    ensures done.None? ==> w.entities == old(w.entities) && w.nextId == old(w.nextId)
  {
    ghost var es0, n0 := w.entities, w.nextId;
    done := None;
    if w.entities[th].id == w.entities[tl].id {
      if allow {
        PursueAppend(es0, pi, [Upgrade(th)], [Heal(th)], env, n0);
        done := TryTower(w, pi, Upgrade(th), env);
        if done.Some? {
          return;
        }
      }
      done := TryTower(w, pi, Heal(th), env);
    }
  }

  /** Lines 99-115. */
  method TryGap(w: World, pi: nat, th: nat, tl: nat, allow: bool, maxLevel: int, env: TowerEnv) returns (done: Option<Action>)
    requires w.Valid() && env.Valid() && Ready(w.entities, pi) && IsTower(w.entities, th) && IsTower(w.entities, tl)
    modifies w
    ensures w.Valid()
    ensures Turn(done, None, w.entities) == Pursue(old(w.entities), pi, GapAttempts(old(w.entities), th, tl, allow, maxLevel), env, old(w.nextId))
    ensures done.None? ==> w.entities == old(w.entities) && w.nextId == old(w.nextId)
  {
    done := None;
    var levelLevel := w.entities[tl].level.value;
    var levelHealth := w.entities[th].level.value;
    if levelLevel >= levelHealth + 2 || levelHealth == maxLevel {
      done := TryTower(w, pi, Heal(th), env);
    } else if allow {
      done := TryTower(w, pi, Upgrade(th), env);
    }
  }

  /** Lines 119-135, finding the lowest-level tower again. */
  method TryFallback(w: World, pi: nat, ts: seq<nat>, lh: Option<nat>, allow: bool, env: TowerEnv) returns (done: Option<Action>)
    requires w.Valid() && env.Valid() && Ready(w.entities, pi) && TowerList(w.entities, ts) && LowestDefined(w.entities, ts)
    requires allow ==> |ts| > 0
    requires lh.Some? ==> lh.value < |ts|
    modifies w
    ensures w.Valid()
    ensures Turn(done, None, w.entities) ==
      Pursue(old(w.entities), pi, FallbackAttempts(old(w.entities), ts, lh, LowestLevelUpTo(old(w.entities), ts, |ts|), allow), env, old(w.nextId))
    ensures done.None? ==> w.entities == old(w.entities) && w.nextId == old(w.nextId)
  {
    done := None;
    if allow {
      var lowestLevel := FindLowestLevelTower(w.entities, ts);
      done := TryTower(w, pi, Upgrade(ts[lowestLevel.value]), env);
    } else if lh.Some? {
      done := TryTower(w, pi, Heal(ts[lh.value]), env);
    }
  }

  /** The heal-and-upgrade part of Update, from allowUpgrades to the fallback heal (lines 75-135). */
  method TendTowers(w: World, pi: nat, ts: seq<nat>, env: TowerEnv, maxLevel: int) returns (done: Option<Action>)
    requires w.Valid() && env.Valid() && Ready(w.entities, pi) && TowerList(w.entities, ts) && LowestDefined(w.entities, ts)
    modifies w
    ensures w.Valid()
    ensures Turn(done, None, w.entities) == Pursue(old(w.entities), pi, TowerAttempts(old(w.entities), pi, ts, maxLevel), env, old(w.nextId))
    ensures done.None? ==> w.entities == old(w.entities) && w.nextId == old(w.nextId)
  {
    ghost var es0, n0 := w.entities, w.nextId;
    var money := w.entities[pi].player.value.money;
    var allowUpgrades := |ts| >= TowersPerRow && money >= 75;
    var lowestHealth := FindLowestHealthTower(w.entities, ts);
    var lowestLevel := FindLowestLevelTower(w.entities, ts);
    ghost var fallback := FallbackAttempts(es0, ts, lowestHealth, lowestLevel, allowUpgrades);
    if lowestHealth.Some? {
      var th, tl := ts[lowestHealth.value], ts[lowestLevel.value];
      ghost var same, gap := SameAttempts(es0, th, tl, allowUpgrades), GapAttempts(es0, th, tl, allowUpgrades, maxLevel);
      assert TowerAttempts(es0, pi, ts, maxLevel) == same + (gap + fallback);
      PrefixTargets(es0, same, same + (gap + fallback));
      assert (same + (gap + fallback))[|same|..] == gap + fallback;
      PrefixTargets(es0, gap, gap + fallback);
      PursueAppend(es0, pi, same, gap + fallback, env, n0);
      PursueAppend(es0, pi, gap, fallback, env, n0);
      done := TrySame(w, pi, th, tl, allowUpgrades, env);
      if done.Some? {
        return;
      }
      done := TryGap(w, pi, th, tl, allowUpgrades, maxLevel, env);
      if done.Some? {
        return;
      }
    } else {
      assert TowerAttempts(es0, pi, ts, maxLevel) == fallback;
    }
    done := TryFallback(w, pi, ts, lowestHealth, allowUpgrades, env);
  }

  // ---------------------------------------------------------------------
  // The second row
  // ---------------------------------------------------------------------

  /** TryPlaceTower at row y on the first k lanes, left to right. */
  function LanePlaces(k: nat, y: int): (acts: seq<Action>)
    requires k <= |Lanes|
    ensures |acts| == k
    ensures forall j :: 0 <= j < k ==> acts[j] == Place(Lanes[j], y)
  {
    if k == 0 then [] else LanePlaces(k - 1, y) + [Place(Lanes[k - 1], y)]
  }

  /** The first k + 1 lanes: the first k and then lane k; a prefix of all the lanes. */
  lemma LanePlacesPrefix(k: nat, y: int)
    requires k < |Lanes|
    ensures LanePlaces(k + 1, y) == LanePlaces(k, y) + [Place(Lanes[k], y)]
    ensures LanePlaces(k + 1, y) == LanePlaces(|Lanes|, y)[..k + 1]
  {
  }

  /** Lines 139-154: with more than 150 money and a full row, a placement on each lane of row y until one succeeds. */
  ghost function RowAttempts(es: seq<Entity>, pi: nat, towerCount: nat, y: int): (acts: seq<Action>)
    requires IsPlayer(es, pi)
    ensures forall k :: 0 <= k < |acts| ==> acts[k].Place? && acts[k].y == y
  {
    if es[pi].player.value.money > 150 && towerCount >= TowersPerRow then LanePlaces(|Lanes|, y) else []
  }

  method SecondRow(w: World, pi: nat, towerCount: nat, y: int, env: TowerEnv) returns (done: Option<Action>, err: Option<string>)
    requires w.Valid() && env.Valid() && Ready(w.entities, pi)
    modifies w
    ensures w.Valid()
    ensures Turn(done, err, w.entities) == Pursue(old(w.entities), pi, RowAttempts(old(w.entities), pi, towerCount, y), env, old(w.nextId))
  {
    ghost var es0, n0 := w.entities, w.nextId;
    ghost var plan := RowAttempts(es0, pi, towerCount, y);
    if w.entities[pi].player.value.money > 150 && towerCount >= TowersPerRow {
      assert plan == LanePlaces(|Lanes|, y);
      for k := 0 to |Lanes|
        invariant w.Valid() && w.entities == es0 && w.nextId == n0
        invariant Idle(Pursue(es0, pi, LanePlaces(k, y), env, n0))
      {
        LanePlacesPrefix(k, y);
        var placed, e := TryNext(w, pi, Place(Lanes[k], y), env, es0, n0, plan, LanePlaces(k, y));
        if e.Some? {
          return None, e;
        }
        if placed {
          return Some(Place(Lanes[k], y)), None;
        }
      }
    } else {
      assert plan == [];
    }
    PursueOneAction(es0, pi, plan, env, n0);
    return None, None;
  }

  /**
   * The second row is filled left to right: a placement there needs more
   * than 150 money and a full row, and every lane left of it was refused.
   */
  lemma SecondRowLeftToRight(es: seq<Entity>, pi: nat, towerCount: nat, y: int, env: TowerEnv, n: nat, k: nat)
    requires Ready(es, pi) && k < |Lanes|
    requires Pursue(es, pi, RowAttempts(es, pi, towerCount, y), env, n).done == Some(Place(Lanes[k], y))
    ensures es[pi].player.value.money > 150 && towerCount >= TowersPerRow
    ensures forall j :: 0 <= j < k ==> Idle(Attempt(es, pi, Place(Lanes[j], y), env, n))
  {
    var acts := RowAttempts(es, pi, towerCount, y);
    PursueIdle(es, pi, acts, env, n);
    PursueFirst(es, pi, acts, env, n);
    var t := Pursue(es, pi, acts, env, n);
    assert !Idle(t);
    var k' :| 0 <= k' < |acts| && t == Attempt(es, pi, acts[k'], env, n) &&
      forall j :: 0 <= j < k' ==> Idle(Attempt(es, pi, acts[j], env, n));
    LanesClosedForm();
    assert LaneX(k') == LaneX(k);
    forall j | 0 <= j < k ensures Idle(Attempt(es, pi, Place(Lanes[j], y), env, n)) {
      assert acts[j] == Place(Lanes[j], y);
    }
  }

  // ---------------------------------------------------------------------
  // Update
  // ---------------------------------------------------------------------

  /**
   * A tower with a level below math.MaxInt whenever there is a tower: the
   * lowest-level tower exists, which Update dereferences.
   */
  ghost predicate SomeLevelBelowMax(es: seq<Entity>) {
    (exists i :: 0 <= i < |es| && es[i].tower) ==>
      exists i :: 0 <= i < |es| && es[i].tower && es[i].level.Some? && es[i].level.value < MaxInt64
  }

  /** What Update needs of the world: a player and a board (MustFirst panics without them). */
  ghost predicate Playable(es: seq<Entity>) {
    && AllWellFormed(es)
    && FirstWith(es, PlayerTag).Some? && FirstWith(es, BoardTag).Some?
    && SomeLevelBelowMax(es)
  }

  lemma PlanInputs(es: seq<Entity>)
    requires Playable(es)
    ensures Ready(es, FirstWith(es, PlayerTag).value)
    ensures TowerList(es, TowersUpTo(es, |es|)) && CreepList(es, CreepsUpTo(es, |es|))
    ensures LowestDefined(es, TowersUpTo(es, |es|))
  {
    PlanTowers(es);
    PlanCreeps(es);
    PlanLowest(es);
  }

  /** Every tower found carries a level and a health (a well-formed tower does). */
  lemma PlanTowers(es: seq<Entity>)
    requires AllWellFormed(es)
    ensures TowerList(es, TowersUpTo(es, |es|))
  {
    var ts := TowersUpTo(es, |es|);
    forall k | 0 <= k < |ts| ensures es[ts[k]].level.Some? && es[ts[k]].health.Some? {
      assert WellFormed(es[ts[k]]);
    }
  }

  /** Every creep found has a rectangle. */
  lemma PlanCreeps(es: seq<Entity>)
    requires AllWellFormed(es)
    ensures CreepList(es, CreepsUpTo(es, |es|))
  {
    var cs := CreepsUpTo(es, |es|);
    forall k | 0 <= k < |cs| ensures HasRect(es[cs[k]]) {
      assert WellFormed(es[cs[k]]);
    }
  }

  /** With some tower below the maximum level, the lowest-level tower exists. */
  lemma PlanLowest(es: seq<Entity>)
    requires AllWellFormed(es) && SomeLevelBelowMax(es)
    ensures TowerList(es, TowersUpTo(es, |es|)) && LowestDefined(es, TowersUpTo(es, |es|))
  {
    PlanTowers(es);
    var ts := TowersUpTo(es, |es|);
    if |ts| > 0 {
      assert es[ts[0]].tower;
      var i :| 0 <= i < |es| && es[i].tower && es[i].level.Some? && es[i].level.value < MaxInt64;
      var k :| 0 <= k < |ts| && ts[k] == i;
      LowestAt(es, ts, k);
    }
  }

  /** A tower below the maximum level makes the lowest-level search succeed. */
  lemma LowestAt(es: seq<Entity>, ts: seq<nat>, k: nat)
    requires TowerList(es, ts) && k < |ts| && LevelAt(es, ts, k) < MaxInt64
    ensures LowestLevelUpTo(es, ts, |ts|).Some?
  {
  }

  /**
   * Everything Update tries, in order, on the world it starts from: a tower
   * below each creep at row `row`, the heals and upgrades, then the second
   * row a tower width lower.
   */
  ghost function PlanOf(es: seq<Entity>, pi: nat, ts: seq<nat>, cs: seq<nat>, row: int, maxLevel: int): (acts: seq<Action>)
    requires IsPlayer(es, pi) && TowerList(es, ts) && LowestDefined(es, ts) && CreepList(es, cs)
    ensures AllTarget(es, acts)
  {
    var c, t, r := CreepAttempts(es, cs, row), TowerAttempts(es, pi, ts, maxLevel), RowAttempts(es, pi, |ts|, row + TowerWidth);
    assert AllTarget(es, c) && AllTarget(es, r);
    AppendTargets(es, t, r);
    AppendTargets(es, c, t + r);
    c + (t + r)
  }

  /** The plan of a playable world: its player, its towers and creeps in query order, and mid-height. */
  ghost function Plan(es: seq<Entity>, maxLevel: int): (acts: seq<Action>)
    requires Playable(es)
    ensures Ready(es, FirstWith(es, PlayerTag).value) && AllTarget(es, acts)
  {
    PlanInputs(es);
    PlanOf(es, FirstWith(es, PlayerTag).value, TowersUpTo(es, |es|), CreepsUpTo(es, |es|), Quo(TheBoard(es).height, 2), maxLevel)
  }

  lemma AppendTargets(es: seq<Entity>, a: seq<Action>, b: seq<Action>)
    requires AllTarget(es, a) && AllTarget(es, b)
    ensures AllTarget(es, a + b)
  {
    forall k | 0 <= k < |a + b| ensures Targets(es, (a + b)[k]) {
      if k >= |a| {
        assert (a + b)[k] == b[k - |a|];
      }
    }
  }

  /** Every try of the plan comes from one of its three phases. */
  lemma PlanOfParts(es: seq<Entity>, pi: nat, ts: seq<nat>, cs: seq<nat>, row: int, maxLevel: int, a: Action)
    requires IsPlayer(es, pi) && TowerList(es, ts) && LowestDefined(es, ts) && CreepList(es, cs)
    requires a in PlanOf(es, pi, ts, cs, row, maxLevel)
    ensures || a in CreepAttempts(es, cs, row)
            || a in TowerAttempts(es, pi, ts, maxLevel)
            || a in RowAttempts(es, pi, |ts|, row + TowerWidth)
  {
  }

  /** Pursuing the plan is pursuing its three phases in turn, each only while the ones before were idle. */
  lemma PursuePlan(es: seq<Entity>, pi: nat, ts: seq<nat>, cs: seq<nat>, row: int, maxLevel: int, env: TowerEnv, n: nat)
    requires Ready(es, pi) && TowerList(es, ts) && LowestDefined(es, ts) && CreepList(es, cs)
    ensures var c, t, r := Pursue(es, pi, CreepAttempts(es, cs, row), env, n),
                           Pursue(es, pi, TowerAttempts(es, pi, ts, maxLevel), env, n),
                           Pursue(es, pi, RowAttempts(es, pi, |ts|, row + TowerWidth), env, n);
      Pursue(es, pi, PlanOf(es, pi, ts, cs, row, maxLevel), env, n) ==
        if !Idle(c) then c else if !Idle(t) then t else r
  {
    var c, t, r := CreepAttempts(es, cs, row), TowerAttempts(es, pi, ts, maxLevel), RowAttempts(es, pi, |ts|, row + TowerWidth);
    assert AllTarget(es, c) && AllTarget(es, r);
    PursueAppend(es, pi, t, r, env, n);
    PursueAppend(es, pi, c, t + r, env, n);
  }

  /**
   * strategy.Update: one call makes the first try of the plan that succeeds
   * or errs, and no other (comp.GetMaxTowerLevel is the parameter maxLevel).
   */
  method Update(w: World, env: TowerEnv, maxLevel: int) returns (done: Option<Action>, err: Option<string>)
    requires w.Valid() && env.Valid() && Playable(w.entities)
    modifies w
    ensures w.Valid()
    ensures Turn(done, err, w.entities) ==
      Pursue(old(w.entities), FirstWith(old(w.entities), PlayerTag).value, Plan(old(w.entities), maxLevel), env, old(w.nextId))
  {
    ghost var es0, n0 := w.entities, w.nextId;
    PlanInputs(es0);
    var pi := FirstWith(w.entities, PlayerTag).value;
    var board := TheBoard(w.entities);
    var towers, creeps := Collect(w.entities);
    var row := Quo(board.height, 2);
    assert Plan(es0, maxLevel) == PlanOf(es0, pi, towers, creeps, row, maxLevel);
    PursuePlan(es0, pi, towers, creeps, row, maxLevel, env, n0);
    done, err := FollowCreeps(w, pi, creeps, row, env);
    if !Idle(Turn(done, err, w.entities)) {
      return;
    }
    done := TendTowers(w, pi, towers, env, maxLevel);
    if done.Some? {
      return;
    }
    done, err := SecondRow(w, pi, |towers|, row + TowerWidth, env);
  }

  /**
   * Every placement Update tries is on a lane: at mid-height in the lane
   * under some creep's midpoint, or a tower width lower when there are more
   * than 150 money and a full row of towers.
   */
  lemma PlanPlacements(es: seq<Entity>, maxLevel: int, a: Action)
    requires Playable(es) && a in Plan(es, maxLevel) && a.Place?
    ensures a.x in Lanes
    ensures var row := Quo(TheBoard(es).height, 2);
      || (a.y == row &&
          exists i :: 0 <= i < |es| && es[i].creep.Some? && !es[i].tower && HasRect(es[i]) &&
            LaneUnder(es[i]).Some? && a.x == Lanes[LaneUnder(es[i]).value])
      || (a.y == row + TowerWidth && es[FirstWith(es, PlayerTag).value].player.value.money > 150 &&
          |TowersUpTo(es, |es|)| >= TowersPerRow)
  {
    PlanInputs(es);
    var pi := FirstWith(es, PlayerTag).value;
    var ts, cs := TowersUpTo(es, |es|), CreepsUpTo(es, |es|);
    var row := Quo(TheBoard(es).height, 2);
    var c, t, r := CreepAttempts(es, cs, row), TowerAttempts(es, pi, ts, maxLevel), RowAttempts(es, pi, |ts|, row + TowerWidth);
    assert Plan(es, maxLevel) == PlanOf(es, pi, ts, cs, row, maxLevel);
    PlanOfParts(es, pi, ts, cs, row, maxLevel, a);
    if a in c {
      CreepPlacements(es, cs, row, a);
      var k :| 0 <= k < |cs| && LaneUnder(es[cs[k]]).Some? && a.x == Lanes[LaneUnder(es[cs[k]]).value];
      assert es[cs[k]].creep.Some? && !es[cs[k]].tower;
    } else if a in t {
      TowerAttemptTargets(es, pi, ts, maxLevel, a);
    } else {
      assert a in r;
      var k :| 0 <= k < |r| && r[k] == a;
      assert a == Place(Lanes[k], row + TowerWidth);
    }
  }

  /**
   * Update heals only the lowest-health tower, and upgrades only when
   * upgrades are allowed, the lowest-health or the lowest-level tower.
   */
  lemma PlanHealsAndUpgrades(es: seq<Entity>, maxLevel: int, a: Action)
    requires Playable(es) && a in Plan(es, maxLevel) && !a.Place?
    ensures TowerList(es, TowersUpTo(es, |es|)) && LowestDefined(es, TowersUpTo(es, |es|))
    ensures var ts := TowersUpTo(es, |es|); var pi := FirstWith(es, PlayerTag).value;
      var lh := LowestHealthUpTo(es, ts, |ts|); var ll := LowestLevelUpTo(es, ts, |ts|);
      && (a.Heal? ==> lh.Some? && a.tower == ts[lh.value])
      && (a.Upgrade? ==> AllowUpgrades(es, pi, ts) && ((lh.Some? && a.tower == ts[lh.value]) || a.tower == ts[ll.value]))
  {
    PlanInputs(es);
    var pi := FirstWith(es, PlayerTag).value;
    var ts, cs := TowersUpTo(es, |es|), CreepsUpTo(es, |es|);
    var row := Quo(TheBoard(es).height, 2);
    var c, t, r := CreepAttempts(es, cs, row), TowerAttempts(es, pi, ts, maxLevel), RowAttempts(es, pi, |ts|, row + TowerWidth);
    assert Plan(es, maxLevel) == PlanOf(es, pi, ts, cs, row, maxLevel);
    PlanOfParts(es, pi, ts, cs, row, maxLevel, a);
    if a in c {
      CreepPlacements(es, cs, row, a);
    } else if a in t {
      TowerAttemptTargets(es, pi, ts, maxLevel, a);
    }
  }
}
