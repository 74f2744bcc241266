/**
 * The statistics accumulator of components/stats.go: three high marks and a
 * set of counters that the game bumps as things happen, and a Reset that
 * starts a new game's counters while keeping the high marks.
 *
 * GameTime is a duration in nanoseconds; StartTime is a wall-clock reading
 * and is not part of this model.
 */
module Stats {

  /** The value of every recorded field, as one record. */
  datatype Stats = Stats(
    HighScore: int,
    HighCreepLevel: int,
    HighTowerLevel: int,
    CreepsSpawned: int,
    CreepsKilled: int,
    CreepWaves: int,
    TowersBuilt: int,
    TowersKilled: int,
    TowersAmmoOut: int,
    TowerBulletsFired: int,
    CreepBulletsFired: int,
    BulletsExpired: int,
    PlayerDeaths: int,
    GameTime: int)

  /** &GameStats{}: every field at its zero value. */
  const Zero := Stats(0, 0, 0, 0, 0, 0, 0, 0, 0, 0, 0, 0, 0, 0)

  /** The fields Reset clears: every per-game counter except TowersAmmoOut, and the game time. */
  predicate CountersCleared(s: Stats) {
    && s.CreepsSpawned == 0 && s.CreepsKilled == 0 && s.CreepWaves == 0
    && s.TowersBuilt == 0 && s.TowersKilled == 0 && s.TowerBulletsFired == 0
    && s.CreepBulletsFired == 0 && s.BulletsExpired == 0 && s.PlayerDeaths == 0
    && s.GameTime == 0
  }

  /** The high marks and TowersAmmoOut agree. */
  predicate SameKept(s: Stats, t: Stats) {
    && s.HighScore == t.HighScore && s.HighCreepLevel == t.HighCreepLevel
    && s.HighTowerLevel == t.HighTowerLevel && s.TowersAmmoOut == t.TowersAmmoOut
  }

  /** What Reset leaves behind. */
  function ResetStats(s: Stats): (r: Stats)
    ensures CountersCleared(r)
    ensures SameKept(r, s)
  {
    s.(CreepsSpawned := 0, CreepsKilled := 0, CreepWaves := 0, TowersBuilt := 0,
       TowersKilled := 0, TowerBulletsFired := 0, CreepBulletsFired := 0,
       BulletsExpired := 0, PlayerDeaths := 0, GameTime := 0)
  }

  /** A record is determined by its kept fields once its counters are cleared. */
  lemma ClearedDetermined(s: Stats, t: Stats)
    requires CountersCleared(s) && CountersCleared(t) && SameKept(s, t)
    ensures s == t
  {
  }

  /** Resetting twice is resetting once. */
  lemma ResetIdempotent(s: Stats)
    ensures ResetStats(ResetStats(s)) == ResetStats(s)
  {
    ClearedDetermined(ResetStats(ResetStats(s)), ResetStats(s));
  }

  /** Resetting before or after bumping a counter Reset clears makes no difference. */
  lemma ResetForgetsCounters(s: Stats, t: Stats)
    requires SameKept(s, t)
    ensures ResetStats(s) == ResetStats(t)
  {
    ClearedDetermined(ResetStats(s), ResetStats(t));
  }

  class GameStats {
    var HighScore: int
    var HighCreepLevel: int
    var HighTowerLevel: int
    var CreepsSpawned: int
    var CreepsKilled: int
    var CreepWaves: int
    var TowersBuilt: int
    var TowersKilled: int
    var TowersAmmoOut: int
    var TowerBulletsFired: int
    var CreepBulletsFired: int
    var BulletsExpired: int
    var PlayerDeaths: int
    var GameTime: int

    /** The current value of every field. */
    function Snapshot(): Stats
      reads this
    {
      Stats(HighScore, HighCreepLevel, HighTowerLevel, CreepsSpawned, CreepsKilled,
            CreepWaves, TowersBuilt, TowersKilled, TowersAmmoOut, TowerBulletsFired,
            CreepBulletsFired, BulletsExpired, PlayerDeaths, GameTime)
    }

    /** NewGameStats: the given high marks, every counter at 0. */
    constructor (highScore: int, highCreepLevel: int, highTowerLevel: int)
      ensures Snapshot() == Zero.(HighScore := highScore, HighCreepLevel := highCreepLevel,
                                  HighTowerLevel := highTowerLevel)
    {
      HighScore, HighCreepLevel, HighTowerLevel := highScore, highCreepLevel, highTowerLevel;
      CreepsSpawned, CreepsKilled, CreepWaves, TowersBuilt, TowersKilled := 0, 0, 0, 0, 0;
      TowersAmmoOut, TowerBulletsFired, CreepBulletsFired, BulletsExpired := 0, 0, 0, 0;
      PlayerDeaths, GameTime := 0, 0;
    }

    method UpdateCreepsSpawned(count: int)
      modifies this
      ensures Snapshot() == old(Snapshot()).(CreepsSpawned := old(CreepsSpawned) + count)
    {
      CreepsSpawned := CreepsSpawned + count;
    }

    method UpdateCreepsKilled()
      modifies this
      ensures Snapshot() == old(Snapshot()).(CreepsKilled := old(CreepsKilled) + 1)
    {
      CreepsKilled := CreepsKilled + 1;
    }

    method UpdateCreepWaves()
      modifies this
      ensures Snapshot() == old(Snapshot()).(CreepWaves := old(CreepWaves) + 1)
    {
      CreepWaves := CreepWaves + 1;
    }

    method UpdateTowersBuilt()
      modifies this
      ensures Snapshot() == old(Snapshot()).(TowersBuilt := old(TowersBuilt) + 1)
    {
      TowersBuilt := TowersBuilt + 1;
    }

    method UpdateTowersKilled()
      modifies this
      ensures Snapshot() == old(Snapshot()).(TowersKilled := old(TowersKilled) + 1)
    {
      TowersKilled := TowersKilled + 1;
    }

    method UpdateTowersAmmoOut()
      modifies this
      ensures Snapshot() == old(Snapshot()).(TowersAmmoOut := old(TowersAmmoOut) + 1)
    {
      TowersAmmoOut := TowersAmmoOut + 1;
    }

    method UpdateTowerBulletsFired()
      modifies this
      ensures Snapshot() == old(Snapshot()).(TowerBulletsFired := old(TowerBulletsFired) + 1)
    {
      TowerBulletsFired := TowerBulletsFired + 1;
    }

    method UpdateCreepBulletsFired()
      modifies this
      ensures Snapshot() == old(Snapshot()).(CreepBulletsFired := old(CreepBulletsFired) + 1)
    {
      CreepBulletsFired := CreepBulletsFired + 1;
    }

    method UpdateBulletsExpired()
      modifies this
      ensures Snapshot() == old(Snapshot()).(BulletsExpired := old(BulletsExpired) + 1)
    {
      BulletsExpired := BulletsExpired + 1;
    }

    method UpdatePlayerDeaths()
      modifies this
      ensures Snapshot() == old(Snapshot()).(PlayerDeaths := old(PlayerDeaths) + 1)
    {
      PlayerDeaths := PlayerDeaths + 1;
    }

    /** Reset: a new game's counters; the high marks and TowersAmmoOut stay. */
    method Reset()
      modifies this
      ensures Snapshot() == ResetStats(old(Snapshot()))
    {
      CreepsSpawned, CreepsKilled, CreepWaves, TowersBuilt, TowersKilled := 0, 0, 0, 0, 0;
      TowerBulletsFired, CreepBulletsFired, BulletsExpired, PlayerDeaths := 0, 0, 0, 0;
      GameTime := 0;
      assert Snapshot() == Stats(HighScore, HighCreepLevel, HighTowerLevel, 0, 0, 0, 0, 0, TowersAmmoOut, 0, 0, 0, 0, 0);
    }
  }
}
