/**
 * The score file of game/game.go: LoadScores reads key=value lines into a
 * GameStats, SaveScores writes one, and switchToTitle folds a finished
 * game's high marks into the kept statistics before saving them.
 *
 * The file is modelled by its text content (None when it cannot be read);
 * time.ParseDuration and the %v rendering of the game's duration are
 * parameters.
 */
module Scores {
  import opened Wrappers
  import opened Strconv
  import opened Stats

  /** time.ParseDuration's value in nanoseconds (0 when it reports an error). */
  type DurationParser = string -> int

  /** parseScore: Atoi's value, which is also what it yields on an error (it only warns). */
  function ParseScore(v: string): int {
    Atoi(v).value
  }

  /** The cases of the loader's switch, one per field it fills. */
  datatype Key =
    | Score | CreepLevel | TowerLevel | CreepsSpawned | CreepsKilled | CreepWaves
    | TowersBuilt | TowersKilled | TowerBulletsFired | CreepBulletsFired
    | BulletsExpired | PlayerDeaths | GameTime

  /** The case label of each key. */
  function KeyName(k: Key): string {
    match k
    case Score => "score"
    case CreepLevel => "creepLevel"
    case TowerLevel => "towerLevel"
    case CreepsSpawned => "creepsSpawned"
    case CreepsKilled => "creepsKilled"
    case CreepWaves => "creepWaves"
    case TowersBuilt => "towersBuilt"
    case TowersKilled => "towersKilled"
    case TowerBulletsFired => "towerBulletsFired"
    case CreepBulletsFired => "creepBulletsFired"
    case BulletsExpired => "bulletsExpired"
    case PlayerDeaths => "playerDeaths"
    case GameTime => "gameTime"
  }

  /** The switch on the text before '=': the case it selects, if any. */
  function KeyOf(name: string): Option<Key> {
    if name == "score" then Some(Score)
    else if name == "creepLevel" then Some(CreepLevel)
    else if name == "towerLevel" then Some(TowerLevel)
    else if name == "creepsSpawned" then Some(CreepsSpawned)
    else if name == "creepsKilled" then Some(CreepsKilled)
    else if name == "creepWaves" then Some(CreepWaves)
    else if name == "towersBuilt" then Some(TowersBuilt)
    else if name == "towersKilled" then Some(TowersKilled)
    else if name == "towerBulletsFired" then Some(TowerBulletsFired)
    else if name == "creepBulletsFired" then Some(CreepBulletsFired)
    else if name == "bulletsExpired" then Some(BulletsExpired)
    else if name == "playerDeaths" then Some(PlayerDeaths)
    else if name == "gameTime" then Some(GameTime)
    else None
  }

  /** Every case label selects its own case, and holds neither separator. */
  lemma KeyNames(k: Key)
    ensures KeyOf(KeyName(k)) == Some(k)
    ensures '=' !in KeyName(k) && '\n' !in KeyName(k)
  {
    NoEqualsInKeyName(k);
    NoNewlineInKeyName(k);
  }

  /** No case label holds the separator of a line's key and value. */
  lemma NoEqualsInKeyName(k: Key)
    ensures '=' !in KeyName(k)
  {
  }

  /** No case label holds the line separator. */
  lemma NoNewlineInKeyName(k: Key)
    ensures '\n' !in KeyName(k)
  {
  }

  /** The labels SaveScores writes that have no case. */
  lemma UnknownNames()
    ensures KeyOf("towersAmmoOut").None? && '=' !in "towersAmmoOut" && '\n' !in "towersAmmoOut"
    ensures KeyOf("creepbulletsFired").None? && '=' !in "creepbulletsFired" && '\n' !in "creepbulletsFired"
  {
  }

  /** The player-deaths line as written holds neither separator. */
  lemma BareDeathsLine(n: int)
    ensures '=' !in "playerDeaths" + Itoa(n) && '\n' !in "playerDeaths" + Itoa(n)
  {
    ItoaNoSeparators(n);
  }

  /** The field a key fills. */
  function Field(s: Stats, k: Key): int {
    match k
    case Score => s.HighScore
    case CreepLevel => s.HighCreepLevel
    case TowerLevel => s.HighTowerLevel
    case CreepsSpawned => s.CreepsSpawned
    case CreepsKilled => s.CreepsKilled
    case CreepWaves => s.CreepWaves
    case TowersBuilt => s.TowersBuilt
    case TowersKilled => s.TowersKilled
    case TowerBulletsFired => s.TowerBulletsFired
    case CreepBulletsFired => s.CreepBulletsFired
    case BulletsExpired => s.BulletsExpired
    case PlayerDeaths => s.PlayerDeaths
    case GameTime => s.GameTime
  }

  /** The record with one field replaced. */
  function With(s: Stats, k: Key, n: int): Stats {
    match k
    case Score => s.(HighScore := n)
    case CreepLevel => s.(HighCreepLevel := n)
    case TowerLevel => s.(HighTowerLevel := n)
    case CreepsSpawned => s.(CreepsSpawned := n)
    case CreepsKilled => s.(CreepsKilled := n)
    case CreepWaves => s.(CreepWaves := n)
    case TowersBuilt => s.(TowersBuilt := n)
    case TowersKilled => s.(TowersKilled := n)
    case TowerBulletsFired => s.(TowerBulletsFired := n)
    case CreepBulletsFired => s.(CreepBulletsFired := n)
    case BulletsExpired => s.(BulletsExpired := n)
    case PlayerDeaths => s.(PlayerDeaths := n)
    case GameTime => s.(GameTime := n)
  }

  /** Replacing a field sets that field and no other; TowersAmmoOut is never one of them. */
  lemma WithEffects(s: Stats, k: Key, n: int)
    ensures Field(With(s, k, n), k) == n
    ensures forall j: Key :: j != k ==> Field(With(s, k, n), j) == Field(s, j)
    ensures With(s, k, n).TowersAmmoOut == s.TowersAmmoOut
  {
  }

  /** One case of the switch: Atoi's value, or the parsed duration for the game time. */
  function Assign(s: Stats, k: Key, v: string, pd: DurationParser): Stats {
    With(s, k, if k == GameTime then pd(v) else ParseScore(v))
  }

  /** The assignment the loop body makes for this case. */
  method SetField(gs: GameStats, k: Key, v: string, pd: DurationParser)
    modifies gs
    ensures gs.Snapshot() == Assign(old(gs.Snapshot()), k, v, pd)
  {
    match k
    case Score => gs.HighScore := ParseScore(v);
    case CreepLevel => gs.HighCreepLevel := ParseScore(v);
    case TowerLevel => gs.HighTowerLevel := ParseScore(v);
    case CreepsSpawned => gs.CreepsSpawned := ParseScore(v);
    case CreepsKilled => gs.CreepsKilled := ParseScore(v);
    case CreepWaves => gs.CreepWaves := ParseScore(v);
    case TowersBuilt => gs.TowersBuilt := ParseScore(v);
    case TowersKilled => gs.TowersKilled := ParseScore(v);
    case TowerBulletsFired => gs.TowerBulletsFired := ParseScore(v);
    case CreepBulletsFired => gs.CreepBulletsFired := ParseScore(v);
    case BulletsExpired => gs.BulletsExpired := ParseScore(v);
    case PlayerDeaths => gs.PlayerDeaths := ParseScore(v);
    case GameTime => gs.GameTime := pd(v);
  }

  /** One line: it counts only if it splits into exactly two parts on '=' and names a case. */
  function ApplyLine(s: Stats, line: string, pd: DurationParser): Stats {
    var values := Split(line, '=');
    if |values| != 2 then s
    else match KeyOf(values[0])
      case None => s
      case Some(k) => Assign(s, k, values[1], pd)
  }

  /** The lines in file order. */
  function ApplyLines(s: Stats, lines: seq<string>, pd: DurationParser): Stats
    decreases |lines|
  {
    if lines == [] then s else ApplyLines(ApplyLine(s, lines[0], pd), lines[1..], pd)
  }

  /** What LoadScores returns for the file's content: all zero when there is none. */
  function LoadedStats(content: Option<string>, pd: DurationParser): Stats {
    match content
    case None => Zero
    case Some(text) => ApplyLines(Zero, Split(text, '\n'), pd)
  }

  /** LoadScores: a fresh GameStats filled in line by line. */
  method LoadScores(content: Option<string>, pd: DurationParser) returns (gs: GameStats)
    ensures fresh(gs) && gs.Snapshot() == LoadedStats(content, pd)
  {
    gs := new GameStats(0, 0, 0);
    if content.Some? {
      var lines := Split(content.value, '\n');
      var i := 0;
      while i < |lines|
        invariant 0 <= i <= |lines|
        invariant ApplyLines(gs.Snapshot(), lines[i..], pd) == LoadedStats(content, pd)
      {
        ghost var before := gs.Snapshot();
        var values := Split(lines[i], '=');
        if |values| == 2 {
          var key := KeyOf(values[0]);
          if key.Some? {
            SetField(gs, key.value, values[1], pd);
          }
        }
        assert gs.Snapshot() == ApplyLine(before, lines[i], pd);
        assert lines[i..][1..] == lines[i + 1..];
        i := i + 1;
      }
    }
  }

  // ---------------------------------------------------------------------
  // Properties of the loader
  // ---------------------------------------------------------------------

  /** A key=value line with a single '=' is the switch case of its key. */
  lemma {:induction false} KeyLine(s: Stats, name: string, v: string, pd: DurationParser)
    requires '=' !in name && '=' !in v
    ensures ApplyLine(s, name + "=" + v, pd)
         == match KeyOf(name) case None => s case Some(k) => Assign(s, k, v, pd)
  {
    SplitCons(name, '=', v);
    SplitPiece(v, '=');
  }

  /** A line without '=' is skipped. */
  lemma {:induction false} LineWithoutSeparatorSkipped(s: Stats, line: string, pd: DurationParser)
    requires '=' !in line
    ensures ApplyLine(s, line, pd) == s
  {
    SplitPiece(line, '=');
  }

  /** A line with two '=' is skipped too: it splits into three parts or more. */
  lemma {:induction false} LineWithTwoSeparatorsSkipped(s: Stats, a: string, b: string, c: string, pd: DurationParser)
    requires '=' !in a && '=' !in b
    ensures ApplyLine(s, a + "=" + b + "=" + c, pd) == s
  {
    SplitCons(a, '=', b + "=" + c);
    SplitCons(b, '=', c);
    assert a + "=" + b + "=" + c == a + ['='] + (b + ['='] + c);
  }

  /** A line whose key has no case is ignored. */
  lemma {:induction false} UnknownKeyIgnored(s: Stats, name: string, v: string, pd: DurationParser)
    requires '=' !in name && '=' !in v && KeyOf(name).None?
    ensures ApplyLine(s, name + "=" + v, pd) == s
  {
    KeyLine(s, name, v, pd);
  }

  /**
   * A value Atoi cannot read loads as what Atoi yields on the error: 0, or the
   * 64-bit bound when its leading digits overflow; the warning is the only
   * other effect.
   */
  lemma {:induction false} NonNumericLoadsZero(s: Stats, k: Key, v: string, pd: DurationParser)
    requires k != GameTime && '=' !in v
    requires |v| >= 1 && !IsDigit(v[|v| - 1])
    ensures Field(ApplyLine(s, KeyName(k) + "=" + v, pd), k) == if RunOverflows(v) then Bound(v) else 0
  {
    KeyNames(k);
    KeyLine(s, KeyName(k), v, pd);
    AtoiSyntaxError(v);
    WithEffects(s, k, if RunOverflows(v) then Bound(v) else 0);
  }

  /** Loading lines one after another: the lines of a, then those of b. */
  lemma {:induction false} ApplyLinesAppend(s: Stats, a: seq<string>, b: seq<string>, pd: DurationParser)
    ensures ApplyLines(s, a + b, pd) == ApplyLines(ApplyLines(s, a, pd), b, pd)
    decreases |a|
  {
    if a == [] {
      assert a + b == b;
    } else {
      assert (a + b)[0] == a[0];
      assert (a + b)[1..] == a[1..] + b;
      ApplyLinesAppend(ApplyLine(s, a[0], pd), a[1..], b, pd);
    }
  }

  /** The line is one the switch sends to this key's case. */
  ghost predicate SetsKey(line: string, k: Key) {
    var values := Split(line, '=');
    |values| == 2 && KeyOf(values[0]) == Some(k)
  }

  /** A line that does not set a key leaves that key's field alone. */
  lemma {:induction false} OtherLineKeeps(s: Stats, line: string, k: Key, pd: DurationParser)
    requires !SetsKey(line, k)
    ensures Field(ApplyLine(s, line, pd), k) == Field(s, k)
  {
    var values := Split(line, '=');
    if |values| == 2 && KeyOf(values[0]).Some? {
      var j := KeyOf(values[0]).value;
      WithEffects(s, j, if j == GameTime then pd(values[1]) else ParseScore(values[1]));
    }
  }

  /** Lines none of which sets the key leave its field alone. */
  lemma {:induction false} OtherLinesKeep(s: Stats, lines: seq<string>, k: Key, pd: DurationParser)
    requires forall i :: 0 <= i < |lines| ==> !SetsKey(lines[i], k)
    ensures Field(ApplyLines(s, lines, pd), k) == Field(s, k)
    decreases |lines|
  {
    if lines != [] {
      OtherLineKeeps(s, lines[0], k, pd);
      OtherLinesKeep(ApplyLine(s, lines[0], pd), lines[1..], k, pd);
    }
  }

  /** The last line that sets a counter decides it, whatever came before. */
  lemma {:induction false} LastLineWins(s: Stats, before: seq<string>, k: Key, v: string, after: seq<string>, pd: DurationParser)
    requires k != GameTime && '=' !in v
    requires forall i :: 0 <= i < |after| ==> !SetsKey(after[i], k)
    ensures Field(ApplyLines(s, before + [KeyName(k) + "=" + v] + after, pd), k) == Atoi(v).value
  {
    var line := KeyName(k) + "=" + v;
    ApplyLinesAppend(s, before + [line], after, pd);
    ApplyLinesAppend(s, before, [line], pd);
    var t := ApplyLines(s, before, pd);
    assert ApplyLines(t, [line], pd) == ApplyLine(t, line, pd) by {
      assert [line][1..] == [];
    }
    KeyNames(k);
    KeyLine(t, KeyName(k), v, pd);
    WithEffects(t, k, ParseScore(v));
    OtherLinesKeep(ApplyLine(t, line, pd), after, k, pd);
  }

  /** An empty file, like a missing one, gives all-zero statistics. */
  lemma EmptyContentZero(pd: DurationParser)
    ensures LoadedStats(None, pd) == Zero
    ensures LoadedStats(Some(""), pd) == Zero
  {
    LineWithoutSeparatorSkipped(Zero, "", pd);
  }

  // ---------------------------------------------------------------------
  // SaveScores
  // ---------------------------------------------------------------------

  /** Lines each followed by a newline, as the format string writes them. */
  function Terminated(lines: seq<string>): string
    decreases |lines|
  {
    if lines == [] then "" else lines[0] + "\n" + Terminated(lines[1..])
  }

  /** Newline-terminated lines split back into themselves and one empty last piece. */
  lemma {:induction false} SplitTerminated(lines: seq<string>)
    requires forall k :: 0 <= k < |lines| ==> '\n' !in lines[k]
    ensures Split(Terminated(lines), '\n') == lines + [""]
    decreases |lines|
  {
    if lines != [] {
      SplitCons(lines[0], '\n', Terminated(lines[1..]));
      SplitTerminated(lines[1..]);
      assert [lines[0]] + (lines[1..] + [""]) == lines + [""];
    }
  }

  /** A printed number holds neither separator. */
  lemma ItoaNoSeparators(n: int)
    ensures '=' !in Itoa(n) && '\n' !in Itoa(n)
  {
    var s := Itoa(n);
    if n < 0 {
      assert forall k :: 1 <= k < |s| ==> IsDigit(s[k]) by {
        forall k | 1 <= k < |s| ensures IsDigit(s[k]) { assert s[k] == s[1..][k - 1]; }
      }
    }
  }

  /** The numbers the file stores fit the 64-bit int that Atoi reads. */
  predicate StoredInRange(s: Stats) {
    && MinInt64 <= s.HighScore <= MaxInt64
    && MinInt64 <= s.HighCreepLevel <= MaxInt64
    && MinInt64 <= s.HighTowerLevel <= MaxInt64
    && MinInt64 <= s.CreepsSpawned <= MaxInt64
    && MinInt64 <= s.CreepsKilled <= MaxInt64
    && MinInt64 <= s.CreepWaves <= MaxInt64
    && MinInt64 <= s.TowersBuilt <= MaxInt64
    && MinInt64 <= s.TowersKilled <= MaxInt64
    && MinInt64 <= s.TowerBulletsFired <= MaxInt64
    && MinInt64 <= s.CreepBulletsFired <= MaxInt64
    && MinInt64 <= s.BulletsExpired <= MaxInt64
    && MinInt64 <= s.PlayerDeaths <= MaxInt64
  }

  /** A key=number line. */
  function Entry(k: Key, n: int): string {
    KeyName(k) + "=" + Itoa(n)
  }

  /** No line holds the line separator. */
  predicate NewlineFree(lines: seq<string>) {
    forall k :: 0 <= k < |lines| ==> '\n' !in lines[k]
  }

  lemma NewlineFreeAppend(a: seq<string>, b: seq<string>)
    requires NewlineFree(a) && NewlineFree(b)
    ensures NewlineFree(a + b)
  {
    forall k | 0 <= k < |a + b| ensures '\n' !in (a + b)[k] {
      if k >= |a| {
        assert (a + b)[k] == b[k - |a|];
      }
    }
  }

  /** A key=number line as SaveScores writes it holds neither separator except its one '='. */
  lemma EntryNewlineFree(k: Key, n: int)
    ensures '\n' !in Entry(k, n)
  {
    KeyNames(k);
    ItoaNoSeparators(n);
  }

  /** Loading the first line, then the rest. */
  lemma {:induction false} ApplyFront(s: Stats, line: string, rest: seq<string>, pd: DurationParser)
    ensures ApplyLines(s, [line] + rest, pd) == ApplyLines(ApplyLine(s, line, pd), rest, pd)
  {
    assert ([line] + rest)[0] == line;
    assert ([line] + rest)[1..] == rest;
  }

  /** A key=number line as SaveScores writes it loads the number back. */
  lemma {:induction false} EntryApplies(s: Stats, k: Key, n: int, rest: seq<string>, pd: DurationParser)
    requires k != GameTime && MinInt64 <= n <= MaxInt64
    ensures ApplyLines(s, [Entry(k, n)] + rest, pd) == ApplyLines(With(s, k, n), rest, pd)
  {
    KeyNames(k);
    ItoaNoSeparators(n);
    ApplyFront(s, Entry(k, n), rest, pd);
    KeyLine(s, KeyName(k), Itoa(n), pd);
    AtoiItoa(n);
  }

  /** Four key=number lines load their numbers in order. */
  lemma {:induction false} FourEntriesApply(t: Stats, k1: Key, n1: int, k2: Key, n2: int, k3: Key, n3: int, k4: Key, n4: int,
                                            rest: seq<string>, pd: DurationParser)
    requires k1 != GameTime && k2 != GameTime && k3 != GameTime && k4 != GameTime
    requires MinInt64 <= n1 <= MaxInt64 && MinInt64 <= n2 <= MaxInt64
    requires MinInt64 <= n3 <= MaxInt64 && MinInt64 <= n4 <= MaxInt64
    ensures ApplyLines(t, [Entry(k1, n1), Entry(k2, n2), Entry(k3, n3), Entry(k4, n4)] + rest, pd)
         == ApplyLines(With(With(With(With(t, k1, n1), k2, n2), k3, n3), k4, n4), rest, pd)
  {
    var r3 := [Entry(k4, n4)] + rest;
    var r2 := [Entry(k3, n3)] + r3;
    var r1 := [Entry(k2, n2)] + r2;
    assert [Entry(k1, n1), Entry(k2, n2), Entry(k3, n3), Entry(k4, n4)] + rest == [Entry(k1, n1)] + r1;
    EntryApplies(t, k1, n1, r1, pd);
    EntryApplies(With(t, k1, n1), k2, n2, r2, pd);
    EntryApplies(With(With(t, k1, n1), k2, n2), k3, n3, r3, pd);
    EntryApplies(With(With(With(t, k1, n1), k2, n2), k3, n3), k4, n4, rest, pd);
  }

  /** Three key=number lines load their numbers in order. */
  lemma {:induction false} ThreeEntriesApply(t: Stats, k1: Key, n1: int, k2: Key, n2: int, k3: Key, n3: int,
                                             rest: seq<string>, pd: DurationParser)
    requires k1 != GameTime && k2 != GameTime && k3 != GameTime
    requires MinInt64 <= n1 <= MaxInt64 && MinInt64 <= n2 <= MaxInt64 && MinInt64 <= n3 <= MaxInt64
    ensures ApplyLines(t, [Entry(k1, n1), Entry(k2, n2), Entry(k3, n3)] + rest, pd)
         == ApplyLines(With(With(With(t, k1, n1), k2, n2), k3, n3), rest, pd)
  {
    var r2 := [Entry(k3, n3)] + rest;
    var r1 := [Entry(k2, n2)] + r2;
    assert [Entry(k1, n1), Entry(k2, n2), Entry(k3, n3)] + rest == [Entry(k1, n1)] + r1;
    EntryApplies(t, k1, n1, r1, pd);
    EntryApplies(With(t, k1, n1), k2, n2, r2, pd);
    EntryApplies(With(With(t, k1, n1), k2, n2), k3, n3, rest, pd);
  }

  /** A line whose label has no case loads nothing. */
  lemma {:induction false} UnknownLineApplies(s: Stats, name: string, n: int, rest: seq<string>, pd: DurationParser)
    requires KeyOf(name).None? && '=' !in name
    ensures ApplyLines(s, [name + "=" + Itoa(n)] + rest, pd) == ApplyLines(s, rest, pd)
  {
    ItoaNoSeparators(n);
    ApplyFront(s, name + "=" + Itoa(n), rest, pd);
    KeyLine(s, name, Itoa(n), pd);
  }

  /** A line without '=' loads nothing. */
  lemma {:induction false} BareLineApplies(s: Stats, line: string, rest: seq<string>, pd: DurationParser)
    requires '=' !in line
    ensures ApplyLines(s, [line] + rest, pd) == ApplyLines(s, rest, pd)
  {
    ApplyFront(s, line, rest, pd);
    LineWithoutSeparatorSkipped(s, line, pd);
  }

  /** The game-time line goes through the duration parser. */
  lemma {:induction false} TimeApplies(s: Stats, dur: string, rest: seq<string>, pd: DurationParser)
    requires '=' !in dur
    ensures ApplyLines(s, [KeyName(GameTime) + "=" + dur] + rest, pd) == ApplyLines(s.(GameTime := pd(dur)), rest, pd)
  {
    KeyNames(GameTime);
    ApplyFront(s, KeyName(GameTime) + "=" + dur, rest, pd);
    KeyLine(s, KeyName(GameTime), dur, pd);
  }

  /** The piece after the last newline loads nothing. */
  lemma ApplyEnd(s: Stats, pd: DurationParser)
    ensures ApplyLines(s, [""], pd) == s
  {
    ApplyFront(s, "", [], pd);
    LineWithoutSeparatorSkipped(s, "", pd);
  }

  /** The lines of the three high marks and the spawned creeps. */
  function Group1(s: Stats): seq<string> {
    [ Entry(Score, s.HighScore), Entry(CreepLevel, s.HighCreepLevel),
      Entry(TowerLevel, s.HighTowerLevel), Entry(CreepsSpawned, s.CreepsSpawned) ]
  }

  /** The next four counters. */
  function Group2(s: Stats): seq<string> {
    [ Entry(CreepsKilled, s.CreepsKilled), Entry(CreepWaves, s.CreepWaves),
      Entry(TowersBuilt, s.TowersBuilt), Entry(TowersKilled, s.TowersKilled) ]
  }

  /** TowersAmmoOut, which the loader has no case for, and the tower bullets. */
  function Group3(s: Stats): seq<string> {
    [ "towersAmmoOut" + "=" + Itoa(s.TowersAmmoOut), Entry(TowerBulletsFired, s.TowerBulletsFired) ]
  }

  /** The last four lines as written. */
  function Group4AsWritten(s: Stats, dur: string): seq<string> {
    [ "creepbulletsFired" + "=" + Itoa(s.CreepBulletsFired), Entry(BulletsExpired, s.BulletsExpired),
      "playerDeaths" + Itoa(s.PlayerDeaths), KeyName(GameTime) + "=" + dur ]
  }

  /** The last four lines with the loader's labels. */
  function Group4(s: Stats, dur: string): seq<string> {
    [ Entry(CreepBulletsFired, s.CreepBulletsFired), Entry(BulletsExpired, s.BulletsExpired),
      Entry(PlayerDeaths, s.PlayerDeaths), KeyName(GameTime) + "=" + dur ]
  }

  /**
   * The lines of SaveScores' format string as written: the CreepBulletsFired
   * label is spelt "creepbulletsFired", and PlayerDeaths is written without
   * its '='. dur is the %v rendering of the game's duration.
   */
  function SavedLinesAsWritten(s: Stats, dur: string): seq<string> {
    Group1(s) + (Group2(s) + (Group3(s) + Group4AsWritten(s, dur)))
  }

  function SavedContentAsWritten(s: Stats, dur: string): string {
    Terminated(SavedLinesAsWritten(s, dur))
  }

  /** The format with the loader's own labels, each followed by '='. */
  function SavedLines(s: Stats, dur: string): seq<string> {
    Group1(s) + (Group2(s) + (Group3(s) + Group4(s, dur)))
  }

  function SavedContent(s: Stats, dur: string): string {
    Terminated(SavedLines(s, dur))
  }

  /** Four key=number lines are newline-free. */
  lemma EntriesNewlineFree(k1: Key, n1: int, k2: Key, n2: int, k3: Key, n3: int, k4: Key, n4: int)
    ensures NewlineFree([Entry(k1, n1), Entry(k2, n2), Entry(k3, n3), Entry(k4, n4)])
  {
    EntryNewlineFree(k1, n1);
    EntryNewlineFree(k2, n2);
    EntryNewlineFree(k3, n3);
    EntryNewlineFree(k4, n4);
  }

  lemma Group3NewlineFree(s: Stats)
    ensures NewlineFree(Group3(s))
  {
    ItoaNoSeparators(s.TowersAmmoOut);
    EntryNewlineFree(TowerBulletsFired, s.TowerBulletsFired);
  }

  lemma Group4NewlineFree(s: Stats, dur: string)
    requires '\n' !in dur
    ensures NewlineFree(Group4(s, dur))
  {
    NoNewlineInKeyName(GameTime);
    EntryNewlineFree(CreepBulletsFired, s.CreepBulletsFired);
    EntryNewlineFree(BulletsExpired, s.BulletsExpired);
    EntryNewlineFree(PlayerDeaths, s.PlayerDeaths);
  }

  lemma Group4AsWrittenNewlineFree(s: Stats, dur: string)
    requires '\n' !in dur
    ensures NewlineFree(Group4AsWritten(s, dur))
  {
    NoNewlineInKeyName(GameTime);
    ItoaNoSeparators(s.CreepBulletsFired);
    BareDeathsLine(s.PlayerDeaths);
    EntryNewlineFree(BulletsExpired, s.BulletsExpired);
  }

  /** Every line of either format is newline-free once the duration's rendering is. */
  lemma SavedLinesNewlineFree(s: Stats, dur: string)
    requires '\n' !in dur
    ensures NewlineFree(SavedLines(s, dur)) && NewlineFree(SavedLinesAsWritten(s, dur))
  {
    EntriesNewlineFree(Score, s.HighScore, CreepLevel, s.HighCreepLevel, TowerLevel, s.HighTowerLevel,
                       CreepsSpawned, s.CreepsSpawned);
    EntriesNewlineFree(CreepsKilled, s.CreepsKilled, CreepWaves, s.CreepWaves, TowersBuilt, s.TowersBuilt,
                       TowersKilled, s.TowersKilled);
    Group3NewlineFree(s);
    Group4NewlineFree(s, dur);
    Group4AsWrittenNewlineFree(s, dur);
    NewlineFreeAppend(Group3(s), Group4(s, dur));
    NewlineFreeAppend(Group2(s), Group3(s) + Group4(s, dur));
    NewlineFreeAppend(Group1(s), Group2(s) + (Group3(s) + Group4(s, dur)));
    NewlineFreeAppend(Group3(s), Group4AsWritten(s, dur));
    NewlineFreeAppend(Group2(s), Group3(s) + Group4AsWritten(s, dur));
    NewlineFreeAppend(Group1(s), Group2(s) + (Group3(s) + Group4AsWritten(s, dur)));
  }

  /** Loading the file means loading its lines and then the empty piece after the last newline. */
  lemma LoadedLines(lines: seq<string>, pd: DurationParser)
    requires NewlineFree(lines)
    ensures LoadedStats(Some(Terminated(lines)), pd) == ApplyLines(Zero, lines + [""], pd)
  {
    SplitTerminated(lines);
  }

  lemma {:induction false} Group1Applies(t: Stats, s: Stats, rest: seq<string>, pd: DurationParser)
    requires StoredInRange(s)
    ensures ApplyLines(t, Group1(s) + rest, pd)
         == ApplyLines(t.(HighScore := s.HighScore, HighCreepLevel := s.HighCreepLevel,
                          HighTowerLevel := s.HighTowerLevel, CreepsSpawned := s.CreepsSpawned), rest, pd)
  {
    FourEntriesApply(t, Score, s.HighScore, CreepLevel, s.HighCreepLevel, TowerLevel, s.HighTowerLevel,
                     CreepsSpawned, s.CreepsSpawned, rest, pd);
    assert With(With(With(With(t, Score, s.HighScore), CreepLevel, s.HighCreepLevel), TowerLevel, s.HighTowerLevel),
                CreepsSpawned, s.CreepsSpawned)
        == t.(HighScore := s.HighScore, HighCreepLevel := s.HighCreepLevel,
              HighTowerLevel := s.HighTowerLevel, CreepsSpawned := s.CreepsSpawned);
  }

  lemma {:induction false} Group2Applies(t: Stats, s: Stats, rest: seq<string>, pd: DurationParser)
    requires StoredInRange(s)
    ensures ApplyLines(t, Group2(s) + rest, pd)
         == ApplyLines(t.(CreepsKilled := s.CreepsKilled, CreepWaves := s.CreepWaves,
                          TowersBuilt := s.TowersBuilt, TowersKilled := s.TowersKilled), rest, pd)
  {
    FourEntriesApply(t, CreepsKilled, s.CreepsKilled, CreepWaves, s.CreepWaves, TowersBuilt, s.TowersBuilt,
                     TowersKilled, s.TowersKilled, rest, pd);
    assert With(With(With(With(t, CreepsKilled, s.CreepsKilled), CreepWaves, s.CreepWaves), TowersBuilt, s.TowersBuilt),
                TowersKilled, s.TowersKilled)
        == t.(CreepsKilled := s.CreepsKilled, CreepWaves := s.CreepWaves,
              TowersBuilt := s.TowersBuilt, TowersKilled := s.TowersKilled);
  }

  lemma {:induction false} Group3Applies(t: Stats, s: Stats, rest: seq<string>, pd: DurationParser)
    requires StoredInRange(s)
    ensures ApplyLines(t, Group3(s) + rest, pd) == ApplyLines(t.(TowerBulletsFired := s.TowerBulletsFired), rest, pd)
  {
    var r1 := [Entry(TowerBulletsFired, s.TowerBulletsFired)] + rest;
    assert Group3(s) + rest == ["towersAmmoOut" + "=" + Itoa(s.TowersAmmoOut)] + r1;
    UnknownNames();
    UnknownLineApplies(t, "towersAmmoOut", s.TowersAmmoOut, r1, pd);
    EntryApplies(t, TowerBulletsFired, s.TowerBulletsFired, rest, pd);
  }

  lemma {:induction false} Group4Applies(t: Stats, s: Stats, dur: string, rest: seq<string>, pd: DurationParser)
    requires StoredInRange(s) && '=' !in dur
    ensures ApplyLines(t, Group4(s, dur) + rest, pd)
         == ApplyLines(t.(CreepBulletsFired := s.CreepBulletsFired, BulletsExpired := s.BulletsExpired,
                          PlayerDeaths := s.PlayerDeaths, GameTime := pd(dur)), rest, pd)
  {
    var r := [KeyName(GameTime) + "=" + dur] + rest;
    assert Group4(s, dur) + rest
        == [Entry(CreepBulletsFired, s.CreepBulletsFired), Entry(BulletsExpired, s.BulletsExpired),
            Entry(PlayerDeaths, s.PlayerDeaths)] + r;
    ThreeEntriesApply(t, CreepBulletsFired, s.CreepBulletsFired, BulletsExpired, s.BulletsExpired,
                      PlayerDeaths, s.PlayerDeaths, r, pd);
    assert With(With(With(t, CreepBulletsFired, s.CreepBulletsFired), BulletsExpired, s.BulletsExpired),
                PlayerDeaths, s.PlayerDeaths)
        == t.(CreepBulletsFired := s.CreepBulletsFired, BulletsExpired := s.BulletsExpired,
              PlayerDeaths := s.PlayerDeaths);
    TimeApplies(t.(CreepBulletsFired := s.CreepBulletsFired, BulletsExpired := s.BulletsExpired,
                   PlayerDeaths := s.PlayerDeaths), dur, rest, pd);
  }

  lemma {:induction false} Group4AsWrittenApplies(t: Stats, s: Stats, dur: string, rest: seq<string>, pd: DurationParser)
    requires StoredInRange(s) && '=' !in dur
    ensures ApplyLines(t, Group4AsWritten(s, dur) + rest, pd)
         == ApplyLines(t.(BulletsExpired := s.BulletsExpired, GameTime := pd(dur)), rest, pd)
  {
    var r3 := [KeyName(GameTime) + "=" + dur] + rest;
    var r2 := ["playerDeaths" + Itoa(s.PlayerDeaths)] + r3;
    var r1 := [Entry(BulletsExpired, s.BulletsExpired)] + r2;
    assert Group4AsWritten(s, dur) + rest == ["creepbulletsFired" + "=" + Itoa(s.CreepBulletsFired)] + r1;
    UnknownNames();
    UnknownLineApplies(t, "creepbulletsFired", s.CreepBulletsFired, r1, pd);
    EntryApplies(t, BulletsExpired, s.BulletsExpired, r2, pd);
    var t1 := t.(BulletsExpired := s.BulletsExpired);
    BareDeathsLine(s.PlayerDeaths);
    BareLineApplies(t1, "playerDeaths" + Itoa(s.PlayerDeaths), r3, pd);
    TimeApplies(t1, dur, rest, pd);
  }

  /**
   * Loading the corrected file restores every stored field; TowersAmmoOut,
   * which the loader has no case for, comes back as 0, and the game time as
   * whatever the duration parser makes of its rendering.
   */
  lemma {:induction false} RoundTrip(s: Stats, dur: string, pd: DurationParser)
    requires StoredInRange(s) && '\n' !in dur && '=' !in dur
    ensures LoadedStats(Some(SavedContent(s, dur)), pd) == s.(TowersAmmoOut := 0, GameTime := pd(dur))
  {
    SavedLinesNewlineFree(s, dur);
    LoadedLines(SavedLines(s, dur), pd);
    var r3 := Group4(s, dur) + [""];
    var r2 := Group3(s) + r3;
    var r1 := Group2(s) + r2;
    assert SavedLines(s, dur) + [""] == Group1(s) + r1;
    var t1 := Zero.(HighScore := s.HighScore, HighCreepLevel := s.HighCreepLevel,
                    HighTowerLevel := s.HighTowerLevel, CreepsSpawned := s.CreepsSpawned);
    Group1Applies(Zero, s, r1, pd);
    var t2 := t1.(CreepsKilled := s.CreepsKilled, CreepWaves := s.CreepWaves,
                  TowersBuilt := s.TowersBuilt, TowersKilled := s.TowersKilled);
    Group2Applies(t1, s, r2, pd);
    var t3 := t2.(TowerBulletsFired := s.TowerBulletsFired);
    Group3Applies(t2, s, r3, pd);
    var t4 := t3.(CreepBulletsFired := s.CreepBulletsFired, BulletsExpired := s.BulletsExpired,
                  PlayerDeaths := s.PlayerDeaths, GameTime := pd(dur));
    Group4Applies(t3, s, dur, [""], pd);
    ApplyEnd(t4, pd);
  }

  /**
   * Loading the file as SaveScores writes it: besides TowersAmmoOut, the
   * creep bullets and the player deaths come back as 0, because their lines
   * do not reach the loader's cases for them.
   */
  lemma {:induction false} SaveAsWrittenLosesCounters(s: Stats, dur: string, pd: DurationParser)
    requires StoredInRange(s) && '\n' !in dur && '=' !in dur
    ensures LoadedStats(Some(SavedContentAsWritten(s, dur)), pd)
         == s.(TowersAmmoOut := 0, CreepBulletsFired := 0, PlayerDeaths := 0, GameTime := pd(dur))
  {
    SavedLinesNewlineFree(s, dur);
    LoadedLines(SavedLinesAsWritten(s, dur), pd);
    var r3 := Group4AsWritten(s, dur) + [""];
    var r2 := Group3(s) + r3;
    var r1 := Group2(s) + r2;
    assert SavedLinesAsWritten(s, dur) + [""] == Group1(s) + r1;
    var t1 := Zero.(HighScore := s.HighScore, HighCreepLevel := s.HighCreepLevel,
                    HighTowerLevel := s.HighTowerLevel, CreepsSpawned := s.CreepsSpawned);
    Group1Applies(Zero, s, r1, pd);
    var t2 := t1.(CreepsKilled := s.CreepsKilled, CreepWaves := s.CreepWaves,
                  TowersBuilt := s.TowersBuilt, TowersKilled := s.TowersKilled);
    Group2Applies(t1, s, r2, pd);
    var t3 := t2.(TowerBulletsFired := s.TowerBulletsFired);
    Group3Applies(t2, s, r3, pd);
    var t4 := t3.(BulletsExpired := s.BulletsExpired, GameTime := pd(dur));
    Group4AsWrittenApplies(t3, s, dur, [""], pd);
    ApplyEnd(t4, pd);
  }

  /** So a game with one creep bullet fired reloads with none. */
  lemma CreepBulletLost(pd: DurationParser)
    ensures LoadedStats(Some(SavedContentAsWritten(Zero.(CreepBulletsFired := 1), "0s")), pd).CreepBulletsFired == 0
  {
    SaveAsWrittenLosesCounters(Zero.(CreepBulletsFired := 1), "0s", pd);
  }

  // ---------------------------------------------------------------------
  // The game object's kept statistics
  // ---------------------------------------------------------------------

  /** The larger of two high marks. */
  function Max(a: int, b: int): (m: int)
    ensures m >= a && m >= b && (m == a || m == b)
  {
    if b > a then b else a
  }

  /** The kept statistics after a finished game's high marks are folded in. */
  function MergeHighMarks(kept: Stats, finished: Stats): (r: Stats)
    ensures r.HighScore == Max(kept.HighScore, finished.HighScore)
    ensures r.HighCreepLevel == Max(kept.HighCreepLevel, finished.HighCreepLevel)
    ensures r.HighTowerLevel == Max(kept.HighTowerLevel, finished.HighTowerLevel)
    ensures r.(HighScore := kept.HighScore, HighCreepLevel := kept.HighCreepLevel,
               HighTowerLevel := kept.HighTowerLevel) == kept
  {
    kept.(HighScore := Max(kept.HighScore, finished.HighScore),
          HighCreepLevel := Max(kept.HighCreepLevel, finished.HighCreepLevel),
          HighTowerLevel := Max(kept.HighTowerLevel, finished.HighTowerLevel))
  }

  /** Merging only raises the marks, and merging the same game twice changes nothing more. */
  lemma MergeIdempotent(kept: Stats, finished: Stats)
    ensures MergeHighMarks(MergeHighMarks(kept, finished), finished) == MergeHighMarks(kept, finished)
    ensures MergeHighMarks(kept, kept) == kept
  {
  }

  /** GameData, as far as the score file goes. */
  class Game {
    var gameStats: GameStats

    /** NewGame: the statistics come from the score file. */
    constructor (content: Option<string>, pd: DurationParser)
      ensures gameStats.Snapshot() == LoadedStats(content, pd)
    {
      var gs := LoadScores(content, pd);
      gameStats := gs;
    }

    /**
     * SaveScores: the text that goes to the score file, with the labels as
     * they are written (so SaveAsWrittenLosesCounters describes reading it back).
     */
    function SaveScores(dur: string): (text: string)
      reads this, gameStats
    {
      SavedContentAsWritten(gameStats.Snapshot(), dur)
    }

    /**
     * switchToTitle: statistics other than the kept ones have their high
     * marks folded in and the result is saved; the kept ones themselves
     * change nothing and nothing is saved.
     */
    method SwitchToTitle(finished: GameStats, dur: string) returns (saved: Option<string>)
      modifies gameStats
      ensures gameStats == old(gameStats)
      ensures finished != gameStats ==>
        && gameStats.Snapshot() == MergeHighMarks(old(gameStats.Snapshot()), old(finished.Snapshot()))
        && saved == Some(SavedContentAsWritten(gameStats.Snapshot(), dur))
      ensures finished == gameStats ==> gameStats.Snapshot() == old(gameStats.Snapshot()) && saved.None?
    {
      saved := None;
      if finished != gameStats {
        if finished.HighScore > gameStats.HighScore {
          gameStats.HighScore := finished.HighScore;
        }
        if finished.HighCreepLevel > gameStats.HighCreepLevel {
          gameStats.HighCreepLevel := finished.HighCreepLevel;
        }
        if finished.HighTowerLevel > gameStats.HighTowerLevel {
          gameStats.HighTowerLevel := finished.HighTowerLevel;
        }
        saved := Some(SaveScores(dur));
      }
    }
  }
}
