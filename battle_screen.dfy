/**
 * The battle screen: the phase of the battle view, the ranked leaderboard it
 * builds from the engine's tanks on every tick, the visibility of its parts as
 * a function of the phase and the renderer quality, and the forwarding of the
 * engine's finish and error events to the screen's owner.
 */
module BattleScreen {
  import opened Wrappers
  import opened Engine

  /** The stage of the battle view. */
  datatype Phase = Loading | Battle

  /** One leaderboard row; `rank` is absent until the rows have been sorted. */
  datatype TankSnapshot = TankSnapshot(
    id: int,
    name: string,
    debug: EngineData,
    state: EngineData,
    score: int,
    energy: real,
    rank: Option<nat>)

  // ---------------------------------------------------------------------------
  // Ranking

  /** The row built for one engine tank, field by field, not yet ranked. */
  function Row(tank: TankState): (row: TankSnapshot)
    ensures row.id == tank.id && row.name == tank.fullName && row.score == tank.score
    ensures row.debug == tank.debugData && row.state == tank.state && row.energy == tank.energy
    ensures row.rank == None
  {
    TankSnapshot(tank.id, tank.fullName, tank.debugData, tank.state, tank.score, tank.energy, None)
  }

  /** The `map` over the engine's tank list: one unranked row per tank, in order. */
  function Rows(tanks: seq<TankState>): (rows: seq<TankSnapshot>)
    ensures |rows| == |tanks|
    ensures forall i :: 0 <= i < |tanks| ==> rows[i] == Row(tanks[i]) && rows[i].rank == None
  {
    seq(|tanks|, i requires 0 <= i < |tanks| => Row(tanks[i]))
  }

  /** Best score first. */
  ghost predicate SortedByScore(rows: seq<TankSnapshot>)
  {
    forall i, j :: 0 <= i < j < |rows| ==> rows[i].score >= rows[j].score
  }

  /** Places `row` before the first row that scores less than it; the rows
      are the old ones plus `row`. */
  function Insert(row: TankSnapshot, rows: seq<TankSnapshot>): (inserted: seq<TankSnapshot>)
    ensures multiset(inserted) == multiset(rows) + multiset{row}
  {
    if rows == [] || rows[0].score <= row.score then [row] + rows
    else
      assert rows == [rows[0]] + rows[1..];
      [rows[0]] + Insert(row, rows[1..])
  }

  /** Inserting a row into rows that all score at most `bound`, when the new
      row does too, gives rows that all score at most `bound`. */
  lemma {:induction false} InsertBelow(row: TankSnapshot, rows: seq<TankSnapshot>, bound: int)
    requires row.score <= bound
    requires forall k :: 0 <= k < |rows| ==> rows[k].score <= bound
    ensures forall k :: 0 <= k < |Insert(row, rows)| ==> Insert(row, rows)[k].score <= bound
  {
    if rows != [] && rows[0].score > row.score {
      InsertBelow(row, rows[1..], bound);
    }
  }

  /** Inserting into rows sorted best score first keeps them sorted. */
  lemma {:induction false} InsertSorted(row: TankSnapshot, rows: seq<TankSnapshot>)
    requires SortedByScore(rows)
    ensures SortedByScore(Insert(row, rows))
  {
    if rows != [] && rows[0].score > row.score {
      var tail := rows[1..];
      InsertSorted(row, tail);
      InsertBelow(row, tail, rows[0].score);
      assert Insert(row, rows) == [rows[0]] + Insert(row, tail);
    }
  }

  /** A non-empty sequence's multiset is its head's plus its tail's. */
  lemma HeadTailMultiset(rows: seq<TankSnapshot>)
    requires rows != []
    ensures multiset(rows) == multiset{rows[0]} + multiset(rows[1..])
  {
    assert rows == [rows[0]] + rows[1..];
  }

  /** The array sort with comparator `b.score - a.score`, as an insertion sort:
      a permutation of its input, best score first. */
  function SortByScore(rows: seq<TankSnapshot>): (sorted: seq<TankSnapshot>)
    ensures multiset(sorted) == multiset(rows)
    ensures SortedByScore(sorted)
  {
    if rows == [] then []
    else
      var rest := SortByScore(rows[1..]);
      InsertSorted(rows[0], rest);
      HeadTailMultiset(rows);
      Insert(rows[0], rest)
  }

  /** The `for` loop that writes each row's index as its rank: every rank is
      its index and nothing else about the rows changes. */
  function WithRanks(rows: seq<TankSnapshot>): (ranked: seq<TankSnapshot>)
    ensures |ranked| == |rows|
    ensures forall i :: 0 <= i < |rows| ==> ranked[i].rank == Some(i)
    ensures forall i :: 0 <= i < |rows| ==> ranked[i].(rank := rows[i].rank) == rows[i]
  {
    seq(|rows|, i requires 0 <= i < |rows| => rows[i].(rank := Some(i)))
  }

  /** The rows with their ranks taken off again. */
  function WithoutRanks(rows: seq<TankSnapshot>): seq<TankSnapshot>
  {
    seq(|rows|, i requires 0 <= i < |rows| => rows[i].(rank := None))
  }

  /** A permutation of the mapped rows has one row per tank, none of them
      ranked, so taking off the ranks just written gives it back. */
  lemma PermutedRowsUnranked(rows: seq<TankSnapshot>, tanks: seq<TankState>)
    requires multiset(rows) == multiset(Rows(tanks))
    ensures |rows| == |tanks|
    ensures WithoutRanks(WithRanks(rows)) == rows
  {
    assert |rows| == |multiset(rows)| == |multiset(Rows(tanks))| == |tanks|;
    forall i | 0 <= i < |rows| ensures rows[i].rank == None {
      assert rows[i] in multiset(Rows(tanks));
    }
  }

  /**
   * The leaderboard built from the engine's tank list: one row per engine
   * tank (a permutation of the rows the `map` builds, once the ranks are taken
   * off), best score first, and each row's rank equal to its index.
   */
  function Ranked(tanks: seq<TankState>): (board: seq<TankSnapshot>)
    ensures |board| == |tanks|
    ensures multiset(WithoutRanks(board)) == multiset(Rows(tanks))
    ensures forall i, j :: 0 <= i < j < |tanks| ==> board[i].score >= board[j].score
    ensures forall i :: 0 <= i < |tanks| ==> board[i].rank == Some(i)
  {
    var sorted := SortByScore(Rows(tanks));
    PermutedRowsUnranked(sorted, tanks);
    WithRanks(sorted)
  }

  /** Every leaderboard row is the row of some engine tank, ranked at its index. */
  lemma RankedRowsComeFromTanks(tanks: seq<TankState>, i: nat)
    requires i < |Ranked(tanks)|
    ensures exists k :: 0 <= k < |tanks| && Ranked(tanks)[i] == Row(tanks[k]).(rank := Some(i))
  {
    var unranked := WithoutRanks(Ranked(tanks));
    assert unranked[i] in multiset(Rows(tanks));
    var k :| 0 <= k < |tanks| && Rows(tanks)[k] == unranked[i];
    assert Ranked(tanks)[i] == Row(tanks[k]).(rank := Some(i));
  }

  /** Rows scoring 10, 5 and 20 are sorted as 20, 10, 5. */
  lemma SortExample(ra: TankSnapshot, rb: TankSnapshot, rc: TankSnapshot)
    requires ra.score == 10 && rb.score == 5 && rc.score == 20
    ensures SortByScore([ra, rb, rc]) == [rc, ra, rb]
  {
    assert [rc][1..] == [];
    assert Insert(rb, [rc]) == [rc] + Insert(rb, []);
    assert [rb, rc][1..] == [rc];
    assert SortByScore([rb, rc]) == [rc, rb];
    assert [rc, rb][1..] == [rb];
    assert Insert(ra, [rc, rb]) == [rc] + Insert(ra, [rb]);
    assert [ra, rb, rc][1..] == [rb, rc];
  }

  // ---------------------------------------------------------------------------
  // Visibility

  /** What occupies the place of the scoreboard or of the debug view. */
  datatype Slot = Absent | Shown | HiddenForPerformance

  /**
   * What the screen shows: the loading text, the FPS warning, the scoreboard
   * and debug view slots, whether the debug view highlights, the scoreboard's
   * refresh interval in milliseconds, and whether the battlefield is visible.
   */
  datatype View = View(
    loadingText: bool,
    fpsWarning: bool,
    scoreboard: Slot,
    debugView: Slot,
    debugHighlight: bool,
    refreshTime: real,
    battlefieldVisible: bool)

  /**
   * The view for a phase and a renderer quality, decided as `render` does: the
   * parts start out shown and are then overridden for low quality, for the
   * loading phase and for the FPS warning, in that order.
   */
  function Visibility(phase: Phase, qualityLevel: real): (v: View)
    ensures phase == Loading ==> v.loadingText && v.scoreboard == Absent && v.debugView == Absent
    ensures phase == Battle && qualityLevel <= 0.05 ==>
      !v.loadingText && v.scoreboard == HiddenForPerformance && v.debugView == HiddenForPerformance
    ensures phase == Battle && qualityLevel > 0.05 ==>
      !v.loadingText && v.scoreboard == Shown && v.debugView == Shown
    ensures v.fpsWarning <==> phase == Battle && qualityLevel < 0.3
    ensures v.debugHighlight <==> qualityLevel > 0.66
    ensures v.battlefieldVisible <==> phase == Battle
    ensures 0.0 <= qualityLevel <= 1.0 ==> 200.0 <= v.refreshTime <= 1500.0
    ensures qualityLevel == 1.0 ==> v.refreshTime == 200.0
    ensures qualityLevel == 0.0 ==> v.refreshTime == 1500.0
  {
    var refreshTime := 200.0 + 1300.0 * (1.0 - qualityLevel);
    var highlight := qualityLevel > 0.66;
    var loading := false;
    var scoreboard := Shown;
    var debugView := Shown;
    var fpsWarn := true;
    var (scoreboard, debugView) :=
      if phase == Battle && qualityLevel <= 0.05 then (HiddenForPerformance, HiddenForPerformance)
      else (scoreboard, debugView);
    var (scoreboard, debugView, loading) :=
      if phase == Loading then (Absent, Absent, true) else (scoreboard, debugView, loading);
    var fpsWarn := if qualityLevel >= 0.3 || phase != Battle then false else fpsWarn;
    View(loading, fpsWarn, scoreboard, debugView, highlight, refreshTime, phase == Battle)
  }

  /** The refresh interval falls linearly with the quality: 1300 ms per unit. */
  lemma RefreshIsLinear(phase: Phase, q1: real, q2: real)
    ensures Visibility(phase, q1).refreshTime - Visibility(phase, q2).refreshTime == 1300.0 * (q2 - q1)
  {
  }

  /** The boundary cases of the policy. */
  lemma VisibilityExamples()
    ensures Visibility(Battle, 0.5).refreshTime == 850.0
    ensures var v := Visibility(Battle, 0.05);
      v.scoreboard == HiddenForPerformance && v.debugView == HiddenForPerformance && v.fpsWarning
    ensures var v := Visibility(Battle, 0.2); v.scoreboard == Shown && v.fpsWarning
    ensures var v := Visibility(Battle, 0.3); v.scoreboard == Shown && !v.fpsWarning
    ensures !Visibility(Battle, 0.66).debugHighlight && Visibility(Battle, 0.67).debugHighlight
  {
  }

  // ---------------------------------------------------------------------------
  // The screen

  /** The `for` loop of `updateTankList`: writes each row's index into the
      array as its rank, in place. */
  method AssignRanks(list: array<TankSnapshot>)
    modifies list
    ensures list[..] == WithRanks(old(list[..]))
  {
    for rank := 0 to list.Length
      invariant forall k :: 0 <= k < rank ==> list[k] == old(list[k]).(rank := Some(k))
      invariant forall k :: rank <= k < list.Length ==> list[k] == old(list[k])
    {
      list[rank] := list[rank].(rank := Some(rank));
    }
  }

  /** The body of `updateTankList` up to its `setState`: the mapped rows are
      sorted, copied into an array, ranked in place, and read back. */
  method BuildLeaderboard(tanks: seq<TankState>) returns (board: seq<TankSnapshot>)
    ensures board == Ranked(tanks)
  {
    var sorted := SortByScore(Rows(tanks));
    var list := new TankSnapshot[|sorted|](i requires 0 <= i < |sorted| => sorted[i]);
    assert list[..] == sorted;
    AssignRanks(list);
    board := list[..];
  }

  /** An event forwarded to the screen's owner. */
  datatype Notification = Finished(result: BattleResult) | Error(message: string)

  /** The sequence of `addTank` calls for a roster, in roster order. */
  function AddTankCalls(names: seq<string>): (calls: seq<EngineCall>)
    ensures |calls| == |names|
    ensures forall i :: 0 <= i < |names| ==> calls[i] == CallAddTank(TankDescriptor(names[i]))
  {
    seq(|names|, i requires 0 <= i < |names| => CallAddTank(TankDescriptor(names[i])))
  }

  /**
   * The battle screen's state: the phase, the renderer quality last read, the
   * time left and the leaderboard, the engine it drives, the roster and the
   * callbacks it was given, and the notifications it forwarded.
   */
  class BattleScreen {
    const battlefield: Battlefield
    const tankNameList: seq<string>
    const hasOnFinish: bool
    const hasOnError: bool
    var qualityLevel: real
    var phase: Phase
    var timeLeft: int
    var tankList: seq<TankSnapshot>
    var notifications: seq<Notification>
    /** When the leaderboard was last rebuilt (the number of engine calls made
        by then) and the engine's tanks and quality it was rebuilt from. */
    ghost var refreshedAt: nat
    ghost var refreshedTanks: seq<TankState>
    ghost var refreshedQuality: real

    /** The screen starts loading, at full quality, with no tanks listed. */
    constructor (battlefield: Battlefield, tankNameList: seq<string>, hasOnFinish: bool, hasOnError: bool)
      ensures this.battlefield == battlefield && this.tankNameList == tankNameList
      ensures this.hasOnFinish == hasOnFinish && this.hasOnError == hasOnError
      ensures phase == Loading && qualityLevel == 1.0 && timeLeft == 0 && tankList == []
      ensures notifications == []
      ensures refreshedAt == 0 && refreshedTanks == [] && refreshedQuality == 1.0
    {
      this.battlefield := battlefield;
      this.tankNameList := tankNameList;
      this.hasOnFinish := hasOnFinish;
      this.hasOnError := hasOnError;
      qualityLevel := 1.0;
      phase := Loading;
      timeLeft := 0;
      tankList := [];
      notifications := [];
      refreshedAt := 0;
      refreshedTanks := [];
      refreshedQuality := 1.0;
    }

    /** On mount the screen asks the engine to build the simulation. */
    method ComponentDidMount()
      modifies battlefield
      ensures battlefield.calls == old(battlefield.calls) + [CallBuildSimulation]
      ensures battlefield.tankList == old(battlefield.tankList)
      ensures battlefield.actualRendererQuality == old(battlefield.actualRendererQuality)
    {
      battlefield.BuildSimulation();
    }

    /**
     * On every render tick: the leaderboard is rebuilt from the engine's tanks
     * and the quality is taken from the engine.
     */
    method UpdateTankList()
      modifies this
      ensures tankList == Ranked(battlefield.tankList)
      ensures qualityLevel == battlefield.actualRendererQuality
      ensures refreshedAt == |battlefield.calls|
      ensures refreshedTanks == battlefield.tankList && refreshedQuality == battlefield.actualRendererQuality
      ensures phase == old(phase) && timeLeft == old(timeLeft) && notifications == old(notifications)
    {
      var tanks, quality := battlefield.tankList, battlefield.actualRendererQuality;
      refreshedAt := |battlefield.calls|;
      refreshedTanks := tanks;
      refreshedQuality := quality;
      tankList := BuildLeaderboard(tanks);
      qualityLevel := quality;
    }

    /**
     * When the engine is ready: every tank of the roster is added, in order,
     * the leaderboard is built, the simulation is started and the phase
     * becomes `Battle`. The leaderboard is the one built from the engine's
     * tanks after the last `addTank` call and before `start`.
     */
    method OnBattleReady()
      modifies this, battlefield
      ensures battlefield.calls == old(battlefield.calls) + AddTankCalls(tankNameList) + [CallStart]
      ensures refreshedAt == |old(battlefield.calls)| + |tankNameList|
      ensures tankList == Ranked(refreshedTanks) && qualityLevel == refreshedQuality
      ensures phase == Battle
      ensures timeLeft == old(timeLeft) && notifications == old(notifications)
    {
      for i := 0 to |tankNameList|
        invariant battlefield.calls == old(battlefield.calls) + AddTankCalls(tankNameList[..i])
        invariant phase == old(phase) && timeLeft == old(timeLeft) && notifications == old(notifications)
      {
        assert AddTankCalls(tankNameList[..i + 1]) ==
          AddTankCalls(tankNameList[..i]) + [CallAddTank(TankDescriptor(tankNameList[i]))];
        battlefield.AddTank(TankDescriptor(tankNameList[i]));
      }
      assert tankNameList[..|tankNameList|] == tankNameList;
      UpdateTankList();
      battlefield.Start();
      phase := Battle;
    }

    /** The engine's result is passed on to the owner, when it listens. */
    method OnBattleFinish(result: BattleResult)
      modifies this
      ensures notifications == if hasOnFinish then old(notifications) + [Finished(result)] else old(notifications)
      ensures phase == old(phase) && tankList == old(tankList) && qualityLevel == old(qualityLevel)
      ensures timeLeft == old(timeLeft)
    {
      if hasOnFinish {
        notifications := notifications + [Finished(result)];
      }
    }

    /** The engine's error message is passed on to the owner, when it listens. */
    method ShowError(message: string)
      modifies this
      ensures notifications == if hasOnError then old(notifications) + [Error(message)] else old(notifications)
      ensures phase == old(phase) && tankList == old(tankList) && qualityLevel == old(qualityLevel)
      ensures timeLeft == old(timeLeft)
    {
      if hasOnError {
        notifications := notifications + [Error(message)];
      }
    }
  }
}
