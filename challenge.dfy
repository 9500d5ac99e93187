/**
 * The per-player challenge engine: the ChallengeManager with the persisted ChallengeData row
 * and the friend records it writes, and the three legacy session classes (boss, story,
 * memory) plus the peak session it drives.
 */
module Challenge {
  import opened Common
  import opened Catalog
  import opened Session
  import opened Stars
  import opened Records
  import opened Phases
  import opened PeakCatalog

  datatype Retcode = RetSucc | RetChallengeNotExist | RetChallengeLineupEmpty

  /** The persisted ChallengeData row as a value. */
  datatype ChallengeRow = ChallengeRow(
    history: map<int, HistoryEntry>,
    takenRewards: map<int, set<int>>,
    instanceBlob: Option<ChallengeDataPb>,
    peakLevels: map<int, PeakLevelData>,
    peakBossLevels: map<int, PeakBossLevelData>)

  /**
   * ChallengeData: the history, the claimed reward tiers per group, the saved session (the
   * base64 of its serialized ChallengeDataPb, kept here as the record it decodes to) and the
   * peak level records.
   */
  class ChallengeData {
    var history: map<int, HistoryEntry>
    var takenRewards: map<int, set<int>>
    var instanceBlob: Option<ChallengeDataPb>
    var peakLevels: map<int, PeakLevelData>
    var peakBossLevels: map<int, PeakBossLevelData>

    constructor ()
      ensures Row() == ChallengeRow(map[], map[], None, map[], map[])
    {
      history := map[];
      takenRewards := map[];
      instanceBlob := None;
      peakLevels := map[];
      peakBossLevels := map[];
    }

    function Row(): ChallengeRow
      reads this
    {
      ChallengeRow(history, takenRewards, instanceBlob, peakLevels, peakBossLevels)
    }
  }

  /** The friend-visible records: the group statistics and the record id counter. */
  class FriendRecordData {
    var groups: map<int, GroupStatistics>
    var nextRecordId: nat

    constructor ()
      ensures Records() == FriendRecords(map[], 0)
    {
      groups := map[];
      nextRecordId := 0;
    }

    function Records(): FriendRecords
      reads this
    {
      FriendRecords(groups, nextRecordId)
    }
  }

  // ---------------------------------------------------------------------------------------
  // Sessions

  /** ChallengeBossInstance: the configuration row is fixed at creation, the record changes. */
  class BossInstance {
    const config: ChallengeConfig
    const isPartial: bool
    var data: ScoreData

    constructor (config: ChallengeConfig, data: ScoreData, isPartial: bool)
      ensures this.config == config && this.data == data && this.isPartial == isPartial
    {
      this.config := config;
      this.data := data;
      this.isPartial := isPartial;
    }

    /**
     * OnBattleStart: the countdown as round limit, the maze buff, the two boss score targets,
     * then the buff picked for the current stage when the list holds one; None when the stage
     * indexes before the list start (the indexer throws).
     */
    function OnBattleStart(): (r: Option<BattleSetup>)
      reads this
      ensures r.None? <==> data.currentStage < 1 && data.currentStage <= |data.buffs|
      ensures r.Some? ==> r.value.roundLimit == config.challengeCountDown
      ensures r.Some? ==> r.value.targets == [BattleTarget(1, 90004, 0), BattleTarget(1, 90005, 0)]
      ensures r.Some? ==> r.value.buffs == [config.mazeBuffId] + (if data.currentStage <= |data.buffs| then [data.buffs[data.currentStage - 1] as int] else [])
    {
      var setup := BaseSetup(config.challengeCountDown, config.mazeBuffId);
      WithStageBuff(setup.(targets := [BattleTarget(1, 90004, 0), BattleTarget(1, 90005, 0)]), data.buffs, data.currentStage)
    }

    /**
     * OnBattleEnd: the stage score is the sum of the battle-target progress values; a clear of
     * the last stage finishes and rates the run, saving its history and friend record; a
     * failure marks the run failed; a quit gives back the saved Mp and the start point; a win
     * saves the lineup's Mp. A result without battle-target group 1 throws on the dictionary
     * lookup before anything is written.
     */
    method OnBattleEnd(mgr: ChallengeManager, res: BattleResult, view: PlayerView) returns (quit: Option<QuitEffect>, thrown: bool)
      modifies this, mgr.data, mgr.friends
      ensures thrown <==> res.targetProgress.None?
      ensures thrown ==> quit == None && data == old(data) && unchanged(mgr.data, mgr.friends)
      ensures !thrown && ClearsStage(res, view.monstersLeft) ==>
        var scored := WithStageScore(old(data), BossStageScore(res.targetProgress.value));
        var finishing := scored.currentStage >= config.stageNum;
        var settled := if finishing then FinishScored(config, mgr.game.targets, scored) else scored;
        && data == (if res.endStatus == EndWin then settled.(savedMp := ToUInt32(view.mp.Of(mgr.lineupMode))) else settled)
        && mgr.data.Row() == (if finishing then old(mgr.data.Row()).(history := HistoryAfterAdd(old(mgr.data.history),
                                 mgr.current.IsPartial(), ToInt32(settled.challengeMazeId), ToInt32(settled.stars),
                                 TotalScore(settled), mgr.setStars))
                              else old(mgr.data.Row()))
        && mgr.friends.Records() == (if finishing then RecordAfterSave(old(mgr.friends.Records()), isPartial,
                                       BossSubject(config, settled), view.recordLineups)
                                     else old(mgr.friends.Records()))
      ensures !thrown && !ClearsStage(res, view.monstersLeft) ==>
        var scored := WithStageScore(old(data), BossStageScore(res.targetProgress.value));
        && data == (if res.endStatus == EndWin then scored.(savedMp := ToUInt32(view.mp.Of(mgr.lineupMode)))
                    else if FailsBattle(res) then scored.(curStatus := StatusFailed) else scored)
        && mgr.data.Row() == old(mgr.data.Row()) && mgr.friends.Records() == old(mgr.friends.Records())
      ensures !thrown ==> quit == (if res.endStatus == EndQuit then Some(QuitEffect(ToInt32(old(data).savedMp), old(data).startPos, old(data).startRot))
                                   else None)
    {
      if res.targetProgress.None? {
        return None, true;
      }
      thrown := false;
      var stageScore := SumProgress(res.targetProgress.value);
      if data.currentStage == 1 {
        data := data.(scoreStage1 := stageScore);
      } else {
        data := data.(scoreStage2 := stageScore);
      }
      quit := None;
      match res.endStatus {
        case EndWin =>
          if view.monstersLeft == 0 {
            AdvanceStage(mgr, view);
          }
          data := data.(savedMp := ToUInt32(view.mp.Of(mgr.lineupMode)));
        case EndQuit =>
          quit := Some(QuitEffect(ToInt32(data.savedMp), data.startPos, data.startRot));
        case _ =>
          if res.turnLimit {
            AdvanceStage(mgr, view);
          } else {
            data := data.(curStatus := StatusFailed);
          }
      }
    }

    /** The stage score of a battle: the battle-target progress values summed in 32-bit unsigned arithmetic. */
    static method SumProgress(progress: seq<uint32>) returns (stageScore: uint32)
      ensures stageScore == ToUInt32(Sum(progress))
    {
      stageScore := 0;
      var i := 0;
      while i < |progress|
        invariant 0 <= i <= |progress|
        invariant stageScore == ToUInt32(Sum(progress[..i]))
      {
        assert progress[..i + 1][..i] == progress[..i];
        ToUInt32Add(Sum(progress[..i]), progress[i]);
        stageScore := ToUInt32(stageScore + progress[i]);
        i := i + 1;
      }
      assert progress[..i] == progress;
    }

    /** AdvanceStage: on the last stage the run is finished and rated, its history and friend record saved. */
    method AdvanceStage(mgr: ChallengeManager, view: PlayerView)
      modifies this, mgr.data, mgr.friends
      ensures var finishing := old(data).currentStage >= config.stageNum;
        && data == (if finishing then FinishScored(config, mgr.game.targets, old(data)) else old(data))
        && mgr.data.Row() == (if finishing then old(mgr.data.Row()).(history := HistoryAfterAdd(old(mgr.data.history),
                                 mgr.current.IsPartial(), ToInt32(data.challengeMazeId), ToInt32(data.stars),
                                 TotalScore(data), mgr.setStars))
                              else old(mgr.data.Row()))
        && mgr.friends.Records() == (if finishing then RecordAfterSave(old(mgr.friends.Records()), isPartial,
                                       BossSubject(config, data), view.recordLineups)
                                     else old(mgr.friends.Records()))
    {
      if data.currentStage >= config.stageNum {
        Finish(mgr, view);
      }
    }

    /** The finishing branch of AdvanceStage: the run is rated by its total score, its history and friend record saved. */
    method Finish(mgr: ChallengeManager, view: PlayerView)
      modifies this, mgr.data, mgr.friends
      ensures data == FinishScored(config, mgr.game.targets, old(data))
      ensures mgr.data.Row() == old(mgr.data.Row()).(history := HistoryAfterAdd(old(mgr.data.history),
                                  mgr.current.IsPartial(), ToInt32(data.challengeMazeId), ToInt32(data.stars),
                                  TotalScore(data), mgr.setStars))
      ensures mgr.friends.Records() == RecordAfterSave(old(mgr.friends.Records()), isPartial, BossSubject(config, data), view.recordLineups)
    {
      data := data.(curStatus := StatusFinish);
      var stars := CalculateStars(config.targetIds, mgr.game.targets, ScoreMeasure(TotalScore(data)));
      data := data.(stars := stars);
      assert data == FinishScored(config, mgr.game.targets, old(data));
      assert SubjectOf(BossInst(this)) == BossSubject(config, data);
      mgr.SaveFinished(ToInt32(data.challengeMazeId), ToInt32(data.stars), TotalScore(data), BossInst(this), view.recordLineups, 1);
    }

    /**
     * NextPhase: refused on the last stage or without a second lineup; otherwise one stage on,
     * the second lineup, its Mp saved, a new start point when the second phase is another
     * scene, and the record saved.
     */
    method NextPhase(mgr: ChallengeManager, view: PlayerView) returns (entered: bool)
      modifies this, mgr, mgr.data
      ensures entered <==> old(data).currentStage < config.stageNum && view.secondLineupReady
      ensures entered ==> && data == BossPhaseTwo(config, old(data), view) && mgr.lineupMode == LineupChallenge2
                          && mgr.data.Row() == old(mgr.data.Row()).(instanceBlob := Some(BossPb(data)))
      ensures !entered ==> data == old(data) && mgr.lineupMode == old(mgr.lineupMode) && mgr.data.Row() == old(mgr.data.Row())
      ensures mgr.current == old(mgr.current)
    {
      if data.currentStage >= config.stageNum {
        return false;
      }
      if !view.secondLineupReady {
        return false;
      }
      data := data.(currentStage := data.currentStage + 1);
      var enterEntryId := if config.mapEntranceId2 != 0 then config.mapEntranceId2 else view.entryId;
      var isSameEntry := enterEntryId == view.entryId;
      data := data.(currentExtraLineup := LineupChallenge2);
      mgr.lineupMode := LineupChallenge2;
      data := data.(savedMp := ToUInt32(view.mp.Of(mgr.lineupMode)));
      if !isSameEntry {
        data := data.(startPos := view.arrivalPos, startRot := view.arrivalRot);
      }
      mgr.SaveInstance(BossInst(this));
      return true;
    }
  }

  /** ChallengeStoryInstance. */
  class StoryInstance {
    const config: ChallengeConfig
    const isPartial: bool
    var data: ScoreData

    constructor (config: ChallengeConfig, data: ScoreData, isPartial: bool)
      ensures this.config == config && this.data == data && this.isPartial == isPartial
    {
      this.config := config;
      this.data := data;
      this.isPartial := isPartial;
    }

    /**
     * OnBattleStart: the countdown as round limit and the maze buff; with a story row also the
     * total-score targets and the buff picked for the current stage; None when the stage
     * indexes before the buff list start (the indexer throws).
     */
    function OnBattleStart(): (r: Option<BattleSetup>)
      reads this
      ensures config.storyBattleTargets.None? ==> r == Some(BattleSetup(config.challengeCountDown, [config.mazeBuffId], []))
      ensures config.storyBattleTargets.Some? ==>
        && (r.None? <==> data.currentStage < 1 && data.currentStage <= |data.buffs|)
        && (r.Some? ==> r.value.roundLimit == config.challengeCountDown)
        && (r.Some? ==> r.value.targets == StoryTargets(config.storyBattleTargets.value, TotalScore(data)))
        && (r.Some? ==> r.value.buffs == [config.mazeBuffId] + (if data.currentStage <= |data.buffs| then [data.buffs[data.currentStage - 1] as int] else []))
    {
      var setup := BaseSetup(config.challengeCountDown, config.mazeBuffId);
      match config.storyBattleTargets
      case None => Some(setup)
      case Some(ids) => WithStageBuff(setup.(targets := StoryTargets(ids, TotalScore(data))), data.buffs, data.currentStage)
    }

    /**
     * OnBattleEnd: the stage score is the reported cumulative score minus the total so far; a
     * clear of the last stage finishes and rates the run, a clear of an earlier stage enters
     * the second phase; a failure marks the run failed; a quit gives back the saved Mp and the
     * start point; a win saves the lineup's Mp.
     */
    method OnBattleEnd(mgr: ChallengeManager, res: BattleResult, view: PlayerView) returns (quit: Option<QuitEffect>)
      modifies this, mgr, mgr.data, mgr.friends
      ensures ClearsStage(res, view.monstersLeft) ==>
        var scored := WithStageScore(old(data), StoryStageScore(old(data), res.challengeScore));
        var finishing := scored.currentStage >= config.stageNum;
        var phasing := !finishing && config.stageNum >= 2;
        var settled := if finishing then FinishScored(config, mgr.game.targets, scored)
                       else if phasing then StoryPhaseTwo(config, scored, view) else scored;
        && mgr.lineupMode == (if phasing then LineupChallenge2 else old(mgr.lineupMode))
        && data == (if res.endStatus == EndWin then settled.(savedMp := ToUInt32(view.mp.Of(mgr.lineupMode))) else settled)
        && mgr.data.Row() == (if finishing then old(mgr.data.Row()).(history := HistoryAfterAdd(old(mgr.data.history),
                                 mgr.current.IsPartial(), ToInt32(settled.challengeMazeId), ToInt32(settled.stars),
                                 TotalScore(settled), mgr.setStars))
                              else if phasing then old(mgr.data.Row()).(instanceBlob := Some(StoryPb(settled)))
                              else old(mgr.data.Row()))
        && mgr.friends.Records() == (if finishing then RecordAfterSave(old(mgr.friends.Records()), isPartial,
                                       StorySubject(config, settled), view.recordLineups)
                                     else old(mgr.friends.Records()))
      ensures !ClearsStage(res, view.monstersLeft) ==>
        var scored := WithStageScore(old(data), StoryStageScore(old(data), res.challengeScore));
        && mgr.lineupMode == old(mgr.lineupMode)
        && data == (if res.endStatus == EndWin then scored.(savedMp := ToUInt32(view.mp.Of(mgr.lineupMode)))
                    else if FailsBattle(res) then scored.(curStatus := StatusFailed) else scored)
        && mgr.data.Row() == old(mgr.data.Row()) && mgr.friends.Records() == old(mgr.friends.Records())
      ensures quit == (if res.endStatus == EndQuit then Some(QuitEffect(ToInt32(old(data).savedMp), old(data).startPos, old(data).startRot))
                       else None)
      ensures mgr.current == old(mgr.current)
    {
      var stageScore := ToUInt32(ToInt32(res.challengeScore) - TotalScore(data));
      if data.currentStage == 1 {
        data := data.(scoreStage1 := stageScore);
      } else {
        data := data.(scoreStage2 := stageScore);
      }
      quit := None;
      match res.endStatus {
        case EndWin =>
          if view.monstersLeft == 0 {
            AdvanceStage(mgr, view);
          }
          data := data.(savedMp := ToUInt32(view.mp.Of(mgr.lineupMode)));
        case EndQuit =>
          quit := Some(QuitEffect(ToInt32(data.savedMp), data.startPos, data.startRot));
        case _ =>
          if res.turnLimit {
            AdvanceStage(mgr, view);
          } else {
            data := data.(curStatus := StatusFailed);
          }
      }
    }

    /** AdvanceStage: the last stage finishes and rates the run; an earlier one enters the second phase. */
    method AdvanceStage(mgr: ChallengeManager, view: PlayerView)
      modifies this, mgr, mgr.data, mgr.friends
      ensures
        var finishing := old(data).currentStage >= config.stageNum;
        var phasing := !finishing && config.stageNum >= 2;
        && data == (if finishing then FinishScored(config, mgr.game.targets, old(data))
                    else if phasing then StoryPhaseTwo(config, old(data), view) else old(data))
        && mgr.lineupMode == (if phasing then LineupChallenge2 else old(mgr.lineupMode))
        && mgr.data.Row() == (if finishing then old(mgr.data.Row()).(history := HistoryAfterAdd(old(mgr.data.history),
                                 mgr.current.IsPartial(), ToInt32(data.challengeMazeId), ToInt32(data.stars),
                                 TotalScore(data), mgr.setStars))
                              else if phasing then old(mgr.data.Row()).(instanceBlob := Some(StoryPb(data)))
                              else old(mgr.data.Row()))
        && mgr.friends.Records() == (if finishing then RecordAfterSave(old(mgr.friends.Records()), isPartial,
                                       StorySubject(config, data), view.recordLineups)
                                     else old(mgr.friends.Records()))
      ensures mgr.current == old(mgr.current)
    {
      if data.currentStage >= config.stageNum {
        Finish(mgr, view);
      } else {
        var entered := NextPhase(mgr, view);
      }
    }

    /** The finishing branch of AdvanceStage: the run is rated by its total score, its history and friend record saved. */
    method Finish(mgr: ChallengeManager, view: PlayerView)
      modifies this, mgr.data, mgr.friends
      ensures data == FinishScored(config, mgr.game.targets, old(data))
      ensures mgr.data.Row() == old(mgr.data.Row()).(history := HistoryAfterAdd(old(mgr.data.history),
                                  mgr.current.IsPartial(), ToInt32(data.challengeMazeId), ToInt32(data.stars),
                                  TotalScore(data), mgr.setStars))
      ensures mgr.friends.Records() == RecordAfterSave(old(mgr.friends.Records()), isPartial, StorySubject(config, data), view.recordLineups)
    {
      data := data.(curStatus := StatusFinish);
      var stars := CalculateStars(config.targetIds, mgr.game.targets, ScoreMeasure(TotalScore(data)));
      data := data.(stars := stars);
      assert data == FinishScored(config, mgr.game.targets, old(data));
      assert SubjectOf(StoryInst(this)) == StorySubject(config, data);
      mgr.SaveFinished(ToInt32(data.challengeMazeId), ToInt32(data.stars), TotalScore(data), StoryInst(this), view.recordLineups, 1);
    }

    /**
     * NextPhase: refused for a one-stage challenge; otherwise the stage moves on (never past
     * 2), the second lineup with its Mp, a new start point when the stage-two scene differs,
     * and the record saved.
     */
    method NextPhase(mgr: ChallengeManager, view: PlayerView) returns (entered: bool)
      modifies this, mgr, mgr.data
      ensures entered <==> config.stageNum >= 2
      ensures entered ==> && data == StoryPhaseTwo(config, old(data), view) && mgr.lineupMode == LineupChallenge2
                          && mgr.data.Row() == old(mgr.data.Row()).(instanceBlob := Some(StoryPb(data)))
      ensures !entered ==> data == old(data) && mgr.lineupMode == old(mgr.lineupMode) && mgr.data.Row() == old(mgr.data.Row())
      ensures mgr.current == old(mgr.current)
    {
      if config.stageNum < 2 {
        return false;
      }
      if data.currentStage < 2 {
        data := data.(currentStage := data.currentStage + 1);
      }
      data := data.(currentExtraLineup := LineupChallenge2);
      mgr.lineupMode := LineupChallenge2;
      data := data.(savedMp := ToUInt32(view.mp.Of(mgr.lineupMode)));
      var stage2EntryId := if config.mapEntranceId2 != 0 then config.mapEntranceId2 else config.mapEntranceId;
      var sameEntry := stage2EntryId == view.entryId;
      if !sameEntry && stage2EntryId != 0 {
        data := data.(startPos := view.arrivalPos, startRot := view.arrivalRot);
      }
      mgr.SaveInstance(StoryInst(this));
      return true;
    }
  }

  /** ChallengeMemoryInstance. */
  class MemoryInstance {
    const config: ChallengeConfig
    const isPartial: bool
    var data: MemoryData

    constructor (config: ChallengeConfig, data: MemoryData, isPartial: bool)
      ensures this.config == config && this.data == data && this.isPartial == isPartial
    {
      this.config := config;
      this.data := data;
      this.isPartial := isPartial;
    }

    /** OnBattleStart: the rounds left (read as `int`) as round limit, and the maze buff. */
    function OnBattleStart(): (r: BattleSetup)
      reads this
      ensures data.roundsLeft < TwoTo31 ==> r.roundLimit == data.roundsLeft
      ensures r.buffs == [config.mazeBuffId] && r.targets == []
    {
      BaseSetup(ToInt32(data.roundsLeft), config.mazeBuffId)
    }

    /**
     * OnBattleEnd: a win counts the avatars left without HP as dead, advances the stage when
     * no monster is left, then deducts the battle's rounds (keeping at least one) and saves
     * the lineup's Mp; a quit gives back the saved Mp and the start point; any other end fails
     * the run.
     */
    method OnBattleEnd(mgr: ChallengeManager, res: BattleResult, view: PlayerView) returns (quit: Option<QuitEffect>)
      modifies this, mgr, mgr.data, mgr.friends
      ensures res.endStatus == EndWin ==>
        var won := old(data).(deadAvatarNum := old(data).deadAvatarNum + DeadCount(res.avatarHp));
        var finishing := view.monstersLeft == 0 && won.currentStage >= config.stageNum;
        var phasing := view.monstersLeft == 0 && !finishing && config.stageNum >= 2;
        var advanced := if finishing then FinishMemory(config, mgr.game.targets, won)
                        else if phasing then MemoryPhaseTwo(config, won, view) else won;
        && mgr.lineupMode == (if phasing then LineupChallenge2 else old(mgr.lineupMode))
        && data == advanced.(roundsLeft := RoundsAfter(advanced.roundsLeft, res.roundCnt),
                             savedMp := ToUInt32(view.mp.Of(mgr.lineupMode)))
        && mgr.data.Row() == (if finishing then old(mgr.data.Row()).(history := HistoryAfterAdd(old(mgr.data.history),
                                 mgr.current.IsPartial(), ToInt32(advanced.challengeMazeId), ToInt32(advanced.stars),
                                 ToInt32(ConsumedRounds(config, won)), mgr.setStars))
                              else if phasing then old(mgr.data.Row()).(instanceBlob := Some(MemoryPb(advanced)))
                              else old(mgr.data.Row()))
        && mgr.friends.Records() == (if finishing then
                                       RecordAfterSave(RecordAfterSave(old(mgr.friends.Records()), isPartial,
                                                                       MemorySubject(config, advanced), view.recordLineups),
                                                       isPartial, MemorySubject(config, advanced), view.recordLineups)
                                     else old(mgr.friends.Records()))
      ensures res.endStatus != EndWin ==>
        && data == (if res.endStatus == EndQuit then old(data) else old(data).(curStatus := StatusFailed))
        && mgr.lineupMode == old(mgr.lineupMode)
        && mgr.data.Row() == old(mgr.data.Row()) && mgr.friends.Records() == old(mgr.friends.Records())
      ensures quit == (if res.endStatus == EndQuit then Some(QuitEffect(ToInt32(old(data).savedMp), old(data).startPos, old(data).startRot))
                       else None)
      ensures mgr.current == old(mgr.current)
    {
      quit := None;
      match res.endStatus {
        case EndWin =>
          OnWin(mgr, res, view);
        case EndQuit =>
          quit := Some(QuitEffect(ToInt32(data.savedMp), data.startPos, data.startRot));
        case _ =>
          data := data.(curStatus := StatusFailed);
      }
    }

    /**
     * The win branch of OnBattleEnd: the dead avatars counted, the stage advanced when no
     * monster is left, the rounds deducted and the lineup's Mp saved.
     */
    method OnWin(mgr: ChallengeManager, res: BattleResult, view: PlayerView)
      modifies this, mgr, mgr.data, mgr.friends
      ensures
        var won := old(data).(deadAvatarNum := old(data).deadAvatarNum + DeadCount(res.avatarHp));
        var finishing := view.monstersLeft == 0 && won.currentStage >= config.stageNum;
        var phasing := view.monstersLeft == 0 && !finishing && config.stageNum >= 2;
        var advanced := if finishing then FinishMemory(config, mgr.game.targets, won)
                        else if phasing then MemoryPhaseTwo(config, won, view) else won;
        && mgr.lineupMode == (if phasing then LineupChallenge2 else old(mgr.lineupMode))
        && data == advanced.(roundsLeft := RoundsAfter(advanced.roundsLeft, res.roundCnt),
                             savedMp := ToUInt32(view.mp.Of(mgr.lineupMode)))
        && mgr.data.Row() == (if finishing then old(mgr.data.Row()).(history := HistoryAfterAdd(old(mgr.data.history),
                                 mgr.current.IsPartial(), ToInt32(advanced.challengeMazeId), ToInt32(advanced.stars),
                                 ToInt32(ConsumedRounds(config, won)), mgr.setStars))
                              else if phasing then old(mgr.data.Row()).(instanceBlob := Some(MemoryPb(advanced)))
                              else old(mgr.data.Row()))
        && mgr.friends.Records() == (if finishing then
                                       RecordAfterSave(RecordAfterSave(old(mgr.friends.Records()), isPartial,
                                                                       MemorySubject(config, advanced), view.recordLineups),
                                                       isPartial, MemorySubject(config, advanced), view.recordLineups)
                                     else old(mgr.friends.Records()))
      ensures mgr.current == old(mgr.current)
    {
      CountDead(res.avatarHp);
      if view.monstersLeft == 0 {
        AdvanceStage(mgr, view);
      }
      data := data.(roundsLeft := RoundsAfter(data.roundsLeft, res.roundCnt));
      data := data.(savedMp := ToUInt32(view.mp.Of(mgr.lineupMode)));
    }

    /**
     * AdvanceStage: the last stage finishes and rates the run by rounds left and dead avatars,
     * saves its history with the consumed rounds as score, and saves its friend record twice;
     * an earlier stage enters the second phase.
     */
    method AdvanceStage(mgr: ChallengeManager, view: PlayerView)
      modifies this, mgr, mgr.data, mgr.friends
      ensures
        var finishing := old(data).currentStage >= config.stageNum;
        var phasing := !finishing && config.stageNum >= 2;
        && data == (if finishing then FinishMemory(config, mgr.game.targets, old(data))
                    else if phasing then MemoryPhaseTwo(config, old(data), view) else old(data))
        && mgr.lineupMode == (if phasing then LineupChallenge2 else old(mgr.lineupMode))
        && mgr.data.Row() == (if finishing then old(mgr.data.Row()).(history := HistoryAfterAdd(old(mgr.data.history),
                                 mgr.current.IsPartial(), ToInt32(data.challengeMazeId), ToInt32(data.stars),
                                 ToInt32(ConsumedRounds(config, old(data))), mgr.setStars))
                              else if phasing then old(mgr.data.Row()).(instanceBlob := Some(MemoryPb(data)))
                              else old(mgr.data.Row()))
        && mgr.friends.Records() == (if finishing then
                                       RecordAfterSave(RecordAfterSave(old(mgr.friends.Records()), isPartial,
                                                                       MemorySubject(config, data), view.recordLineups),
                                                       isPartial, MemorySubject(config, data), view.recordLineups)
                                     else old(mgr.friends.Records()))
      ensures mgr.current == old(mgr.current)
    {
      if data.currentStage >= config.stageNum {
        Finish(mgr, view);
      } else {
        var entered := NextPhase(mgr, view);
      }
    }

    /**
     * The finishing branch of AdvanceStage: the run is rated by rounds left and dead avatars,
     * its history saved with the consumed rounds as score, and its friend record saved twice.
     */
    method Finish(mgr: ChallengeManager, view: PlayerView)
      modifies this, mgr.data, mgr.friends
      ensures data == FinishMemory(config, mgr.game.targets, old(data))
      ensures mgr.data.Row() == old(mgr.data.Row()).(history := HistoryAfterAdd(old(mgr.data.history),
                                  mgr.current.IsPartial(), ToInt32(data.challengeMazeId), ToInt32(data.stars),
                                  ToInt32(ConsumedRounds(config, old(data))), mgr.setStars))
      ensures mgr.friends.Records() == RecordAfterSave(RecordAfterSave(old(mgr.friends.Records()), isPartial,
                                                                       MemorySubject(config, data), view.recordLineups),
                                                       isPartial, MemorySubject(config, data), view.recordLineups)
    {
      var consumedRounds := ToUInt32(config.challengeCountDown - data.roundsLeft);
      assert consumedRounds == ConsumedRounds(config, old(data));
      data := data.(curStatus := StatusFinish);
      var stars := CalculateStars(config.targetIds, mgr.game.targets, MemoryMeasure(data.roundsLeft, data.deadAvatarNum));
      data := data.(stars := stars);
      assert data == FinishMemory(config, mgr.game.targets, old(data));
      assert SubjectOf(MemoryInst(this)) == MemorySubject(config, data);
      mgr.SaveFinished(ToInt32(data.challengeMazeId), ToInt32(data.stars), ToInt32(consumedRounds), MemoryInst(this), view.recordLineups, 2);
    }

    /** The dead-avatar count of a won battle: one more for every avatar left without HP. */
    method CountDead(avatarHp: seq<int>)
      modifies this
      ensures data == old(data).(deadAvatarNum := old(data).deadAvatarNum + DeadCount(avatarHp))
    {
      var i := 0;
      while i < |avatarHp|
        invariant 0 <= i <= |avatarHp|
        invariant data == old(data).(deadAvatarNum := old(data).deadAvatarNum + DeadCount(avatarHp[..i]))
      {
        assert avatarHp[..i + 1][..i] == avatarHp[..i];
        if avatarHp[i] <= 0 {
          data := data.(deadAvatarNum := data.deadAvatarNum + 1);
        }
        i := i + 1;
      }
      assert avatarHp[..i] == avatarHp;
    }

    /**
     * NextPhase: refused for a one-stage challenge; otherwise the stage moves on (never past
     * 2), the second lineup with its Mp, a new start point when the stage-two scene differs,
     * and the record saved.
     */
    method NextPhase(mgr: ChallengeManager, view: PlayerView) returns (entered: bool)
      modifies this, mgr, mgr.data
      ensures entered <==> config.stageNum >= 2
      ensures entered ==> && data == MemoryPhaseTwo(config, old(data), view) && mgr.lineupMode == LineupChallenge2
                          && mgr.data.Row() == old(mgr.data.Row()).(instanceBlob := Some(MemoryPb(data)))
      ensures !entered ==> data == old(data) && mgr.lineupMode == old(mgr.lineupMode) && mgr.data.Row() == old(mgr.data.Row())
      ensures mgr.current == old(mgr.current)
    {
      if config.stageNum < 2 {
        return false;
      }
      if data.currentStage < 2 {
        data := data.(currentStage := data.currentStage + 1);
      }
      data := data.(currentExtraLineup := LineupChallenge2);
      mgr.lineupMode := LineupChallenge2;
      data := data.(savedMp := ToUInt32(view.mp.Of(mgr.lineupMode)));
      var stage2EntryId := if config.mapEntranceId2 != 0 then config.mapEntranceId2 else config.mapEntranceId;
      var sameEntry := stage2EntryId == view.entryId;
      if !sameEntry && stage2EntryId != 0 {
        data := data.(startPos := view.arrivalPos, startRot := view.arrivalRot);
      }
      mgr.SaveInstance(MemoryInst(this));
      return true;
    }
  }

  /** ChallengePeakInstance: a peak level session. */
  class PeakInstance {
    const config: PeakLevelConfig
    var data: PeakData

    constructor (config: PeakLevelConfig, data: PeakData)
      ensures this.config == config && this.data == data
    {
      this.config := config;
      this.data := data;
    }
  }

  /** The manager's ChallengeInstance slot: empty or one running session. */
  datatype Instance =
    | NoInstance
    | BossInst(boss: BossInstance)
    | StoryInst(story: StoryInstance)
    | MemoryInst(memory: MemoryInstance)
    | PeakInst(peak: PeakInstance)
  {
    function Footprint(): set<object> {
      match this
      case NoInstance => {}
      case BossInst(b) => {b}
      case StoryInst(s) => {s}
      case MemoryInst(m) => {m}
      case PeakInst(p) => {p}
    }

    /** IsPartialChallenge of a legacy session; never set on other sessions. */
    predicate IsPartial() {
      match this
      case BossInst(b) => b.isPartial
      case StoryInst(s) => s.isPartial
      case MemoryInst(m) => m.isPartial
      case _ => false
    }

    /** The legacy session runs the given configuration row. */
    predicate HasConfig(c: ChallengeConfig) {
      match this
      case BossInst(b) => b.config == c
      case StoryInst(s) => s.config == c
      case MemoryInst(m) => m.config == c
      case _ => false
    }
  }

  /** `instance.Data`: the record a session persists. */
  function Snapshot(inst: Instance): (r: ChallengeDataPb)
    reads inst.Footprint()
    ensures r.NotSet? <==> inst.NoInstance?
    ensures r.BossPb? <==> inst.BossInst?
    ensures r.StoryPb? <==> inst.StoryInst?
    ensures r.MemoryPb? <==> inst.MemoryInst?
    ensures r.PeakPb? <==> inst.PeakInst?
  {
    match inst
    case NoInstance => NotSet
    case BossInst(b) => BossPb(b.data)
    case StoryInst(s) => StoryPb(s.data)
    case MemoryInst(m) => MemoryPb(m.data)
    case PeakInst(p) => PeakPb(p.data)
  }

  /** The finished run a session hands to SaveBattleRecord. */
  function SubjectOf(inst: Instance): (r: RecordSubject)
    requires !inst.NoInstance?
    reads inst.Footprint()
    ensures r.PeakSubject? <==> inst.PeakInst?
    ensures r.PeakSubject? ==> r.peak == inst.peak.data && r.levelConfigId == inst.peak.config.id
    ensures !r.PeakSubject? ==> inst.HasConfig(r.config)
  {
    match inst
    case BossInst(b) => BossSubject(b.config, b.data)
    case StoryInst(s) => StorySubject(s.config, s.data)
    case MemoryInst(m) => MemorySubject(m.config, m.data)
    case PeakInst(p) => PeakSubject(p.config.id, p.data)
  }

  /** The record CreateLegacyInstance starts a session with. */
  function InitialData(excel: ChallengeConfig, stage: int, lineup: ExtraLineup): (r: ChallengeDataPb)
    ensures excel.IsBoss() <==> r.BossPb?
    ensures !excel.IsBoss() && excel.IsStory() <==> r.StoryPb?
    ensures !excel.IsBoss() && !excel.IsStory() <==> r.MemoryPb?
    ensures r.BossPb? ==> r.boss == FreshScore(excel, stage, lineup)
    ensures r.StoryPb? ==> r.story == FreshScore(excel, stage, lineup)
    ensures r.MemoryPb? ==>
      && r.memory.challengeMazeId == ToUInt32(excel.id) && r.memory.curStatus == StatusDoing
      && r.memory.currentStage == stage && r.memory.currentExtraLineup == lineup
      && r.memory.roundsLeft == ToUInt32(excel.challengeCountDown)
      && r.memory.deadAvatarNum == 0 && r.memory.stars == 0 && r.memory.savedMp == 0
  {
    if excel.IsBoss() then BossPb(FreshScore(excel, stage, lineup))
    else if excel.IsStory() then StoryPb(FreshScore(excel, stage, lineup))
    else MemoryPb(MemoryData(ToUInt32(excel.id), StatusDoing, stage, lineup, ToUInt32(excel.challengeCountDown),
                             0, 0, 0, Origin, Origin))
  }

  /** A new boss or story record: Doing, on the given stage and lineup, nothing scored. */
  function FreshScore(excel: ChallengeConfig, stage: int, lineup: ExtraLineup): (r: ScoreData)
    ensures r.challengeMazeId == ToUInt32(excel.id) && r.curStatus == StatusDoing
    ensures r.currentStage == stage && r.currentExtraLineup == lineup
    ensures r.scoreStage1 == 0 && r.scoreStage2 == 0 && r.stars == 0 && r.savedMp == 0 && r.buffs == []
  {
    ScoreData(ToUInt32(excel.id), StatusDoing, stage, lineup, 0, 0, 0, 0, [], Origin, Origin)
  }

  // ---------------------------------------------------------------------------------------
  // Starting a challenge

  /** How the scene change of TryEnterChallengeScene turns out: changed, already there, or throws. */
  datatype SceneEntry = SceneChanged | SceneUnchanged | SceneThrows

  /**
   * TryEnterChallengeScene: the entrance must be positive and known; a scene change that
   * throws is a failure; otherwise it succeeds when the scene changed or the player already
   * stands at that entrance.
   */
  function TryEnterChallengeScene(entrance: int, entrances: set<int>, scene: SceneEntry, entryIdAfter: int): (r: bool)
    ensures r ==> entrance > 0 && entrance in entrances && scene != SceneThrows
    ensures entrance > 0 && entrance in entrances && scene == SceneChanged ==> r
    ensures scene == SceneUnchanged ==> (r <==> entrance > 0 && entrance in entrances && entryIdAfter == entrance)
  {
    if entrance <= 0 || entrance !in entrances then false
    else match scene
      case SceneThrows => false
      case SceneChanged => true
      case SceneUnchanged => entryIdAfter == entrance
  }

  /**
   * What a start consults around the manager: the avatar count of each extra lineup after
   * sanitising (a lineup that does not exist is absent), how entering the scene turns out,
   * where the player stands, and the technique points of the lineups afterwards.
   */
  datatype StartEnv = StartEnv(lineupSizes: map<ExtraLineup, nat>, scene: SceneEntry, entryIdAfter: int,
                               pos: Vector, rot: Vector, mp: LineupMp)

  /** PrepareChallengeLineup: the lineup exists and holds at least one avatar. */
  predicate LineupReady(lineup: ExtraLineup, sizes: map<ExtraLineup, nat>) {
    lineup in sizes && sizes[lineup] > 0
  }

  /** StartChallenge asks for the first lineup of any staged challenge and the second one of a two-stage one. */
  predicate LineupsReady(excel: ChallengeConfig, sizes: map<ExtraLineup, nat>) {
    && (excel.stageNum > 0 ==> LineupReady(LineupChallenge, sizes))
    && (excel.stageNum >= 2 ==> LineupReady(LineupChallenge2, sizes))
  }

  /** The record a full start saves: start point and Mp of the first lineup, then the picked buffs. */
  function StartedData(excel: ChallengeConfig, storyBuffs: Option<BuffPair>, bossBuffs: Option<BuffPair>,
                       env: StartEnv): ChallengeDataPb
  {
    var pb := WithStart(InitialData(excel, 1, LineupChallenge), env.pos, env.rot, ToUInt32(env.mp.Of(LineupChallenge)));
    var pb2 := if excel.IsStory() && storyBuffs.Some? then AddStoryBuffs(pb, storyBuffs.value) else pb;
    if bossBuffs.Some? then AddBossBuffs(pb2, bossBuffs.value) else pb2
  }

  /** The lineup a partial run plays: the first for the first half, the second otherwise. */
  function PartialLineup(firstHalf: bool): ExtraLineup {
    if firstHalf then LineupChallenge else LineupChallenge2
  }

  /** The scene a partial run enters: the second-stage scene for the second half when there is one. */
  function PartialEntrance(excel: ChallengeConfig, firstHalf: bool): (r: int)
    ensures firstHalf ==> r == excel.mapEntranceId
    ensures !firstHalf ==> r == StageTwoEntry(excel)
  {
    if firstHalf then excel.mapEntranceId
    else if excel.mapEntranceId2 != 0 then excel.mapEntranceId2 else excel.mapEntranceId
  }

  /** The record a partial start saves. */
  function PartialData(excel: ChallengeConfig, buffId: uint32, firstHalf: bool, env: StartEnv): ChallengeDataPb {
    var lineup := PartialLineup(firstHalf);
    var pb := PartialBuffs(InitialData(excel, if firstHalf then 1 else 2, lineup), buffId, firstHalf);
    WithStart(pb, env.pos, env.rot, ToUInt32(env.mp.Of(lineup)))
  }

  /** A start either runs to the end, is refused with a code, or throws part-way. */
  datatype StartOutcome = Started | Refused(code: Retcode) | StartThrew

  /** ResurrectInstance: nothing stored, a session restored (or the slot emptied), or a missing row. */
  datatype Resurrection = NothingStored | Restored | RestoreThrew

  /** The configuration row a stored record names exists, so its session can be rebuilt. */
  predicate ConfigKnown(pb: ChallengeDataPb, game: GameData, peakLevels: map<int, PeakLevelConfig>) {
    match pb
    case NotSet => true
    case BossPb(d) => ToInt32(d.challengeMazeId) in game.challenges
    case StoryPb(d) => ToInt32(d.challengeMazeId) in game.challenges
    case MemoryPb(d) => ToInt32(d.challengeMazeId) in game.challenges
    case PeakPb(d) => ToInt32(d.currentPeakLevelId) in peakLevels
  }

  /** A rebuilt session runs the configuration row its record names. */
  predicate RunsNamedConfig(inst: Instance, game: GameData, peakLevels: map<int, PeakLevelConfig>)
    reads inst.Footprint()
  {
    match inst
    case NoInstance => true
    case BossInst(b) => ToInt32(b.data.challengeMazeId) in game.challenges && b.config == game.challenges[ToInt32(b.data.challengeMazeId)]
    case StoryInst(s) => ToInt32(s.data.challengeMazeId) in game.challenges && s.config == game.challenges[ToInt32(s.data.challengeMazeId)]
    case MemoryInst(m) => ToInt32(m.data.challengeMazeId) in game.challenges && m.config == game.challenges[ToInt32(m.data.challengeMazeId)]
    case PeakInst(p) => ToInt32(p.data.currentPeakLevelId) in peakLevels && p.config == peakLevels[ToInt32(p.data.currentPeakLevelId)]
  }

  // ---------------------------------------------------------------------------------------
  // The manager

  class ChallengeManager {
    /** The static tables. */
    const game: GameData
    /** ChallengePeakConfigData, the table a peak session's row comes from. */
    const peakConfigs: map<int, PeakLevelConfig>
    /** The player's persisted row and friend records. */
    const data: ChallengeData
    const friends: FriendRecordData
    /** ChallengeHistoryData.SetStars and GetTotalStars, whose bodies are not part of this model. */
    const setStars: (int, int) -> int
    const totalStars: int -> int
    /** ChallengeInstance. */
    var current: Instance
    /** The extra lineup the player's lineup manager has switched to. */
    var lineupMode: ExtraLineup

    constructor (game: GameData, peakConfigs: map<int, PeakLevelConfig>, data: ChallengeData, friends: FriendRecordData,
                 setStars: (int, int) -> int, totalStars: int -> int)
      ensures this.game == game && this.peakConfigs == peakConfigs && this.data == data && this.friends == friends
      ensures this.setStars == setStars && this.totalStars == totalStars
      ensures current == NoInstance && lineupMode == LineupNone
    {
      this.game := game;
      this.peakConfigs := peakConfigs;
      this.data := data;
      this.friends := friends;
      this.setStars := setStars;
      this.totalStars := totalStars;
      current := NoInstance;
      lineupMode := LineupNone;
    }

    /** AddHistory: records a finished run's stars and score, unless they are void or the current run is partial. */
    method AddHistory(challengeId: int, stars: int, score: int)
      modifies data
      ensures data.Row() == old(data.Row()).(history := HistoryAfterAdd(old(data.history), current.IsPartial(),
                                                                        challengeId, stars, score, setStars))
    {
      if stars <= 0 {
        return;
      }
      if current.IsPartial() {
        return;
      }
      if challengeId !in data.history {
        data.history := data.history[challengeId := HistoryEntry(challengeId, 0, 0, 0)];
      }
      var info := data.history[challengeId];
      info := info.(stars := setStars(info.stars, stars), score := score);
      data.history := data.history[challengeId := info];
    }

    /**
     * TakeRewards: None when the group or its reward line is unknown. Otherwise every history
     * entry without a group takes its challenge's group, the group's star total is summed,
     * and every tier of the line the total reaches and not yet taken is taken, granting its
     * items when its reward row exists.
     */
    method TakeRewards(groupId: int) returns (result: Option<seq<RewardGrant>>, items: seq<Item>)
      modifies data
      ensures groupId !in game.groupRewardLines || game.groupRewardLines[groupId] !in game.rewardLines ==>
                result == None && items == [] && data.Row() == old(data.Row())
      ensures groupId in game.groupRewardLines && game.groupRewardLines[groupId] in game.rewardLines ==>
        var line := game.rewardLines[game.groupRewardLines[groupId]];
        var total := GroupTotal(old(data.history), game.challenges, groupId, totalStars);
        var claim := Claim(line, total, TakenOf(old(data.takenRewards), groupId), game.rewards);
        && result == Some(claim.grants)
        && items == GrantedItems(claim.grants)
        && data.Row() == old(data.Row()).(history := FixAll(old(data.history), game.challenges),
                                          takenRewards := TakenAfter(old(data.takenRewards), groupId, line, total, game.rewards))
    {
      if groupId !in game.groupRewardLines || game.groupRewardLines[groupId] !in game.rewardLines {
        return None, [];
      }
      var line := game.rewardLines[game.groupRewardLines[groupId]];
      var total := FixGroupsAndCount(groupId);
      var grants;
      grants, items := ClaimLine(groupId, line, total);
      result := Some(grants);
    }

    /**
     * The first loop of TakeRewards: every history entry without a group takes the group of
     * its challenge row (entries whose row is unknown are skipped), and the stars of the
     * entries of `groupId` are summed.
     */
    method FixGroupsAndCount(groupId: int) returns (total: int)
      modifies data
      ensures total == GroupTotal(old(data.history), game.challenges, groupId, totalStars)
      ensures data.Row() == old(data.Row()).(history := FixAll(old(data.history), game.challenges))
    {
      ghost var h0 := data.history;
      total := 0;
      var remaining := data.history.Keys;
      ghost var done: set<int> := {};
      while remaining != {}
        invariant remaining !! done && remaining + done == h0.Keys
        invariant data.history.Keys == h0.Keys
        invariant forall k :: k in done ==> data.history[k] == FixGroup(h0[k], game.challenges)
        invariant forall k :: k in remaining ==> data.history[k] == h0[k]
        invariant total == GroupStars(h0, done, game.challenges, groupId, totalStars)
        invariant data.Row() == old(data.Row()).(history := data.history)
        decreases remaining
      {
        NonEmptyHasMember(remaining);
        var k :| k in remaining;
        var e := data.history[k];
        GroupStarsPick(h0, done + {k}, k, game.challenges, groupId, totalStars);
        assert done + {k} - {k} == done;
        if e.groupId == 0 && e.challengeId !in game.challenges {
        } else {
          if e.groupId == 0 {
            e := e.(groupId := game.challenges[e.challengeId].groupId);
            data.history := data.history[k := e];
          }
          if e.groupId == groupId {
            total := total + totalStars(e.stars);
          }
        }
        remaining := remaining - {k};
        done := done + {k};
      }
      assert done == h0.Keys;
      ghost var fixedAll := FixAll(h0, game.challenges);
      assert data.history.Keys == fixedAll.Keys;
      assert forall k :: k in fixedAll ==> data.history[k] == fixedAll[k];
      assert data.history == fixedAll;
    }

    /**
     * The second loop of TakeRewards: tier by tier, a tier the total reaches and not yet
     * taken is taken (the group's entry created on the first reached tier) and grants the
     * items of its reward row when that row exists.
     */
    method ClaimLine(groupId: int, line: seq<RewardTier>, total: int) returns (grants: seq<RewardGrant>, items: seq<Item>)
      modifies data
      ensures var claim := Claim(line, total, TakenOf(old(data.takenRewards), groupId), game.rewards);
              grants == claim.grants && items == GrantedItems(grants)
      ensures data.Row() == old(data.Row()).(takenRewards := TakenAfter(old(data.takenRewards), groupId, line, total, game.rewards))
    {
      ghost var taken0 := TakenOf(data.takenRewards, groupId);
      grants := [];
      items := [];
      var i := 0;
      while i < |line|
        invariant 0 <= i <= |line|
        invariant grants == Claim(line[..i], total, taken0, game.rewards).grants
        invariant items == GrantedItems(grants)
        invariant TakenOf(data.takenRewards, groupId) == Claim(line[..i], total, taken0, game.rewards).taken
        invariant data.takenRewards == TakenAfter(old(data.takenRewards), groupId, line[..i], total, game.rewards)
        invariant data.Row() == old(data.Row()).(takenRewards := data.takenRewards)
      {
        ClaimPrefixStep(line, i, total, taken0, game.rewards);
        TakenAfterStep(old(data.takenRewards), groupId, line, i, total, game.rewards);
        var granted := ClaimTier(groupId, line[i], total);
        if granted.Some? {
          assert (grants + [granted.value])[..|grants|] == grants;
          grants := grants + [granted.value];
          items := items + granted.value.items;
        }
        i := i + 1;
      }
      assert line[..i] == line;
    }

    /**
     * One tier of the claim loop: a tier the total reaches joins the group's taken set (the
     * entry created when missing); when it was not taken yet and its reward row exists, the
     * row's items are granted.
     */
    method ClaimTier(groupId: int, tier: RewardTier, total: int) returns (granted: Option<RewardGrant>)
      modifies data
      ensures data.Row() == old(data.Row()).(takenRewards :=
                if total >= tier.starCount
                then old(data.takenRewards)[groupId := TakenOf(old(data.takenRewards), groupId) + {tier.starCount}]
                else old(data.takenRewards))
      ensures granted == if total >= tier.starCount && tier.starCount !in TakenOf(old(data.takenRewards), groupId)
                            && tier.rewardId in game.rewards
                         then Some(RewardGrant(tier.starCount, game.rewards[tier.rewardId])) else None
    {
      granted := None;
      if total >= tier.starCount {
        if groupId !in data.takenRewards {
          data.takenRewards := data.takenRewards[groupId := {}];
        }
        var reward := data.takenRewards[groupId];
        if tier.starCount !in reward {
          data.takenRewards := data.takenRewards[groupId := reward + {tier.starCount}];
          if tier.rewardId in game.rewards {
            granted := Some(RewardGrant(tier.starCount, game.rewards[tier.rewardId]));
          }
        } else {
          assert reward + {tier.starCount} == reward;
        }
      }
    }

    /** SaveInstance: the session's record becomes the stored one. */
    method SaveInstance(inst: Instance)
      requires !inst.NoInstance?
      modifies data
      ensures data.Row() == old(data.Row()).(instanceBlob := Some(Snapshot(inst)))
    {
      data.instanceBlob := Some(Snapshot(inst));
    }

    /** ClearInstance: no stored record and no running session. */
    method ClearInstance()
      modifies this, data
      ensures data.Row() == old(data.Row()).(instanceBlob := None)
      ensures current == NoInstance && lineupMode == old(lineupMode)
    {
      data.instanceBlob := None;
      current := NoInstance;
    }

    /**
     * ResurrectInstance: nothing happens without a stored record; an unset record empties the
     * slot; otherwise the session of the stored variant is rebuilt (not partial) around its
     * record, which throws when the configuration row it names is missing.
     */
    method ResurrectInstance() returns (outcome: Resurrection)
      modifies this
      ensures data.instanceBlob.None? ==> outcome == NothingStored && current == old(current)
      ensures data.instanceBlob.Some? && !ConfigKnown(data.instanceBlob.value, game, peakConfigs) ==>
                outcome == RestoreThrew && current == old(current)
      ensures data.instanceBlob.Some? && ConfigKnown(data.instanceBlob.value, game, peakConfigs) ==>
                && outcome == Restored
                && fresh(current.Footprint())
                && Snapshot(current) == data.instanceBlob.value
                && !current.IsPartial()
                && RunsNamedConfig(current, game, peakConfigs)
      ensures lineupMode == old(lineupMode)
    {
      if data.instanceBlob.None? {
        return NothingStored;
      }
      var pb := data.instanceBlob.value;
      if !ConfigKnown(pb, game, peakConfigs) {
        return RestoreThrew;
      }
      outcome := Restored;
      match pb
      case NotSet =>
        current := NoInstance;
      case MemoryPb(d) =>
        var m := new MemoryInstance(game.challenges[ToInt32(d.challengeMazeId)], d, false);
        current := MemoryInst(m);
      case PeakPb(d) =>
        var p := new PeakInstance(peakConfigs[ToInt32(d.currentPeakLevelId)], d);
        current := PeakInst(p);
      case StoryPb(d) =>
        var s := new StoryInstance(game.challenges[ToInt32(d.challengeMazeId)], d, false);
        current := StoryInst(s);
      case BossPb(d) =>
        var b := new BossInstance(game.challenges[ToInt32(d.challengeMazeId)], d, false);
        current := BossInst(b);
    }

    /**
     * SaveBattleRecord: a partial run records nothing; otherwise the run's group is added
     * when missing and the run replaces the stored record of its challenge (its low-bit star
     * count, or the peak stars, against the stored record's stars) unless the stored one has
     * strictly more stars, the replacement taking the next record id.
     */
    method SaveBattleRecord(inst: Instance, lineups: map<ExtraLineup, seq<AvatarEntry>>)
      requires !inst.NoInstance?
      modifies friends
      ensures friends.Records() == RecordAfterSave(old(friends.Records()), inst.IsPartial(), old(SubjectOf(inst)), lineups)
    {
      if inst.IsPartial() {
        return;
      }
      ghost var f := friends.Records();
      var s := SubjectOf(inst);
      var key := GroupKey(s);
      if key !in friends.groups {
        friends.groups := friends.groups[key := GroupStatistics(key, map[], map[], map[])];
      } else {
        assert f.groups[key := f.groups[key]] == f.groups;
      }
      assert friends.groups == f.groups[key := GroupFor(f, s)];
      var stats := friends.groups[key];
      var starCount := StarCountOf(s);
      assert stats == GroupFor(f, s);
      var table := TableOf(stats, TableFor(s));
      if RecordKey(s) in table && table[RecordKey(s)].stars > starCount {
        assert KeepsOld(f, s);
        assert friends.Records() == RecordAfterSave(f, false, s, lineups);
        return;
      }
      assert !KeepsOld(f, s);
      var rec := NewRecord(s, friends.nextRecordId, lineups);
      friends.nextRecordId := friends.nextRecordId + 1;
      ghost var replaced := WithTable(stats, TableFor(s), table[RecordKey(s) := rec]);
      assert f.groups[key := GroupFor(f, s)][key := replaced] == f.groups[key := replaced];
      friends.groups := friends.groups[key := WithTable(stats, TableFor(s), table[RecordKey(s) := rec])];
      assert friends.Records() == RecordAfterSave(f, false, s, lineups);
    }

    /** A finished run's persistence: its history entry added, then its friend record saved `saves` times. */
    method SaveFinished(challengeId: int, stars: int, score: int, inst: Instance, lineups: map<ExtraLineup, seq<AvatarEntry>>, saves: nat)
      requires !inst.NoInstance? && 1 <= saves <= 2
      modifies data, friends
      ensures data.Row() == old(data.Row()).(history := HistoryAfterAdd(old(data.history), current.IsPartial(),
                                                                        challengeId, stars, score, setStars))
      ensures var once := RecordAfterSave(old(friends.Records()), inst.IsPartial(), old(SubjectOf(inst)), lineups);
        friends.Records() == if saves == 1 then once else RecordAfterSave(once, inst.IsPartial(), old(SubjectOf(inst)), lineups)
    {
      ghost var subject := SubjectOf(inst);
      AddHistory(challengeId, stars, score);
      assert SubjectOf(inst) == subject;
      SaveBattleRecord(inst, lineups);
      assert SubjectOf(inst) == subject;
      if saves == 2 {
        SaveBattleRecord(inst, lineups);
      }
    }

    /** The stars a run is recorded with: the set low bits of a legacy rating, counted by CountStars; the peak stars as stored. */
    static method StarCountOf(s: RecordSubject) returns (starCount: int)
      ensures starCount == RecordStars(s)
    {
      match s
      case MemorySubject(_, d) => starCount := CountStars(d.stars);
      case StorySubject(_, d) => starCount := CountStars(d.stars);
      case BossSubject(_, d) => starCount := CountStars(d.stars);
      case PeakSubject(_, d) => starCount := d.stars;
    }

    /** CreateLegacyInstance: a boss, story or memory session by the row's kind, with its initial record. */
    method CreateLegacyInstance(excel: ChallengeConfig, stage: int, lineup: ExtraLineup, isPartial: bool)
      returns (inst: Instance)
      ensures fresh(inst.Footprint())
      ensures inst.HasConfig(excel) && inst.IsPartial() == isPartial
      ensures Snapshot(inst) == InitialData(excel, stage, lineup)
    {
      var pb := InitialData(excel, stage, lineup);
      match pb
      case BossPb(d) =>
        var b := new BossInstance(excel, d, isPartial);
        inst := BossInst(b);
      case StoryPb(d) =>
        var s := new StoryInstance(excel, d, isPartial);
        inst := StoryInst(s);
      case MemoryPb(d) =>
        var m := new MemoryInstance(excel, d, isPartial);
        inst := MemoryInst(m);
    }

    /** SetStartPos, SetStartRot and SetSavedMp on a legacy session. */
    method SetStart(inst: Instance, pos: Vector, rot: Vector, mp: int)
      requires inst.BossInst? || inst.StoryInst? || inst.MemoryInst?
      modifies inst.Footprint()
      ensures Snapshot(inst) == WithStart(old(Snapshot(inst)), pos, rot, ToUInt32(mp))
    {
      match inst
      case BossInst(b) =>
        b.data := b.data.(startPos := pos, startRot := rot, savedMp := ToUInt32(mp));
      case StoryInst(s) =>
        s.data := s.data.(startPos := pos, startRot := rot, savedMp := ToUInt32(mp));
      case MemoryInst(m) =>
        m.data := m.data.(startPos := pos, startRot := rot, savedMp := ToUInt32(mp));
    }

    /**
     * StartChallenge: refused when the row is unknown or a lineup it needs is empty; otherwise
     * a fresh session becomes current on the first lineup, and when the scene cannot be
     * entered it is dropped again with the lineup reset. Picked boss buffs on a session
     * that is not a boss run throw after the session is current and before anything is saved.
     */
    method StartChallenge(challengeId: int, storyBuffs: Option<BuffPair>, bossBuffs: Option<BuffPair>, env: StartEnv)
      returns (outcome: StartOutcome)
      modifies this, data
      ensures challengeId !in game.challenges ==>
                && outcome == Refused(RetChallengeNotExist)
                && current == old(current) && lineupMode == old(lineupMode) && data.Row() == old(data.Row())
      ensures challengeId in game.challenges && !LineupsReady(game.challenges[challengeId], env.lineupSizes) ==>
                && outcome == Refused(RetChallengeLineupEmpty)
                && current == old(current) && lineupMode == old(lineupMode) && data.Row() == old(data.Row())
      ensures challengeId in game.challenges && LineupsReady(game.challenges[challengeId], env.lineupSizes)
              && !TryEnterChallengeScene(game.challenges[challengeId].mapEntranceId, game.mapEntrances, env.scene, env.entryIdAfter) ==>
                && outcome == Refused(RetChallengeNotExist)
                && current == NoInstance && lineupMode == LineupNone && data.Row() == old(data.Row())
      ensures outcome == StartThrew <==>
                && challengeId in game.challenges && LineupsReady(game.challenges[challengeId], env.lineupSizes)
                && TryEnterChallengeScene(game.challenges[challengeId].mapEntranceId, game.mapEntrances, env.scene, env.entryIdAfter)
                && bossBuffs.Some? && !game.challenges[challengeId].IsBoss()
      ensures outcome == Started <==>
                && challengeId in game.challenges && LineupsReady(game.challenges[challengeId], env.lineupSizes)
                && TryEnterChallengeScene(game.challenges[challengeId].mapEntranceId, game.mapEntrances, env.scene, env.entryIdAfter)
                && !(bossBuffs.Some? && !game.challenges[challengeId].IsBoss())
      ensures outcome == StartThrew ==>
                && fresh(current.Footprint()) && current.HasConfig(game.challenges[challengeId])
                && lineupMode == LineupChallenge && data.Row() == old(data.Row())
      ensures outcome == Started ==>
                && challengeId in game.challenges
                && fresh(current.Footprint()) && current.HasConfig(game.challenges[challengeId]) && !current.IsPartial()
                && lineupMode == LineupChallenge
                && Snapshot(current) == StartedData(game.challenges[challengeId], storyBuffs, bossBuffs, env)
                && data.Row() == old(data.Row()).(instanceBlob := Some(Snapshot(current)))
    {
      if challengeId !in game.challenges {
        return Refused(RetChallengeNotExist);
      }
      var excel := game.challenges[challengeId];
      if excel.stageNum > 0 && !LineupReady(LineupChallenge, env.lineupSizes) {
        return Refused(RetChallengeLineupEmpty);
      }
      if excel.stageNum >= 2 && !LineupReady(LineupChallenge2, env.lineupSizes) {
        return Refused(RetChallengeLineupEmpty);
      }
      var inst := CreateLegacyInstance(excel, 1, LineupChallenge, false);
      current := inst;
      lineupMode := LineupChallenge;
      if !TryEnterChallengeScene(excel.mapEntranceId, game.mapEntrances, env.scene, env.entryIdAfter) {
        lineupMode := LineupNone;
        current := NoInstance;
        return Refused(RetChallengeNotExist);
      }
      var threw := Prepare(inst, excel, storyBuffs, bossBuffs, env);
      return if threw then StartThrew else Started;
    }

    /**
     * The rest of StartChallenge once the scene is entered: the start point and Mp of the
     * first lineup, the picked story buffs, the picked boss buffs (which throw on a session
     * that is not a boss run), and the record saved.
     */
    method Prepare(inst: Instance, excel: ChallengeConfig, storyBuffs: Option<BuffPair>, bossBuffs: Option<BuffPair>,
                   env: StartEnv) returns (threw: bool)
      requires Snapshot(inst) == InitialData(excel, 1, LineupChallenge)
      requires data !in inst.Footprint()
      modifies inst.Footprint(), data
      ensures threw <==> bossBuffs.Some? && !excel.IsBoss()
      ensures threw ==> data.Row() == old(data.Row())
      ensures !threw ==> && Snapshot(inst) == StartedData(excel, storyBuffs, bossBuffs, env)
                         && data.Row() == old(data.Row()).(instanceBlob := Some(Snapshot(inst)))
    {
      SetStart(inst, env.pos, env.rot, env.mp.Of(LineupChallenge));
      if excel.IsStory() && storyBuffs.Some? {
        var s := inst.story;
        s.data := s.data.(buffs := s.data.buffs + [storyBuffs.value.buffOne, storyBuffs.value.buffTwo]);
      }
      if bossBuffs.Some? {
        if !inst.BossInst? {
          return true;
        }
        var b := inst.boss;
        b.data := b.data.(buffs := b.data.buffs + [bossBuffs.value.buffOne, bossBuffs.value.buffTwo]);
      }
      SaveInstance(inst);
      return false;
    }

    /**
     * StartPartialChallenge: one half of a challenge on the lineup of that half, starting on
     * its stage with only the chosen buff; refused like StartChallenge.
     */
    method StartPartialChallenge(challengeId: int, buffId: uint32, firstHalf: bool, env: StartEnv)
      returns (outcome: StartOutcome)
      modifies this, data
      ensures outcome != StartThrew
      ensures challengeId !in game.challenges ==>
                && outcome == Refused(RetChallengeNotExist)
                && current == old(current) && lineupMode == old(lineupMode) && data.Row() == old(data.Row())
      ensures challengeId in game.challenges && !LineupReady(PartialLineup(firstHalf), env.lineupSizes) ==>
                && outcome == Refused(RetChallengeLineupEmpty)
                && current == old(current) && lineupMode == old(lineupMode) && data.Row() == old(data.Row())
      ensures challengeId in game.challenges && LineupReady(PartialLineup(firstHalf), env.lineupSizes)
              && !TryEnterChallengeScene(PartialEntrance(game.challenges[challengeId], firstHalf), game.mapEntrances,
                                         env.scene, env.entryIdAfter) ==>
                && outcome == Refused(RetChallengeNotExist)
                && current == NoInstance && lineupMode == LineupNone && data.Row() == old(data.Row())
      ensures outcome == Started <==>
                && challengeId in game.challenges && LineupReady(PartialLineup(firstHalf), env.lineupSizes)
                && TryEnterChallengeScene(PartialEntrance(game.challenges[challengeId], firstHalf), game.mapEntrances,
                                          env.scene, env.entryIdAfter)
      ensures outcome == Started ==>
                && challengeId in game.challenges
                && LineupReady(PartialLineup(firstHalf), env.lineupSizes)
                && fresh(current.Footprint()) && current.HasConfig(game.challenges[challengeId]) && current.IsPartial()
                && lineupMode == PartialLineup(firstHalf)
                && Snapshot(current) == PartialData(game.challenges[challengeId], buffId, firstHalf, env)
                && data.Row() == old(data.Row()).(instanceBlob := Some(Snapshot(current)))
    {
      if challengeId !in game.challenges {
        return Refused(RetChallengeNotExist);
      }
      var excel := game.challenges[challengeId];
      var lineupType := PartialLineup(firstHalf);
      if !LineupReady(lineupType, env.lineupSizes) {
        return Refused(RetChallengeLineupEmpty);
      }
      var stage := if firstHalf then 1 else 2;
      var inst := CreateLegacyInstance(excel, stage, lineupType, true);
      SetPartialBuff(inst, buffId, firstHalf);
      current := inst;
      lineupMode := lineupType;
      if !TryEnterChallengeScene(PartialEntrance(excel, firstHalf), game.mapEntrances, env.scene, env.entryIdAfter) {
        lineupMode := LineupNone;
        current := NoInstance;
        return Refused(RetChallengeNotExist);
      }
      SetStart(inst, env.pos, env.rot, env.mp.Of(lineupMode));
      SaveInstance(inst);
      return Started;
    }

    /** SetPartialBuff: the story or boss buff list is replaced by the chosen buff at its half's index. */
    static method SetPartialBuff(inst: Instance, buffId: uint32, firstHalf: bool)
      modifies inst.Footprint()
      ensures Snapshot(inst) == PartialBuffs(old(Snapshot(inst)), buffId, firstHalf)
    {
      if buffId == 0 {
        return;
      }
      match inst
      case StoryInst(s) =>
        s.data := s.data.(buffs := if firstHalf then [buffId] else [0, buffId]);
      case BossInst(b) =>
        b.data := b.data.(buffs := if firstHalf then [buffId] else [0, buffId]);
      case _ =>
    }
  }

  /** A non-empty set has a member. */
  lemma NonEmptyHasMember(s: set<int>)
    requires s != {}
    ensures exists k :: k in s
  {
    if forall k :: k !in s {
      assert false;
    }
  }
}
