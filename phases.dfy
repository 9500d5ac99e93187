/**
 * The rules the three legacy session variants (boss, story, memory) apply to their
 * persisted record when a battle ends or the second phase begins, as functions of the old
 * record and of what the battle reported.
 */
module Phases {
  import opened Common
  import opened Catalog
  import opened Session
  import opened Stars

  /**
   * Boss and story: the battle clears its stage when it is won with no monster left in the
   * scene, or when it ends neither as a win nor as a quit because the turn limit ran out.
   */
  predicate ClearsStage(res: BattleResult, monstersLeft: nat) {
    || (res.endStatus == EndWin && monstersLeft == 0)
    || (res.endStatus != EndWin && res.endStatus != EndQuit && res.turnLimit)
  }

  /** Boss and story: any other end that is neither a win nor a quit fails the session. */
  predicate FailsBattle(res: BattleResult) {
    res.endStatus != EndWin && res.endStatus != EndQuit && !res.turnLimit
  }

  /** A battle end clears, fails, or does neither (a quit, or a win with monsters left), never both. */
  lemma BattleEndCases(res: BattleResult, monstersLeft: nat)
    ensures !(ClearsStage(res, monstersLeft) && FailsBattle(res))
    ensures res.endStatus == EndQuit ==> !ClearsStage(res, monstersLeft) && !FailsBattle(res)
    ensures res.endStatus != EndWin && res.endStatus != EndQuit ==> ClearsStage(res, monstersLeft) || FailsBattle(res)
  {
  }

  /** The boss stage score: the battle-target progress values summed in 32-bit arithmetic. */
  function BossStageScore(progress: seq<uint32>): (r: uint32)
    ensures Sum(progress) < TwoTo32 ==> r == Sum(progress)
  {
    ToUInt32(Sum(progress))
  }

  /** The story stage score: the battle's cumulative score minus the total before it, as `uint`. */
  function StoryStageScore(d: ScoreData, challengeScore: uint32): uint32 {
    ToUInt32(ToInt32(challengeScore) - TotalScore(d))
  }

  /**
   * The story battle reports a cumulative score: when the slot of the current stage is still
   * empty and nothing wraps, the total after the battle is exactly the reported score.
   */
  lemma StoryScoreIsCumulative(d: ScoreData, challengeScore: uint32)
    requires (if d.currentStage == 1 then d.scoreStage1 else d.scoreStage2) == 0
    requires d.scoreStage1 + d.scoreStage2 <= challengeScore < TwoTo31
    ensures TotalScore(WithStageScore(d, StoryStageScore(d, challengeScore))) == challengeScore
  {
    TotalScoreExact(d);
    var after := WithStageScore(d, StoryStageScore(d, challengeScore));
    assert after.scoreStage1 + after.scoreStage2 == challengeScore;
    TotalScoreExact(after);
  }

  /** The last stage is cleared: the session is finished and rated by the total score. */
  function FinishScored(config: ChallengeConfig, targets: map<int, ChallengeTarget>, d: ScoreData): (r: ScoreData)
    ensures r == d.(curStatus := StatusFinish, stars := r.stars)
    ensures r.stars == StarRating(config.targetIds, targets, ScoreMeasure(TotalScore(d))) && r.stars <= 7
  {
    d.(curStatus := StatusFinish, stars := StarRating(config.targetIds, targets, ScoreMeasure(TotalScore(d))))
  }

  /** The last memory stage is cleared: finished and rated by rounds left and dead avatars. */
  function FinishMemory(config: ChallengeConfig, targets: map<int, ChallengeTarget>, d: MemoryData): (r: MemoryData)
    ensures r == d.(curStatus := StatusFinish, stars := r.stars)
    ensures r.stars == StarRating(config.targetIds, targets, MemoryMeasure(d.roundsLeft, d.deadAvatarNum)) && r.stars <= 7
  {
    d.(curStatus := StatusFinish, stars := StarRating(config.targetIds, targets, MemoryMeasure(d.roundsLeft, d.deadAvatarNum)))
  }

  /** The rounds a finished memory session reports and records: ChallengeCountDown - RoundsLeft as `uint`. */
  function ConsumedRounds(config: ChallengeConfig, d: MemoryData): (r: uint32)
    ensures 0 <= config.challengeCountDown - d.roundsLeft < TwoTo32 ==> r == config.challengeCountDown - d.roundsLeft
  {
    ToUInt32(config.challengeCountDown - d.roundsLeft)
  }

  /** The boss second phase is entered in place unless MapEntranceID2 names another scene. */
  predicate BossSameEntry(config: ChallengeConfig, entryId: int) {
    config.mapEntranceId2 == 0 || config.mapEntranceId2 == entryId
  }

  /** Boss NextPhase: one stage on, the second lineup, its Mp saved, and a new start point after a scene change. */
  function BossPhaseTwo(config: ChallengeConfig, d: ScoreData, view: PlayerView): (r: ScoreData)
    ensures r.currentStage == d.currentStage + 1
    ensures r.currentExtraLineup == LineupChallenge2 && r.savedMp == ToUInt32(view.mp.Of(LineupChallenge2))
    ensures r.curStatus == d.curStatus && r.stars == d.stars && r.buffs == d.buffs
    ensures r.scoreStage1 == d.scoreStage1 && r.scoreStage2 == d.scoreStage2 && r.challengeMazeId == d.challengeMazeId
    ensures BossSameEntry(config, view.entryId) ==> r.startPos == d.startPos && r.startRot == d.startRot
    ensures !BossSameEntry(config, view.entryId) ==> r.startPos == view.arrivalPos && r.startRot == view.arrivalRot
  {
    var r := d.(currentStage := d.currentStage + 1, currentExtraLineup := LineupChallenge2,
                savedMp := ToUInt32(view.mp.Of(LineupChallenge2)));
    if BossSameEntry(config, view.entryId) then r else r.(startPos := view.arrivalPos, startRot := view.arrivalRot)
  }

  /** Story and memory: the stage counter moves on only while it is below 2. */
  function StageAfterPhase(stage: int): (r: int)
    ensures stage <= r
    ensures stage <= 2 ==> r <= 2
    ensures stage < 2 ==> r == stage + 1
  {
    if stage < 2 then stage + 1 else stage
  }

  /** The scene of the second story or memory stage. */
  function StageTwoEntry(config: ChallengeConfig): int {
    if config.mapEntranceId2 != 0 then config.mapEntranceId2 else config.mapEntranceId
  }

  /** Story and memory move to another scene (and a new start point) when the stage-two scene differs and exists. */
  predicate MovesScene(config: ChallengeConfig, entryId: int) {
    StageTwoEntry(config) != entryId && StageTwoEntry(config) != 0
  }

  /** Story NextPhase on a two-stage challenge. */
  function StoryPhaseTwo(config: ChallengeConfig, d: ScoreData, view: PlayerView): (r: ScoreData)
    ensures r.currentStage == StageAfterPhase(d.currentStage)
    ensures r.currentExtraLineup == LineupChallenge2 && r.savedMp == ToUInt32(view.mp.Of(LineupChallenge2))
    ensures r.curStatus == d.curStatus && r.stars == d.stars && r.buffs == d.buffs
    ensures r.scoreStage1 == d.scoreStage1 && r.scoreStage2 == d.scoreStage2 && r.challengeMazeId == d.challengeMazeId
    ensures !MovesScene(config, view.entryId) ==> r.startPos == d.startPos && r.startRot == d.startRot
    ensures MovesScene(config, view.entryId) ==> r.startPos == view.arrivalPos && r.startRot == view.arrivalRot
  {
    var r := d.(currentStage := StageAfterPhase(d.currentStage), currentExtraLineup := LineupChallenge2,
                savedMp := ToUInt32(view.mp.Of(LineupChallenge2)));
    if MovesScene(config, view.entryId) then r.(startPos := view.arrivalPos, startRot := view.arrivalRot) else r
  }

  /** Memory NextPhase on a two-stage challenge. */
  function MemoryPhaseTwo(config: ChallengeConfig, d: MemoryData, view: PlayerView): (r: MemoryData)
    ensures r.currentStage == StageAfterPhase(d.currentStage)
    ensures r.currentExtraLineup == LineupChallenge2 && r.savedMp == ToUInt32(view.mp.Of(LineupChallenge2))
    ensures r.curStatus == d.curStatus && r.stars == d.stars
    ensures r.roundsLeft == d.roundsLeft && r.deadAvatarNum == d.deadAvatarNum && r.challengeMazeId == d.challengeMazeId
    ensures !MovesScene(config, view.entryId) ==> r.startPos == d.startPos && r.startRot == d.startRot
    ensures MovesScene(config, view.entryId) ==> r.startPos == view.arrivalPos && r.startRot == view.arrivalRot
  {
    var r := d.(currentStage := StageAfterPhase(d.currentStage), currentExtraLineup := LineupChallenge2,
                savedMp := ToUInt32(view.mp.Of(LineupChallenge2)));
    if MovesScene(config, view.entryId) then r.(startPos := view.arrivalPos, startRot := view.arrivalRot) else r
  }

  /** Two phase changes in a row leave a story session on stage 2 at most, never beyond. */
  lemma StoryStageStaysAtMostTwo(config: ChallengeConfig, d: ScoreData, v1: PlayerView, v2: PlayerView)
    requires d.currentStage <= 2
    ensures StoryPhaseTwo(config, StoryPhaseTwo(config, d, v1), v2).currentStage <= 2
    ensures d.currentStage >= 1 ==> StoryPhaseTwo(config, StoryPhaseTwo(config, d, v1), v2).currentStage == 2
  {
  }

  /** The battle settings shared by every legacy variant: the round limit and the maze buff. */
  function BaseSetup(roundLimit: int, mazeBuffId: int): BattleSetup {
    BattleSetup(roundLimit, [mazeBuffId], [])
  }

  /** Adds the stage buff when there is one; an index before the list start throws (None). */
  function WithStageBuff(setup: BattleSetup, buffs: seq<uint32>, stage: int): (r: Option<BattleSetup>)
    ensures r.None? <==> StageBuffOf(buffs, stage).StageBuffOutOfRange?
    ensures r.Some? && 1 <= stage <= |buffs| ==> r.value == setup.(buffs := setup.buffs + [buffs[stage - 1]])
    ensures r.Some? && |buffs| < stage ==> r.value == setup
  {
    match StageBuffOf(buffs, stage)
    case NoStageBuff => Some(setup)
    case StageBuffId(id) => Some(setup.(buffs := setup.buffs + [id]))
    case StageBuffOutOfRange => None
  }

  /** Story battle targets: the total-score target in group 1, then each story battle target in group 5. */
  function StoryTargets(ids: seq<int>, total: int): (r: seq<BattleTarget>)
    ensures |r| == |ids| + 1 && r[0] == BattleTarget(1, 10002, total)
    ensures forall i :: 0 <= i < |ids| ==> r[i + 1] == BattleTarget(5, ids[i], total)
  {
    [BattleTarget(1, 10002, total)] + seq(|ids|, i requires 0 <= i < |ids| => BattleTarget(5, ids[i], total))
  }
}
