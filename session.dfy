/**
 * The persisted state of a running challenge (the ChallengeDataPb oneof and its variant
 * records) and the inputs a battle hands to the session handlers.
 */
module Session {
  import opened Common
  import opened Catalog

  /** ChallengeStatus as stored in CurStatus; a freshly created session is Doing (1). */
  datatype Status = StatusUnknown | StatusDoing | StatusFinish | StatusFailed

  datatype ExtraLineup = LineupNone | LineupChallenge | LineupChallenge2

  /** A position or rotation; a start position never written reads as the origin. */
  datatype Vector = Vector(x: int, y: int, z: int)

  const Origin := Vector(0, 0, 0)

  /** ChallengeBossDataPb and ChallengeStoryDataPb, whose fields the engine uses alike. */
  datatype ScoreData = ScoreData(
    challengeMazeId: uint32,
    curStatus: Status,
    currentStage: int,
    currentExtraLineup: ExtraLineup,
    scoreStage1: uint32,
    scoreStage2: uint32,
    stars: uint32,
    savedMp: uint32,
    buffs: seq<uint32>,
    startPos: Vector,
    startRot: Vector)

  /** ChallengeMemoryDataPb. */
  datatype MemoryData = MemoryData(
    challengeMazeId: uint32,
    curStatus: Status,
    currentStage: int,
    currentExtraLineup: ExtraLineup,
    roundsLeft: uint32,
    deadAvatarNum: nat,
    stars: uint32,
    savedMp: uint32,
    startPos: Vector,
    startRot: Vector)

  /** ChallengePeakDataPb. */
  datatype PeakData = PeakData(
    currentPeakGroupId: uint32,
    currentPeakLevelId: uint32,
    currentExtraLineup: ExtraLineup,
    curStatus: Status,
    isHard: bool,
    buffs: seq<uint32>,
    roundCnt: uint32,
    stars: uint32,
    savedMp: uint32,
    startPos: Option<Vector>,
    startRot: Option<Vector>)

  /** The persisted oneof; NotSet is the unset case. */
  datatype ChallengeDataPb =
    | NotSet
    | MemoryPb(memory: MemoryData)
    | StoryPb(story: ScoreData)
    | BossPb(boss: ScoreData)
    | PeakPb(peak: PeakData)

  /** SetStartPos, SetStartRot and SetSavedMp of a legacy session; other records are left alone. */
  function WithStart(pb: ChallengeDataPb, pos: Vector, rot: Vector, mp: uint32): (r: ChallengeDataPb)
    ensures r.MemoryPb? <==> pb.MemoryPb?
    ensures r.StoryPb? <==> pb.StoryPb?
    ensures r.BossPb? <==> pb.BossPb?
    ensures pb.MemoryPb? ==> r.memory == pb.memory.(startPos := pos, startRot := rot, savedMp := mp)
    ensures pb.StoryPb? ==> r.story == pb.story.(startPos := pos, startRot := rot, savedMp := mp)
    ensures pb.BossPb? ==> r.boss == pb.boss.(startPos := pos, startRot := rot, savedMp := mp)
    ensures pb.NotSet? || pb.PeakPb? ==> r == pb
  {
    match pb
    case MemoryPb(d) => MemoryPb(d.(startPos := pos, startRot := rot, savedMp := mp))
    case StoryPb(d) => StoryPb(d.(startPos := pos, startRot := rot, savedMp := mp))
    case BossPb(d) => BossPb(d.(startPos := pos, startRot := rot, savedMp := mp))
    case _ => pb
  }

  /** The two buffs a client picks for a story or boss run. */
  datatype BuffPair = BuffPair(buffOne: uint32, buffTwo: uint32)

  /** Appends the picked pair to a story record's buff list; other records are left alone. */
  function AddStoryBuffs(pb: ChallengeDataPb, pair: BuffPair): (r: ChallengeDataPb)
    ensures pb.StoryPb? ==> r == StoryPb(pb.story.(buffs := pb.story.buffs + [pair.buffOne, pair.buffTwo]))
    ensures !pb.StoryPb? ==> r == pb
  {
    if pb.StoryPb? then StoryPb(pb.story.(buffs := pb.story.buffs + [pair.buffOne, pair.buffTwo])) else pb
  }

  /** Appends the picked pair to a boss record's buff list; other records are left alone. */
  function AddBossBuffs(pb: ChallengeDataPb, pair: BuffPair): (r: ChallengeDataPb)
    ensures pb.BossPb? ==> r == BossPb(pb.boss.(buffs := pb.boss.buffs + [pair.buffOne, pair.buffTwo]))
    ensures !pb.BossPb? ==> r == pb
  {
    if pb.BossPb? then BossPb(pb.boss.(buffs := pb.boss.buffs + [pair.buffOne, pair.buffTwo])) else pb
  }

  /**
   * SetPartialBuff: a story or boss record's buff list becomes the partial run's single
   * buff at the index of its half; buff id 0 and memory records are left alone.
   */
  function PartialBuffs(pb: ChallengeDataPb, buffId: uint32, firstHalf: bool): (r: ChallengeDataPb)
    ensures buffId == 0 || pb.MemoryPb? || pb.NotSet? || pb.PeakPb? ==> r == pb
    ensures pb.StoryPb? ==> r == StoryPb(pb.story.(buffs := WithPartialBuff(pb.story.buffs, buffId, firstHalf)))
    ensures pb.BossPb? ==> r == BossPb(pb.boss.(buffs := WithPartialBuff(pb.boss.buffs, buffId, firstHalf)))
  {
    match pb
    case StoryPb(d) => StoryPb(d.(buffs := WithPartialBuff(d.buffs, buffId, firstHalf)))
    case BossPb(d) => BossPb(d.(buffs := WithPartialBuff(d.buffs, buffId, firstHalf)))
    case _ => pb
  }

  /** GetTotalScore: the two stage scores added as `uint` and read as `int`. */
  function TotalScore(d: ScoreData): (r: int)
    ensures -TwoTo31 <= r < TwoTo31
    ensures (r - (d.scoreStage1 + d.scoreStage2)) % TwoTo32 == 0
  {
    ToInt32(ToUInt32(d.scoreStage1 + d.scoreStage2))
  }

  /** While the two scores fit an `int`, the total is their plain sum. */
  lemma TotalScoreExact(d: ScoreData)
    requires d.scoreStage1 + d.scoreStage2 < TwoTo31
    ensures TotalScore(d) == d.scoreStage1 + d.scoreStage2
  {
  }

  /** Stores a stage score into the slot of the current stage: stage 1 into slot 1, any other stage into slot 2. */
  function WithStageScore(d: ScoreData, score: uint32): (r: ScoreData)
    ensures d.currentStage == 1 ==> r == d.(scoreStage1 := score)
    ensures d.currentStage != 1 ==> r == d.(scoreStage2 := score)
  {
    if d.currentStage == 1 then d.(scoreStage1 := score) else d.(scoreStage2 := score)
  }

  /** Sum of a sequence of progress values. */
  function Sum(xs: seq<uint32>): nat {
    if xs == [] then 0 else Sum(xs[..|xs| - 1]) + xs[|xs| - 1]
  }

  datatype BattleEndStatus = EndNone | EndWin | EndLose | EndQuit

  /** The parts of PVEBattleResultCsReq the session handlers read. */
  datatype BattleResult = BattleResult(
    endStatus: BattleEndStatus,
    /** EndReason == TurnLimit */
    turnLimit: bool,
    /** Progress of the targets in battle-target group 1; None when the result has no group 1 */
    targetProgress: Option<seq<uint32>>,
    challengeScore: uint32,
    roundCnt: uint32,
    /** CurrentHp of each formal avatar of the battle lineup */
    avatarHp: seq<int>)

  /** Technique points of each lineup the LineupManager holds. */
  datatype LineupMp = LineupMp(normal: int, challenge: int, challenge2: int)
  {
    function Of(t: ExtraLineup): int {
      match t
      case LineupNone => normal
      case LineupChallenge => challenge
      case LineupChallenge2 => challenge2
    }
  }

  /** One avatar of a lineup as a friend battle record stores it. */
  datatype AvatarEntry = AvatarEntry(index: nat, id: uint32, level: uint32)

  /**
   * What the handlers observe of the rest of the player while a battle ends or a phase
   * changes: monsters left in the scene, lineup technique points, the entry id of the scene
   * the player stands in, where the player stands after entering another scene, whether the
   * second challenge lineup holds avatars, and the formal-avatar form of each extra lineup.
   */
  datatype PlayerView = PlayerView(
    monstersLeft: nat,
    mp: LineupMp,
    entryId: int,
    arrivalPos: Vector,
    arrivalRot: Vector,
    secondLineupReady: bool,
    recordLineups: map<ExtraLineup, seq<AvatarEntry>>)

  /** What a quit restores: the lineup's technique points and the start position and rotation. */
  datatype QuitEffect = QuitEffect(mp: int, pos: Vector, rot: Vector)

  /** A battle target: its group, its id and its starting progress. */
  datatype BattleTarget = BattleTarget(group: int, id: int, progress: int)

  /**
   * The settings OnBattleStart gives the battle: the round limit, the maze buffs (each a
   * MazeBuff of level 1, owner -1 and wave flag -1, named by its id) and the battle targets.
   */
  datatype BattleSetup = BattleSetup(roundLimit: int, buffs: seq<int>, targets: seq<BattleTarget>)

  /** The stage buff OnBattleStart adds: none, one, or an index out of range. */
  datatype StageBuff = NoStageBuff | StageBuffId(id: uint32) | StageBuffOutOfRange

  /**
   * `if (Buffs.Count < CurrentStage) return; Buffs[(int)(CurrentStage - 1)]`:
   * the buff of the current stage when the list is long enough; a stage below 1
   * indexes before the list start, which throws.
   */
  function StageBuffOf(buffs: seq<uint32>, stage: int): (r: StageBuff)
    ensures r.StageBuffId? <==> 1 <= stage <= |buffs|
    ensures r.StageBuffId? ==> r.id == buffs[stage - 1]
    ensures r.NoStageBuff? <==> |buffs| < stage
  {
    if |buffs| < stage then NoStageBuff
    else if stage < 1 then StageBuffOutOfRange
    else StageBuffId(buffs[stage - 1])
  }

  /** The buff list a partial run starts with: the chosen buff at the index of its half. */
  function WithPartialBuff(buffs: seq<uint32>, buffId: uint32, firstHalf: bool): (r: seq<uint32>)
    ensures buffId == 0 ==> r == buffs
  {
    if buffId == 0 then buffs else if firstHalf then [buffId] else [0, buffId]
  }

  /** A partial run's own buff is the stage buff its first battle receives. */
  lemma PartialBuffIsStageBuff(buffs: seq<uint32>, buffId: uint32, firstHalf: bool)
    requires buffId != 0
    ensures StageBuffOf(WithPartialBuff(buffs, buffId, firstHalf), if firstHalf then 1 else 2) == StageBuffId(buffId)
  {
  }

  /**
   * The memory rounds rule `Math.Min(Math.Max(RoundsLeft - RoundCnt, 1), RoundsLeft)` in
   * `uint` arithmetic.
   */
  function RoundsAfter(roundsLeft: uint32, roundCnt: uint32): (r: uint32)
    ensures r <= roundsLeft
    ensures 0 < roundCnt < roundsLeft ==> r == roundsLeft - roundCnt
    ensures roundCnt == 0 || roundCnt > roundsLeft ==> r == roundsLeft
    ensures 1 <= roundsLeft == roundCnt ==> r == 1
  {
    Min(Max(ToUInt32(roundsLeft - roundCnt), 1), roundsLeft)
  }

  /** Number of avatars that ended the battle with no HP left. */
  function DeadCount(hps: seq<int>): (r: nat)
    ensures r <= |hps|
  {
    if hps == [] then 0 else DeadCount(hps[..|hps| - 1]) + (if hps[|hps| - 1] <= 0 then 1 else 0)
  }
}
