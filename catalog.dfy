/**
 * The read-only challenge tables the engine consults (ChallengeConfig, ChallengeTarget,
 * ChallengeGroup, ChallengeReward, RewardData, MapEntrance). Their loading is not modelled;
 * every operation receives them as a value.
 */
module Catalog {
  import opened Common

  /** Which session variant a challenge row describes (ChallengeConfigExcel.IsBoss / IsStory). */
  datatype ChallengeKind = BossChallenge | StoryChallenge | MemoryChallenge

  datatype ChallengeConfig = ChallengeConfig(
    id: int,
    groupId: int,
    kind: ChallengeKind,
    stageNum: int,
    floor: nat,
    mapEntranceId: int,
    mapEntranceId2: int,
    mazeGroupId1: int,
    mazeGroupId2: int,
    challengeCountDown: int,
    mazeBuffId: int,
    targetIds: seq<int>,
    /** StoryExcel.BattleTargetID, or None when the row has no story extension. */
    storyBattleTargets: Option<seq<int>>)
  {
    predicate IsBoss() { kind == BossChallenge }
    predicate IsStory() { kind == StoryChallenge }
  }

  datatype TargetType = TotalScoreType | RoundsLeftType | DeadAvatarType | OtherType

  datatype ChallengeTarget = ChallengeTarget(kind: TargetType, param1: int)

  /** One tier of a reward line: claimable once the group holds `starCount` stars. */
  datatype RewardTier = RewardTier(starCount: int, rewardId: int)

  datatype Item = Item(itemId: int, count: int)

  datatype GameData = GameData(
    challenges: map<int, ChallengeConfig>,
    targets: map<int, ChallengeTarget>,
    /** ChallengeGroup: group id to its RewardLineGroupID. */
    groupRewardLines: map<int, int>,
    rewardLines: map<int, seq<RewardTier>>,
    rewards: map<int, seq<Item>>,
    mapEntrances: set<int>)
}
