/**
 * The bookkeeping a finished challenge leaves behind: the per-challenge history
 * (ChallengeHistoryData), the claimed reward tiers of each group (ChallengeGroupReward),
 * the friend-visible best-run records (ChallengeGroupStatisticsPb), and the records
 * of the peak levels.
 */
module Records {
  import opened Common
  import opened Catalog
  import opened Session
  import opened Stars

  // ---------------------------------------------------------------------------------------
  // Challenge history

  /** ChallengeHistoryData: a fresh entry starts with group 0, no stars and score 0. */
  datatype HistoryEntry = HistoryEntry(challengeId: int, groupId: int, stars: int, score: int)

  /**
   * AddHistory: nothing happens for a non-positive star value or a partial run; otherwise the
   * entry is created when absent, its stars are combined through `setStars` (the
   * ChallengeHistoryData.SetStars rule) and its score overwritten with the latest one.
   */
  function HistoryAfterAdd(h: map<int, HistoryEntry>, partial: bool, challengeId: int, stars: int, score: int,
                           setStars: (int, int) -> int): (r: map<int, HistoryEntry>)
    ensures stars <= 0 || partial ==> r == h
    ensures stars > 0 && !partial ==>
      && r.Keys == h.Keys + {challengeId}
      && r[challengeId].challengeId == (if challengeId in h then h[challengeId].challengeId else challengeId)
      && r[challengeId].groupId == (if challengeId in h then h[challengeId].groupId else 0)
      && r[challengeId].stars == setStars(if challengeId in h then h[challengeId].stars else 0, stars)
      && r[challengeId].score == score
    ensures forall k :: k in h && k != challengeId ==> k in r && r[k] == h[k]
  {
    if stars <= 0 || partial then h
    else
      var e := if challengeId in h then h[challengeId] else HistoryEntry(challengeId, 0, 0, 0);
      h[challengeId := e.(stars := setStars(e.stars, stars), score := score)]
  }

  // ---------------------------------------------------------------------------------------
  // Reward claims

  /** The group fix-up of TakeRewards: an entry without a group takes the group of its challenge row. */
  function FixGroup(e: HistoryEntry, challenges: map<int, ChallengeConfig>): (r: HistoryEntry)
    ensures r.challengeId == e.challengeId && r.stars == e.stars && r.score == e.score
    ensures e.groupId != 0 || e.challengeId !in challenges ==> r == e
    ensures e.groupId == 0 && e.challengeId in challenges ==> r.groupId == challenges[e.challengeId].groupId
  {
    if e.groupId == 0 && e.challengeId in challenges then e.(groupId := challenges[e.challengeId].groupId) else e
  }

  /** Every entry of a history after the fix-up. */
  function FixAll(h: map<int, HistoryEntry>, challenges: map<int, ChallengeConfig>): (r: map<int, HistoryEntry>)
    ensures r.Keys == h.Keys
    ensures forall k :: k in h ==> r[k] == FixGroup(h[k], challenges)
  {
    map k | k in h :: FixGroup(h[k], challenges)
  }

  /**
   * The stars one history entry adds to a group's total: none for an entry without a group
   * whose challenge row is unknown (it is skipped), `totalStars(stars)` (the
   * ChallengeHistoryData.GetTotalStars rule) when its fixed-up group is the group asked for.
   */
  function Contribution(e: HistoryEntry, challenges: map<int, ChallengeConfig>, groupId: int,
                        totalStars: int -> int): int
  {
    if e.groupId == 0 && e.challengeId !in challenges then 0
    else if FixGroup(e, challenges).groupId == groupId then totalStars(e.stars)
    else 0
  }

  /** A fixed-up entry contributes what the original contributed. */
  lemma ContributionOfFixed(e: HistoryEntry, challenges: map<int, ChallengeConfig>, groupId: int,
                            totalStars: int -> int)
    ensures Contribution(FixGroup(e, challenges), challenges, groupId, totalStars)
         == Contribution(e, challenges, groupId, totalStars)
  {
  }

  ghost function PickKey(keys: set<int>): int
    requires keys != {}
  {
    assert exists k :: k in keys by {
      if forall k :: k !in keys {
        assert false;
      }
    }
    var k :| k in keys; k
  }

  /** The stars the entries under `keys` add to group `groupId`. */
  ghost function GroupStars(h: map<int, HistoryEntry>, keys: set<int>, challenges: map<int, ChallengeConfig>,
                            groupId: int, totalStars: int -> int): int
    requires keys <= h.Keys
    decreases keys
  {
    if keys == {} then 0
    else
      var k := PickKey(keys);
      Contribution(h[k], challenges, groupId, totalStars) + GroupStars(h, keys - {k}, challenges, groupId, totalStars)
  }

  /** The total does not depend on which entry is taken first. */
  lemma {:induction false} GroupStarsPick(h: map<int, HistoryEntry>, keys: set<int>, k: int,
                                          challenges: map<int, ChallengeConfig>, groupId: int, totalStars: int -> int)
    requires k in keys && keys <= h.Keys
    ensures GroupStars(h, keys, challenges, groupId, totalStars)
         == Contribution(h[k], challenges, groupId, totalStars) + GroupStars(h, keys - {k}, challenges, groupId, totalStars)
    decreases keys
  {
    var j := PickKey(keys);
    if j != k {
      assert keys - {j} - {k} == keys - {k} - {j};
      GroupStarsPick(h, keys - {j}, k, challenges, groupId, totalStars);
      GroupStarsPick(h, keys - {k}, j, challenges, groupId, totalStars);
    }
  }

  /** The star total of a group over the whole history. */
  ghost function GroupTotal(h: map<int, HistoryEntry>, challenges: map<int, ChallengeConfig>, groupId: int,
                            totalStars: int -> int): int
  {
    GroupStars(h, h.Keys, challenges, groupId, totalStars)
  }

  lemma {:induction false} GroupStarsOfFixed(h: map<int, HistoryEntry>, keys: set<int>, challenges: map<int, ChallengeConfig>,
                                             groupId: int, totalStars: int -> int)
    requires keys <= h.Keys
    ensures GroupStars(FixAll(h, challenges), keys, challenges, groupId, totalStars)
         == GroupStars(h, keys, challenges, groupId, totalStars)
    decreases keys
  {
    if keys != {} {
      var k := PickKey(keys);
      ContributionOfFixed(h[k], challenges, groupId, totalStars);
      GroupStarsOfFixed(h, keys - {k}, challenges, groupId, totalStars);
    }
  }

  /** The fix-up TakeRewards writes back never changes any group's total. */
  lemma GroupTotalOfFixed(h: map<int, HistoryEntry>, challenges: map<int, ChallengeConfig>, groupId: int,
                          totalStars: int -> int)
    ensures GroupTotal(FixAll(h, challenges), challenges, groupId, totalStars) == GroupTotal(h, challenges, groupId, totalStars)
  {
    GroupStarsOfFixed(h, h.Keys, challenges, groupId, totalStars);
  }

  /** TakenChallengeRewardInfo: a claimed tier and the items it granted. */
  datatype RewardGrant = RewardGrant(starCount: int, items: seq<Item>)

  /** The star counts already taken in a group and the grants made so far. */
  datatype ClaimState = ClaimState(taken: set<int>, grants: seq<RewardGrant>)

  /**
   * One tier of the claim loop: a tier above the total or already taken is skipped; otherwise
   * it is marked taken, and it grants its items only when its reward row exists.
   */
  function ClaimStep(st: ClaimState, tier: RewardTier, total: int, rewards: map<int, seq<Item>>): ClaimState {
    if total < tier.starCount || tier.starCount in st.taken then st
    else ClaimState(st.taken + {tier.starCount},
                    if tier.rewardId in rewards then st.grants + [RewardGrant(tier.starCount, rewards[tier.rewardId])]
                    else st.grants)
  }

  /** The claim loop over a reward line, tier by tier in line order. */
  function Claim(line: seq<RewardTier>, total: int, taken: set<int>, rewards: map<int, seq<Item>>): (r: ClaimState)
    ensures taken <= r.taken
    decreases |line|
  {
    if line == [] then ClaimState(taken, [])
    else ClaimStep(Claim(line[..|line| - 1], total, taken, rewards), line[|line| - 1], total, rewards)
  }

  /** One more tier of a line: the claim takes one ClaimStep, and the tier is reached or not. */
  lemma ClaimPrefixStep(line: seq<RewardTier>, i: nat, total: int, taken: set<int>, rewards: map<int, seq<Item>>)
    requires i < |line|
    ensures Claim(line[..i + 1], total, taken, rewards) == ClaimStep(Claim(line[..i], total, taken, rewards), line[i], total, rewards)
    ensures AnyReachable(line[..i + 1], total) <==> AnyReachable(line[..i], total) || line[i].starCount <= total
  {
    assert line[..i + 1][..i] == line[..i];
    assert line[..i + 1][i] == line[i];
    if AnyReachable(line[..i + 1], total) && line[i].starCount > total {
      var j :| 0 <= j < i + 1 && line[..i + 1][j].starCount <= total;
      assert line[..i][j] == line[..i + 1][j];
    }
    if AnyReachable(line[..i], total) {
      var j :| 0 <= j < i && line[..i][j].starCount <= total;
      assert line[..i + 1][j] == line[..i][j];
    }
  }

  /** The star counts of the tiers the total reaches. */
  function Reachable(line: seq<RewardTier>, total: int): set<int> {
    set i | 0 <= i < |line| && line[i].starCount <= total :: line[i].starCount
  }

  /** Some tier of the line is reached. */
  predicate AnyReachable(line: seq<RewardTier>, total: int) {
    exists i :: 0 <= i < |line| && line[i].starCount <= total
  }

  /** After a claim exactly the previously taken tiers and the reached tiers are taken. */
  lemma {:induction false} ClaimTaken(line: seq<RewardTier>, total: int, taken: set<int>, rewards: map<int, seq<Item>>)
    ensures Claim(line, total, taken, rewards).taken == taken + Reachable(line, total)
    decreases |line|
  {
    if line != [] {
      var init := line[..|line| - 1];
      ClaimTaken(init, total, taken, rewards);
      var last := line[|line| - 1];
      assert forall i :: 0 <= i < |init| ==> init[i] == line[i];
      if last.starCount <= total {
        assert Reachable(line, total) == Reachable(init, total) + {last.starCount};
      } else {
        assert Reachable(line, total) == Reachable(init, total);
      }
    }
  }

  /**
   * The grants of a claim are for reached tiers not taken before and taken now, and they
   * name distinct star counts.
   */
  predicate GrantsFresh(st: ClaimState, taken: set<int>, total: int) {
    && (forall j :: 0 <= j < |st.grants| ==>
          st.grants[j].starCount <= total && st.grants[j].starCount !in taken && st.grants[j].starCount in st.taken)
    && (forall j, k :: 0 <= j < k < |st.grants| ==> st.grants[j].starCount != st.grants[k].starCount)
  }

  /** A grant hands out exactly the reward row of a tier with its star count. */
  predicate GrantOfTier(g: RewardGrant, tier: RewardTier, rewards: map<int, seq<Item>>) {
    tier.starCount == g.starCount && tier.rewardId in rewards && g.items == rewards[tier.rewardId]
  }

  predicate GrantsFromLine(grants: seq<RewardGrant>, line: seq<RewardTier>, rewards: map<int, seq<Item>>) {
    forall j :: 0 <= j < |grants| ==> exists i :: 0 <= i < |line| && GrantOfTier(grants[j], line[i], rewards)
  }

  /** Every tier is granted at most once, and only when reached and not yet taken. */
  lemma {:induction false} ClaimGrantsFresh(line: seq<RewardTier>, total: int, taken: set<int>, rewards: map<int, seq<Item>>)
    ensures GrantsFresh(Claim(line, total, taken, rewards), taken, total)
    decreases |line|
  {
    if line != [] {
      var init := line[..|line| - 1];
      ClaimGrantsFresh(init, total, taken, rewards);
      var st := Claim(init, total, taken, rewards);
      var last := line[|line| - 1];
      assert Claim(line, total, taken, rewards) == ClaimStep(st, last, total, rewards);
    }
  }

  /** Each grant carries the items of the reward row of a tier of the line. */
  lemma {:induction false} ClaimGrantsItems(line: seq<RewardTier>, total: int, taken: set<int>, rewards: map<int, seq<Item>>)
    ensures GrantsFromLine(Claim(line, total, taken, rewards).grants, line, rewards)
    decreases |line|
  {
    if line != [] {
      var init := line[..|line| - 1];
      ClaimGrantsItems(init, total, taken, rewards);
      var st := Claim(init, total, taken, rewards);
      var r := Claim(line, total, taken, rewards);
      var last := line[|line| - 1];
      assert r == ClaimStep(st, last, total, rewards);
      forall j | 0 <= j < |r.grants|
        ensures exists i :: 0 <= i < |line| && GrantOfTier(r.grants[j], line[i], rewards)
      {
        if j < |st.grants| {
          assert r.grants[j] == st.grants[j];
          var i :| 0 <= i < |init| && GrantOfTier(st.grants[j], init[i], rewards);
          assert line[i] == init[i];
        } else {
          assert GrantOfTier(r.grants[j], line[|line| - 1], rewards);
        }
      }
    }
  }

  /** A claim against a taken set that already holds every reached tier marks and grants nothing. */
  lemma {:induction false} ClaimSaturated(line: seq<RewardTier>, total: int, taken: set<int>, rewards: map<int, seq<Item>>)
    requires Reachable(line, total) <= taken
    ensures Claim(line, total, taken, rewards) == ClaimState(taken, [])
    decreases |line|
  {
    if line != [] {
      var init := line[..|line| - 1];
      assert Reachable(init, total) <= Reachable(line, total) by {
        forall s | s in Reachable(init, total) ensures s in Reachable(line, total) {
          var i :| 0 <= i < |init| && init[i].starCount <= total && init[i].starCount == s;
          assert line[i] == init[i];
        }
      }
      ClaimSaturated(init, total, taken, rewards);
      var last := line[|line| - 1];
      if last.starCount <= total {
        assert last.starCount in Reachable(line, total);
      }
    }
  }

  /** Claiming twice at the same total: the second claim grants nothing. */
  lemma ClaimTwiceGrantsNothing(line: seq<RewardTier>, total: int, taken: set<int>, rewards: map<int, seq<Item>>)
    ensures var first := Claim(line, total, taken, rewards);
            Claim(line, total, first.taken, rewards) == ClaimState(first.taken, [])
  {
    ClaimTaken(line, total, taken, rewards);
    ClaimSaturated(line, total, Claim(line, total, taken, rewards).taken, rewards);
  }

  /** The taken set of a group, empty when the group has no ChallengeGroupReward yet. */
  function TakenOf(taken: map<int, set<int>>, groupId: int): set<int> {
    if groupId in taken then taken[groupId] else {}
  }

  /**
   * The TakenRewards map after a claim: the group's entry is created on the first reached
   * tier, so it exists afterwards iff it existed before or some tier is reached.
   */
  function TakenAfter(taken: map<int, set<int>>, groupId: int, line: seq<RewardTier>, total: int,
                      rewards: map<int, seq<Item>>): (r: map<int, set<int>>)
    ensures groupId in r <==> groupId in taken || AnyReachable(line, total)
    ensures forall g :: g != groupId ==> (g in r <==> g in taken) && (g in taken ==> r[g] == taken[g])
    ensures groupId in r ==> r[groupId] == TakenOf(taken, groupId) + Reachable(line, total)
  {
    ClaimTaken(line, total, TakenOf(taken, groupId), rewards);
    if groupId in taken || AnyReachable(line, total) then
      taken[groupId := Claim(line, total, TakenOf(taken, groupId), rewards).taken]
    else taken
  }

  /** One more tier of a line: a reached tier joins the group's taken set, creating it when missing. */
  lemma TakenAfterStep(taken: map<int, set<int>>, groupId: int, line: seq<RewardTier>, i: nat, total: int,
                       rewards: map<int, seq<Item>>)
    requires i < |line|
    ensures var before := TakenAfter(taken, groupId, line[..i], total, rewards);
      TakenAfter(taken, groupId, line[..i + 1], total, rewards)
        == if line[i].starCount <= total then before[groupId := TakenOf(before, groupId) + {line[i].starCount}] else before
  {
    var t0 := TakenOf(taken, groupId);
    ClaimPrefixStep(line, i, total, t0, rewards);
    ClaimTaken(line[..i], total, t0, rewards);
    ClaimTaken(line[..i + 1], total, t0, rewards);
    var before := TakenAfter(taken, groupId, line[..i], total, rewards);
    var c0 := Claim(line[..i], total, t0, rewards).taken;
    var c1 := Claim(line[..i + 1], total, t0, rewards).taken;
    assert c1 == if line[i].starCount <= total then c0 + {line[i].starCount} else c0;
    if groupId in before {
      assert before == taken[groupId := c0];
    } else {
      assert Reachable(line[..i], total) == {};
      assert t0 == {} && c0 == {};
      assert before == taken;
    }
  }

  /** The items a list of grants hands to the inventory, in grant order. */
  function GrantedItems(grants: seq<RewardGrant>): (r: seq<Item>)
    ensures grants == [] ==> r == []
    ensures forall g, it :: g in grants && it in g.items ==> it in r
    ensures forall it :: it in r ==> exists g :: g in grants && it in g.items
  {
    if grants == [] then []
    else
      var init := grants[..|grants| - 1];
      assert forall g :: g in grants ==> g in init || g == grants[|grants| - 1];
      assert forall g :: g in init ==> g in grants;
      GrantedItems(init) + grants[|grants| - 1].items
  }

  /**
   * Two TakeRewards calls on one group with nothing in between: the second one grants nothing,
   * because the fix-up keeps the total and the first one took every reached tier.
   */
  lemma TakeRewardsTwice(h: map<int, HistoryEntry>, taken: map<int, set<int>>, challenges: map<int, ChallengeConfig>,
                         groupId: int, totalStars: int -> int, line: seq<RewardTier>, rewards: map<int, seq<Item>>)
    ensures var total := GroupTotal(h, challenges, groupId, totalStars);
            var h2 := FixAll(h, challenges);
            var taken2 := TakenAfter(taken, groupId, line, total, rewards);
            var total2 := GroupTotal(h2, challenges, groupId, totalStars);
            && total2 == total
            && Claim(line, total2, TakenOf(taken2, groupId), rewards).grants == []
            && TakenAfter(taken2, groupId, line, total2, rewards) == taken2
  {
    var total := GroupTotal(h, challenges, groupId, totalStars);
    GroupTotalOfFixed(h, challenges, groupId, totalStars);
    var taken2 := TakenAfter(taken, groupId, line, total, rewards);
    var t2 := TakenOf(taken2, groupId);
    if AnyReachable(line, total) {
      assert Reachable(line, total) <= t2;
    } else {
      assert Reachable(line, total) == {};
    }
    ClaimSaturated(line, total, t2, rewards);
    ClaimTaken(line, total, t2, rewards);
  }

  // ---------------------------------------------------------------------------------------
  // Friend battle records

  /** MemoryGroupStatisticsPb (RoundStat) or Story/BossGroupStatisticsPb (ScoredStat). */
  datatype StatRecord =
    | RoundStat(roundCount: uint32, stars: int, recordId: nat, level: int, lineups: seq<seq<AvatarEntry>>)
    | ScoredStat(stars: int, recordId: nat, level: int, buffOne: uint32, buffTwo: uint32, score: uint32,
                 lineups: seq<seq<AvatarEntry>>)

  /** ChallengeGroupStatisticsPb: the best records of one group, per challenge, in three tables. */
  datatype GroupStatistics = GroupStatistics(groupId: int, memory: map<int, StatRecord>, story: map<int, StatRecord>,
                                             boss: map<int, StatRecord>)

  /** The FriendRecordData parts SaveBattleRecord touches. */
  datatype FriendRecords = FriendRecords(groups: map<int, GroupStatistics>, nextRecordId: nat)

  datatype StatTable = MemoryTable | StoryTable | BossTable

  function TableOf(g: GroupStatistics, t: StatTable): map<int, StatRecord> {
    match t
    case MemoryTable => g.memory
    case StoryTable => g.story
    case BossTable => g.boss
  }

  function WithTable(g: GroupStatistics, t: StatTable, m: map<int, StatRecord>): (r: GroupStatistics)
    ensures TableOf(r, t) == m && r.groupId == g.groupId
    ensures forall u :: u != t ==> TableOf(r, u) == TableOf(g, u)
  {
    match t
    case MemoryTable => g.(memory := m)
    case StoryTable => g.(story := m)
    case BossTable => g.(boss := m)
  }

  /** The finished run a record is made from. */
  datatype RecordSubject =
    | MemorySubject(config: ChallengeConfig, memory: MemoryData)
    | StorySubject(config: ChallengeConfig, story: ScoreData)
    | BossSubject(config: ChallengeConfig, boss: ScoreData)
    | PeakSubject(levelConfigId: int, peak: PeakData)

  /** The group the record is filed under: `(uint)Config.GroupID`, or the peak's group. */
  function GroupKey(s: RecordSubject): int {
    if s.PeakSubject? then s.peak.currentPeakGroupId else ToUInt32(s.config.groupId)
  }

  /** Memory records go to the memory table, boss records to the boss table, story and peak records to the story table. */
  function TableFor(s: RecordSubject): StatTable {
    match s
    case MemorySubject(_, _) => MemoryTable
    case BossSubject(_, _) => BossTable
    case _ => StoryTable
  }

  /** The record key: `(uint)Config.ID`, or the peak level id. */
  function RecordKey(s: RecordSubject): int {
    if s.PeakSubject? then s.peak.currentPeakLevelId else ToUInt32(s.config.id)
  }

  /** The stars a record carries: the low-bit count of a legacy rating, the raw peak stars. */
  function RecordStars(s: RecordSubject): (r: int)
    ensures !s.PeakSubject? ==> 0 <= r <= 3
  {
    match s
    case MemorySubject(_, d) => LowStarCount(d.stars)
    case StorySubject(_, d) => LowStarCount(d.stars)
    case BossSubject(_, d) => LowStarCount(d.stars)
    case PeakSubject(_, d) => d.stars
  }

  /** `Buffs.Count > i ? Buffs[i] : 0` */
  function BuffAt(buffs: seq<uint32>, i: nat): uint32 {
    if i < |buffs| then buffs[i] else 0
  }

  /** The lineups of a legacy record: the first extra lineup, and the second one only for two-stage challenges. */
  function RecordLineups(lineups: map<ExtraLineup, seq<AvatarEntry>>, stageNum: int): (r: seq<seq<AvatarEntry>>)
    ensures |r| <= (if stageNum < 2 then 1 else 2)
    ensures |r| == (if LineupChallenge in lineups then 1 else 0)
                   + (if stageNum >= 2 && LineupChallenge2 in lineups then 1 else 0)
    ensures LineupChallenge in lineups ==> r[0] == lineups[LineupChallenge]
    ensures stageNum >= 2 && LineupChallenge2 in lineups ==> r[|r| - 1] == lineups[LineupChallenge2]
  {
    (if LineupChallenge in lineups then [lineups[LineupChallenge]] else [])
    + (if stageNum >= 2 && LineupChallenge2 in lineups then [lineups[LineupChallenge2]] else [])
  }

  /** The lineups of a peak record: both extra lineups, each only when it holds an avatar. */
  function PeakRecordLineups(lineups: map<ExtraLineup, seq<AvatarEntry>>): (r: seq<seq<AvatarEntry>>)
    ensures forall i :: 0 <= i < |r| ==> r[i] != []
  {
    (if LineupChallenge in lineups && lineups[LineupChallenge] != [] then [lineups[LineupChallenge]] else [])
    + (if LineupChallenge2 in lineups && lineups[LineupChallenge2] != [] then [lineups[LineupChallenge2]] else [])
  }

  /** The record a replacement stores. */
  function NewRecord(s: RecordSubject, recordId: nat, lineups: map<ExtraLineup, seq<AvatarEntry>>): (r: StatRecord)
    ensures r.recordId == recordId && r.stars == RecordStars(s)
    ensures s.MemorySubject? <==> r.RoundStat?
  {
    match s
    case MemorySubject(c, d) =>
      RoundStat(ToUInt32(c.challengeCountDown - d.roundsLeft), RecordStars(s), recordId, c.floor,
                RecordLineups(lineups, c.stageNum))
    case StorySubject(c, d) =>
      ScoredStat(RecordStars(s), recordId, c.floor, BuffAt(d.buffs, 0), BuffAt(d.buffs, 1),
                 ToUInt32(TotalScore(d)), RecordLineups(lineups, c.stageNum))
    case BossSubject(c, d) =>
      ScoredStat(RecordStars(s), recordId, c.floor, BuffAt(d.buffs, 0), BuffAt(d.buffs, 1),
                 ToUInt32(TotalScore(d)), RecordLineups(lineups, c.stageNum))
    case PeakSubject(levelConfigId, d) =>
      ScoredStat(d.stars, recordId, ToUInt32(levelConfigId), BuffAt(d.buffs, 0), 0, 0, PeakRecordLineups(lineups))
  }

  /** The group statistics a save works on: the stored one, or a fresh one (the TryAdd). */
  function GroupFor(f: FriendRecords, s: RecordSubject): GroupStatistics {
    if GroupKey(s) in f.groups then f.groups[GroupKey(s)]
    else GroupStatistics(GroupKey(s), map[], map[], map[])
  }

  /** The stored record has strictly more stars than the run, so the run is not recorded. */
  predicate KeepsOld(f: FriendRecords, s: RecordSubject) {
    var t := TableOf(GroupFor(f, s), TableFor(s));
    RecordKey(s) in t && t[RecordKey(s)].stars > RecordStars(s)
  }

  /**
   * SaveBattleRecord: a partial run records nothing; otherwise the group is added when
   * missing, and the run replaces the stored record of its challenge unless that one has
   * strictly more stars, each replacement taking the next record id.
   */
  function RecordAfterSave(f: FriendRecords, partial: bool, s: RecordSubject,
                           lineups: map<ExtraLineup, seq<AvatarEntry>>): (r: FriendRecords)
    ensures partial ==> r == f
    ensures !partial ==> r.groups.Keys == f.groups.Keys + {GroupKey(s)}
    ensures !partial ==> forall g :: g in f.groups && g != GroupKey(s) ==> r.groups[g] == f.groups[g]
    ensures !partial ==>
      var t := TableOf(r.groups[GroupKey(s)], TableFor(s));
      RecordKey(s) in t && t[RecordKey(s)].stars >= RecordStars(s)
    ensures !partial ==> forall u :: u != TableFor(s) ==> TableOf(r.groups[GroupKey(s)], u) == TableOf(GroupFor(f, s), u)
    ensures !partial && KeepsOld(f, s) ==> r == FriendRecords(f.groups[GroupKey(s) := GroupFor(f, s)], f.nextRecordId)
    ensures !partial && !KeepsOld(f, s) ==>
      && r.nextRecordId == f.nextRecordId + 1
      && TableOf(r.groups[GroupKey(s)], TableFor(s))
         == TableOf(GroupFor(f, s), TableFor(s))[RecordKey(s) := NewRecord(s, f.nextRecordId, lineups)]
  {
    if partial then f
    else
      var g := GroupFor(f, s);
      var t := TableOf(g, TableFor(s));
      if KeepsOld(f, s) then FriendRecords(f.groups[GroupKey(s) := g], f.nextRecordId)
      else
        var g2 := WithTable(g, TableFor(s), t[RecordKey(s) := NewRecord(s, f.nextRecordId, lineups)]);
        FriendRecords(f.groups[GroupKey(s) := g2], f.nextRecordId + 1)
  }

  /**
   * A finished memory run saves its record twice: when the first save replaces the stored
   * record the second replaces it again, so two record ids are consumed and the stored
   * record carries the second one; when the first keeps the old record so does the second.
   */
  lemma SaveTwice(f: FriendRecords, s: RecordSubject, lineups: map<ExtraLineup, seq<AvatarEntry>>)
    ensures var once := RecordAfterSave(f, false, s, lineups);
            var twice := RecordAfterSave(once, false, s, lineups);
            && (KeepsOld(f, s) ==> twice == once)
            && (!KeepsOld(f, s) ==>
                  && twice.nextRecordId == f.nextRecordId + 2
                  && TableOf(twice.groups[GroupKey(s)], TableFor(s))[RecordKey(s)] == NewRecord(s, f.nextRecordId + 1, lineups))
  {
    var once := RecordAfterSave(f, false, s, lineups);
    assert GroupFor(once, s) == once.groups[GroupKey(s)];
    if !KeepsOld(f, s) {
      assert TableOf(GroupFor(once, s), TableFor(s))[RecordKey(s)].stars == RecordStars(s);
      assert !KeepsOld(once, s);
    }
  }

  // ---------------------------------------------------------------------------------------
  // Peak level records

  /** ChallengePeakLevelData. */
  datatype PeakLevelData = PeakLevelData(levelId: int, baseAvatarList: seq<uint32>, roundCnt: uint32,
                                         finishedTargetList: seq<uint32>, peakStar: uint32)

  /** ChallengePeakBossLevelData. */
  datatype PeakBossLevelData = PeakBossLevelData(levelId: int, isHard: bool, baseAvatarList: seq<uint32>,
                                                 roundCnt: uint32, buffId: uint32, finishedTargetList: seq<uint32>,
                                                 peakStar: uint32)
}
