/**
 * The peak (bracket) manager of one player: which bracket is current, the per-level and
 * per-boss-difficulty best-run records, the bracket view with its star total, the lineup
 * memory, and the start of a peak level.
 */
module Peak {
  import opened Common
  import opened Session
  import opened Records
  import opened PeakCatalog
  import opened Challenge

  // ---------------------------------------------------------------------------------------
  // Selecting the current bracket

  /**
   * HasGroupProgress for a group row: one of its levels has a record, or its boss level has a
   * record on either difficulty.
   */
  predicate GroupHasProgress(g: PeakGroupConfig, levels: map<int, PeakLevelData>,
                             bosses: map<int, PeakBossLevelData>)
  {
    || (exists i :: 0 <= i < |g.preLevelIds| && g.preLevelIds[i] in levels)
    || (g.bossLevelId > 0 && (BossKey(g.bossLevelId, false) in bosses || BossKey(g.bossLevelId, true) in bosses))
  }

  /** HasGroupProgress by id: false for a group id the table does not know. */
  predicate HasGroupProgress(t: PeakTables, groupId: int, levels: map<int, PeakLevelData>,
                             bosses: map<int, PeakBossLevelData>)
  {
    match t.GroupById(groupId)
    case None => false
    case Some(g) => GroupHasProgress(g, levels, bosses)
  }

  /** The smallest group id of a list of group rows. */
  function LowestId(gs: seq<PeakGroupConfig>): (r: int)
    requires gs != []
    ensures exists i :: 0 <= i < |gs| && gs[i].id == r
    ensures forall i :: 0 <= i < |gs| ==> r <= gs[i].id
  {
    if |gs| == 1 then gs[0].id
    else
      var rest := LowestId(gs[1..]);
      assert forall i :: 1 <= i < |gs| ==> gs[i] == gs[1..][i - 1];
      Min(gs[0].id, rest)
  }

  /** The smallest id among the groups that have progress, if any has. */
  function LowestWithProgress(gs: seq<PeakGroupConfig>, levels: map<int, PeakLevelData>,
                              bosses: map<int, PeakBossLevelData>): (r: Option<int>)
    ensures r.None? <==> forall i :: 0 <= i < |gs| ==> !GroupHasProgress(gs[i], levels, bosses)
    ensures r.Some? ==> exists i :: 0 <= i < |gs| && gs[i].id == r.value && GroupHasProgress(gs[i], levels, bosses)
    ensures r.Some? ==> forall i :: 0 <= i < |gs| && GroupHasProgress(gs[i], levels, bosses) ==> r.value <= gs[i].id
  {
    if gs == [] then None
    else
      var rest := LowestWithProgress(gs[1..], levels, bosses);
      assert forall i :: 1 <= i < |gs| ==> gs[i] == gs[1..][i - 1];
      if !GroupHasProgress(gs[0], levels, bosses) then rest
      else if rest.Some? && rest.value < gs[0].id then rest
      else Some(gs[0].id)
  }

  /** The bracket a running peak session is in, when the current session is one. */
  function RunningGroup(inst: Instance): Option<uint32>
    reads inst.Footprint()
  {
    if inst.PeakInst? then Some(inst.peak.data.currentPeakGroupId) else None
  }

  /**
   * GetCurrentPeakGroupId: the operator's selected group when it exists; else the group of a
   * running peak session when positive; else the lowest group id with progress; else the
   * lowest group id; else the configured default.
   */
  function CurrentGroupId(t: PeakTables, running: Option<uint32>, levels: map<int, PeakLevelData>,
                          bosses: map<int, PeakBossLevelData>): (r: uint32)
    requires t.Valid()
    ensures t.consts.selectedGroupId > 0 && t.HasGroup(ToInt32(t.consts.selectedGroupId)) ==>
              r == t.consts.selectedGroupId
    ensures !(t.consts.selectedGroupId > 0 && t.HasGroup(ToInt32(t.consts.selectedGroupId))) ==>
      && (running.Some? && running.value > 0 ==> r == running.value)
      && (!(running.Some? && running.value > 0) ==>
            && (t.groups == [] ==> r == t.consts.curGroupId)
            && (t.groups != [] && LowestWithProgress(t.groups, levels, bosses).Some? ==>
                  && r == ToUInt32(LowestWithProgress(t.groups, levels, bosses).value)
                  && HasGroupProgress(t, LowestWithProgress(t.groups, levels, bosses).value, levels, bosses))
            && (t.groups != [] && LowestWithProgress(t.groups, levels, bosses).None? ==>
                  && r == ToUInt32(LowestId(t.groups))
                  && forall i :: 0 <= i < |t.groups| ==> !HasGroupProgress(t, t.groups[i].id, levels, bosses)))
  {
    if t.consts.selectedGroupId > 0 && t.HasGroup(ToInt32(t.consts.selectedGroupId)) then t.consts.selectedGroupId
    else if running.Some? && running.value > 0 then running.value
    else if t.groups == [] then t.consts.curGroupId
    else
      var lowest := LowestWithProgress(t.groups, levels, bosses);
      GroupByIdOfMember(t, lowest, levels, bosses);
      if lowest.Some? then ToUInt32(lowest.value) else ToUInt32(LowestId(t.groups))
  }

  /** With distinct ids, looking a member's id up gives back that member. */
  lemma GroupByIdOfMember(t: PeakTables, lowest: Option<int>, levels: map<int, PeakLevelData>,
                          bosses: map<int, PeakBossLevelData>)
    requires t.Valid()
    requires lowest == LowestWithProgress(t.groups, levels, bosses)
    ensures lowest.Some? ==> HasGroupProgress(t, lowest.value, levels, bosses)
    ensures lowest.None? ==> forall i :: 0 <= i < |t.groups| ==> !HasGroupProgress(t, t.groups[i].id, levels, bosses)
  {
    forall i | 0 <= i < |t.groups|
      ensures t.GroupById(t.groups[i].id) == Some(t.groups[i])
    {
      var g := t.GroupById(t.groups[i].id);
      var j :| 0 <= j < |t.groups| && t.groups[j] == g.value;
      assert t.groups[j].id == t.groups[i].id;
    }
  }

  // ---------------------------------------------------------------------------------------
  // The bracket view

  /** A cleared difficulty of the boss level as the client sees it. */
  datatype BossClearance = BossClearance(bestCycleCount: uint32, buffId: uint32, hasPassed: bool, stars: uint32,
                                         avatarIds: seq<uint32>, finishedTargets: seq<uint32>)

  /** BuildBossClearance: a difficulty has passed when it has stars or finished targets. */
  function Clearance(d: PeakBossLevelData): (r: BossClearance)
    ensures r.hasPassed <==> d.peakStar > 0 || |d.finishedTargetList| > 0
    ensures r.stars == d.peakStar && r.bestCycleCount == d.roundCnt && r.finishedTargets == d.finishedTargetList
  {
    BossClearance(d.roundCnt, d.buffId, d.peakStar > 0 || |d.finishedTargetList| > 0, d.peakStar,
                  d.baseAvatarList, d.finishedTargetList)
  }

  /** The boss part of a bracket view. */
  datatype BossView = BossView(easy: Option<BossClearance>, hard: Option<BossClearance>, hardModeHasPassed: bool,
                               finishedTargets: set<uint32>, stars: uint32)

  function RecordOf(bosses: map<int, PeakBossLevelData>, key: int): Option<PeakBossLevelData> {
    if key in bosses then Some(bosses[key]) else None
  }

  function TargetsOf(d: Option<PeakBossLevelData>): set<uint32> {
    if d.Some? then set i | 0 <= i < |d.value.finishedTargetList| :: d.value.finishedTargetList[i] else {}
  }

  function StarsOf(d: Option<PeakBossLevelData>): uint32 {
    if d.Some? then d.value.peakStar else 0
  }

  /**
   * BuildBoss: absent when neither difficulty has a record; otherwise both clearances, the
   * union of their finished targets and the larger of their star counts.
   */
  function BuildBoss(bossLevelId: int, bosses: map<int, PeakBossLevelData>): (r: Option<BossView>)
    ensures var easy := RecordOf(bosses, BossKey(bossLevelId, false));
            var hard := RecordOf(bosses, BossKey(bossLevelId, true));
            && (r.None? <==> easy.None? && hard.None?)
            && (r.Some? ==>
                  && r.value.stars == Max(StarsOf(easy), StarsOf(hard))
                  && r.value.finishedTargets == TargetsOf(easy) + TargetsOf(hard)
                  && (r.value.easy.Some? <==> easy.Some?) && (r.value.hard.Some? <==> hard.Some?)
                  && (r.value.hardModeHasPassed <==> hard.Some? && (hard.value.peakStar > 0 || |hard.value.finishedTargetList| > 0)))
  {
    var easy := RecordOf(bosses, BossKey(bossLevelId, false));
    var hard := RecordOf(bosses, BossKey(bossLevelId, true));
    if easy.None? && hard.None? then None
    else
      Some(BossView(if easy.Some? then Some(Clearance(easy.value)) else None,
                    if hard.Some? then Some(Clearance(hard.value)) else None,
                    hard.Some? && Clearance(hard.value).hasPassed,
                    TargetsOf(easy) + TargetsOf(hard),
                    Max(StarsOf(easy), StarsOf(hard))))
  }

  /** A regular level of the bracket as the client sees it; a level without a record has not passed. */
  datatype PrePeakView = PrePeakView(peakId: uint32, hasPassed: bool, cyclesUsed: uint32, avatarIds: seq<uint32>,
                                     finishedTargets: seq<uint32>)

  function BuildPrePeak(levelId: int, levels: map<int, PeakLevelData>): (r: PrePeakView)
    ensures r.hasPassed <==> levelId in levels
  {
    if levelId in levels then
      var d := levels[levelId];
      PrePeakView(ToUInt32(levelId), true, d.roundCnt, d.baseAvatarList, d.finishedTargetList)
    else PrePeakView(ToUInt32(levelId), false, 0, [], [])
  }

  /** The bracket view: its levels, its boss, and the stars obtained in it. */
  datatype GroupView = GroupView(peakGroupId: uint32, countOfPeaks: uint32, peaks: seq<PrePeakView>,
                                 boss: Option<BossView>, obtainedStars: uint32)

  /** The `uint` running sum BuildGroup keeps over the regular levels. */
  function LevelStars(levelIds: seq<int>, levels: map<int, PeakLevelData>): (r: uint32)
  {
    if levelIds == [] then 0
    else
      var last := levelIds[|levelIds| - 1];
      ToUInt32(LevelStars(levelIds[..|levelIds| - 1], levels) + (if last in levels then levels[last].peakStar else 0))
  }

  /** The stars of the regular levels that have a record, added without a width limit. */
  function LevelStarTotal(levelIds: seq<int>, levels: map<int, PeakLevelData>): nat {
    if levelIds == [] then 0
    else
      var last := levelIds[|levelIds| - 1];
      LevelStarTotal(levelIds[..|levelIds| - 1], levels) + (if last in levels then levels[last].peakStar else 0)
  }

  lemma {:induction false} LevelStarsWrap(levelIds: seq<int>, levels: map<int, PeakLevelData>)
    ensures LevelStars(levelIds, levels) == ToUInt32(LevelStarTotal(levelIds, levels))
  {
    if levelIds != [] {
      var init := levelIds[..|levelIds| - 1];
      var last := levelIds[|levelIds| - 1];
      LevelStarsWrap(init, levels);
      ToUInt32Add(LevelStarTotal(init, levels), if last in levels then levels[last].peakStar else 0);
    }
  }

  /** The boss stars BuildGroup adds: none without a boss level or without a boss record. */
  function BossStarsOf(g: PeakGroupConfig, bosses: map<int, PeakBossLevelData>): uint32 {
    if g.bossLevelId > 0 && BuildBoss(g.bossLevelId, bosses).Some? then BuildBoss(g.bossLevelId, bosses).value.stars
    else 0
  }

  /**
   * BuildGroup: an unknown group is only its id; a known one lists its regular levels, the
   * boss view when the boss level has a record, and the obtained stars.
   */
  function BuildGroup(t: PeakTables, groupId: int, levels: map<int, PeakLevelData>,
                      bosses: map<int, PeakBossLevelData>): (r: GroupView)
    ensures r.peakGroupId == ToUInt32(groupId)
    ensures t.GroupById(groupId).None? ==> r.peaks == [] && r.boss.None? && r.obtainedStars == 0
    ensures t.GroupById(groupId).Some? ==>
      var g := t.GroupById(groupId).value;
      && |r.peaks| == |g.preLevelIds| && r.countOfPeaks == ToUInt32(|g.preLevelIds|)
      && (forall i :: 0 <= i < |r.peaks| ==> (r.peaks[i].hasPassed <==> g.preLevelIds[i] in levels))
      && (r.boss.Some? ==> g.bossLevelId > 0)
  {
    match t.GroupById(groupId)
    case None => GroupView(ToUInt32(groupId), 0, [], None, 0)
    case Some(g) =>
      GroupView(ToUInt32(groupId), ToUInt32(|g.preLevelIds|),
                seq(|g.preLevelIds|, i requires 0 <= i < |g.preLevelIds| => BuildPrePeak(g.preLevelIds[i], levels)),
                if g.bossLevelId > 0 then BuildBoss(g.bossLevelId, bosses) else None,
                ToUInt32(LevelStars(g.preLevelIds, levels) + BossStarsOf(g, bosses)))
  }

  /**
   * The obtained stars of a bracket are the stars of its regular level records plus the
   * better of the two boss difficulties, cut to 32 bits.
   */
  lemma ObtainedStarsTotal(t: PeakTables, groupId: int, levels: map<int, PeakLevelData>,
                           bosses: map<int, PeakBossLevelData>)
    requires t.HasGroup(groupId)
    ensures var g := t.GroupById(groupId).value;
            var easy := RecordOf(bosses, BossKey(g.bossLevelId, false));
            var hard := RecordOf(bosses, BossKey(g.bossLevelId, true));
            BuildGroup(t, groupId, levels, bosses).obtainedStars
              == ToUInt32(LevelStarTotal(g.preLevelIds, levels) + (if g.bossLevelId > 0 then Max(StarsOf(easy), StarsOf(hard)) else 0))
  {
    var g := t.GroupById(groupId).value;
    LevelStarsWrap(g.preLevelIds, levels);
    ToUInt32Add(LevelStarTotal(g.preLevelIds, levels), BossStarsOf(g, bosses));
  }

  /** The passed levels of a view are exactly the levels with a record. */
  lemma PassedLevelsHaveRecords(t: PeakTables, groupId: int, levels: map<int, PeakLevelData>,
                                bosses: map<int, PeakBossLevelData>)
    requires t.HasGroup(groupId)
    ensures var g := t.GroupById(groupId).value;
            var v := BuildGroup(t, groupId, levels, bosses);
            && |v.peaks| == |g.preLevelIds|
            && forall i :: 0 <= i < |g.preLevelIds| ==> (v.peaks[i].hasPassed <==> g.preLevelIds[i] in levels)
  {
  }

  // ---------------------------------------------------------------------------------------
  // Taken star rewards and entrances

  const TwoTo63: int := 0x8000_0000_0000_0000
  const TwoTo64: int := 0x1_0000_0000_0000_0000

  /** Bit `i` of a `long` in two's complement. */
  predicate LongBit(x: int, i: nat)
    requires -TwoTo63 <= x < TwoTo63
  {
    TestBit(x % TwoTo64, i)
  }

  /**
   * ExpandTakenStars: the indices 0..62 whose bit is set in the taken-stars mask, in
   * ascending order.
   */
  method ExpandTakenStars(takenStars: int) returns (r: seq<uint32>)
    requires -TwoTo63 <= takenStars < TwoTo63
    ensures forall j, k :: 0 <= j < k < |r| ==> r[j] < r[k]
    ensures forall j :: 0 <= j < |r| ==> r[j] < 63
    ensures forall i :: 0 <= i < 63 ==> (i in r <==> LongBit(takenStars, i))
  {
    r := [];
    var i := 0;
    while i < 63
      invariant 0 <= i <= 63
      invariant forall j, k :: 0 <= j < k < |r| ==> r[j] < r[k]
      invariant forall j :: 0 <= j < |r| ==> r[j] < i
      invariant forall b :: 0 <= b < i ==> (b in r <==> LongBit(takenStars, b))
    {
      if LongBit(takenStars, i) {
        r := r + [i];
      }
      i := i + 1;
    }
  }

  /**
   * ResolvePeakEntryId: the level's own entrance when positive; else, within a group, the boss
   * entrance in hard mode when positive, the group entrance when positive, and the constant
   * lookup; 0 without a group.
   */
  function ResolvePeakEntryId(level: PeakLevelConfig, group: Option<PeakGroupConfig>, isHard: bool,
                              resolve: (int, bool) -> int): (r: int)
    ensures level.mapEntranceId > 0 ==> r == level.mapEntranceId
    ensures level.mapEntranceId <= 0 && group.None? ==> r == 0
    ensures level.mapEntranceId <= 0 && group.Some? ==>
      r == (if isHard && group.value.mapEntranceBoss > 0 then group.value.mapEntranceBoss
            else if group.value.mapEntranceId > 0 then group.value.mapEntranceId
            else resolve(group.value.id, isHard))
  {
    if level.mapEntranceId > 0 then level.mapEntranceId
    else if group.None? then 0
    else if isHard && group.value.mapEntranceBoss > 0 then group.value.mapEntranceBoss
    else if group.value.mapEntranceId > 0 then group.value.mapEntranceId
    else resolve(group.value.id, isHard)
  }

  /** An entrance taken from the tables is positive: only the constant lookup can give a non-positive one. */
  lemma ResolvedTableEntryPositive(level: PeakLevelConfig, group: Option<PeakGroupConfig>, isHard: bool,
                                   resolve: (int, bool) -> int)
    requires group.Some?
    requires ResolvePeakEntryId(level, group, isHard, resolve) <= 0
    ensures level.mapEntranceId <= 0 && group.value.mapEntranceId <= 0
    ensures isHard ==> group.value.mapEntranceBoss <= 0
    ensures ResolvePeakEntryId(level, group, isHard, resolve) == resolve(group.value.id, isHard)
  {
  }

  /** The first group (in table order) whose boss level or regular levels name the level. */
  function GroupOfLevel(gs: seq<PeakGroupConfig>, levelId: int): (r: Option<PeakGroupConfig>)
    ensures r.Some? ==> exists i :: 0 <= i < |gs| && gs[i] == r.value
                         && (forall j :: 0 <= j < i ==> !NamesLevel(gs[j], levelId))
    ensures r.Some? ==> NamesLevel(r.value, levelId)
    ensures r.None? <==> forall i :: 0 <= i < |gs| ==> !NamesLevel(gs[i], levelId)
  {
    if gs == [] then None
    else if NamesLevel(gs[0], levelId) then Some(gs[0])
    else
      var r := GroupOfLevel(gs[1..], levelId);
      assert forall i :: 1 <= i < |gs| ==> gs[i] == gs[1..][i - 1];
      r
  }

  predicate NamesLevel(g: PeakGroupConfig, levelId: int) {
    g.bossLevelId == levelId || levelId in g.preLevelIds
  }

  // ---------------------------------------------------------------------------------------
  // Best-run records

  /**
   * The test SaveHistory uses to keep an existing record: the stored run finished strictly
   * more targets AND took strictly fewer rounds than the new one.
   */
  predicate KeepsStoredRun(storedTargets: nat, storedRounds: uint32, newTargets: nat, newRounds: uint32) {
    storedTargets > newTargets && storedRounds < newRounds
  }

  /** The new record of a regular level. */
  function LevelRecord(levelId: int, avatars: seq<uint32>, rounds: uint32, targets: seq<uint32>): (r: PeakLevelData)
    ensures r.peakStar == ToUInt32(|targets|) && r.finishedTargetList == targets && r.roundCnt == rounds
  {
    PeakLevelData(levelId, avatars, rounds, targets, ToUInt32(|targets|))
  }

  /** The new record of a boss difficulty; the buff is the run's first buff, 0 without one. */
  function BossRecord(levelId: int, isHard: bool, avatars: seq<uint32>, rounds: uint32, buffs: seq<uint32>,
                      targets: seq<uint32>): (r: PeakBossLevelData)
    ensures r.peakStar == ToUInt32(|targets|) && r.finishedTargetList == targets && r.roundCnt == rounds
    ensures r.isHard == isHard && r.buffId == (if buffs == [] then 0 else buffs[0])
  {
    PeakBossLevelData(levelId, isHard, avatars, rounds, if buffs == [] then 0 else buffs[0], targets, ToUInt32(|targets|))
  }

  /** The regular level records after a run: replaced unless the stored run is kept. */
  function LevelsAfterRun(levels: map<int, PeakLevelData>, levelId: int, avatars: seq<uint32>, rounds: uint32,
                          targets: seq<uint32>): (r: map<int, PeakLevelData>)
    ensures r.Keys == levels.Keys + {levelId}
    ensures forall k :: k in levels && k != levelId ==> r[k] == levels[k]
    ensures levelId in levels && KeepsStoredRun(|levels[levelId].finishedTargetList|, levels[levelId].roundCnt, |targets|, rounds)
            ==> r == levels
    ensures !(levelId in levels && KeepsStoredRun(|levels[levelId].finishedTargetList|, levels[levelId].roundCnt, |targets|, rounds))
            ==> r[levelId] == LevelRecord(levelId, avatars, rounds, targets)
  {
    if levelId in levels && KeepsStoredRun(|levels[levelId].finishedTargetList|, levels[levelId].roundCnt, |targets|, rounds)
    then levels
    else levels[levelId := LevelRecord(levelId, avatars, rounds, targets)]
  }

  /** The boss records after a run, under the boss key of its level and difficulty. */
  function BossesAfterRun(bosses: map<int, PeakBossLevelData>, levelId: int, isHard: bool, avatars: seq<uint32>,
                          rounds: uint32, buffs: seq<uint32>, targets: seq<uint32>): (r: map<int, PeakBossLevelData>)
    ensures var key := BossKey(levelId, isHard);
      && r.Keys == bosses.Keys + {key}
      && (forall k :: k in bosses && k != key ==> r[k] == bosses[k])
      && (key in bosses && KeepsStoredRun(|bosses[key].finishedTargetList|, bosses[key].roundCnt, |targets|, rounds) ==> r == bosses)
      && ((!(key in bosses && KeepsStoredRun(|bosses[key].finishedTargetList|, bosses[key].roundCnt, |targets|, rounds)))
            ==> r[key] == BossRecord(levelId, isHard, avatars, rounds, buffs, targets))
  {
    var key := BossKey(levelId, isHard);
    if key in bosses && KeepsStoredRun(|bosses[key].finishedTargetList|, bosses[key].roundCnt, |targets|, rounds)
    then bosses
    else bosses[key := BossRecord(levelId, isHard, avatars, rounds, buffs, targets)]
  }

  /**
   * The keep test does not protect the better run: a stored record of three targets in five
   * rounds is overwritten by a run of one target in five rounds.
   */
  lemma WorseRunOverwrites()
    ensures var stored := LevelRecord(7, [], 5, [1, 2, 3]);
            var after := LevelsAfterRun(map[7 := stored], 7, [], 5, [1]);
            after[7].peakStar == 1 && stored.peakStar == 3
  {
  }

  /**
   * Whatever a run brings, the stored record afterwards is the run's own record or a record
   * that finished more targets in fewer rounds than the run.
   */
  lemma StoredRunDominates(levels: map<int, PeakLevelData>, levelId: int, avatars: seq<uint32>, rounds: uint32,
                           targets: seq<uint32>)
    ensures var r := LevelsAfterRun(levels, levelId, avatars, rounds, targets);
            || r[levelId] == LevelRecord(levelId, avatars, rounds, targets)
            || (|r[levelId].finishedTargetList| > |targets| && r[levelId].roundCnt < rounds)
  {
  }

  /** A run with at least as many targets as the stored record always becomes the record. */
  lemma RunWithMoreTargetsIsStored(levels: map<int, PeakLevelData>, levelId: int, avatars: seq<uint32>, rounds: uint32,
                                   targets: seq<uint32>)
    requires levelId in levels ==> |targets| >= |levels[levelId].finishedTargetList|
    ensures LevelsAfterRun(levels, levelId, avatars, rounds, targets)[levelId] == LevelRecord(levelId, avatars, rounds, targets)
  {
  }

  /** A boss key of a different level or difficulty is never touched by a boss run. */
  lemma OtherBossRecordsKept(bosses: map<int, PeakBossLevelData>, levelId: int, isHard: bool, avatars: seq<uint32>,
                             rounds: uint32, buffs: seq<uint32>, targets: seq<uint32>, otherLevel: int, otherHard: bool)
    requires 0 <= levelId < TwoTo31 / 4 && 0 <= otherLevel < TwoTo31 / 4
    requires (otherLevel, otherHard) != (levelId, isHard)
    requires BossKey(otherLevel, otherHard) in bosses
    ensures BossesAfterRun(bosses, levelId, isHard, avatars, rounds, buffs, targets)[BossKey(otherLevel, otherHard)]
            == bosses[BossKey(otherLevel, otherHard)]
  {
    if BossKey(otherLevel, otherHard) == BossKey(levelId, isHard) {
      BossKeyInjective(otherLevel, otherHard, levelId, isHard);
    }
  }

  /** The head frame a boss record asks for: hard always the ultra frame; easy only an upgrade. */
  function HeadFrameAfter(isHard: bool, peakStar: uint32, headFrameId: int, ultraFrameId: int): (r: Option<int>)
    ensures isHard ==> r == Some(ultraFrameId)
    ensures !isHard && r.Some? ==> r.value == peakStar + 226000 && r.value > headFrameId
    ensures !isHard && peakStar + 226000 > headFrameId ==> r.Some?
  {
    if isHard then Some(ultraFrameId)
    else if headFrameId < peakStar + 226000 then Some(peakStar + 226000)
    else None
  }

  // ---------------------------------------------------------------------------------------
  // Lineup memory

  /** One entry of a SetChallengePeakLineup request: a level and the avatars asked for it. */
  datatype PeakLineup = PeakLineup(peakId: uint32, avatarIds: seq<uint32>)

  /** The asked avatars the player owns, as base avatar ids (`formal` maps an avatar id to its base id). */
  function OwnedBaseIds(ids: seq<uint32>, formal: map<int, int>): (r: seq<uint32>)
    ensures |r| <= |ids|
  {
    if ids == [] then []
    else
      var last := ids[|ids| - 1];
      OwnedBaseIds(ids[..|ids| - 1], formal) + (if ToInt32(last) in formal then [ToUInt32(formal[ToInt32(last)])] else [])
  }

  /** An id is in the stored lineup exactly when it is the base id of an owned, asked-for avatar. */
  lemma {:induction false} OwnedBaseIdsMembers(ids: seq<uint32>, formal: map<int, int>, x: uint32)
    ensures x in OwnedBaseIds(ids, formal) <==> exists a :: a in ids && ToInt32(a) in formal && x == ToUInt32(formal[ToInt32(a)])
  {
    if ids != [] {
      var init := ids[..|ids| - 1];
      var last := ids[|ids| - 1];
      OwnedBaseIdsMembers(init, formal, x);
      assert ids == init + [last];
    }
  }

  /** The record a lineup entry writes: only the avatars; rounds, targets and stars start over. */
  function LineupRecord(l: PeakLineup, formal: map<int, int>): (r: PeakLevelData)
    ensures r.roundCnt == 0 && r.finishedTargetList == [] && r.peakStar == 0
  {
    PeakLevelData(ToInt32(l.peakId), OwnedBaseIds(l.avatarIds, formal), 0, [], 0)
  }

  /** The level records after the lineup entries are written in order. */
  function LevelsAfterLineups(levels: map<int, PeakLevelData>, lineups: seq<PeakLineup>, formal: map<int, int>)
    : map<int, PeakLevelData>
  {
    if lineups == [] then levels
    else
      var last := lineups[|lineups| - 1];
      LevelsAfterLineups(levels, lineups[..|lineups| - 1], formal)[ToInt32(last.peakId) := LineupRecord(last, formal)]
  }

  /** The lineup entry is for level `k`. */
  predicate LineupFor(l: PeakLineup, k: int) {
    ToInt32(l.peakId) == k
  }

  /** After SetLineupAvatars the levels with a record are the old ones and the levels named by an entry. */
  lemma {:induction false} LineupsKeys(levels: map<int, PeakLevelData>, lineups: seq<PeakLineup>,
                                       formal: map<int, int>, k: int)
    ensures k in LevelsAfterLineups(levels, lineups, formal)
            <==> k in levels || exists i :: 0 <= i < |lineups| && LineupFor(lineups[i], k)
  {
    if lineups != [] {
      var n := |lineups| - 1;
      LineupsKeys(levels, lineups[..n], formal, k);
      assert forall i :: 0 <= i < n ==> lineups[..n][i] == lineups[i];
      if !LineupFor(lineups[n], k) {
        assert (exists i :: 0 <= i < |lineups| && LineupFor(lineups[i], k))
               <==> (exists i :: 0 <= i < n && LineupFor(lineups[..n][i], k));
      }
    }
  }

  /** A level no entry names keeps its record. */
  lemma {:induction false} LineupsKeepOthers(levels: map<int, PeakLevelData>, lineups: seq<PeakLineup>,
                                             formal: map<int, int>, k: int)
    requires forall i :: 0 <= i < |lineups| ==> !LineupFor(lineups[i], k)
    requires k in levels
    ensures k in LevelsAfterLineups(levels, lineups, formal)
    ensures LevelsAfterLineups(levels, lineups, formal)[k] == levels[k]
  {
    if lineups != [] {
      var n := |lineups| - 1;
      assert forall i :: 0 <= i < n ==> lineups[..n][i] == lineups[i];
      LineupsKeepOthers(levels, lineups[..n], formal, k);
      assert !LineupFor(lineups[n], k);
    }
  }

  /**
   * A level named by some entry holds the record of the last entry naming it: its avatars,
   * with rounds, targets and stars cleared.
   */
  lemma {:induction false} LineupsLastWins(levels: map<int, PeakLevelData>, lineups: seq<PeakLineup>,
                                           formal: map<int, int>, k: int, i: int)
    requires 0 <= i < |lineups| && LineupFor(lineups[i], k)
    requires forall j :: i < j < |lineups| ==> !LineupFor(lineups[j], k)
    ensures k in LevelsAfterLineups(levels, lineups, formal)
    ensures LevelsAfterLineups(levels, lineups, formal)[k] == LineupRecord(lineups[i], formal)
  {
    var n := |lineups| - 1;
    if i < n {
      assert forall j :: 0 <= j < n ==> lineups[..n][j] == lineups[j];
      LineupsLastWins(levels, lineups[..n], formal, k, i);
      assert !LineupFor(lineups[n], k);
    }
  }

  // ---------------------------------------------------------------------------------------
  // Starting a peak level

  /**
   * What a peak start consults around the manager: `validLineup` (BuildValidLineup, to base
   * avatar ids), `sanitize` (SanitizeLineup), whether the challenge lineup exists, the owned
   * roster, whether the team built from the lineup holds avatars, how entering the scene turns
   * out, where the player stands and the lineups' technique points.
   */
  datatype PeakStartEnv = PeakStartEnv(
    validLineup: seq<int> -> seq<int>,
    sanitize: seq<int> -> seq<int>,
    lineupExists: bool,
    roster: seq<int>,
    teamHasAvatars: bool,
    scene: SceneEntry,
    entryIdAfter: int,
    pos: Vector,
    rot: Vector,
    mp: LineupMp)

  function AsInts(xs: seq<uint32>): (r: seq<int>)
    ensures |r| == |xs| && forall i :: 0 <= i < |xs| ==> r[i] == ToInt32(xs[i])
  {
    seq(|xs|, i requires 0 <= i < |xs| => ToInt32(xs[i]))
  }

  /**
   * The lineup a peak start plays: the request (validated twice) when it names a valid avatar,
   * else the avatars remembered for the level or boss difficulty; the whole roster when that
   * is empty; then sanitised.
   */
  function ChosenLineup(request: seq<int>, remembered: seq<int>, env: PeakStartEnv): seq<int> {
    var fromRequest := env.validLineup(request);
    var first := if |fromRequest| > 0 then env.validLineup(fromRequest) else env.validLineup(remembered);
    env.sanitize(if |first| == 0 then env.validLineup(env.roster) else first)
  }

  /** The avatars remembered for a level: its boss record for the manager's difficulty, or its level record. */
  function Remembered(levelId: int, isBossLevel: bool, bossIsHard: bool, levels: map<int, PeakLevelData>,
                      bosses: map<int, PeakBossLevelData>): seq<int>
  {
    if isBossLevel then
      (if BossKey(levelId, bossIsHard) in bosses then AsInts(bosses[BossKey(levelId, bossIsHard)].baseAvatarList) else [])
    else if levelId in levels then AsInts(levels[levelId].baseAvatarList)
    else []
  }

  /** With an identity sanitiser, an empty request and memory fall back to the whole valid roster. */
  lemma RosterFallback(request: seq<int>, remembered: seq<int>, env: PeakStartEnv)
    requires env.validLineup(request) == [] && env.validLineup(remembered) == []
    requires forall s :: env.sanitize(s) == s
    ensures ChosenLineup(request, remembered, env) == env.validLineup(env.roster)
  {
  }

  /** The record a peak session starts with. */
  function PeakStartData(groupId: int, levelId: int, hasBoss: bool, bossIsHard: bool, buffId: uint32): (r: PeakData)
    ensures r.curStatus == StatusDoing && r.currentExtraLineup == LineupChallenge
    ensures r.isHard <==> hasBoss && bossIsHard
    ensures r.buffs == (if buffId > 0 then [buffId] else [])
  {
    PeakData(ToUInt32(groupId), ToUInt32(levelId), LineupChallenge, StatusDoing, hasBoss && bossIsHard,
             if buffId > 0 then [buffId] else [], 0, 0, 0, None, None)
  }

  /** How a peak start ends. */
  datatype PeakStartOutcome = PeakStarted | PeakRefused(code: Retcode)

  /** ChallengePeakManager of one player. */
  class ChallengePeakManager {
    const tables: PeakTables
    const mgr: ChallengeManager
    var bossIsHard: bool

    constructor (tables: PeakTables, mgr: ChallengeManager)
      ensures this.tables == tables && this.mgr == mgr && bossIsHard
    {
      this.tables := tables;
      this.mgr := mgr;
      bossIsHard := true;
    }

    /** GetCurrentPeakGroupId against the player's records and running session. */
    function GetCurrentPeakGroupId(): (r: uint32)
      requires tables.Valid()
      reads mgr, mgr.data, mgr.current.Footprint()
      ensures || r == tables.consts.selectedGroupId || r == tables.consts.curGroupId
              || RunningGroup(mgr.current) == Some(r)
              || exists i :: 0 <= i < |tables.groups| && r == ToUInt32(tables.groups[i].id)
    {
      CurrentGroupId(tables, RunningGroup(mgr.current), mgr.data.peakLevels, mgr.data.peakBossLevels)
    }

    /**
     * SetLineupAvatars: each entry's level record is replaced by one holding only the owned
     * avatars of the entry; the bracket view is sent afterwards.
     */
    method SetLineupAvatars(groupId: int, lineups: seq<PeakLineup>, formal: map<int, int>) returns (notify: GroupView)
      modifies mgr.data
      ensures mgr.data.Row() == old(mgr.data.Row()).(peakLevels := LevelsAfterLineups(old(mgr.data.peakLevels), lineups, formal))
      ensures notify == BuildGroup(tables, groupId, mgr.data.peakLevels, mgr.data.peakBossLevels)
    {
      var n := 0;
      while n < |lineups|
        invariant 0 <= n <= |lineups|
        invariant mgr.data.Row() == old(mgr.data.Row()).(peakLevels := LevelsAfterLineups(old(mgr.data.peakLevels), lineups[..n], formal))
      {
        var lineup := lineups[n];
        var avatarIds: seq<uint32> := [];
        var i := 0;
        while i < |lineup.avatarIds|
          invariant 0 <= i <= |lineup.avatarIds|
          invariant avatarIds == OwnedBaseIds(lineup.avatarIds[..i], formal)
        {
          assert lineup.avatarIds[..i + 1][..i] == lineup.avatarIds[..i];
          var id := ToInt32(lineup.avatarIds[i]);
          if id in formal {
            avatarIds := avatarIds + [ToUInt32(formal[id])];
          }
          i := i + 1;
        }
        assert lineup.avatarIds[..i] == lineup.avatarIds;
        assert lineups[..n + 1][..n] == lineups[..n];
        mgr.data.peakLevels := mgr.data.peakLevels[ToInt32(lineup.peakId) := PeakLevelData(ToInt32(lineup.peakId), avatarIds, 0, [], 0)];
        n := n + 1;
      }
      assert lineups[..n] == lineups;
      notify := BuildGroup(tables, groupId, mgr.data.peakLevels, mgr.data.peakBossLevels);
    }

    /**
     * SaveHistory: a boss level stores the run under its boss key, a regular level under its
     * id, unless the stored run finished strictly more targets in strictly fewer rounds; then
     * nothing happens and no view is sent. A stored boss run asks for the ultra head frame in
     * hard mode, and for frame 226000 + stars in easy mode when that is above the current one.
     */
    method SaveHistory(inst: PeakInstance, targetIds: seq<uint32>, currentAvatars: seq<uint32>, headFrameId: int)
      returns (frame: Option<int>, notify: Option<GroupView>)
      modifies mgr.data
      ensures var levelId := ToInt32(inst.data.currentPeakLevelId);
              var rounds := inst.data.roundCnt;
        if inst.config.hasBoss then
          var key := BossKey(levelId, inst.data.isHard);
          var kept := key in old(mgr.data.peakBossLevels)
                      && KeepsStoredRun(|old(mgr.data.peakBossLevels)[key].finishedTargetList|,
                                        old(mgr.data.peakBossLevels)[key].roundCnt, |targetIds|, rounds);
          && mgr.data.Row() == old(mgr.data.Row()).(peakBossLevels := BossesAfterRun(old(mgr.data.peakBossLevels), levelId,
                                                      inst.data.isHard, currentAvatars, rounds, inst.data.buffs, targetIds))
          && frame == (if kept then None else HeadFrameAfter(inst.data.isHard, ToUInt32(|targetIds|), headFrameId,
                                                             tables.consts.ultraFrameId))
          && notify == (if kept then None
                        else Some(BuildGroup(tables, ToInt32(inst.data.currentPeakGroupId), mgr.data.peakLevels,
                                             mgr.data.peakBossLevels)))
        else
          var kept := levelId in old(mgr.data.peakLevels)
                      && KeepsStoredRun(|old(mgr.data.peakLevels)[levelId].finishedTargetList|,
                                        old(mgr.data.peakLevels)[levelId].roundCnt, |targetIds|, rounds);
          && mgr.data.Row() == old(mgr.data.Row()).(peakLevels := LevelsAfterRun(old(mgr.data.peakLevels), levelId,
                                                      currentAvatars, rounds, targetIds))
          && frame == None
          && notify == (if kept then None
                        else Some(BuildGroup(tables, ToInt32(inst.data.currentPeakGroupId), mgr.data.peakLevels,
                                             mgr.data.peakBossLevels)))
    {
      frame := None;
      var rounds := inst.data.roundCnt;
      if inst.config.hasBoss {
        var isHard := inst.data.isHard;
        var levelId := BossKey(ToInt32(inst.data.currentPeakLevelId), isHard);
        if levelId in mgr.data.peakBossLevels {
          var oldData := mgr.data.peakBossLevels[levelId];
          if |oldData.finishedTargetList| > |targetIds| && oldData.roundCnt < rounds {
            return None, None;
          }
        }
        var data := PeakBossLevelData(ToInt32(inst.data.currentPeakLevelId), isHard, currentAvatars, rounds,
                                      if inst.data.buffs == [] then 0 else inst.data.buffs[0], targetIds,
                                      ToUInt32(|targetIds|));
        mgr.data.peakBossLevels := mgr.data.peakBossLevels[levelId := data];
        if isHard {
          frame := Some(tables.consts.ultraFrameId);
        } else {
          var targetFrameId := data.peakStar + 226000;
          if headFrameId < targetFrameId {
            frame := Some(targetFrameId);
          }
        }
      } else {
        var levelId := ToInt32(inst.data.currentPeakLevelId);
        if levelId in mgr.data.peakLevels {
          var oldData := mgr.data.peakLevels[levelId];
          if |oldData.finishedTargetList| > |targetIds| && oldData.roundCnt < rounds {
            return None, None;
          }
        }
        var data := PeakLevelData(levelId, currentAvatars, rounds, targetIds, ToUInt32(|targetIds|));
        mgr.data.peakLevels := mgr.data.peakLevels[levelId := data];
      }
      notify := Some(BuildGroup(tables, ToInt32(inst.data.currentPeakGroupId), mgr.data.peakLevels, mgr.data.peakBossLevels));
    }

    /** The lineup choice of a peak start, read against the manager's records. */
    method PickLineup(levelId: int, isBossLevel: bool, request: seq<int>, env: PeakStartEnv) returns (lineup: seq<int>)
      ensures lineup == ChosenLineup(request, Remembered(levelId, isBossLevel, bossIsHard, mgr.data.peakLevels,
                                                         mgr.data.peakBossLevels), env)
    {
      var avatarIds := env.validLineup(request);
      if |avatarIds| > 0 {
        lineup := env.validLineup(avatarIds);
      } else {
        var remembered := Remembered(levelId, isBossLevel, bossIsHard, mgr.data.peakLevels, mgr.data.peakBossLevels);
        lineup := env.validLineup(remembered);
      }
      if |lineup| == 0 {
        lineup := env.validLineup(env.roster);
      }
      lineup := env.sanitize(lineup);
    }

    /**
     * The second half of a peak start: the session becomes current on the challenge lineup,
     * and is dropped again with the lineup reset when the resolved entrance is unknown or the
     * scene cannot be entered; otherwise it records where the player stood and is saved.
     */
    method Launch(excel: PeakLevelConfig, groupExcel: Option<PeakGroupConfig>, data: PeakData, env: PeakStartEnv)
      returns (started: bool)
      modifies mgr, mgr.data
      ensures started ==>
        && mgr.current.PeakInst? && fresh(mgr.current.peak)
        && mgr.current.peak.config == excel && mgr.lineupMode == LineupChallenge
        && mgr.current.peak.data == data.(startPos := Some(env.pos), startRot := Some(env.rot),
                                          savedMp := ToUInt32(env.mp.Of(LineupChallenge)))
        && mgr.data.Row() == old(mgr.data.Row()).(instanceBlob := Some(PeakPb(mgr.current.peak.data)))
      ensures started <==>
        var entry := ResolvePeakEntryId(excel, groupExcel, data.isHard, tables.consts.resolveEntry);
        entry > 0 && entry in mgr.game.mapEntrances
        && TryEnterChallengeScene(entry, mgr.game.mapEntrances, env.scene, env.entryIdAfter)
      ensures !started ==>
        mgr.current == NoInstance && mgr.lineupMode == LineupNone && mgr.data.Row() == old(mgr.data.Row())
    {
      var instance := new PeakInstance(excel, data);
      mgr.current := PeakInst(instance);
      mgr.lineupMode := LineupChallenge;
      var targetEntryId := ResolvePeakEntryId(excel, groupExcel, data.isHard, tables.consts.resolveEntry);
      if targetEntryId <= 0 || targetEntryId !in mgr.game.mapEntrances
         || !TryEnterChallengeScene(targetEntryId, mgr.game.mapEntrances, env.scene, env.entryIdAfter) {
        mgr.lineupMode := LineupNone;
        mgr.current := NoInstance;
        return false;
      }
      instance.data := instance.data.(startPos := Some(env.pos), startRot := Some(env.rot),
                                      savedMp := ToUInt32(env.mp.Of(LineupChallenge)));
      mgr.SaveInstance(mgr.current);
      return true;
    }

    /**
     * StartChallenge of a peak level: refused for an unknown level, a missing challenge
     * lineup, or an empty lineup (before any session exists); otherwise a peak session becomes
     * current on the first challenge lineup, and is dropped again with the lineup reset when
     * the resolved entrance is unknown or the scene cannot be entered.
     */
    method StartChallenge(levelId: int, buffId: uint32, request: seq<int>, env: PeakStartEnv)
      returns (outcome: PeakStartOutcome, lineup: seq<int>)
      requires tables.Valid()
      modifies mgr, mgr.data
      ensures levelId !in tables.levels ==>
                outcome == PeakRefused(RetChallengeNotExist) && lineup == []
                && mgr.current == old(mgr.current) && mgr.lineupMode == old(mgr.lineupMode) && mgr.data.Row() == old(mgr.data.Row())
      ensures levelId in tables.levels && !env.lineupExists ==>
                outcome == PeakRefused(RetChallengeNotExist) && lineup == []
                && mgr.current == old(mgr.current) && mgr.lineupMode == old(mgr.lineupMode) && mgr.data.Row() == old(mgr.data.Row())
      ensures levelId in tables.levels && env.lineupExists ==>
        var group := GroupOfLevel(tables.groups, levelId);
        var isBoss := group.Some? && group.value.bossLevelId == levelId;
        lineup == ChosenLineup(request, Remembered(levelId, isBoss, old(bossIsHard), old(mgr.data.peakLevels),
                                                   old(mgr.data.peakBossLevels)), env)
      ensures outcome == PeakRefused(RetChallengeLineupEmpty) <==>
                levelId in tables.levels && env.lineupExists && (lineup == [] || !env.teamHasAvatars)
      ensures outcome == PeakRefused(RetChallengeLineupEmpty) ==>
                mgr.current == old(mgr.current) && mgr.lineupMode == old(mgr.lineupMode) && mgr.data.Row() == old(mgr.data.Row())
      ensures outcome == PeakStarted ==>
        && levelId in tables.levels && lineup != [] && env.teamHasAvatars
        && mgr.current.PeakInst? && fresh(mgr.current.peak)
        && mgr.current.peak.config == tables.levels[levelId]
        && mgr.lineupMode == LineupChallenge
        && var group := GroupOfLevel(tables.groups, levelId);
           var groupId := if group.Some? then group.value.id
                          else ToInt32(CurrentGroupId(tables, RunningGroup(old(mgr.current)), old(mgr.data.peakLevels),
                                                      old(mgr.data.peakBossLevels)));
           var start := PeakStartData(groupId, levelId, tables.levels[levelId].hasBoss, bossIsHard, buffId);
           && mgr.current.peak.data == start.(startPos := Some(env.pos), startRot := Some(env.rot),
                                              savedMp := ToUInt32(env.mp.Of(LineupChallenge)))
           && mgr.data.Row() == old(mgr.data.Row()).(instanceBlob := Some(PeakPb(mgr.current.peak.data)))
      ensures outcome == PeakStarted <==>
        && levelId in tables.levels && env.lineupExists && lineup != [] && env.teamHasAvatars
        && var entry := ResolvePeakEntryId(tables.levels[levelId], GroupOfLevel(tables.groups, levelId),
                                           tables.levels[levelId].hasBoss && bossIsHard, tables.consts.resolveEntry);
           entry > 0 && entry in mgr.game.mapEntrances
           && TryEnterChallengeScene(entry, mgr.game.mapEntrances, env.scene, env.entryIdAfter)
      ensures outcome == PeakRefused(RetChallengeNotExist) && levelId in tables.levels && env.lineupExists ==>
                mgr.current == NoInstance && mgr.lineupMode == LineupNone && mgr.data.Row() == old(mgr.data.Row())
      ensures bossIsHard == old(bossIsHard)
    {
      lineup := [];
      if levelId !in tables.levels {
        return PeakRefused(RetChallengeNotExist), [];
      }
      var excel := tables.levels[levelId];
      var groupExcel := GroupOfLevel(tables.groups, levelId);
      var groupId := if groupExcel.Some? then groupExcel.value.id else ToInt32(GetCurrentPeakGroupId());
      var isBossLevel := groupExcel.Some? && groupExcel.value.bossLevelId == levelId;
      if !env.lineupExists {
        return PeakRefused(RetChallengeNotExist), [];
      }
      lineup := PickLineup(levelId, isBossLevel, request, env);
      if |lineup| == 0 {
        return PeakRefused(RetChallengeLineupEmpty), lineup;
      }
      if !env.teamHasAvatars {
        return PeakRefused(RetChallengeLineupEmpty), lineup;
      }
      var started := Launch(excel, groupExcel, PeakStartData(groupId, levelId, excel.hasBoss, bossIsHard, buffId), env);
      if !started {
        return PeakRefused(RetChallengeNotExist), lineup;
      }
      return PeakStarted, lineup;
    }
  }
}
