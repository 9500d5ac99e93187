/**
 * The read-only peak (bracket) tables: ChallengePeakConfig rows (levels),
 * ChallengePeakGroupConfig rows (groups) and the GameConstants the peak manager consults.
 */
module PeakCatalog {
  import opened Common

  /** ChallengePeakConfigExcel: the fields the engine reads and the override rewrites. */
  datatype PeakLevelConfig = PeakLevelConfig(
    id: int,
    mapEntranceId: int,
    mazeGroupId: int,
    eventIds: seq<int>,
    npcMonsterIds: seq<int>,
    /** BossExcel != null */
    hasBoss: bool)

  /** ChallengePeakGroupConfigExcel. */
  datatype PeakGroupConfig = PeakGroupConfig(
    id: int,
    preLevelIds: seq<int>,
    bossLevelId: int,
    mapEntranceId: int,
    mapEntranceBoss: int)

  /** The GameConstants of the peak mode; `resolveEntry` is ResolveChallengePeakEntryId. */
  datatype PeakConstants = PeakConstants(
    selectedGroupId: uint32,
    curGroupId: uint32,
    ultraFrameId: int,
    resolveEntry: (int, bool) -> int)

  /**
   * The peak tables. The group table is a dictionary; its values are kept in insertion
   * order, which FirstOrDefault over the values observes.
   */
  datatype PeakTables = PeakTables(levels: map<int, PeakLevelConfig>, groups: seq<PeakGroupConfig>,
                                   consts: PeakConstants)
  {
    /** Dictionary keys are distinct. */
    predicate Valid() {
      forall i, j :: 0 <= i < j < |groups| ==> groups[i].id != groups[j].id
    }

    predicate HasGroup(id: int) {
      exists i :: 0 <= i < |groups| && groups[i].id == id
    }

    /** GetValueOrDefault on the group table. */
    function GroupById(id: int): (r: Option<PeakGroupConfig>)
      ensures r.Some? <==> HasGroup(id)
      ensures r.Some? ==> r.value.id == id && r.value in groups
    {
      GroupIn(groups, id)
    }

    function GroupIds(): set<int> {
      set i | 0 <= i < |groups| :: groups[i].id
    }
  }

  function GroupIn(gs: seq<PeakGroupConfig>, id: int): (r: Option<PeakGroupConfig>)
    ensures r.Some? <==> exists i :: 0 <= i < |gs| && gs[i].id == id
    ensures r.Some? ==> r.value.id == id && r.value in gs
  {
    if gs == [] then None
    else if gs[0].id == id then Some(gs[0])
    else
      var r := GroupIn(gs[1..], id);
      assert forall i :: 0 <= i < |gs| - 1 ==> gs[1..][i] == gs[i + 1];
      r
  }

  /** The boss record key `(levelId << 2) | (isHard ? 1 : 0)`, with the shift done in 32-bit `int` arithmetic. */
  function BossKey(levelId: int, isHard: bool): (r: int)
    ensures 0 <= levelId < TwoTo31 / 4 ==> r == 4 * levelId + (if isHard then 1 else 0)
  {
    ToInt32(ToUInt32(levelId * 4)) + (if isHard then 1 else 0)
  }

  /** For level ids that fit the shift, a boss key names exactly one level and difficulty. */
  lemma BossKeyInjective(l1: int, h1: bool, l2: int, h2: bool)
    requires 0 <= l1 < TwoTo31 / 4 && 0 <= l2 < TwoTo31 / 4
    requires BossKey(l1, h1) == BossKey(l2, h2)
    ensures l1 == l2 && h1 == h2
  {
  }

  /** The level and difficulty are read back from a boss key. */
  lemma BossKeyDecode(levelId: int, isHard: bool)
    requires 0 <= levelId < TwoTo31 / 4
    ensures BossKey(levelId, isHard) / 4 == levelId
    ensures (BossKey(levelId, isHard) % 4 == 1) == isHard
  {
  }
}
