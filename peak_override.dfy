/**
 * ApplyChallengePeakOverrideConfig: the ChallengePeakOverride custom file rewrites the
 * entrance, maze group and NPC monsters of peak levels in the loaded level table.
 */
module PeakOverride {
  import opened Common
  import opened Text
  import opened PeakCatalog

  /** The override of one stage (peak level); zero or negative values mean "no override". */
  datatype StageOverride = StageOverride(mapEntranceId: int, mazeGroupId: int, npcMonsterId: int)

  /**
   * The override of one group: its stages keyed by level id as text (dictionary order), and
   * the NPC monster its stages use when they name none. A missing stage list is `None`.
   */
  datatype GroupOverride = GroupOverride(stages: Option<seq<(string, StageOverride)>>, npcMonsterIdDefault: int)

  /** The parsed file; `challengePeak` is `None` when the list is missing. */
  datatype OverrideConfig = OverrideConfig(challengePeak: Option<seq<GroupOverride>>)

  /** The NPC monster a stage asks for: its own when positive, else its group's default. */
  function NpcFor(o: StageOverride, groupDefault: int): int {
    if o.npcMonsterId > 0 then o.npcMonsterId else groupDefault
  }

  /** One NPC monster per event of the level, or a single one when the level has no events. */
  function NpcList(npc: int, eventCount: nat): (r: seq<int>)
    ensures |r| == Max(eventCount, 1)
    ensures forall i :: 0 <= i < |r| ==> r[i] == npc
  {
    if eventCount > 0 then seq(eventCount, _ => npc) else [npc]
  }

  /**
   * The level after one stage override: positive entrance and maze group values replace the
   * level's; a positive NPC monster replaces the whole NPC list; nothing else changes.
   */
  function ApplyStage(c: PeakLevelConfig, o: StageOverride, groupDefault: int): (r: PeakLevelConfig)
    ensures r.id == c.id && r.eventIds == c.eventIds && r.hasBoss == c.hasBoss
    ensures o.mapEntranceId > 0 ==> r.mapEntranceId == o.mapEntranceId
    ensures o.mapEntranceId <= 0 ==> r.mapEntranceId == c.mapEntranceId
    ensures o.mazeGroupId > 0 ==> r.mazeGroupId == o.mazeGroupId
    ensures o.mazeGroupId <= 0 ==> r.mazeGroupId == c.mazeGroupId
    ensures NpcFor(o, groupDefault) <= 0 ==> r.npcMonsterIds == c.npcMonsterIds
    ensures NpcFor(o, groupDefault) > 0 ==> r.npcMonsterIds == NpcList(NpcFor(o, groupDefault), |c.eventIds|)
  {
    var c1 := if o.mapEntranceId > 0 then c.(mapEntranceId := o.mapEntranceId) else c;
    var c2 := if o.mazeGroupId > 0 then c1.(mazeGroupId := o.mazeGroupId) else c1;
    var npc := NpcFor(o, groupDefault);
    if npc > 0 then c2.(npcMonsterIds := NpcList(npc, |c.eventIds|)) else c2
  }

  /** Applying the same stage override twice is applying it once. */
  lemma ApplyStageIdempotent(c: PeakLevelConfig, o: StageOverride, groupDefault: int)
    ensures ApplyStage(ApplyStage(c, o, groupDefault), o, groupDefault) == ApplyStage(c, o, groupDefault)
  {
  }

  /** One stage of a group: skipped when its key is not an integer or names no known level. */
  function StageStep(levels: map<int, PeakLevelConfig>, stage: (string, StageOverride), groupDefault: int)
    : (r: map<int, PeakLevelConfig>)
    ensures r.Keys == levels.Keys
    ensures forall k :: k in levels && !Names(stage, k) ==> r[k] == levels[k]
    ensures forall k :: k in levels && Names(stage, k) ==> r[k] == ApplyStage(levels[k], stage.1, groupDefault)
  {
    var id := TryParseInt32(stage.0);
    if id.None? || id.value !in levels then levels
    else levels[id.value := ApplyStage(levels[id.value], stage.1, groupDefault)]
  }

  /** The level table after the stages of one group, in dictionary order. */
  function LevelsAfterStages(levels: map<int, PeakLevelConfig>, stages: seq<(string, StageOverride)>, groupDefault: int)
    : map<int, PeakLevelConfig>
  {
    if stages == [] then levels
    else StageStep(LevelsAfterStages(levels, stages[..|stages| - 1], groupDefault), stages[|stages| - 1], groupDefault)
  }

  /** The level table after the groups, in list order; a group without stages is skipped. */
  function LevelsAfterGroups(levels: map<int, PeakLevelConfig>, groups: seq<GroupOverride>): map<int, PeakLevelConfig> {
    if groups == [] then levels
    else
      var before := LevelsAfterGroups(levels, groups[..|groups| - 1]);
      var g := groups[|groups| - 1];
      if g.stages.None? || g.stages.value == [] then before
      else LevelsAfterStages(before, g.stages.value, g.npcMonsterIdDefault)
  }

  /** The level table after a whole override file; a missing file or list changes nothing. */
  function LevelsAfterConfig(levels: map<int, PeakLevelConfig>, config: Option<OverrideConfig>): (r: map<int, PeakLevelConfig>)
    ensures config.None? || config.value.challengePeak.None? || config.value.challengePeak.value == [] ==> r == levels
  {
    if config.None? || config.value.challengePeak.None? || config.value.challengePeak.value == [] then levels
    else LevelsAfterGroups(levels, config.value.challengePeak.value)
  }

  /** A stage key names level `k`. */
  predicate Names(stage: (string, StageOverride), k: int) {
    TryParseInt32(stage.0) == Some(k)
  }

  /** Some stage of some group names level `k`. */
  predicate GroupsName(groups: seq<GroupOverride>, k: int) {
    exists i, j :: 0 <= i < |groups| && groups[i].stages.Some? && 0 <= j < |groups[i].stages.value|
                   && Names(groups[i].stages.value[j], k)
  }

  /**
   * The invariant the override keeps for one level: same id, events and boss; the entrance
   * and maze group are the original or a positive override; the NPC list is the original or
   * a positive monster once per event (at least once).
   */
  predicate Overrides(before: PeakLevelConfig, after: PeakLevelConfig) {
    && after.id == before.id && after.eventIds == before.eventIds && after.hasBoss == before.hasBoss
    && (after.mapEntranceId == before.mapEntranceId || after.mapEntranceId > 0)
    && (after.mazeGroupId == before.mazeGroupId || after.mazeGroupId > 0)
    && (after.npcMonsterIds == before.npcMonsterIds
        || (&& |after.npcMonsterIds| == Max(|before.eventIds|, 1) && after.npcMonsterIds[0] > 0
            && forall i :: 0 <= i < |after.npcMonsterIds| ==> after.npcMonsterIds[i] == after.npcMonsterIds[0]))
  }

  lemma OverridesTransitive(a: PeakLevelConfig, b: PeakLevelConfig, c: PeakLevelConfig)
    requires Overrides(a, b) && Overrides(b, c)
    ensures Overrides(a, c)
  {
  }

  /**
   * Over one group: the same levels exist; a level no stage names is untouched; every level
   * keeps the override invariant.
   */
  lemma {:induction false} StagesKeep(levels: map<int, PeakLevelConfig>, stages: seq<(string, StageOverride)>,
                                      groupDefault: int)
    ensures var r := LevelsAfterStages(levels, stages, groupDefault);
      && r.Keys == levels.Keys
      && (forall k :: k in levels ==> Overrides(levels[k], r[k]))
      && (forall k :: k in levels && (forall j :: 0 <= j < |stages| ==> !Names(stages[j], k)) ==> r[k] == levels[k])
  {
    if stages != [] {
      var init := stages[..|stages| - 1];
      var stage := stages[|stages| - 1];
      StagesKeep(levels, init, groupDefault);
      var before := LevelsAfterStages(levels, init, groupDefault);
      var r := LevelsAfterStages(levels, stages, groupDefault);
      forall k | k in levels
        ensures Overrides(levels[k], r[k])
      {
        if Names(stage, k) {
          ApplyStageOverrides(before[k], stage.1, groupDefault);
          OverridesTransitive(levels[k], before[k], r[k]);
        }
      }
      forall k | k in levels && (forall j :: 0 <= j < |stages| ==> !Names(stages[j], k))
        ensures r[k] == levels[k]
      {
        assert forall j :: 0 <= j < |init| ==> init[j] == stages[j];
        assert !Names(stages[|stages| - 1], k);
      }
    }
  }

  lemma ApplyStageOverrides(c: PeakLevelConfig, o: StageOverride, groupDefault: int)
    ensures Overrides(c, ApplyStage(c, o, groupDefault))
  {
    var a := ApplyStage(c, o, groupDefault);
    if NpcFor(o, groupDefault) > 0 {
      assert a.npcMonsterIds == NpcList(NpcFor(o, groupDefault), |c.eventIds|);
    }
  }

  /**
   * Over a list of groups: the same levels exist; a level no stage names is untouched; every
   * level keeps the override invariant.
   */
  lemma {:induction false} GroupsKeep(levels: map<int, PeakLevelConfig>, groups: seq<GroupOverride>)
    ensures var r := LevelsAfterGroups(levels, groups);
      && r.Keys == levels.Keys
      && (forall k :: k in levels ==> Overrides(levels[k], r[k]))
      && (forall k :: k in levels && !GroupsName(groups, k) ==> r[k] == levels[k])
  {
    if groups != [] {
      var init := groups[..|groups| - 1];
      var g := groups[|groups| - 1];
      GroupsKeep(levels, init);
      var before := LevelsAfterGroups(levels, init);
      var r := LevelsAfterGroups(levels, groups);
      assert forall i :: 0 <= i < |init| ==> init[i] == groups[i];
      if g.stages.Some? && g.stages.value != [] {
        StagesKeep(before, g.stages.value, g.npcMonsterIdDefault);
        forall k | k in levels
          ensures Overrides(levels[k], r[k])
        {
          OverridesTransitive(levels[k], before[k], r[k]);
        }
        forall k | k in levels && !GroupsName(groups, k)
          ensures r[k] == levels[k]
        {
          assert !GroupsName(init, k);
          forall j | 0 <= j < |g.stages.value|
            ensures !Names(g.stages.value[j], k)
          {
            assert groups[|groups| - 1] == g;
          }
        }
      } else {
        forall k | k in levels && !GroupsName(groups, k)
          ensures r[k] == levels[k]
        {
          assert !GroupsName(init, k);
        }
      }
    }
  }

  /**
   * The override file never adds or removes a level, leaves every level its stages do not
   * name as it was, and changes the others only by positive values.
   */
  lemma ConfigKeeps(levels: map<int, PeakLevelConfig>, config: Option<OverrideConfig>)
    ensures var r := LevelsAfterConfig(levels, config);
      && r.Keys == levels.Keys
      && (forall k :: k in levels ==> Overrides(levels[k], r[k]))
      && (forall k :: (k in levels && !(config.Some? && config.value.challengePeak.Some?
                                        && GroupsName(config.value.challengePeak.value, k))) ==> r[k] == levels[k])
  {
    if config.Some? && config.value.challengePeak.Some? {
      GroupsKeep(levels, config.value.challengePeak.value);
    }
  }

  /** A file of one group with one stage naming a known level applies that stage to that level. */
  lemma SingleStageApplies(levels: map<int, PeakLevelConfig>, key: string, k: int, o: StageOverride, groupDefault: int)
    requires k in levels && Names((key, o), k)
    ensures var r := LevelsAfterConfig(levels, Some(OverrideConfig(Some([GroupOverride(Some([(key, o)]), groupDefault)]))));
      k in r && r[k] == ApplyStage(levels[k], o, groupDefault)
  {
    var stages := [(key, o)];
    var groups := [GroupOverride(Some(stages), groupDefault)];
    var step := StageStep(levels, stages[0], groupDefault);
    assert LevelsAfterStages(levels, stages, groupDefault) == step by {
      assert stages[..0] == [];
    }
    assert LevelsAfterGroups(levels, groups) == step by {
      assert groups[..0] == [];
    }
  }

  /** A single stage naming a known level with positive values sets exactly those values. */
  lemma SingleStageWins(levels: map<int, PeakLevelConfig>, k: int, o: StageOverride, groupDefault: int)
    requires -TwoTo31 <= k < TwoTo31 && k in levels
    requires o.mapEntranceId > 0 && o.mazeGroupId > 0 && o.npcMonsterId > 0
    ensures var r := LevelsAfterConfig(levels, Some(OverrideConfig(Some([GroupOverride(Some([(IntToString(k), o)]), groupDefault)]))));
      && k in r && r[k].mapEntranceId == o.mapEntranceId && r[k].mazeGroupId == o.mazeGroupId
      && r[k].npcMonsterIds == NpcList(o.npcMonsterId, |levels[k].eventIds|)
  {
    ParseFormatRoundTrip(k);
    SingleStageApplies(levels, IntToString(k), k, o, groupDefault);
  }

  /** The loaded ChallengePeakConfig table, whose rows the override rewrites in place. */
  class PeakConfigTable {
    var levels: map<int, PeakLevelConfig>

    constructor (levels: map<int, PeakLevelConfig>)
      ensures this.levels == levels
    {
      this.levels := levels;
    }

    /** ApplyChallengePeakOverrideConfig: the groups and their stages in order, one level at a time. */
    method ApplyChallengePeakOverrideConfig(config: Option<OverrideConfig>)
      modifies this
      ensures levels == LevelsAfterConfig(old(levels), config)
    {
      if config.None? || config.value.challengePeak.None? || config.value.challengePeak.value == [] {
        return;
      }
      var groups := config.value.challengePeak.value;
      var gi := 0;
      while gi < |groups|
        invariant 0 <= gi <= |groups|
        invariant levels == LevelsAfterGroups(old(levels), groups[..gi])
      {
        assert groups[..gi + 1][..gi] == groups[..gi];
        var group := groups[gi];
        if group.stages.None? || group.stages.value == [] {
          gi := gi + 1;
          continue;
        }
        ApplyGroup(group.stages.value, group.npcMonsterIdDefault);
        gi := gi + 1;
      }
      assert groups[..gi] == groups;
    }

    /** The stages of one group, in order. */
    method ApplyGroup(stages: seq<(string, StageOverride)>, groupDefault: int)
      modifies this
      ensures levels == LevelsAfterStages(old(levels), stages, groupDefault)
    {
      var si := 0;
      while si < |stages|
        invariant 0 <= si <= |stages|
        invariant levels == LevelsAfterStages(old(levels), stages[..si], groupDefault)
      {
        assert stages[..si + 1][..si] == stages[..si];
        ApplyStageOverride(stages[si], groupDefault);
        si := si + 1;
      }
      assert stages[..si] == stages;
    }

    /**
     * One stage: a key that parses to a known level rewrites that level's entrance and maze
     * group when positive, and its monster list when the stage's (or the group's) monster is.
     */
    method ApplyStageOverride(stage: (string, StageOverride), groupDefault: int)
      modifies this
      ensures levels == StageStep(old(levels), stage, groupDefault)
    {
      var (stageKey, stageOverride) := stage;
      var stageId := TryParseInt32(stageKey);
      if stageId.None? || stageId.value !in levels {
        return;
      }
      var peakConfig := levels[stageId.value];
      if stageOverride.mapEntranceId > 0 {
        peakConfig := peakConfig.(mapEntranceId := stageOverride.mapEntranceId);
      }
      if stageOverride.mazeGroupId > 0 {
        peakConfig := peakConfig.(mazeGroupId := stageOverride.mazeGroupId);
      }
      var npcMonsterId := if stageOverride.npcMonsterId > 0 then stageOverride.npcMonsterId else groupDefault;
      if npcMonsterId > 0 {
        peakConfig := peakConfig.(npcMonsterIds := NpcList(npcMonsterId, |peakConfig.eventIds|));
      }
      assert peakConfig == ApplyStage(levels[stageId.value], stageOverride, groupDefault);
      levels := levels[stageId.value := peakConfig];
    }
  }
}
