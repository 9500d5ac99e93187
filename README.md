# HyacineDH-Core challenge engine, in Dafny

This project models the core of the HyacineDH-Core game server.

**The challenge session engine.** This is the per-player `ChallengeManager` together with its three legacy session variants:
- boss (`ChallengeBossInstance`);
- story (`ChallengeStoryInstance`);
- memory (`ChallengeMemoryInstance`).

Each variant is a small state machine over a persisted record (`ChallengeDataPb`): stage, status, scores, rounds left, dead avatars, buffs, start point and saved Mp. The manager owns:
- the current session;
- the challenge history;
- the claimed reward tiers;
- the saved session blob;
- the friend-visible battle records with their record-id counter.

**The peak (bracket) manager.** `ChallengePeakManager` chooses the current bracket, builds the bracket view with its star totals, and keeps the best-run records of regular and boss levels. It also chooses the lineup a peak start plays.

**Smaller self-contained pieces:**
- the challenge-peak override merge of `ResourceManager`;
- the flag-byte framing of the resource cache compressor and the per-name property de-duplication of its JSON contract resolver;
- the activity schedule normaliser;
- the server console's line editor;
- the server configuration's drop-rate clamp and address formatting;
- the GM handbook generator's text-map lookup, name assignment, text-map loading and maze-buff order.

Code that changes state in place is written imperatively. The manager, the session instances, the friend records, the peak manager, the override's config table, the activity config and the console editor are classes whose methods carry `modifies` clauses. Each method is proved against specification functions, for example `Records.RecordAfterSave`, `Records.Claim`, `Peak.LevelsAfterRun`, `PeakOverride.LevelsAfterConfig`, `Activity.NormalizedSchedule` and `Stars.StarRating`. The lemmas state what the source promises about those functions. Pure code (the star rating, the clamps, the lookups, the framing) is written as functions with contracts.

Collaborators are inputs, not modelled code:
- whether entering a scene succeeds, throws or leaves the player in place;
- the monsters left after a battle;
- the lineups and their technique points;
- the owned roster;
- where the player stands after a scene change.

The bodies of `ChallengeHistoryData.SetStars` and `GetTotalStars` are not part of this model. They are parameters of the manager.

Behaviour of the code worth knowing, which the model keeps:
- **A peak record is kept only in one case.** The stored record must have strictly more finished targets AND strictly fewer rounds than the new run (ChallengePeakManager.cs:121-124, 158-161). In every other case the new run overwrites, even a worse one (`Peak.WorseRunOverwrites`).
- **A friend battle record is replaced on ties.** It is replaced unless the stored record has strictly more stars (ChallengeManager.cs:270-276).
- **Status is not monotonic.** Nothing stops a later battle end from moving a failed run on.
- **A failed scene entry clears the session.** The current session becomes empty rather than the previous one, and the lineup is reset to none (ChallengeManager.cs:58-64).
- **Boss buffs on a story or memory start throw.** The throw comes after the session is current and before anything is saved (`Challenge.StartOutcome.StartThrew`).
- **Memory rounds never wrap.** RoundsLeft is computed in unsigned arithmetic, so a battle that took more rounds than were left leaves RoundsLeft unchanged (ChallengeMemoryInstance.cs:113-114).
- **A resurrected session is never partial.** `IsPartialChallenge` is not part of the stored record.

## Model

| member | source | states |
|---|---|---|
| Common.ToUInt32 | GameServer/GameServices/Challenge/Instances/ChallengeBossInstance.cs:49-52 | the unchecked `(uint)` cast is the value modulo 2^32, the identity on values already in range |
| Common.ToInt32 | GameServer/GameServices/Challenge/Instances/ChallengeBossInstance.cs:49-52 | the unchecked `(int)` cast of a `uint` is the two's-complement reading, and casting back gives the same bits |
| Common.Int32RoundTrip | GameServer/GameServices/Challenge/Instances/ChallengeBossInstance.cs:49-52 | a signed 32-bit value survives a round trip through its unsigned pattern |
| Stars.ShiftOne | GameServer/GameServices/Challenge/Instances/ChallengeBossInstance.cs:262 | `1u << i` stays a 32-bit value (the shift count is masked to five bits) |
| Stars.StarSum | GameServer/GameServices/Challenge/Instances/ChallengeBossInstance.cs:252-265 | the `uint` accumulator of the star loop stays below 2^32 |
| Stars.StarRating | GameServer/GameServices/Challenge/Instances/ChallengeBossInstance.cs:267-268 | the rating is clamped to at most 7 |
| Stars.CalculateStars | GameServer/GameServices/Challenge/Instances/ChallengeBossInstance.cs:249-269 | the loop over the targets (shared by boss, story 181-201 and memory 138-161) computes exactly the rating function |
| Stars.HitCount | GameServer/GameServices/Challenge/Instances/ChallengeMemoryInstance.cs:138-161 | at most one hit per visited target |
| Stars.StarSumOfThree | GameServer/GameServices/Challenge/Instances/ChallengeMemoryInstance.cs:138-161 | with at most three targets the sum is hit0 + 2·hit1 + 4·hit2 |
| Stars.HitCountOfThree | GameServer/GameServices/Challenge/Instances/ChallengeMemoryInstance.cs:138-161 | with at most three targets the hit count is the sum of the three hit bits |
| Stars.LowBits | GameServer/GameServices/Challenge/ChallengeManager.cs:265-266 | the three low bits of b0 + 2·b1 + 4·b2 read back as b0, b1, b2, and the value is below 8 |
| Stars.StarRatingBits | GameServer/GameServices/Challenge/Instances/ChallengeBossInstance.cs:249-269 | with at most three targets, bit i of the rating is set iff target i exists and is satisfied, and the rating is below 2^count |
| Stars.LowStarCount | GameServer/GameServices/Challenge/ChallengeManager.cs:265-266 | the popcount of the low three bits lies in 0..3 |
| Stars.CountStars | GameServer/GameServices/Challenge/ChallengeManager.cs:265-266 | the three-iteration counting loop (also at 304-305 and 345-346) yields exactly the low-bit popcount |
| Stars.RecordedStarsCountTargets | GameServer/GameServices/Challenge/ChallengeManager.cs:265-266 | the star count a battle record stores equals the number of targets met |
| Session.WithStart | GameServer/GameServices/Challenge/ChallengeManager.cs:82-84 | start position, rotation and saved Mp are set on the legacy record only, the variant is kept, and peak and unset records are untouched |
| Session.AddStoryBuffs | GameServer/GameServices/Challenge/ChallengeManager.cs:86-90 | the picked pair is appended to a story record's buffs; any other record is unchanged |
| Session.AddBossBuffs | GameServer/GameServices/Challenge/ChallengeManager.cs:92-96 | the picked pair is appended to a boss record's buffs; any other record is unchanged |
| Session.WithPartialBuff | GameServer/GameServices/Challenge/ChallengeManager.cs:485-503 | buff id 0 leaves the list as it was |
| Session.PartialBuffs | GameServer/GameServices/Challenge/ChallengeManager.cs:485-503 | story and boss records get the partial buff list, memory/peak/unset records and buff id 0 change nothing |
| Session.PartialBuffIsStageBuff | GameServer/GameServices/Challenge/ChallengeManager.cs:485-503 | the partial buff sits at index CurrentStage−1 of its half, so the first battle of that half receives exactly it as stage buff |
| Session.TotalScore | GameServer/GameServices/Challenge/Instances/ChallengeBossInstance.cs:49-52 | the total is a signed 32-bit value congruent to ScoreStage1 + ScoreStage2 modulo 2^32 (uint sum cast back to int) |
| Session.TotalScoreExact | GameServer/GameServices/Challenge/Instances/ChallengeBossInstance.cs:49-52 | GetTotalScore is ScoreStage1 + ScoreStage2 whenever that fits an `int` |
| Session.WithStageScore | GameServer/GameServices/Challenge/Instances/ChallengeBossInstance.cs:207-210 | the stage score goes into the current stage's slot only (story: ChallengeStoryInstance.cs:139-142) |
| Session.StageBuffOf | GameServer/GameServices/Challenge/Instances/ChallengeBossInstance.cs:191-196 | a buff is added iff 1 ≤ CurrentStage ≤ Buffs.Count, and it is Buffs[CurrentStage−1]; none when the list is shorter than the stage |
| Session.RoundsAfter | GameServer/GameServices/Challenge/Instances/ChallengeMemoryInstance.cs:113-114 | the new RoundsLeft never exceeds the old, is RoundsLeft − RoundCnt when that is positive, 1 when all rounds were used, unchanged when the unsigned subtraction wraps |
| Session.DeadCount | GameServer/GameServices/Challenge/Instances/ChallengeMemoryInstance.cs:103-105 | at most one dead avatar per lineup avatar |
| Phases.BattleEndCases | GameServer/GameServices/Challenge/Instances/ChallengeBossInstance.cs:212-246 | clearing a stage and failing exclude each other; a quit does neither; every other non-win end does one of them |
| Phases.BossStageScore | GameServer/GameServices/Challenge/Instances/ChallengeBossInstance.cs:202-204 | the boss stage score is the sum of the battle-target progress values when it fits a `uint` |
| Phases.StoryScoreIsCumulative | GameServer/GameServices/Challenge/Instances/ChallengeStoryInstance.cs:136-142 | with the current slot still empty, the total after the battle equals the reported cumulative score |
| Phases.FinishScored | GameServer/GameServices/Challenge/Instances/ChallengeBossInstance.cs:273-277 | finishing changes only status (Finish) and stars, and the stars are the rating of the total score, at most 7 (story: ChallengeStoryInstance.cs:205-209) |
| Phases.FinishMemory | GameServer/GameServices/Challenge/Instances/ChallengeMemoryInstance.cs:165-171 | finishing changes only status and stars, rated by rounds left and dead avatars |
| Phases.ConsumedRounds | GameServer/GameServices/Challenge/Instances/ChallengeMemoryInstance.cs:38 | the reported round count is ChallengeCountDown − RoundsLeft (also the history score at 168) |
| Phases.BossPhaseTwo | GameServer/GameServices/Challenge/Instances/ChallengeBossInstance.cs:306-358 | the stage goes up by exactly one, the second lineup and its Mp are taken, scores, status, stars and buffs are kept, the start point changes only with the scene |
| Phases.StageAfterPhase | GameServer/GameServices/Challenge/Instances/ChallengeStoryInstance.cs:241-242 | the stage never decreases, goes up by one below 2, and never passes 2 (memory: ChallengeMemoryInstance.cs:206-207) |
| Phases.StoryPhaseTwo | GameServer/GameServices/Challenge/Instances/ChallengeStoryInstance.cs:237-272 | the second phase: stage capped at 2, second lineup with its Mp, everything else kept, a new start point only when the stage-two scene differs |
| Phases.MemoryPhaseTwo | GameServer/GameServices/Challenge/Instances/ChallengeMemoryInstance.cs:202-238 | the same for a memory record, keeping rounds left and dead avatars |
| Phases.StoryStageStaysAtMostTwo | GameServer/GameServices/Challenge/Instances/ChallengeStoryInstance.cs:239-242 | two phase changes in a row still leave the stage at 2 |
| Phases.WithStageBuff | GameServer/GameServices/Challenge/Instances/ChallengeStoryInstance.cs:125-130 | the battle gets the stage buff when there is one, nothing extra otherwise, and a stage below 1 throws |
| Phases.StoryTargets | GameServer/GameServices/Challenge/Instances/ChallengeStoryInstance.cs:121-123 | the story battle targets: the total score target, then one per challenge target, all starting at the total score |
| Records.HistoryAfterAdd | GameServer/GameServices/Challenge/ChallengeManager.cs:162-172 | void stars or a partial run change nothing; otherwise the entry exists afterwards with the latest score and SetStars of the old stars, and every other entry is kept |
| Records.FixGroup | GameServer/GameServices/Challenge/ChallengeManager.cs:182-186 | an entry without a group takes its challenge's group; nothing else about it changes |
| Records.FixAll | GameServer/GameServices/Challenge/ChallengeManager.cs:180-188 | every history entry is fixed and no entry is added or removed |
| Records.GroupTotalOfFixed | GameServer/GameServices/Challenge/ChallengeManager.cs:180-188 | fixing the groups does not change a group's star total |
| Records.Claim | GameServer/GameServices/Challenge/ChallengeManager.cs:193-218 | claiming never un-takes a tier |
| Records.ClaimTaken | GameServer/GameServices/Challenge/ChallengeManager.cs:195-203 | afterwards exactly the previously taken tiers and the tiers the total reaches are taken |
| Records.ClaimGrantsFresh | GameServer/GameServices/Challenge/ChallengeManager.cs:195-203 | every grant is for a reached tier that was not taken before, and no tier is granted twice |
| Records.ClaimGrantsItems | GameServer/GameServices/Challenge/ChallengeManager.cs:205-216 | every grant carries the items of its tier's reward row |
| Records.ClaimSaturated | GameServer/GameServices/Challenge/ChallengeManager.cs:195-203 | when every reached tier is already taken, nothing is taken or granted |
| Records.ClaimTwiceGrantsNothing | GameServer/GameServices/Challenge/ChallengeManager.cs:193-218 | claiming a second time with the same total grants nothing |
| Records.TakenAfter | GameServer/GameServices/Challenge/ChallengeManager.cs:195-203 | the group's taken entry exists iff it did before or some tier is reached, holds the old and reached tiers, and other groups are untouched |
| Records.GrantedItems | GameServer/GameServices/Challenge/ChallengeManager.cs:205-216 | every item of every grant is handed out, and nothing else is: no grants, no items |
| Records.TakeRewardsTwice | GameServer/GameServices/Challenge/ChallengeManager.cs:174-222 | a second TakeRewards with unchanged history sees the same total, grants nothing and changes no taken tier |
| Records.WithTable | GameServer/GameServices/Challenge/ChallengeManager.cs:261-262 | replacing one statistics table leaves the other two and the group id alone |
| Records.RecordStars | GameServer/GameServices/Challenge/ChallengeManager.cs:265-266 | a legacy record's stars lie in 0..3 |
| Records.RecordLineups | GameServer/GameServices/Challenge/ChallengeManager.cs:278-293 | a record holds the first lineup, and the second only for a two-stage challenge |
| Records.PeakRecordLineups | GameServer/GameServices/Challenge/ChallengeManager.cs:405-419 | a peak record lists only non-empty lineups |
| Records.NewRecord | GameServer/GameServices/Challenge/ChallengeManager.cs:270-276 | the new record takes the next record id and the run's stars, and it is a round record exactly for memory runs |
| Records.RecordAfterSave | GameServer/GameServices/Challenge/ChallengeManager.cs:252-423 | partial runs change nothing; otherwise the group exists afterwards, other groups and tables are untouched, the stored record is kept iff it has strictly more stars, and a replacement takes the next record id |
| Records.SaveTwice | GameServer/GameServices/Challenge/Instances/ChallengeMemoryInstance.cs:177-186 | saving the memory record twice consumes two record ids and stores the second one |
| Challenge.BossInstance.constructor | GameServer/GameServices/Challenge/Instances/ChallengeBossInstance.cs:18-19 | the session holds its row, record and partial flag |
| Challenge.BossInstance.OnBattleStart | GameServer/GameServices/Challenge/Instances/ChallengeBossInstance.cs:177-197 | the battle setup is the countdown, maze buff and two score targets, plus the stage buff as StageBuffOf says |
| Challenge.BossInstance.OnBattleEnd | GameServer/GameServices/Challenge/Instances/ChallengeBossInstance.cs:199-247 | the stage score lands in the current slot; a clear advances, a failure sets Failed, a quit restores Mp and start point without a status change, a win saves Mp; a result without battle-target group 1 throws before anything is written, changing nothing |
| Challenge.BossInstance.AdvanceStage | GameServer/GameServices/Challenge/Instances/ChallengeBossInstance.cs:271-304 | on the last stage the run finishes, rated by total score, with history and friend record saved; otherwise neither stage nor status changes |
| Challenge.BossInstance.Finish | GameServer/GameServices/Challenge/Instances/ChallengeBossInstance.cs:273-297 | the record becomes FinishScored, history gets the stars and total score, the friend record is saved |
| Challenge.BossInstance.NextPhase | GameServer/GameServices/Challenge/Instances/ChallengeBossInstance.cs:306-358 | refused without change on the last stage or without a second lineup; otherwise the record becomes BossPhaseTwo and is saved |
| Challenge.StoryInstance.constructor | GameServer/GameServices/Challenge/Instances/ChallengeStoryInstance.cs:17-18 | the session holds its row, record and partial flag |
| Challenge.StoryInstance.OnBattleStart | GameServer/GameServices/Challenge/Instances/ChallengeStoryInstance.cs:109-131 | countdown and maze buff; with a story row also the score targets and the stage buff |
| Challenge.StoryInstance.OnBattleEnd | GameServer/GameServices/Challenge/Instances/ChallengeStoryInstance.cs:133-179 | the stage score is the reported score minus the earlier total, stored in the current slot; clear, failure, quit and win as for the boss variant |
| Challenge.StoryInstance.AdvanceStage | GameServer/GameServices/Challenge/Instances/ChallengeStoryInstance.cs:203-235 | the last stage finishes and rates the run; an earlier stage enters the second phase |
| Challenge.StoryInstance.Finish | GameServer/GameServices/Challenge/Instances/ChallengeStoryInstance.cs:205-215 | the record becomes FinishScored, history and friend record saved |
| Challenge.StoryInstance.NextPhase | GameServer/GameServices/Challenge/Instances/ChallengeStoryInstance.cs:237-272 | refused without change for a one-stage challenge; otherwise the record becomes StoryPhaseTwo and is saved |
| Challenge.MemoryInstance.constructor | GameServer/GameServices/Challenge/Instances/ChallengeMemoryInstance.cs:17-18 | the session holds its row, record and partial flag |
| Challenge.MemoryInstance.OnBattleStart | GameServer/GameServices/Challenge/Instances/ChallengeMemoryInstance.cs:85-95 | the round limit is RoundsLeft read as `int`, with the maze buff |
| Challenge.MemoryInstance.OnBattleEnd | GameServer/GameServices/Challenge/Instances/ChallengeMemoryInstance.cs:97-136 | a win counts the dead, advances when no monster is left, then deducts rounds; a quit restores; every other end fails (no turn-limit clear) |
| Challenge.MemoryInstance.OnWin | GameServer/GameServices/Challenge/Instances/ChallengeMemoryInstance.cs:101-118 | dead avatars grow by DeadCount, the stage advances before RoundsAfter applies, Mp is saved |
| Challenge.MemoryInstance.CountDead | GameServer/GameServices/Challenge/Instances/ChallengeMemoryInstance.cs:103-105 | DeadAvatarNum grows by exactly the number of avatars with HP ≤ 0 and never decreases |
| Challenge.MemoryInstance.AdvanceStage | GameServer/GameServices/Challenge/Instances/ChallengeMemoryInstance.cs:163-200 | the last stage finishes (FinishMemory) with the consumed rounds as score and two friend-record saves; an earlier stage enters the second phase |
| Challenge.MemoryInstance.Finish | GameServer/GameServices/Challenge/Instances/ChallengeMemoryInstance.cs:165-186 | rated by rounds left and dead avatars, history score ChallengeCountDown − RoundsLeft, SaveBattleRecord twice |
| Challenge.MemoryInstance.NextPhase | GameServer/GameServices/Challenge/Instances/ChallengeMemoryInstance.cs:202-239 | refused for a one-stage challenge; otherwise MemoryPhaseTwo, stage capped at 2, record saved |
| Challenge.Snapshot | GameServer/GameServices/Challenge/ChallengeManager.cs:224-227 | the stored record is the session's own record, under its variant's tag |
| Challenge.SubjectOf | GameServer/GameServices/Challenge/ChallengeManager.cs:257-386 | the battle record a session writes is chosen by its variant |
| Challenge.InitialData | GameServer/GameServices/Challenge/ChallengeManager.cs:444-483 | boss row gives a boss record, else story, else memory with RoundsLeft = ChallengeCountDown, all Doing on the given stage and lineup |
| Challenge.FreshScore | GameServer/GameServices/Challenge/ChallengeManager.cs:449-470 | a new boss or story record is Doing with nothing scored |
| Challenge.TryEnterChallengeScene | GameServer/GameServices/Challenge/ChallengeManager.cs:505-519 | false for a non-positive or unknown entrance or when entering throws; otherwise true iff the scene changed or the player already stands at the entrance |
| Challenge.PartialEntrance | GameServer/GameServices/Challenge/ChallengeManager.cs:130-132 | the second half enters the stage-two scene when it has one |
| Challenge.ChallengeManager.constructor | GameServer/GameServices/Challenge/ChallengeManager.cs:20-27 | a manager with no running session over the player's data |
| Challenge.ChallengeManager.AddHistory | GameServer/GameServices/Challenge/ChallengeManager.cs:162-172 | the history becomes HistoryAfterAdd of the old one |
| Challenge.ChallengeManager.TakeRewards | GameServer/GameServices/Challenge/ChallengeManager.cs:174-222 | None and no change for an unknown group or reward line; otherwise history fixed, tiers claimed as Claim says, grants and items returned |
| Challenge.ChallengeManager.FixGroupsAndCount | GameServer/GameServices/Challenge/ChallengeManager.cs:179-188 | the history becomes FixAll of the old one and the total is the group's star total |
| Challenge.ChallengeManager.ClaimLine | GameServer/GameServices/Challenge/ChallengeManager.cs:193-218 | the taken map becomes TakenAfter and the grants are those of Claim |
| Challenge.ChallengeManager.ClaimTier | GameServer/GameServices/Challenge/ChallengeManager.cs:195-216 | one tier: taken when reached, granted when new and its row exists |
| Challenge.ChallengeManager.SaveInstance | GameServer/GameServices/Challenge/ChallengeManager.cs:224-227 | the stored blob becomes the session's Snapshot |
| Challenge.ChallengeManager.ClearInstance | GameServer/GameServices/Challenge/ChallengeManager.cs:229-233 | no stored blob and no running session |
| Challenge.ChallengeManager.ResurrectInstance | GameServer/GameServices/Challenge/ChallengeManager.cs:235-250 | nothing without a blob; an unset record empties the slot; otherwise the stored variant is rebuilt, not partial, around its record |
| Challenge.ChallengeManager.SaveBattleRecord | GameServer/GameServices/Challenge/ChallengeManager.cs:252-423 | the friend records become RecordAfterSave of the old ones |
| Challenge.ChallengeManager.SaveFinished | GameServer/GameServices/Challenge/Instances/ChallengeBossInstance.cs:285-297 | a finished run's history added, then its friend record saved the given number of times |
| Challenge.ChallengeManager.CreateLegacyInstance | GameServer/GameServices/Challenge/ChallengeManager.cs:444-483 | a fresh session of the row's kind, current, around InitialData |
| Challenge.ChallengeManager.SetStart | GameServer/GameServices/Challenge/ChallengeManager.cs:82-84 | the session's record becomes WithStart of the old one |
| Challenge.ChallengeManager.StartChallenge | GameServer/GameServices/Challenge/ChallengeManager.cs:33-105 | an unknown row or empty lineup is refused with the session untouched; a failed scene entry leaves no session and lineup none; the start succeeds exactly when the row is known, its lineups are ready, the scene is entered and no boss buffs meet a non-boss row, and then the started record is saved |
| Challenge.ChallengeManager.Prepare | GameServer/GameServices/Challenge/ChallengeManager.cs:82-104 | start point, Mp and picked buffs set and saved; boss buffs on a session that is not a boss run throw |
| Challenge.ChallengeManager.SetPartialBuff | GameServer/GameServices/Challenge/ChallengeManager.cs:485-503 | the story or boss record's buffs become PartialBuffs of the old record |
| Challenge.ChallengeManager.StartPartialChallenge | GameServer/GameServices/Challenge/ChallengeManager.cs:107-160 | one half on its lineup and stage with only the chosen buff, refused and rolled back like StartChallenge; it succeeds exactly when the row is known, the half's lineup is ready and its scene is entered |
| Configuration.ServerOption.ValidFarmingDropRate | Common/Configuration/ConfigContainer.cs:98-101 | always in 1..999, the identity inside it, 1 below and 999 above |
| Configuration.PortOfJoin | Common/Configuration/ConfigContainer.cs:22-25 | whatever the host holds, the port reads back after the last ':' |
| Configuration.HttpServerConfig.GetDisplayAddress | Common/Configuration/ConfigContainer.cs:22-25 | the port reads back from the advertised scheme://public-host:port address |
| Configuration.HttpServerConfig.GetBindDisplayAddress | Common/Configuration/ConfigContainer.cs:27-30 | the port reads back from the scheme://bind-host:port address |
| Configuration.GameServerConfig.GetDisplayAddress | Common/Configuration/ConfigContainer.cs:49-52 | the port reads back from the public-host:port address |
| Configuration.HttpDisplayAddressPort | Common/Configuration/ConfigContainer.cs:22-30 | the port reads back from both the display and the bind address |
| Configuration.HttpDisplayAddressScheme | Common/Configuration/ConfigContainer.cs:22-25 | the address starts with https:// iff SSL is on, else http:// |
| Configuration.GameDisplayAddressPort | Common/Configuration/ConfigContainer.cs:49-52 | the game server address is host:port, the port reading back |
| Text.NatToString | Common/Configuration/ConfigContainer.cs:28 | decimal formatting gives digits only |
| Text.IntToString | Common/Configuration/ConfigContainer.cs:28 | a negative value gets a leading '-', the rest digits |
| Text.TryParseInt32 | Common/Data/ResourceManager.cs:441 | `int.TryParse` succeeds only with a 32-bit signed value |
| Text.ParseFormatRoundTrip | Common/Data/ResourceManager.cs:441 | every 32-bit value parses back from its decimal form |
| Text.AfterLastColonOfJoin | Common/Configuration/ConfigContainer.cs:24 | the text after the last ':' of host:tail is the tail |
| Text.IntToStringInjective | Common/Data/Custom/ActivityConfig.cs:43 | two integers with the same decimal form are equal |
| PeakCatalog.GroupById | GameServer/GameServices/ChallengePeak/ChallengePeakManager.cs:46 | GetValueOrDefault on the group table: the row with that id, or none |
| PeakCatalog.GroupIn | GameServer/GameServices/ChallengePeak/ChallengePeakManager.cs:354 | the row returned has the id asked for and is in the table |
| PeakCatalog.BossKey | GameServer/GameServices/ChallengePeak/ChallengePeakManager.cs:118 | the boss record key (levelId << 2) \| hard bit in 32-bit arithmetic |
| PeakCatalog.BossKeyInjective | GameServer/GameServices/ChallengePeak/ChallengePeakManager.cs:118 | distinct levels or difficulties have distinct boss keys |
| PeakCatalog.BossKeyDecode | GameServer/GameServices/ChallengePeak/ChallengePeakManager.cs:362-363 | level and difficulty are read back from a boss key |
| Peak.LowestId | GameServer/GameServices/ChallengePeak/ChallengePeakManager.cs:29-36 | the smallest id of the group table, and it belongs to it |
| Peak.LowestWithProgress | GameServer/GameServices/ChallengePeak/ChallengePeakManager.cs:32-34 | the smallest id among groups with progress, none when no group has any |
| Peak.ChallengePeakManager.GetCurrentPeakGroupId | GameServer/GameServices/ChallengePeak/ChallengePeakManager.cs:19-37 | the id shown is the override, the default, the running group or the id of a table group, never anything else |
| Peak.CurrentGroupId | GameServer/GameServices/ChallengePeak/ChallengePeakManager.cs:19-37 | override group if it exists, else a positive running group, else the lowest with progress, else the lowest, else the default |
| Peak.GroupByIdOfMember | GameServer/GameServices/ChallengePeak/ChallengePeakManager.cs:352-367 | with distinct ids, looking up a member's id gives that member |
| Peak.Clearance | GameServer/GameServices/ChallengePeak/ChallengePeakManager.cs:426-440 | a difficulty has passed iff it has stars or finished targets |
| Peak.BuildBoss | GameServer/GameServices/ChallengePeak/ChallengePeakManager.cs:393-424 | absent when neither difficulty has a record; otherwise both clearances, the union of targets and the larger star count |
| Peak.BuildGroup | GameServer/GameServices/ChallengePeak/ChallengePeakManager.cs:39-82 | an unknown group gives an empty view under its id; a known one lists one peak per pre-level, passed iff that level has a record, and a boss only when the group has a boss level |
| Peak.BuildPrePeak | GameServer/GameServices/ChallengePeak/ChallengePeakManager.cs:369-391 | a level without a record has not passed; one with a record shows its rounds, avatars and stars |
| Peak.LevelStarsWrap | GameServer/GameServices/ChallengePeak/ChallengePeakManager.cs:52-61 | the `uint` running sum is the unbounded sum modulo 2^32 |
| Peak.ObtainedStarsTotal | GameServer/GameServices/ChallengePeak/ChallengePeakManager.cs:52-73 | ObtainedStars is the level stars plus max(easy, hard) boss stars, cut to 32 bits |
| Peak.PassedLevelsHaveRecords | GameServer/GameServices/ChallengePeak/ChallengePeakManager.cs:54-61 | the passed levels of a view are exactly the levels with a record |
| Peak.ExpandTakenStars | GameServer/GameServices/ChallengePeak/ChallengePeakManager.cs:442-447 | exactly the set bit indices 0..62, ascending |
| Peak.ResolvePeakEntryId | GameServer/GameServices/ChallengePeak/ChallengePeakManager.cs:335-350 | level entrance if positive, else hard boss entrance, else group entrance, else the constant lookup; 0 without a group |
| Peak.ResolvedTableEntryPositive | GameServer/GameServices/ChallengePeak/ChallengePeakManager.cs:335-350 | an entrance taken from the tables is positive |
| Peak.GroupOfLevel | GameServer/GameServices/ChallengePeak/ChallengePeakManager.cs:189-190 | the first group naming the level as boss or regular level |
| Peak.LevelRecord | GameServer/GameServices/ChallengePeak/ChallengePeakManager.cs:163-170 | the new level record with PeakStar = number of finished targets |
| Peak.BossRecord | GameServer/GameServices/ChallengePeak/ChallengePeakManager.cs:127-136 | the new boss record with the first buff (0 without one) and PeakStar = number of targets |
| Peak.LevelsAfterRun | GameServer/GameServices/ChallengePeak/ChallengePeakManager.cs:155-172 | the level record is replaced unless the stored one has more targets and fewer rounds; other levels untouched |
| Peak.BossesAfterRun | GameServer/GameServices/ChallengePeak/ChallengePeakManager.cs:114-138 | the same rule under the boss key |
| Peak.WorseRunOverwrites | GameServer/GameServices/ChallengePeak/ChallengePeakManager.cs:158-161 | a stored three-target run is overwritten by a one-target run with the same rounds |
| Peak.StoredRunDominates | GameServer/GameServices/ChallengePeak/ChallengePeakManager.cs:158-172 | afterwards the record is the run's own or one with more targets in fewer rounds |
| Peak.RunWithMoreTargetsIsStored | GameServer/GameServices/ChallengePeak/ChallengePeakManager.cs:158-172 | a run with at least as many targets always becomes the record |
| Peak.OtherBossRecordsKept | GameServer/GameServices/ChallengePeak/ChallengePeakManager.cs:118-138 | a boss run never touches another level's or difficulty's record |
| Peak.HeadFrameAfter | GameServer/GameServices/ChallengePeak/ChallengePeakManager.cs:141-150 | hard always asks for the ultra frame; easy asks for 226000 + stars only when that is above the current frame |
| Peak.OwnedBaseIds | GameServer/GameServices/ChallengePeak/ChallengePeakManager.cs:91-96 | only owned avatars, as base ids, in request order |
| Peak.OwnedBaseIdsMembers | GameServer/GameServices/ChallengePeak/ChallengePeakManager.cs:91-96 | an id is stored iff it is the base id of an owned, requested avatar |
| Peak.LineupRecord | GameServer/GameServices/ChallengePeak/ChallengePeakManager.cs:98-102 | a lineup entry resets its level record to only the avatars |
| Peak.LineupsKeys | GameServer/GameServices/ChallengePeak/ChallengePeakManager.cs:87-103 | afterwards the recorded levels are the old ones and the named ones |
| Peak.LineupsKeepOthers | GameServer/GameServices/ChallengePeak/ChallengePeakManager.cs:87-103 | a level no entry names keeps its record |
| Peak.LineupsLastWins | GameServer/GameServices/ChallengePeak/ChallengePeakManager.cs:87-103 | a named level holds the record of the last entry naming it |
| Peak.RosterFallback | GameServer/GameServices/ChallengePeak/ChallengePeakManager.cs:211-239 | an empty request and memory fall back to the whole roster |
| Peak.PeakStartData | GameServer/GameServices/ChallengePeak/ChallengePeakManager.cs:268-282 | the record a peak session starts with: group, level, hardness of a boss level, the chosen buff |
| Peak.ChallengePeakManager.constructor | GameServer/GameServices/ChallengePeak/ChallengePeakManager.cs:15-17 | BossIsHard starts true |
| Peak.ChallengePeakManager.SetLineupAvatars | GameServer/GameServices/ChallengePeak/ChallengePeakManager.cs:84-106 | the level records become LevelsAfterLineups and the view sent is BuildGroup of the new records |
| Peak.ChallengePeakManager.SaveHistory | GameServer/GameServices/ChallengePeak/ChallengePeakManager.cs:108-178 | the records become LevelsAfterRun / BossesAfterRun; a kept stored run means no change and no view; the head frame follows HeadFrameAfter |
| Peak.ChallengePeakManager.PickLineup | GameServer/GameServices/ChallengePeak/ChallengePeakManager.cs:195-239 | the lineup is ChosenLineup of the request and the remembered avatars |
| Peak.ChallengePeakManager.Launch | GameServer/GameServices/ChallengePeak/ChallengePeakManager.cs:284-332 | the start succeeds exactly when the resolved entrance is positive, known and entered; then the session is current with its start point and saved, otherwise it is dropped with the lineup reset |
| Peak.ChallengePeakManager.StartChallenge | GameServer/GameServices/ChallengePeak/ChallengePeakManager.cs:180-333 | unknown level, missing lineup or empty lineup refused before any session exists; it starts exactly when the level is known, the lineup exists and is non-empty, the team has avatars and the level's resolved entrance is positive, known and entered |
| PeakOverride.NpcList | Common/Data/ResourceManager.cs:455-459 | the id repeated once per event, or once when there are none |
| PeakOverride.ApplyStage | Common/Data/ResourceManager.cs:444-460 | positive entrance and maze group overwrite; a positive NPC (stage's, else group default) replaces the NPC list; nothing else changes |
| PeakOverride.ApplyStageIdempotent | Common/Data/ResourceManager.cs:444-460 | applying a stage twice is applying it once |
| PeakOverride.StageStep | Common/Data/ResourceManager.cs:441-442 | a non-integer key or unknown stage id is skipped |
| PeakOverride.LevelsAfterConfig | Common/Data/ResourceManager.cs:433 | a null config or empty peak list changes nothing |
| PeakOverride.StagesKeep | Common/Data/ResourceManager.cs:439-463 | over one group: same levels, unnamed levels untouched, every level changed only by positive values |
| PeakOverride.GroupsKeep | Common/Data/ResourceManager.cs:435-464 | the same over all groups, groups without stages skipped |
| PeakOverride.ConfigKeeps | Common/Data/ResourceManager.cs:431-465 | no level added or removed, levels no stage names untouched, others changed only by positive values |
| PeakOverride.SingleStageApplies | Common/Data/ResourceManager.cs:439-460 | one stage naming a known level applies exactly that stage to it |
| PeakOverride.SingleStageWins | Common/Data/ResourceManager.cs:444-460 | positive override values are exactly what the level then holds |
| PeakOverride.PeakConfigTable.ApplyChallengePeakOverrideConfig | Common/Data/ResourceManager.cs:431-465 | the table becomes LevelsAfterConfig of the old one |
| PeakOverride.PeakConfigTable.ApplyGroup | Common/Data/ResourceManager.cs:437-463 | the table becomes LevelsAfterStages of the group's stages |
| PeakOverride.PeakConfigTable.ApplyStageOverride | Common/Data/ResourceManager.cs:441-462 | the table becomes StageStep of the stage |
| ResourceCache.Compress | Common/Data/ResourceCache.cs:15-46 | empty iff empty input; below 1024 bytes flag 0 then the data; otherwise flag 1 then the deflated data, or flag 0 then the data if deflating throws |
| ResourceCache.Decompress | Common/Data/ResourceCache.cs:48-72 | empty stays empty; flag 0 drops the flag; a failed inflate returns the input |
| ResourceCache.ShortRoundTrip | Common/Data/ResourceCache.cs:22-28 | blobs under 1024 bytes come back unchanged whatever the compressor does |
| ResourceCache.RoundTrip | Common/Data/ResourceCache.cs:15-72 | every blob comes back when inflate undoes deflate |
| ResourceCache.GetPriority | Common/Data/ResourceCache.cs:123-130 | in 0..4; 4 iff readable, writable and not ignored; 0 iff none of these |
| ResourceCache.DedupNames | Common/Data/ResourceCache.cs:102-115 | one entry per distinct name, and exactly the names that occur |
| ResourceCache.DedupKeepsBest | Common/Data/ResourceCache.cs:107-114 | the kept property has strictly higher priority than every earlier one of its name and no lower than every later one, so the first wins ties |
| ResourceCache.ResolvedOnePerName | Common/Data/ResourceCache.cs:99-121 | the result has one property per name, the same names as the input, each a kept one |
| ResourceCache.CreateProperties | Common/Data/ResourceCache.cs:99-121 | the loop yields exactly Resolved of the input |
| Activity.Normalized | Common/Data/Custom/ActivityConfig.cs:37-40 | activity clamped at 0; panel, begin and end default when not positive, else kept |
| Activity.KeyInjective | Common/Data/Custom/ActivityConfig.cs:43 | equal keys mean equal (activity, panel) |
| Activity.KeyIff | Common/Data/Custom/ActivityConfig.cs:43-44 | keys are equal exactly for rows of the same pair |
| Activity.ModulesOf | Common/Data/Custom/ActivityConfig.cs:59-64 | no modules only when the activity id is not positive |
| Activity.ItemsOf | Common/Data/Custom/ActivityConfig.cs:55-73 | one row per module, each with the entry's panel, begin and end, defaults applied |
| Activity.EntryWithoutModules | Common/Data/Custom/ActivityConfig.cs:63-64 | an entry without modules and a positive id contributes one row for its id |
| Activity.NormalizedDistinct | Common/Data/Custom/ActivityConfig.cs:37-45 | no two kept rows share a pair, and every kept row has positive activity, panel, begin and end |
| Activity.NormalizedKeepsFirst | Common/Data/Custom/ActivityConfig.cs:43-45 | a row is kept iff it is the first with an activity and its key |
| Activity.ScheduleTakesPrecedence | Common/Data/Custom/ActivityConfig.cs:48-50 | an entry row whose pair is already scheduled is never kept |
| Activity.ActivityConfig.Normalize | Common/Data/Custom/ActivityConfig.cs:30-77 | ScheduleData becomes NormalizedSchedule of the old rows and entries |
| Activity.CollectModules | Common/Data/Custom/ActivityConfig.cs:59-64 | the module list is built exactly as ModulesOf |
| Activity.AddOneStep | Common/Data/Custom/ActivityConfig.cs:35-46 | one row through AddOne |
| Console.CharWidth | Common/Util/ICommand.cs:321-324 | 1 iff the character is at most 0x7F, else 2 |
| Console.WidthBounds | Common/Util/ICommand.cs:79-80 | a string is between one and two columns per character, exactly one per character iff all ASCII |
| Console.WidthAppend | Common/Util/ICommand.cs:79-80 | the width of a concatenation is the sum of the widths |
| Console.CheckCommandValid | Common/Util/ICommand.cs:309-316 | valid iff no character is one of @ # $ % & *; empty is valid |
| Console.CheckCommandValidAppend | Common/Util/ICommand.cs:309-316 | a concatenation is valid iff both parts are |
| Console.CommandOf | Common/Util/ICommand.cs:152 | a leading '/' is dropped and the rest trimmed; otherwise the line itself |
| Console.SlashCommandTrimmed | Common/Util/ICommand.cs:152 | a slash command neither starts nor ends with white space and is shorter than the line |
| Console.HistoryAfter | Common/Util/ICommand.cs:146-148 | at most ten entries, the new line last, the oldest dropped only when full |
| Console.Insert | Common/Util/ICommand.cs:263 | one longer, the character at the cursor, the rest shifted |
| Console.Delete | Common/Util/ICommand.cs:172-173 | one shorter, the character before the cursor removed |
| Console.DeleteUndoesInsert | Common/Util/ICommand.cs:167-173 | backspace after typing gives the input back |
| Console.InsertUndoesDelete | Common/Util/ICommand.cs:255-264 | retyping the erased character gives the input back |
| Console.InsertKeepsControlOut | Common/Util/ICommand.cs:248 | the input stays free of control characters iff the typed one is not one |
| Console.ConsoleEditor.constructor | Common/Util/ICommand.cs:134-161 | empty input, cursor 0, no history, index −1, valid |
| Console.ConsoleEditor.HandleEnter | Common/Util/ICommand.cs:134-161 | blank input changes nothing; otherwise history grows (max ten), index = count, input cleared, cursor 0, valid, CommandOf run |
| Console.ConsoleEditor.HandleBackspace | Common/Util/ICommand.cs:163-178 | no-op at cursor 0; otherwise Delete and cursor − 1, history kept |
| Console.ConsoleEditor.HandleUpArrow | Common/Util/ICommand.cs:180-196 | no-op without history or at index ≤ 0; otherwise the previous entry with the cursor at its end |
| Console.ConsoleEditor.HandleDownArrow | Common/Util/ICommand.cs:198-222 | no-op past the end; moving onto the end clears the input; otherwise the next entry |
| Console.ConsoleEditor.HandleLeftArrow | Common/Util/ICommand.cs:224-232 | cursor one left unless at 0, input kept |
| Console.ConsoleEditor.HandleRightArrow | Common/Util/ICommand.cs:234-242 | cursor one right unless at the end, input kept |
| Console.ConsoleEditor.HandleInput | Common/Util/ICommand.cs:255-268 | Insert at the cursor, cursor + 1, input one longer |
| Console.ConsoleEditor.HandleKey | Common/Util/ICommand.cs:244-253 | control characters and over-wide input are dropped; otherwise HandleInput, and the input stays narrower than the line |
| Console.Dispatch | Common/Util/ICommand.cs:282-305 | per key: Enter on a blank line does nothing, on a non-blank line yields its command, appends it to the history (dropping the oldest entry when full) and clears the line; Backspace deletes before the cursor; arrows move the cursor within the line or walk the history (Down past the newest entry clears the line); a printable key of width 1 or 2 is inserted at the cursor; anything else changes nothing |
| Handbook.Placeholder | Program/HandbookGenerator/HandbookGenerator.cs:383 | the key in square brackets |
| Handbook.PlaceholderInjective | Program/HandbookGenerator/HandbookGenerator.cs:383 | different keys have different placeholders |
| Handbook.GetNameFromTextMap | Program/HandbookGenerator/HandbookGenerator.cs:378-384 | the primary text if present, else the fallback text, else the placeholder |
| Handbook.LookupIsOverlay | Program/HandbookGenerator/HandbookGenerator.cs:378-384 | the lookup is the fallback map overlaid by the primary one |
| Handbook.NameAfter | Program/HandbookGenerator/HandbookGenerator.cs:291 | the name changes only when names are set and a real text was found, never to the placeholder (avatars: 304) |
| Handbook.NameAfterIdempotent | Program/HandbookGenerator/HandbookGenerator.cs:291 | naming twice is naming once |
| Handbook.GenerateNamed | Program/HandbookGenerator/HandbookGenerator.cs:282-306 | one line per config with its looked-up name, each config renamed as NameAfter says |
| Handbook.ReadEntryText | Program/HandbookGenerator/HandbookGenerator.cs:244-251 | the element's text is its last string "Text" property, none without one |
| Handbook.EntryPairs | Program/HandbookGenerator/HandbookGenerator.cs:259-261 | no pair without a non-empty text; at most two, Hash64 before Hash |
| Handbook.InsertElement | Program/HandbookGenerator/HandbookGenerator.cs:259-261 | existing keys are never overwritten |
| Handbook.ArrayTextMapIsFirstWins | Program/HandbookGenerator/HandbookGenerator.cs:200-262 | the loaded map is the first-wins map of all pairs in order |
| Handbook.ArrayTextMapNonEmpty | Program/HandbookGenerator/HandbookGenerator.cs:259 | no loaded text is empty |
| Handbook.ArrayTextMapFirstWins | Program/HandbookGenerator/HandbookGenerator.cs:260-261 | a hash's text is the text of the first pair naming it |
| Handbook.ArrayTextMapKeys | Program/HandbookGenerator/HandbookGenerator.cs:260-261 | the keys are exactly the hashes some pair names |
| Handbook.ReadElement | Program/HandbookGenerator/HandbookGenerator.cs:209-257 | the reader loop yields exactly ReadEntry |
| Handbook.LoadArray | Program/HandbookGenerator/HandbookGenerator.cs:186-264 | the token walk, stepping into a nested array element and stopping at its end, yields exactly the first-wins map of the walked elements |
| Handbook.LoadTextMapDictionary | Program/HandbookGenerator/HandbookGenerator.cs:156-270 | the legacy map when it parses non-empty; otherwise the object or array stream; none for an array the reader rejects (the catch at 266-269) and for other layouts |
| Handbook.Walked | Program/HandbookGenerator/HandbookGenerator.cs:200-203 | the elements read as entries never include an array: a nested array is stepped into |
| Handbook.WalkedFlat | Program/HandbookGenerator/HandbookGenerator.cs:200-203 | an array without nested arrays is read element by element to its end |
| Handbook.NestedArrayEndsWalk | Program/HandbookGenerator/HandbookGenerator.cs:200-203 | a nested array element ends the walk: the elements before it and its own members are read, nothing after it |
| Handbook.EmptyLegacyIgnored | Program/HandbookGenerator/HandbookGenerator.cs:164-165 | an empty legacy map is the same as none |
| Handbook.InsertBuffCount | Program/HandbookGenerator/HandbookGenerator.cs:344 | inserting adds exactly that buff |
| Handbook.InsertBuffSorted | Program/HandbookGenerator/HandbookGenerator.cs:344 | inserting into a sorted listing keeps it sorted |
| Handbook.SortBuffs | Program/HandbookGenerator/HandbookGenerator.cs:344 | the listing has exactly as many entries as there are buffs (its order and that it is a permutation are proved in SortBuffsCorrect) |
| Handbook.SortBuffsCorrect | Program/HandbookGenerator/HandbookGenerator.cs:344 | the listing is ordered by ID then Lv and is a permutation of the buffs |
| Handbook.GenerateRogueBuff | Program/HandbookGenerator/HandbookGenerator.cs:341-346 | one line per buff in sorted order |

## Left out

- I/O, async and locks: file reads and writes, packets, `await`, the console lock, `RedrawInput`'s terminal output, `ListenConsole`'s key reading and `IsConsoleAvailable`. Each operation is one sequential step. The console's availability and buffer width are inputs.
- The DeflateStream payload is an opaque function. Only the one-byte framing around it is modelled.
- Base64 and protobuf in SaveInstance/ResurrectInstance: the stored blob is the record it decodes to. A malformed blob, whose decoding throws in the source, is not modelled.
- The collaborators are inputs: scene entry, monster counts, lineup contents and Mp, avatar HP, the owned roster, BuildValidLineup and SanitizeLineup, head-frame setting, and inventory grants (returned as items). The player position and rotation are inputs always present, so the null Pos/Rot that the peak launch stores for a player without a position (ChallengePeakManager.cs:323-324) is not modelled.
- `ChallengeHistoryData.SetStars` and `GetTotalStars`: their bodies are not part of this model, so they are parameters. As a result, "stars never decrease" in the history is not proved.
- `ChallengeGroupReward.HasTakenReward` and `SetTakenReward` are modelled as a set of taken star counts per group.
- Protobuf view builders: ToProto and ToStageInfo, the stage-monster lists, `RebuildChallengeMonsters`, and the TakenStarRewards list of BuildGroup. ExpandTakenStars itself is modelled.
- MoveTo, EnterScene, and the entity loader's Load/UnloadGroup effects of NextPhase, other than the new start point.
- `FriendRecordData.AddAndRemoveOld` and the friend development list.
- ChallengePeakInstance's own battle handling. Only its record and the peak manager are modelled.
- Peak.ChallengePeakManager.StartChallenge: the BuildValidLineup and SanitizeLineup collaborators are functions given as inputs. The lineup's contents in the player's lineup manager are not modelled.
- The resolution of an unknown peak record type via `dynamic` in SaveBattleRecord: the peak variant of the record subject stands for it.
- Handbook: GenerateCmd (I18N), the "not available" stub generators, the mission and stage listings beyond GenerateNamed, and WriteToFile. The object-layout JSON deserialiser and the legacy dictionary parse are inputs.
- Handbook.LoadArray: a syntax error is an input (the malformed layout); the source's reader is lazy, so an error lying after the point where the walk stops still returns the map, which the model does not distinguish.
- Console: characters are Unicode scalar values; the source works on UTF-16 code units, so a surrogate pair typed as two keys, 4 columns wide and erased half at a time, is not modelled.
- Handbook.SortBuffs: `OrderBy`/`ThenBy` stability is not stated. Only the order and the permutation are proved.
- Activity.ActivityConfig.Normalize: the source rewrites each schedule item's fields in place. The model builds new values, so aliasing of those items is not captured.
- ResourceCache: SaveCache/LoadCache, CreateProperty and HasJsonNameConflict, which are reflection and file I/O.
- The static game-data tables and constants are read-only inputs.
