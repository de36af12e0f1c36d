# cRPG match balancing, clan-group rating and damage tables in Dafny

This project models three pieces of the cRPG Bannerlord mod and proves properties about them.

**Bot balancing in `CrpgSpawningBehaviorBase`** (module `Spawning`).
- A player's equipment value is the sum of their equipped items' values plus 10000.
- When a spawn session starts, every team of the mission stores three numbers:
  - the clamped sum of its relevant players' values;
  - a variance-corrected average unit value;
  - its quota of the configured bot budget, which shrinks as the team's own average grows.
- The session start then clears the last spawn info of every peer that has no agent.
- In Captain mode, while a round is in progress, every spawning player gets a share of their team's quota. The share is never smaller for a weaker-equipped player.
- `SpawnBotAgents` tops the attacker and defender teams up to their configured bot counts.
- `DoesEquipmentContainWeapon` checks the weapon slots.
- The behaviour is a class, `Spawning.CrpgSpawningBehavior`:
  - its dictionaries are `map` fields;
  - the network peers are a `seq` field;
  - the agents it asks the engine to spawn are logged in a `spawned` sequence.
- Shared arithmetic lives in module `Numeric`: sums, the truncating `(int)` cast, and Cauchy-Schwarz.

**Clan-group team rating in `RatingAnalysisTest`** (module `ClanRating`).
- A side's roster is sorted by clan tag, descending, and split into clan groups.
- The side is rated as the sum over groups of group weight × (1 + penalty factor × group size).
- The attacker is predicted to win exactly when its rating is strictly higher.
- The grouping is specified by `ClanRating.Runs`: the maximal runs of equal non-null tags in the sorted roster. An untagged player always forms a run of their own.
- The dictionary-based `SplitUsersIntoClanGroups` is proved to compute exactly those runs.

**Damage model tables in `CrpgAgentApplyDamageModel`** (module `ApplyDamage`).
- The four body-part multiplier tables and the missile/human dispatch between them.
- The check that zeroes damage when a cRPG character hits a VIP bot.
- The guard clauses of `DecideCrushedThrough`.

Modelling conventions:
- `float` and `double` values are exact reals, and C#'s `(int)` cast is truncation toward zero (`Numeric.Trunc`).
- Integers are unbounded. The balancing sums stay far below 2^31 for real rosters, so no wrap-around is modelled.
- A `Team` is a `TeamId`.
- `Mission.Current.Teams` is a fixed sequence of distinct ids holding the spectator, attacker and defender teams.
- Things the code reads from outside become parameters or constants:
  - item values (`MBObjectManager`);
  - the bot budget and configured bot counts;
  - `IsRoundInProgress()` and `IsPlayerAllowedToSpawn`;
  - the number of bots still alive per team.
- The team test in `SpawnBotAgents` (`team.Side == BattleSideEnum.Attacker`) is written as `team == attackerTeam`, because the attacker team is the one whose side is the attacker.
- String comparison on clan tags uses ordinal (code unit) order, not the culture-sensitive default comparer. Only the facts that it is a total order with null first are used.
- `StartsWith` is ordinal.
- The lists that `SplitUsersIntoClanGroups` keeps in its dictionary are aliased into the result list. The model stores the index of the group in the result instead.

One point where the source differs from the description of its formula:
- `ComputeTeamAverageUnitValue` returns the raw, unclamped sum when a team has fewer than two relevant players. That is 0 for an empty or spectator team, and the lone player's value for a one-player team.
- The clamp to at least 1 applies only to the variance-corrected branch.
- The model follows the code.

## Model

| member | source | states |
|---|---|---|
| Spawning.EquipmentValue | src/Module.Server/Common/CrpgSpawningBehaviorBase.cs:402-406 | a peer without a cRPG component or without a loaded user is valued exactly 10000 |
| Spawning.EquipmentValueAtLeastNakedProtection | src/Module.Server/Common/CrpgSpawningBehaviorBase.cs:402-406 | with non-negative item values every equipment value is at least 10000 |
| Spawning.IsNetworkPeerRelevant | src/Module.Server/Common/CrpgSpawningBehaviorBase.cs:413-425 | the relevance filter: synchronized, on a team other than the spectators, with a cRPG component whose user is loaded; no contract of its own, its consequences are stated by `Spawning.EligibleIsRelevant` and `Spawning.SpectatorTeamHasNoRelevantPeers` |
| Spawning.IsEligibleToSpawn | src/Module.Server/Common/CrpgSpawningBehaviorBase.cs:74-82 | the spawn filter of `SpawnAgents`; no contract of its own, `Spawning.EligibleIsRelevant` states exactly when it holds |
| Spawning.EligibleIsRelevant | src/Module.Server/Common/CrpgSpawningBehaviorBase.cs:74-82 | a peer passes the spawn filter exactly when it is relevant, controls no agent and is allowed to spawn; a relevant peer is on a team other than the spectators |
| Spawning.TeamRelevantValues | src/Module.Server/Common/CrpgSpawningBehaviorBase.cs:378-383 | the equipment values of a team's relevant players, in roster order; no contract of its own, `Spawning.TeamValuesAtLeastNakedProtection` and `Spawning.SpectatorTeamHasNoRelevantPeers` state its properties |
| Spawning.SpectatorTeamHasNoRelevantPeers | src/Module.Server/Common/CrpgSpawningBehaviorBase.cs:413-425 | relevance excludes spectators, so the spectator team has no relevant values at all |
| Spawning.TeamValuesAtLeastNakedProtection | src/Module.Server/Common/CrpgSpawningBehaviorBase.cs:378-383 | every relevant teammate's value is at least 10000 |
| Spawning.TeamSumOfEquipmentValue | src/Module.Server/Common/CrpgSpawningBehaviorBase.cs:378-385 | a team's stored sum is always at least 1 |
| Spawning.TeamSumOfEquipmentValueCases | src/Module.Server/Common/CrpgSpawningBehaviorBase.cs:378-385 | the clamp binds only for a team without relevant players (sum 1); otherwise the sum is the plain sum of values, at least 10000 per player |
| Spawning.AverageUnitValue | src/Module.Server/Common/CrpgSpawningBehaviorBase.cs:387-400 | 0 for an empty team, the lone player's value for one player, at least 1 for two or more |
| Spawning.AverageNotAboveMean | src/Module.Server/Common/CrpgSpawningBehaviorBase.cs:396-399 | with two or more players the corrected average never exceeds the plain mean S/n |
| Spawning.AverageOfEqualValues | src/Module.Server/Common/CrpgSpawningBehaviorBase.cs:396-399 | when all players have the same value v the corrected average is v |
| Numeric.TruncQuotientIsCast | src/Module.Server/Common/CrpgSpawningBehaviorBase.cs:53 | the float quotient cast to int is the integer quotient rounded toward zero |
| Spawning.TeamQuota | src/Module.Server/Common/CrpgSpawningBehaviorBase.cs:49-54 | one team's quota, the float quotient cast to int; no contract of its own, `Spawning.TeamQuotaAsDivision` and `Spawning.TeamQuotaBounds` state what it computes |
| Spawning.Quotas | src/Module.Server/Common/CrpgSpawningBehaviorBase.cs:49-54 | one quota per team of the mission, in team order; its budget properties are stated by `Spawning.QuotasWithinBudget` |
| Spawning.TeamQuotaAsDivision | src/Module.Server/Common/CrpgSpawningBehaviorBase.cs:49-54 | with non-negative averages a team's quota is the integer quotient B × (sum of the other teams' averages) / ((N-2) × sum of all averages) |
| Spawning.TeamQuotaBounds | src/Module.Server/Common/CrpgSpawningBehaviorBase.cs:49-54 | every team's quota lies between 0 and the budget |
| Spawning.QuotasWithinBudget | src/Module.Server/Common/CrpgSpawningBehaviorBase.cs:49-54 | when the spectator average is 0, the quotas of the other teams together never exceed the budget and fall short of it by at most N-2, one less than the number of playing teams, since each truncation loses less than one bot |
| Spawning.EqualAveragesEqualQuotas | src/Module.Server/Common/CrpgSpawningBehaviorBase.cs:51-53 | two teams with equal averages get equal quotas |
| Spawning.QuotaRoundingLossAttained | src/Module.Server/Common/CrpgSpawningBehaviorBase.cs:51-53 | the lower bound is reached: a budget of 100 with averages 0, 10 and 20 gives quotas 100, 66 and 33, so the playing teams get 99 bots |
| Spawning.StrongerTeamNoMoreBots | src/Module.Server/Common/CrpgSpawningBehaviorBase.cs:51-53 | a team with a higher average never gets a larger quota |
| Spawning.SessionQuotasWithinBudget | src/Module.Server/Common/CrpgSpawningBehaviorBase.cs:43-54 | for the averages computed from a roster, the playing teams' quotas sum to at most the budget and to at least the budget minus (N-2) |
| Spawning.PeerBotShare | src/Module.Server/Common/CrpgSpawningBehaviorBase.cs:176-185 | a player's share of the team quota, the whole quota for a lone player; no contract of its own, `Spawning.ShareBounds`, `Spawning.ShareNonIncreasingInValue` and `Spawning.SharesWithinQuota` state its properties |
| Spawning.ShareNonIncreasingInValue | src/Module.Server/Common/CrpgSpawningBehaviorBase.cs:176-185 | holding the rest fixed, a player's bot share never grows with their equipment value |
| Spawning.ShareBounds | src/Module.Server/Common/CrpgSpawningBehaviorBase.cs:176-185 | a share of a non-negative quota, for a value within the team sum, lies between 0 and the quota |
| Spawning.SharesWithinQuota | src/Module.Server/Common/CrpgSpawningBehaviorBase.cs:172-185 | the shares of all relevant teammates together never exceed the team's quota |
| Spawning.ResetPeer | src/Module.Server/Common/CrpgSpawningBehaviorBase.cs:341-344 | clears the last spawn info of a peer with a cRPG component and no agent; no contract of its own, `Spawning.ResetKeepsTeamValues` and `Spawning.CrpgSpawningBehavior.ResetSpawnTeams` state its effect |
| Spawning.ResetKeepsTeamValues | src/Module.Server/Common/CrpgSpawningBehaviorBase.cs:336-346 | clearing spawn info changes no team's relevant values, so the stored sums stay valid |
| Spawning.CrpgSpawningBehavior.RequestStartSpawnSession | src/Module.Server/Common/CrpgSpawningBehaviorBase.cs:41-58 | every team of the mission gets its sum, average and quota from the roster as it was; peers with a cRPG component and no agent lose their last spawn info, all others are unchanged |
| Spawning.CrpgSpawningBehavior.StoreTeamAggregates | src/Module.Server/Common/CrpgSpawningBehaviorBase.cs:43-47 | the first loop stores, for exactly the mission's teams, each team's sum and average |
| Spawning.CrpgSpawningBehavior.StoreTeamQuotas | src/Module.Server/Common/CrpgSpawningBehaviorBase.cs:49-54 | the second loop stores each team's quota, computed from the averages the first loop stored, taken in team order |
| Spawning.CrpgSpawningBehavior.ResetSpawnTeams | src/Module.Server/Common/CrpgSpawningBehaviorBase.cs:336-346 | exactly the peers with a cRPG component and no controlled agent lose their last spawn info; the roster's length and every other field are unchanged |
| Spawning.CrpgSpawningBehavior.CaptainBotShare | src/Module.Server/Common/CrpgSpawningBehaviorBase.cs:171-185 | the share of the peer at a given index, read from the stored sum and quota of its team; no contract of its own, `Spawning.CrpgSpawningBehavior.PeerSpawnsCounts` states how many bots it spawns |
| Spawning.CrpgSpawningBehavior.PeerSpawns | src/Module.Server/Common/CrpgSpawningBehaviorBase.cs:169-190 | the agents one peer's iteration spawns; no contract of its own, `Spawning.CrpgSpawningBehavior.PeerSpawnsCounts` and `Spawning.CrpgSpawningBehavior.SpawnAgentsCounts` count them |
| Spawning.CrpgSpawningBehavior.SpawnAgentsCounts | src/Module.Server/Common/CrpgSpawningBehaviorBase.cs:70-190 | after the loop every eligible peer has exactly one agent on its team and, in a Captain round, max(share, 0) bots it owns; an ineligible peer has none |
| Spawning.CrpgSpawningBehavior.SpawnAgents | src/Module.Server/Common/CrpgSpawningBehaviorBase.cs:70-190 | the agents spawned are the per-peer spawns of every peer, in peer order |
| Spawning.CrpgSpawningBehavior.SpawnPeerAgents | src/Module.Server/Common/CrpgSpawningBehaviorBase.cs:169-190 | one peer's iteration spawns the player's agent and then, in a Captain round, as many owned bots as its share |
| Spawning.CrpgSpawningBehavior.TeamTopUp | src/Module.Server/Common/CrpgSpawningBehaviorBase.cs:289-307 | the unowned bots one team's iteration spawns; no contract of its own, `Spawning.CrpgSpawningBehavior.TeamTopUpCount` counts them |
| Spawning.CrpgSpawningBehavior.BotTopUp | src/Module.Server/Common/CrpgSpawningBehaviorBase.cs:283-307 | the bots `SpawnBotAgents` spawns, nothing when both configured counts are at most 0; no contract of its own, `Spawning.CrpgSpawningBehavior.BotTopUpCount` counts them per team |
| Spawning.TeamPlayerCount | src/Module.Server/Common/CrpgSpawningBehaviorBase.cs:297 | the number of synchronized peers on a team; no contract of its own, it enters the count stated by `Spawning.CrpgSpawningBehavior.BotTopUpCount` |
| Spawning.CrpgSpawningBehavior.BotTopUpCount | src/Module.Server/Common/CrpgSpawningBehaviorBase.cs:283-309 | no bots at all when both configured counts are at most 0; otherwise max(0, configured - alive bots - players) unowned bots for the attacker and for the defender, and none for any other team |
| Spawning.CrpgSpawningBehavior.SpawnBotAgents | src/Module.Server/Common/CrpgSpawningBehaviorBase.cs:278-310 | the bots spawned are the top-ups of the teams in mission order, or nothing when both configured counts are at most 0 |
| Spawning.CrpgSpawningBehavior.SpawnTeamBots | src/Module.Server/Common/CrpgSpawningBehaviorBase.cs:289-308 | one team's iteration spawns that team's top-up of unowned bots |
| Spawning.CrpgSpawningBehavior.DoesEquipmentContainWeapon | src/Module.Server/Common/CrpgSpawningBehaviorBase.cs:323-334 | true exactly when one of the slots Weapon0 to ExtraWeaponSlot is not empty |
| ClanRating.InsertByTag | test/Module.UTest/Rating/RatingAnalysisTest.cs:55 | inserts a player before the first one with a smaller tag; no contract of its own, `ClanRating.InsertByTagSorted` and `ClanRating.InsertByTagPermutes` state that it keeps the order and the players |
| ClanRating.SortByTagDescending | test/Module.UTest/Rating/RatingAnalysisTest.cs:55 | `OrderByDescending` on the clan tag as an insertion sort; no contract of its own, `ClanRating.SortByTagDescendingCorrect` states that it sorts and permutes |
| ClanRating.SortByTagDescendingCorrect | test/Module.UTest/Rating/RatingAnalysisTest.cs:55 | the sorted roster is in descending tag order, with null tags last, and is a permutation of the roster |
| ClanRating.Runs | test/Module.UTest/Rating/RatingAnalysisTest.cs:57-70 | the maximal runs of equal non-null tags, each untagged player alone; its own contract bounds the number of runs by the roster size and gives a non-empty roster at least one run, and `ClanRating.RunsFlatten`, `ClanRating.RunsAreClanGroups`, `ClanRating.RunsOrdered` and `ClanRating.RunsCount` state the grouping |
| ClanRating.RunsFlatten | test/Module.UTest/Rating/RatingAnalysisTest.cs:57-70 | reading the groups one after another gives back the sorted roster, so every player is in exactly one group |
| ClanRating.RunsAreClanGroups | test/Module.UTest/Rating/RatingAnalysisTest.cs:57-70 | every group is non-empty with a single tag, and an untagged player is alone in its group |
| ClanRating.RunsOrdered | test/Module.UTest/Rating/RatingAnalysisTest.cs:55-70 | for a sorted roster the groups come in descending tag order and no two groups share a clan tag |
| ClanRating.RunsCount | test/Module.UTest/Rating/RatingAnalysisTest.cs:57-70 | for a sorted roster there is one group per distinct clan tag plus one per untagged player |
| ClanRating.ClanGroups | test/Module.UTest/Rating/RatingAnalysisTest.cs:50-74 | the runs of the sorted roster; no contract of its own, `ClanRating.ClanGroupsPartition` and `ClanRating.SplitUsersIntoClanGroups` state what it is |
| ClanRating.ClanGroupsPartition | test/Module.UTest/Rating/RatingAnalysisTest.cs:50-74 | the clan groups of a roster partition it: a permutation of it, single-tag groups, untagged players alone, no clan split, as many groups as distinct tags plus untagged players |
| ClanRating.UntaggedGroupsLast | test/Module.UTest/Rating/RatingAnalysisTest.cs:55-62 | every group after an untagged singleton is another untagged singleton |
| ClanRating.SplitUsersIntoClanGroups | test/Module.UTest/Rating/RatingAnalysisTest.cs:50-74 | the dictionary-based scan returns exactly the runs of the sorted roster |
| ClanRating.AddToClanGroup | test/Module.UTest/Rating/RatingAnalysisTest.cs:57-70 | one step of the scan keeps the groups equal to the runs so far, with every filed tag pointing at its group |
| ClanRating.WeightSumSort | test/Module.UTest/Rating/RatingAnalysisTest.cs:55 | sorting the roster does not change its total weight |
| ClanRating.GroupRating | test/Module.UTest/Rating/RatingAnalysisTest.cs:44 | one group's weight sum times (1 + factor × group size); no contract of its own, `ClanRating.PenalizedRatingMonotone` states its growth in the factor |
| ClanRating.GroupsRating | test/Module.UTest/Rating/RatingAnalysisTest.cs:42-45 | the sum of the groups' ratings; no contract of its own, `ClanRating.GroupsRatingWithoutPenalty` states its value without penalty |
| ClanRating.PenalizedRating | test/Module.UTest/Rating/RatingAnalysisTest.cs:38-48 | the rating of the roster's clan groups; no contract of its own, `ClanRating.ClanGroupPenalizedTeamRater`, `ClanRating.PenalizedRatingWithoutPenalty` and `ClanRating.PenalizedRatingMonotone` state it |
| ClanRating.ClanGroupPenalizedTeamRater | test/Module.UTest/Rating/RatingAnalysisTest.cs:38-48 | the accumulated rating is the penalized rating of the roster's clan groups |
| ClanRating.GroupsRatingWithoutPenalty | test/Module.UTest/Rating/RatingAnalysisTest.cs:42-45 | with penalty factor 0 the groups' rating is the total weight of their players |
| ClanRating.PenalizedRatingWithoutPenalty | test/Module.UTest/Rating/RatingAnalysisTest.cs:38-48 | with penalty factor 0 a side's rating is the plain sum of its players' weights |
| ClanRating.PenalizedRatingMonotone | test/Module.UTest/Rating/RatingAnalysisTest.cs:44 | with non-negative weights the rating never decreases as the penalty factor grows, and for a factor of at least 0 it is at least the plain weight sum |
| ClanRating.TeamRaterPrediction | test/Module.UTest/Rating/RatingAnalysisTest.cs:33-36 | the attackers are predicted exactly when their rating is strictly higher; a tie predicts the defenders |
| ClanRating.PredictionWithoutPenalty | test/Module.UTest/Rating/RatingAnalysisTest.cs:23-36 | without penalty the prediction compares the plain weight sums |
| ApplyDamage.HeadMultiplier | src/Module.Server/Common/Models/CrpgAgentApplyDamageModel.cs:165-178 | the inner switch on the damage type that every table applies to the head and neck (also at lines 206-216, 243-256 and 284-297), with the pierce value as parameter; no contract of its own, the tables' contracts and `ApplyDamage.HeadPierceMultiplier` state its values |
| ApplyDamage.RangedHumanMultiplier | src/Module.Server/Common/Models/CrpgAgentApplyDamageModel.cs:157-196 | every entry lies in [0.75, 2]; torso parts give 0.9, arms and legs 0.75 |
| ApplyDamage.RangedNonHumanMultiplier | src/Module.Server/Common/Models/CrpgAgentApplyDamageModel.cs:198-233 | every entry lies in [0.75, 2]; every torso and limb part gives 0.8 |
| ApplyDamage.MeleeHumanMultiplier | src/Module.Server/Common/Models/CrpgAgentApplyDamageModel.cs:235-274 | every entry lies in [0.75, 2]; torso and arms give 1, legs 0.8 |
| ApplyDamage.MeleeNonHumanMultiplier | src/Module.Server/Common/Models/CrpgAgentApplyDamageModel.cs:276-313 | every entry lies in [0.75, 2]; every torso and limb part gives 0.8 |
| ApplyDamage.GetDamageMultiplierForBodyPart | src/Module.Server/Common/Models/CrpgAgentApplyDamageModel.cs:145-155 | whatever the table, the result lies in [0.75, 2]; `NoBodyPart` gives 1; head or neck gives 2 for an invalid damage type and 1.2 for cut or blunt |
| ApplyDamage.HeadPierceMultiplier | src/Module.Server/Common/Models/CrpgAgentApplyDamageModel.cs:145-313 | a pierce to head or neck gives 1.7 for a ranged hit on a human, 1.2 for a ranged hit on a non-human, 1.3 in melee |
| ApplyDamage.BodyMultipliers | src/Module.Server/Common/Models/CrpgAgentApplyDamageModel.cs:145-313 | the torso and limb multipliers through the dispatch: 0.8 for non-humans, the ranged or melee human values otherwise |
| ApplyDamage.DispatchDistinguishesTables | src/Module.Server/Common/Models/CrpgAgentApplyDamageModel.cs:145-155 | the four flag combinations reach four different tables: a chest hit tells the human tables apart from each other and from the non-human ones, and a head pierce tells ranged from melee for non-humans |
| ApplyDamage.IsPlayerCharacterAttackingVipBot | src/Module.Server/Common/Models/CrpgAgentApplyDamageModel.cs:390-402 | only a cRPG attacker hitting a victim character whose id is at least as long as the VIP prefix can count as a VIP hit |
| ApplyDamage.CalculateDamage | src/Module.Server/Common/Models/CrpgAgentApplyDamageModel.cs:49-52 | a VIP hit deals 0 damage; any other hit keeps the otherwise computed damage |
| ApplyDamage.VipBotIds | src/Module.Server/Common/Models/CrpgAgentApplyDamageModel.cs:390-402 | a victim id starting with "crpg_dtv_vip_" takes 0 damage from a cRPG attacker and full damage from any other |
| ApplyDamage.NonVipHitsKeepDamage | src/Module.Server/Common/Models/CrpgAgentApplyDamageModel.cs:390-402 | a non-cRPG attacker or a victim without a character never triggers the VIP rule |
| ApplyDamage.NonVipIdKeepsDamage | src/Module.Server/Common/Models/CrpgAgentApplyDamageModel.cs:394-396 | a victim id that differs from the prefix at some position keeps its damage |
| ApplyDamage.WieldedWeapon | src/Module.Server/Common/Models/CrpgAgentApplyDamageModel.cs:351-359 | the off-hand item is used when one is wielded; with neither hand wielding there is no weapon |
| ApplyDamage.DecideCrushedThrough | src/Module.Server/Common/Models/CrpgAgentApplyDamageModel.cs:351-377 | a crush-through needs a wielded weapon with CanCrushThrough, a non-passive upward swing, and a successful roll |
| ApplyDamage.MayCrushThrough | src/Module.Server/Common/Models/CrpgAgentApplyDamageModel.cs:360-367 | the guard clauses of `DecideCrushedThrough`; no contract of its own, `ApplyDamage.CrushThroughNeedsGuard` and `ApplyDamage.OffHandWeaponDecides` state what it lets through |
| ApplyDamage.CrushThroughNeedsGuard | src/Module.Server/Common/Models/CrpgAgentApplyDamageModel.cs:360-367 | when a guard fails the answer is false whatever the roll; when all pass it is exactly the roll |
| ApplyDamage.OffHandWeaponDecides | src/Module.Server/Common/Models/CrpgAgentApplyDamageModel.cs:351-364 | an off-hand weapon with CanCrushThrough lets an upward, non-passive swing reach the roll, whatever the main hand holds |

## Left out

- Agent construction in `SpawnAgents` and `SpawnBotAgent` is left out. This covers cultures, class divisions, character skills and equipment, banners, body properties, spawn frames, formations and the engine spawn calls. These are engine side effects; the model logs which agents are requested instead.
- The random bot class chosen in `SpawnBotAgents` is left out. It does not affect the count.
- `OnPeerSpawned` is left out. It assigns the player as sergeant of their formation, which is engine behaviour. It also records a new `LastSpawnInfo` (team and equipped items) on the peer's cRPG component, which is the field `ResetSpawnTeams` clears. Modelling it would need the engine's spawn callback.
- `Spawning.CrpgSpawningBehavior.SpawnAgents` changes only the `spawned` log.
  - It does not give a spawned peer its controlled agent, and does not set the peer's `LastSpawnInfo`. In the source the engine does these when the agent is created.
  - So after a spawn the model's `peers` still describe the roster as it was before. A second `SpawnAgents` on the same model state would spawn every eligible peer again, while the source's filter (no controlled agent, line 76) would skip the ones already spawned.
  - Each call is modelled on the roster snapshot it is given.
- `OnAllAgentsFromPeerSpawnedFromVisuals` (formation orders and network broadcasts) and the base class's `RequestStartSpawnSession` are left out. They are engine and network behaviour.
- `SpawnBotAgents` switching off AI ticking (`Mission.Current.AllowAiTicking = false`, line 288) is left out. It is an engine flag that nothing in the model reads.
- `Spawning.EquipmentValue` takes item values as a total function. In the source an item id that `MBObjectManager` cannot resolve gives a null item, and reading its `Value` throws at line 404. The model does not capture that exception.
- `ComputeSingleEquipmentValue` is left out: it is unused and returns 0.
- `Spawning.CrpgSpawningBehavior.RequestStartSpawnSession` requires (N-2) × (sum of averages) > 0. With fewer than three teams, or with no player on any team, the source divides by zero in float arithmetic, and the cast of the resulting infinity or NaN is not modelled.
- `Spawning.CrpgSpawningBehavior.SpawnAgents` requires a started session in a Captain round. This holds whenever the session start ran first, and it means the dictionary lookups at lines 174 and 179 never miss.
- `Spawning.TeamQuotaAsDivision`: the float quotient is exact here. With single-precision floats large sums could round differently before the cast.
- `ApplyDamage.GetDamageMultiplierForBodyPart`: the constants 0.75, 0.8, 0.9, 1.2, 1.3 and 1.7 are exact reals. The single-precision values differ from them in the last bits.
- `ClanRating.SortByTagDescendingCorrect` proves sortedness and permutation, not stability. The model's sort is stable by construction, like `OrderByDescending`, but no lemma states it.
- `ClanRating.ClanGroupPenalizedTeamRater` sums exact reals. Float rounding in the accumulation is not modelled.
- `ClanRating.ClanGroupPenalizedTeamRater` takes the penalty factor as a required argument. The source's default value of 0.05 (line 38) is not modelled; the only caller in the test passes its own factor.
- `ClanRating.TeamRaterPrediction` compares exact reals.
- The penalty sweep in the test method, `CrpgRatingAnalysis` and `AccuratePredictionPercentage` are left out. They read a log file that is not part of this model.
- Only the early return of `CalculateDamage` is modelled, as `ApplyDamage.CalculateDamage` over the otherwise computed damage. The float arithmetic after it depends on `base.CalculateDamage`, the attacker's and victim's skills, and `MathHelper`. It covers:
  - fist and kick damage scaled by strength and glove armour;
  - shield durability by shield skill, with the weapon's damage factor and the bonus against shields;
  - the multiplier for melee hits on horses, and bashes, which set the damage to 1;
  - the couched-lance reduction and the reduced swing of long two-handed polearms on horseback.
- `CalculateDefendedBlowStunMultipliers` is left out. It is a separate float computation from the shield skill.
- `ApplyDamage.DecideCrushedThrough` leaves out the power-strike and defence computation and the random roll. The roll is a boolean parameter.
