/**
  The bot balancing of cRPG's spawning behaviour (`CrpgSpawningBehaviorBase`).

  At the start of a spawn session every team gets the clamped sum of its relevant players'
  equipment values and a variance-corrected average; a shared budget of bots is then split
  between the teams in inverse proportion to each team's own average. In Captain mode, while a
  round is in progress, every spawning player receives a share of the team's quota that is
  never smaller for a weaker-equipped player. Engine calls (agent construction, spawn frames,
  cultures, banners) are replaced by a log of the agents the behaviour asks the engine to spawn.
*/
module Spawning {
  import opened Wrappers
  import opened Numeric

  /** Added to every equipment value: "protection against naked". */
  const NakedProtection := 10000

  /** Slots of a Bannerlord `Equipment`; the weapon slots run from `Weapon0` to `ExtraWeaponSlot`. */
  const Weapon0 := 0
  const ExtraWeaponSlot := 4
  const NumEquipmentSetSlots := 12

  /** A `Team` of the mission, identified by a stable id instead of object identity. */
  type TeamId = nat
  type ItemId = string

  datatype User = User(equippedItems: seq<ItemId>)
  datatype SpawnInfo = SpawnInfo(team: TeamId, equippedItems: seq<ItemId>)
  /** The `CrpgPeer` component of a network peer. */
  datatype CrpgPeer = CrpgPeer(userLoading: bool, user: Option<User>, lastSpawnInfo: Option<SpawnInfo>)
  /** The `MissionPeer` component of a network peer. */
  datatype MissionPeer = MissionPeer(team: Option<TeamId>, hasControlledAgent: bool)
  /** A `NetworkCommunicator` with the two components the behaviour reads. */
  datatype NetworkPeer = NetworkPeer(
    isSynchronized: bool,
    hasControlledAgent: bool,
    missionPeer: Option<MissionPeer>,
    crpgPeer: Option<CrpgPeer>)

  datatype GameType = FreeForAll | TeamDeathmatch | Duel | Siege | Battle | Captain | Skirmish

  /** One slot of an `Equipment`. */
  datatype EquipmentElement = EquipmentElement(item: Option<ItemId>) {
    predicate IsEmpty() { item.None? }
  }

  /** An agent the behaviour asks the engine to spawn: a player's own agent or a bot. */
  datatype AgentSpawn = PlayerAgent(peer: nat, team: TeamId) | BotAgent(team: TeamId, owner: Option<nat>)

  /** The item catalog never gives an item a negative value. */
  ghost predicate NonNegativeCatalog(itemValue: ItemId -> int)
  {
    forall item :: 0 <= itemValue(item)
  }

  function ItemValues(items: seq<ItemId>, itemValue: ItemId -> int): seq<int>
  {
    seq(|items|, i requires 0 <= i < |items| => itemValue(items[i]))
  }

  /** `ComputeEquipmentValue`: the value of the equipped items plus the naked protection. */
  function EquipmentValue(crpgPeer: Option<CrpgPeer>, itemValue: ItemId -> int): (v: int)
    ensures crpgPeer.None? || crpgPeer.value.user.None? ==> v == NakedProtection
  {
    var itemsValue :=
      if crpgPeer.Some? && crpgPeer.value.user.Some?
      then Sum(ItemValues(crpgPeer.value.user.value.equippedItems, itemValue))
      else 0;
    itemsValue + NakedProtection
  }

  lemma EquipmentValueAtLeastNakedProtection(crpgPeer: Option<CrpgPeer>, itemValue: ItemId -> int)
    requires NonNegativeCatalog(itemValue)
    ensures NakedProtection <= EquipmentValue(crpgPeer, itemValue)
  {
    if crpgPeer.Some? && crpgPeer.value.user.Some? {
      SumNonNegative(ItemValues(crpgPeer.value.user.value.equippedItems, itemValue));
    }
  }

  /** `IsNetworkPeerRelevant`: synchronized, on a playing team, with a loaded user. */
  predicate IsNetworkPeerRelevant(p: NetworkPeer, spectatorTeam: TeamId)
  {
    && p.isSynchronized
    && p.missionPeer.Some?
    && p.missionPeer.value.team.Some?
    && p.missionPeer.value.team.value != spectatorTeam
    && p.crpgPeer.Some?
    && !p.crpgPeer.value.userLoading
    && p.crpgPeer.value.user.Some?
  }

  /** The filter at the top of `SpawnAgents`'s loop: the peers that get an agent. */
  predicate IsEligibleToSpawn(p: NetworkPeer, spectatorTeam: TeamId, allowedToSpawn: bool)
  {
    !(|| !p.isSynchronized
      || p.missionPeer.None?
      || p.missionPeer.value.hasControlledAgent
      || p.missionPeer.value.team.None?
      || p.missionPeer.value.team.value == spectatorTeam
      || p.crpgPeer.None?
      || p.crpgPeer.value.userLoading
      || p.crpgPeer.value.user.None?
      || !allowedToSpawn)
  }

  /** Spawn eligibility is relevance plus "no controlled agent" plus `IsPlayerAllowedToSpawn`. */
  lemma EligibleIsRelevant(p: NetworkPeer, spectatorTeam: TeamId, allowedToSpawn: bool)
    ensures IsEligibleToSpawn(p, spectatorTeam, allowedToSpawn)
        <==> IsNetworkPeerRelevant(p, spectatorTeam) && !p.missionPeer.value.hasControlledAgent && allowedToSpawn
    ensures IsNetworkPeerRelevant(p, spectatorTeam) ==> p.missionPeer.value.team.value != spectatorTeam
  {
  }

  predicate OnTeam(p: NetworkPeer, team: TeamId)
  {
    p.missionPeer.Some? && p.missionPeer.value.team == Some(team)
  }

  /** The equipment values of the team's relevant peers, in peer order. */
  function TeamRelevantValues(peers: seq<NetworkPeer>, team: TeamId, spectatorTeam: TeamId, itemValue: ItemId -> int)
    : seq<int>
  {
    if peers == [] then []
    else
      var rest := TeamRelevantValues(peers[..|peers| - 1], team, spectatorTeam, itemValue);
      var p := peers[|peers| - 1];
      if IsNetworkPeerRelevant(p, spectatorTeam) && OnTeam(p, team)
      then rest + [EquipmentValue(p.crpgPeer, itemValue)]
      else rest
  }

  /** No peer of the spectator team is relevant, so the spectator team has no values. */
  lemma {:induction false} SpectatorTeamHasNoRelevantPeers(
    peers: seq<NetworkPeer>, spectatorTeam: TeamId, itemValue: ItemId -> int)
    ensures TeamRelevantValues(peers, spectatorTeam, spectatorTeam, itemValue) == []
  {
    if peers != [] {
      SpectatorTeamHasNoRelevantPeers(peers[..|peers| - 1], spectatorTeam, itemValue);
    }
  }

  lemma {:induction false} TeamValuesAtLeastNakedProtection(
    peers: seq<NetworkPeer>, team: TeamId, spectatorTeam: TeamId, itemValue: ItemId -> int)
    requires NonNegativeCatalog(itemValue)
    ensures forall i :: 0 <= i < |TeamRelevantValues(peers, team, spectatorTeam, itemValue)| ==>
      NakedProtection <= TeamRelevantValues(peers, team, spectatorTeam, itemValue)[i]
  {
    if peers != [] {
      TeamValuesAtLeastNakedProtection(peers[..|peers| - 1], team, spectatorTeam, itemValue);
      EquipmentValueAtLeastNakedProtection(peers[|peers| - 1].crpgPeer, itemValue);
    }
  }

  /** `ComputeTeamSumOfEquipmentValue`: the sum of the values, clamped to at least 1. */
  function TeamSumOfEquipmentValue(peers: seq<NetworkPeer>, team: TeamId, spectatorTeam: TeamId, itemValue: ItemId -> int)
    : (s: int)
    ensures 1 <= s
  {
    Max(Sum(TeamRelevantValues(peers, team, spectatorTeam, itemValue)), 1)
  }

  /**
    The clamp binds only for a team without relevant peers (sum 1); a team with players has
    exactly the sum of their values, at least 10000 per player.
  */
  lemma TeamSumOfEquipmentValueCases(peers: seq<NetworkPeer>, team: TeamId, spectatorTeam: TeamId, itemValue: ItemId -> int)
    requires NonNegativeCatalog(itemValue)
    ensures var values := TeamRelevantValues(peers, team, spectatorTeam, itemValue);
      && (values == [] ==> TeamSumOfEquipmentValue(peers, team, spectatorTeam, itemValue) == 1)
      && (values != [] ==> TeamSumOfEquipmentValue(peers, team, spectatorTeam, itemValue) == Sum(values))
      && |values| * NakedProtection <= Sum(values)
  {
    var values := TeamRelevantValues(peers, team, spectatorTeam, itemValue);
    TeamValuesAtLeastNakedProtection(peers, team, spectatorTeam, itemValue);
    SumAtLeast(values, NakedProtection);
  }

  /**
    `ComputeTeamAverageUnitValue`. With fewer than two values it is their raw, unclamped sum;
    otherwise the variance-corrected average (S - (sum of squares) / S) / (n - 1), truncated and
    clamped to at least 1, where S is the team sum the caller stored.
  */
  function AverageUnitValue(values: seq<int>, teamSum: int): (avg: int)
    requires 1 <= teamSum
    ensures |values| == 0 ==> avg == 0
    ensures |values| == 1 ==> avg == values[0]
    ensures 2 <= |values| ==> 1 <= avg
  {
    if |values| < 2 then
      assert |values| == 1 ==> Sum(values) == Sum(values[..0]) + values[0] && values[..0] == [];
      Sum(values)
    else
      Max(Trunc(CorrectedAverage(teamSum, SumOfSquares(values), |values|)), 1)
  }

  /** The variance-corrected average of two or more players never exceeds their plain mean. */
  lemma AverageNotAboveMean(values: seq<int>, teamSum: int)
    requires 2 <= |values|
    requires forall i :: 0 <= i < |values| ==> 1 <= values[i]
    requires teamSum == Sum(values)
    ensures 1 <= teamSum
    ensures AverageUnitValue(values, teamSum) as real <= teamSum as real / |values| as real
  {
    SumAtLeast(values, 1);
    CauchySchwarz(values);
    CorrectedAverageBelowMean(teamSum, SumOfSquares(values), |values|);
    MeanAtLeastOne(teamSum as real, |values| as real);
    ClampedTruncAtMost(CorrectedAverage(teamSum, SumOfSquares(values), |values|), teamSum as real / |values| as real);
  }

  /** A team of equally equipped players averages exactly their common value. */
  lemma AverageOfEqualValues(values: seq<int>, v: int)
    requires 2 <= |values|
    requires 1 <= v
    requires forall i :: 0 <= i < |values| ==> values[i] == v
    ensures |values| * v == Sum(values)
    ensures AverageUnitValue(values, Sum(values)) == v
  {
    SumOfConstant(values, v);
    CorrectedAverageOfEqual(|values|, v);
    TruncOfWhole(v);
  }

  /**
    The session quota of team `i` (`RequestStartSpawnSession`'s second loop): the budget times
    the other teams' averages over (team count - 2) times all averages, truncated.
  */
  function TeamQuota(budget: int, averages: seq<int>, i: nat): int
    requires i < |averages|
    requires 0 < (|averages| - 2) * Sum(averages)
  {
    var numerator := budget * SumExcept(averages, i);
    var denominator := (|averages| - 2) * Sum(averages);
    TruncQuotient(numerator, denominator)
  }

  function Quotas(budget: int, averages: seq<int>): (quotas: seq<int>)
    requires 0 < (|averages| - 2) * Sum(averages)
    ensures |quotas| == |averages|
  {
    seq(|averages|, i requires 0 <= i < |averages| => TeamQuota(budget, averages, i))
  }

  /** With non-negative figures a quota is integer division of the numerator by the denominator. */
  lemma TeamQuotaAsDivision(budget: int, averages: seq<int>, i: nat)
    requires i < |averages|
    requires 0 < (|averages| - 2) * Sum(averages)
    requires 0 <= budget
    requires forall k :: 0 <= k < |averages| ==> 0 <= averages[k]
    ensures 0 <= Sum(averages) - averages[i]
    ensures TeamQuota(budget, averages, i)
         == (budget * (Sum(averages) - averages[i])) / ((|averages| - 2) * Sum(averages))
  {
    SumExceptIsDifference(averages, i);
    SumNonNegative(averages[..i]);
    SumNonNegative(averages[i + 1..]);
    var e, d := SumExcept(averages, i), (|averages| - 2) * Sum(averages);
    MulLeftMonotone(0, e, budget);
    assert 0 < d;
  }

  /** Each quota lies between 0 and the whole budget. */
  lemma TeamQuotaBounds(budget: int, averages: seq<int>, i: nat)
    requires i < |averages|
    requires 0 < (|averages| - 2) * Sum(averages)
    requires 0 <= budget
    requires forall k :: 0 <= k < |averages| ==> 0 <= averages[k]
    ensures 0 <= TeamQuota(budget, averages, i) <= budget
  {
    TeamQuotaAsDivision(budget, averages, i);
    SumNonNegative(averages);
    FractionOfWholeAtMost(budget, Sum(averages) - averages[i], Sum(averages), |averages| - 2);
  }

  /** A quota times the denominator never exceeds the numerator it was cut from. */
  lemma QuotaTimesDenominatorAtMost(budget: int, averages: seq<int>, i: nat)
    requires i < |averages|
    requires 0 < (|averages| - 2) * Sum(averages)
    requires 0 <= budget
    requires forall k :: 0 <= k < |averages| ==> 0 <= averages[k]
    ensures TeamQuota(budget, averages, i) * ((|averages| - 2) * Sum(averages))
         <= budget * (Sum(averages) - averages[i])
  {
    TeamQuotaAsDivision(budget, averages, i);
    DivTimesAtMost(budget * (Sum(averages) - averages[i]), (|averages| - 2) * Sum(averages));
  }

  /**
    Conservation: when the spectator team's average is 0 and nothing is negative, the quotas
    of all the other teams add up to at most the budget.
  */
  lemma QuotasWithinBudget(budget: int, averages: seq<int>, spectator: nat)
    requires 3 <= |averages| && spectator < |averages|
    requires 0 <= budget
    requires forall k :: 0 <= k < |averages| ==> 0 <= averages[k]
    requires averages[spectator] == 0
    requires 0 < Sum(averages)
    ensures 0 < (|averages| - 2) * Sum(averages)
    ensures SumExcept(Quotas(budget, averages), spectator) <= budget
    ensures budget - (|averages| - 2) <= SumExcept(Quotas(budget, averages), spectator)
  {
    MulLeftMonotone(1, |averages| - 2, Sum(averages));
    QuotasTimesDenominatorAtMost(budget, averages);
    ComplementQuotientsExceptOne(Quotas(budget, averages), averages, budget, spectator);
    QuotasTimesDenominatorAbove(budget, averages);
    ComplementQuotientsExceptOneFromBelow(Quotas(budget, averages), averages, budget, spectator);
  }

  lemma QuotasTimesDenominatorAtMost(budget: int, averages: seq<int>)
    requires 0 < (|averages| - 2) * Sum(averages)
    requires 0 <= budget
    requires forall k :: 0 <= k < |averages| ==> 0 <= averages[k]
    ensures QuotientsWithin(Quotas(budget, averages), averages, budget, (|averages| - 2) * Sum(averages))
  {
    var q := Quotas(budget, averages);
    forall i | 0 <= i < |averages|
      ensures q[i] * ((|averages| - 2) * Sum(averages)) <= budget * (Sum(averages) - averages[i])
    {
      QuotaTimesDenominatorAtMost(budget, averages, i);
    }
  }

  /** A quota falls short of its exact share of the budget by less than one bot. */
  lemma QuotaTimesDenominatorAbove(budget: int, averages: seq<int>, i: nat)
    requires i < |averages|
    requires 0 < (|averages| - 2) * Sum(averages)
    requires 0 <= budget
    requires forall k :: 0 <= k < |averages| ==> 0 <= averages[k]
    ensures budget * (Sum(averages) - averages[i])
         < TeamQuota(budget, averages, i) * ((|averages| - 2) * Sum(averages)) + (|averages| - 2) * Sum(averages)
  {
    TeamQuotaAsDivision(budget, averages, i);
    DivTimesAbove(budget * (Sum(averages) - averages[i]), (|averages| - 2) * Sum(averages));
  }

  lemma QuotasTimesDenominatorAbove(budget: int, averages: seq<int>)
    requires 0 < (|averages| - 2) * Sum(averages)
    requires 0 <= budget
    requires forall k :: 0 <= k < |averages| ==> 0 <= averages[k]
    ensures QuotientsAbove(Quotas(budget, averages), averages, budget, (|averages| - 2) * Sum(averages))
  {
    var q := Quotas(budget, averages);
    forall i | 0 <= i < |averages|
      ensures budget * (Sum(averages) - averages[i]) < q[i] * ((|averages| - 2) * Sum(averages)) + (|averages| - 2) * Sum(averages)
    {
      QuotaTimesDenominatorAbove(budget, averages, i);
    }
  }

  /** Two teams with equal averages get equal quotas. */
  lemma EqualAveragesEqualQuotas(budget: int, averages: seq<int>, i: nat, j: nat)
    requires i < |averages| && j < |averages|
    requires 0 < (|averages| - 2) * Sum(averages)
    requires averages[i] == averages[j]
    ensures TeamQuota(budget, averages, i) == TeamQuota(budget, averages, j)
  {
    SumExceptIsDifference(averages, i);
    SumExceptIsDifference(averages, j);
  }

  /** Inverse strength: with a non-negative budget a stronger team never gets more bots. */
  lemma StrongerTeamNoMoreBots(budget: int, averages: seq<int>, i: nat, j: nat)
    requires i < |averages| && j < |averages|
    requires 0 < (|averages| - 2) * Sum(averages)
    requires 0 <= budget
    requires averages[i] <= averages[j]
    ensures TeamQuota(budget, averages, j) <= TeamQuota(budget, averages, i)
  {
    SumExceptIsDifference(averages, i);
    SumExceptIsDifference(averages, j);
    MulLeftMonotone(SumExcept(averages, j), SumExcept(averages, i), budget);
    TruncQuotientMonotone(budget * SumExcept(averages, j), budget * SumExcept(averages, i), (|averages| - 2) * Sum(averages));
  }

  /**
    The bot share of one spawning player in Captain mode (`SpawnAgents`): the whole quota when
    fewer than two relevant teammates are present, otherwise
    quota * (1 - value / teamSum) / (count - 1), truncated.
  */
  function PeerBotShare(quota: int, teamSum: int, peerValue: int, relevantCount: nat): int
    requires 1 <= teamSum
  {
    if relevantCount - 1 < 1 then quota
    else TruncShare(quota, teamSum, peerValue, relevantCount - 1)
  }

  /** Holding everything else fixed, a better-equipped player never gets a larger share. */
  lemma ShareNonIncreasingInValue(quota: int, teamSum: int, v1: int, v2: int, relevantCount: nat)
    requires 1 <= teamSum && 0 <= quota
    requires v1 <= v2
    ensures PeerBotShare(quota, teamSum, v2, relevantCount) <= PeerBotShare(quota, teamSum, v1, relevantCount)
  {
    if 2 <= relevantCount {
      TruncShareMonotone(quota, teamSum, v1, v2, relevantCount - 1);
    }
  }

  /** A share is never negative and never more than the team's quota. */
  lemma ShareBounds(quota: int, teamSum: int, peerValue: int, relevantCount: nat)
    requires 1 <= teamSum && 0 <= quota
    requires 0 <= peerValue <= teamSum
    ensures 0 <= PeerBotShare(quota, teamSum, peerValue, relevantCount) <= quota
  {
    if 2 <= relevantCount {
      TruncShareAsDivision(quota, teamSum, peerValue, relevantCount - 1);
      FractionOfWholeAtMost(quota, teamSum - peerValue, teamSum, relevantCount - 1);
    }
  }

  /** A share times its denominator never exceeds the numerator it was cut from. */
  lemma ShareTimesDenominatorAtMost(quota: int, teamSum: int, peerValue: int, relevantCount: nat)
    requires 1 <= teamSum && 0 <= quota && 2 <= relevantCount
    requires 0 <= peerValue <= teamSum
    ensures PeerBotShare(quota, teamSum, peerValue, relevantCount) * (teamSum * (relevantCount - 1))
         <= quota * (teamSum - peerValue)
  {
    TruncShareAsDivision(quota, teamSum, peerValue, relevantCount - 1);
    DivTimesAtMost(quota * (teamSum - peerValue), teamSum * (relevantCount - 1));
  }

  /** The shares of a whole team of relevant players, each computed as that player spawns. */
  function TeamShares(quota: int, teamSum: int, values: seq<int>): (shares: seq<int>)
    requires 1 <= teamSum
    ensures |shares| == |values|
  {
    seq(|values|, i requires 0 <= i < |values| => PeerBotShare(quota, teamSum, values[i], |values|))
  }

  /**
    Conservation within a team: if every relevant player spawns once while the stored team sum
    equals the sum of their values, their shares add up to at most the team's quota.
  */
  lemma SharesWithinQuota(quota: int, values: seq<int>)
    requires 0 <= quota
    requires forall i :: 0 <= i < |values| ==> 0 <= values[i]
    requires 1 <= Sum(values)
    ensures Sum(TeamShares(quota, Sum(values), values)) <= quota
  {
    var s, n := Sum(values), |values|;
    var shares := TeamShares(quota, s, values);
    if n == 1 {
      assert shares == shares[..0] + [shares[0]];
      assert shares[..0] == [];
      ShareBounds(quota, s, values[0], 1);
    } else if 2 <= n {
      forall i | 0 <= i < n
        ensures shares[i] * (s * (n - 1)) <= quota * (s - values[i])
      {
        ElementAtMostSum(values, i);
        ShareTimesDenominatorAtMost(quota, s, values[i], n);
      }
      ComplementQuotients(shares, values, quota);
    }
  }

  /** The sums every team gets at session start, in the mission's team order. */
  function SessionSums(peers: seq<NetworkPeer>, teams: seq<TeamId>, spectatorTeam: TeamId, itemValue: ItemId -> int)
    : (sums: seq<int>)
    ensures |sums| == |teams|
    ensures forall j :: 0 <= j < |teams| ==> sums[j] == TeamSumOfEquipmentValue(peers, teams[j], spectatorTeam, itemValue)
  {
    seq(|teams|, j requires 0 <= j < |teams| => TeamSumOfEquipmentValue(peers, teams[j], spectatorTeam, itemValue))
  }

  /** The averages every team gets at session start, in the mission's team order. */
  function SessionAverages(peers: seq<NetworkPeer>, teams: seq<TeamId>, spectatorTeam: TeamId, itemValue: ItemId -> int)
    : (averages: seq<int>)
    ensures |averages| == |teams|
  {
    seq(|teams|, j requires 0 <= j < |teams| =>
      AverageUnitValue(
        TeamRelevantValues(peers, teams[j], spectatorTeam, itemValue),
        TeamSumOfEquipmentValue(peers, teams[j], spectatorTeam, itemValue)))
  }

  /**
    The lower bound is attained: with a budget of 100 bots, the spectator team and two teams
    averaging 10 and 20, the quotas are 100, 66 and 33, and the playing teams get 99 bots,
    one fewer than the budget.
  */
  lemma QuotaRoundingLossAttained()
    ensures Sum([0, 10, 20]) == 30
    ensures Quotas(100, [0, 10, 20]) == [100, 66, 33]
    ensures SumExcept(Quotas(100, [0, 10, 20]), 0) == 100 - (3 - 2)
  {
    var averages := [0, 10, 20];
    assert Sum(averages) == 30 by {
      assert averages[..2] == [0, 10] && [0, 10][..1] == [0] && [0][..0] == [];
    }
    var q := Quotas(100, averages);
    assert q[0] == 100 && q[1] == 66 && q[2] == 33 by {
      assert SumExcept(averages, 0) == 30 by { SumExceptIsDifference(averages, 0); }
      assert SumExcept(averages, 1) == 20 by { SumExceptIsDifference(averages, 1); }
      assert SumExcept(averages, 2) == 10 by { SumExceptIsDifference(averages, 2); }
    }
    assert q == [100, 66, 33];
    SumExceptIsDifference(q, 0);
    assert q[..2] == [100, 66] && [100, 66][..1] == [100] && [100][..0] == [];
  }

  /**
    The spectator team's average is 0 and no average is negative, so the session's quotas of
    the playing teams together stay within the bot budget.
  */
  lemma SessionQuotasWithinBudget(
    peers: seq<NetworkPeer>, teams: seq<TeamId>, spectatorTeam: TeamId, itemValue: ItemId -> int,
    budget: int, spectator: nat)
    requires NonNegativeCatalog(itemValue)
    requires 0 <= budget
    requires 3 <= |teams| && spectator < |teams| && teams[spectator] == spectatorTeam
    requires 0 < Sum(SessionAverages(peers, teams, spectatorTeam, itemValue))
    ensures 0 < (|teams| - 2) * Sum(SessionAverages(peers, teams, spectatorTeam, itemValue))
    ensures SumExcept(Quotas(budget, SessionAverages(peers, teams, spectatorTeam, itemValue)), spectator) <= budget
    ensures budget - (|teams| - 2) <= SumExcept(Quotas(budget, SessionAverages(peers, teams, spectatorTeam, itemValue)), spectator)
  {
    var averages := SessionAverages(peers, teams, spectatorTeam, itemValue);
    forall k | 0 <= k < |averages|
      ensures 0 <= averages[k]
    {
      TeamValuesAtLeastNakedProtection(peers, teams[k], spectatorTeam, itemValue);
      SumNonNegative(TeamRelevantValues(peers, teams[k], spectatorTeam, itemValue));
    }
    SpectatorTeamHasNoRelevantPeers(peers, spectatorTeam, itemValue);
    QuotasWithinBudget(budget, averages, spectator);
  }

  /** What `ResetSpawnTeams` does to one peer. */
  function ResetPeer(p: NetworkPeer): NetworkPeer
  {
    if p.crpgPeer.Some? && !p.hasControlledAgent
    then p.(crpgPeer := Some(p.crpgPeer.value.(lastSpawnInfo := None)))
    else p
  }

  /** The reset touches only `LastSpawnInfo`, so no team's relevant values change. */
  lemma {:induction false} ResetKeepsTeamValues(
    peers: seq<NetworkPeer>, reset: seq<NetworkPeer>, team: TeamId, spectatorTeam: TeamId, itemValue: ItemId -> int)
    requires |reset| == |peers|
    requires forall i :: 0 <= i < |peers| ==> reset[i] == ResetPeer(peers[i])
    ensures TeamRelevantValues(reset, team, spectatorTeam, itemValue)
         == TeamRelevantValues(peers, team, spectatorTeam, itemValue)
  {
    if peers != [] {
      var n := |peers| - 1;
      ResetKeepsTeamValues(peers[..n], reset[..n], team, spectatorTeam, itemValue);
    }
  }

  /** Appending a sequence in two steps appends their concatenation. */
  lemma AppendAssociative(a: seq<AgentSpawn>, b: seq<AgentSpawn>, c: seq<AgentSpawn>)
    ensures a + (b + c) == (a + b) + c
  {
    assert forall i :: 0 <= i < |a| + |b| + |c| ==> (a + (b + c))[i] == ((a + b) + c)[i];
  }

  /** `Repeat(a, n)`: what a `for (i = 0; i < n; i++)` loop spawning `a` produces. */
  function Repeat(a: AgentSpawn, n: int): (r: seq<AgentSpawn>)
    ensures |r| == Max(n, 0)
    ensures forall k :: 0 <= k < |r| ==> r[k] == a
  {
    if n <= 0 then [] else Repeat(a, n - 1) + [a]
  }

  /** The number of occurrences of `a` in `s`. */
  function Count(s: seq<AgentSpawn>, a: AgentSpawn): nat
  {
    if s == [] then 0 else Count(s[..|s| - 1], a) + if s[|s| - 1] == a then 1 else 0
  }

  lemma {:induction false} CountAppend(s: seq<AgentSpawn>, t: seq<AgentSpawn>, a: AgentSpawn)
    ensures Count(s + t, a) == Count(s, a) + Count(t, a)
  {
    if t == [] {
      assert s + t == s;
    } else {
      var n := |t| - 1;
      CountAppend(s, t[..n], a);
      assert (s + t)[..|s + t| - 1] == s + t[..n];
      assert (s + t)[|s + t| - 1] == t[n];
    }
  }

  /** `Count` is the multiplicity in the multiset of the sequence. */
  lemma {:induction false} CountIsMultiplicity(s: seq<AgentSpawn>, a: AgentSpawn)
    ensures Count(s, a) == multiset(s)[a]
  {
    if s != [] {
      var n := |s| - 1;
      CountIsMultiplicity(s[..n], a);
      assert s == s[..n] + [s[n]];
    }
  }

  lemma {:induction false} RepeatCount(a: AgentSpawn, n: int, b: AgentSpawn)
    ensures Count(Repeat(a, n), b) == if a == b then Max(n, 0) else 0
  {
    if 0 < n {
      RepeatCount(a, n - 1, b);
      assert Repeat(a, n)[..|Repeat(a, n)| - 1] == Repeat(a, n - 1);
    }
  }

  /** The first `n` segments, one after the other. */
  function Concat(segments: seq<seq<AgentSpawn>>, n: nat): seq<AgentSpawn>
    requires n <= |segments|
  {
    if n == 0 then [] else Concat(segments, n - 1) + segments[n - 1]
  }

  /** When only segment `k` holds `x`, the first `n` segments hold as many `x` as segment `k` if they include it, none otherwise. */
  lemma {:induction false} CountInConcat(segments: seq<seq<AgentSpawn>>, n: nat, k: nat, x: AgentSpawn)
    requires n <= |segments| && k < |segments|
    requires forall i :: 0 <= i < |segments| && i != k ==> Count(segments[i], x) == 0
    ensures Count(Concat(segments, n), x) == if n <= k then 0 else Count(segments[k], x)
  {
    if n > 0 {
      CountInConcat(segments, n - 1, k, x);
      CountAppend(Concat(segments, n - 1), segments[n - 1], x);
    }
  }

  /** The number of peers that `SpawnBotAgents` counts as players of a team. */
  function TeamPlayerCount(peers: seq<NetworkPeer>, team: TeamId): nat
  {
    if peers == [] then 0
    else
      var p := peers[|peers| - 1];
      TeamPlayerCount(peers[..|peers| - 1], team) + if p.isSynchronized && OnTeam(p, team) then 1 else 0
  }

  class CrpgSpawningBehavior {
    /** `Mission.Current.Teams`, fixed for the mission. */
    const teams: seq<TeamId>
    const spectatorTeam: TeamId
    const attackerTeam: TeamId
    const defenderTeam: TeamId
    /** The configured bot budget (`CaptainTotalBotCount`). */
    const totalNumberOfBots: int
    /** The item catalog (`MBObjectManager` lookups of `ItemObject.Value`). */
    const itemValue: ItemId -> int

    var gameMode: GameType
    /** `GameNetwork.NetworkPeers`, as the behaviour sees them. */
    var peers: seq<NetworkPeer>
    var teamSumOfEquipment: map<TeamId, int>
    var teamAverageEquipment: map<TeamId, int>
    var teamNumberOfBots: map<TeamId, int>
    /** The agents the behaviour has asked the engine to spawn, in order. */
    var spawned: seq<AgentSpawn>

    ghost predicate Valid()
      reads this`peers, this`teamSumOfEquipment, this`teamAverageEquipment, this`teamNumberOfBots
    {
      TeamsValid() && PeersValid() && AggregatesValid()
    }

    /** The mission's teams are distinct and hold the three special teams. */
    ghost predicate TeamsValid()
    {
      && (forall j, k :: 0 <= j < k < |teams| ==> teams[j] != teams[k])
      && spectatorTeam in teams && attackerTeam in teams && defenderTeam in teams
      && spectatorTeam != attackerTeam && spectatorTeam != defenderTeam && attackerTeam != defenderTeam
    }

    /** Every peer on a team is on one of the mission's teams. */
    ghost predicate PeersValid()
      reads this`peers
    {
      forall i :: 0 <= i < |peers| && OnTeamSomewhere(peers[i]) ==> peers[i].missionPeer.value.team.value in teams
    }

    /** The stored aggregates are keyed by the mission's teams, and every stored sum is positive. */
    ghost predicate AggregatesValid()
      reads this`teamSumOfEquipment, this`teamAverageEquipment, this`teamNumberOfBots
    {
      && (forall t :: t in teamAverageEquipment <==> t in teamSumOfEquipment)
      && (forall t :: t in teamSumOfEquipment ==> t in teams)
      && (forall t :: t in teamNumberOfBots ==> t in teams)
      && (forall t :: t in teamSumOfEquipment ==> 1 <= teamSumOfEquipment[t])
    }

    static predicate OnTeamSomewhere(p: NetworkPeer)
    {
      p.missionPeer.Some? && p.missionPeer.value.team.Some?
    }

    /** A spawn session has started: every team has its sum, average and quota. */
    ghost predicate SessionStarted()
      reads this`teamSumOfEquipment, this`teamNumberOfBots
    {
      && (forall t :: t in teamSumOfEquipment <==> t in teams)
      && (forall t :: t in teamNumberOfBots <==> t in teams)
    }

    constructor (
      teams: seq<TeamId>, spectatorTeam: TeamId, attackerTeam: TeamId, defenderTeam: TeamId,
      totalNumberOfBots: int, itemValue: ItemId -> int, peers: seq<NetworkPeer>)
      requires forall j, k :: 0 <= j < k < |teams| ==> teams[j] != teams[k]
      requires spectatorTeam in teams && attackerTeam in teams && defenderTeam in teams
      requires spectatorTeam != attackerTeam && spectatorTeam != defenderTeam && attackerTeam != defenderTeam
      requires forall i :: 0 <= i < |peers| && OnTeamSomewhere(peers[i]) ==> peers[i].missionPeer.value.team.value in teams
      ensures Valid()
      ensures this.teams == teams && this.spectatorTeam == spectatorTeam
      ensures this.attackerTeam == attackerTeam && this.defenderTeam == defenderTeam
      ensures this.totalNumberOfBots == totalNumberOfBots && this.itemValue == itemValue && this.peers == peers
      ensures gameMode == Battle && spawned == []
      ensures teamSumOfEquipment == map[] && teamAverageEquipment == map[] && teamNumberOfBots == map[]
    {
      this.teams := teams;
      this.spectatorTeam := spectatorTeam;
      this.attackerTeam := attackerTeam;
      this.defenderTeam := defenderTeam;
      this.totalNumberOfBots := totalNumberOfBots;
      this.itemValue := itemValue;
      this.peers := peers;
      gameMode := Battle;
      teamSumOfEquipment, teamAverageEquipment, teamNumberOfBots := map[], map[], map[];
      spawned := [];
    }

    /**
      Recomputes every team's sum and average from the current peers, then every team's quota
      of the bot budget, and finally clears the stale spawn info of peers without an agent.
    */
    method RequestStartSpawnSession()
      requires Valid()
      requires 0 < (|teams| - 2) * Sum(SessionAverages(peers, teams, spectatorTeam, itemValue))
      modifies this`peers, this`teamSumOfEquipment, this`teamAverageEquipment, this`teamNumberOfBots
      ensures Valid() && SessionStarted()
      ensures forall j :: 0 <= j < |teams| ==>
        && teamSumOfEquipment[teams[j]] == TeamSumOfEquipmentValue(old(peers), teams[j], spectatorTeam, itemValue)
        && teamAverageEquipment[teams[j]] == SessionAverages(old(peers), teams, spectatorTeam, itemValue)[j]
        && teamNumberOfBots[teams[j]] == Quotas(totalNumberOfBots, SessionAverages(old(peers), teams, spectatorTeam, itemValue))[j]
      ensures |peers| == |old(peers)|
      ensures forall i :: 0 <= i < |peers| ==> peers[i] == ResetPeer(old(peers)[i])
    {
      StoreSessionAggregates();
      ResetSpawnTeams();
    }

    /** The two table-filling loops of `RequestStartSpawnSession`, which leave the peers alone. */
    method StoreSessionAggregates()
      requires Valid()
      requires 0 < (|teams| - 2) * Sum(SessionAverages(peers, teams, spectatorTeam, itemValue))
      modifies this`teamSumOfEquipment, this`teamAverageEquipment, this`teamNumberOfBots
      ensures Valid() && SessionStarted()
      ensures forall j :: 0 <= j < |teams| ==>
        && teamSumOfEquipment[teams[j]] == TeamSumOfEquipmentValue(peers, teams[j], spectatorTeam, itemValue)
        && teamAverageEquipment[teams[j]] == SessionAverages(peers, teams, spectatorTeam, itemValue)[j]
        && teamNumberOfBots[teams[j]] == Quotas(totalNumberOfBots, SessionAverages(peers, teams, spectatorTeam, itemValue))[j]
    {
      StoreTeamAggregates();
      assert AveragesInTeamOrder() == SessionAverages(peers, teams, spectatorTeam, itemValue);
      StoreTeamQuotas(AveragesInTeamOrder());
    }

    /** The stored averages, in the mission's team order. */
    function AveragesInTeamOrder(): (averages: seq<int>)
      reads this`teamAverageEquipment
      requires forall j :: 0 <= j < |teams| ==> teams[j] in teamAverageEquipment
      ensures |averages| == |teams|
      ensures forall j :: 0 <= j < |teams| ==> averages[j] == teamAverageEquipment[teams[j]]
    {
      var averageEquipment := teamAverageEquipment;
      seq(|teams|, j requires 0 <= j < |teams| => averageEquipment[teams[j]])
    }

    /** The first loop of `RequestStartSpawnSession`: every team's sum and average. */
    method StoreTeamAggregates()
      requires Valid()
      modifies this`teamSumOfEquipment, this`teamAverageEquipment
      ensures Valid() && (forall t :: t in teamSumOfEquipment <==> t in teams)
      ensures forall j :: 0 <= j < |teams| ==>
        && teamSumOfEquipment[teams[j]] == TeamSumOfEquipmentValue(peers, teams[j], spectatorTeam, itemValue)
        && teamAverageEquipment[teams[j]] == SessionAverages(peers, teams, spectatorTeam, itemValue)[j]
    {
      var sums := SessionSums(peers, teams, spectatorTeam, itemValue);
      var averages := SessionAverages(peers, teams, spectatorTeam, itemValue);
      StoreAggregateTables(sums, averages);
    }

    /** The loop of `StoreTeamAggregates`, over figures already computed in team order. */
    method StoreAggregateTables(sums: seq<int>, averages: seq<int>)
      requires AggregatesValid() && |sums| == |averages| == |teams|
      requires TeamsValid() && forall k :: 0 <= k < |sums| ==> 1 <= sums[k]
      modifies this`teamSumOfEquipment, this`teamAverageEquipment
      ensures AggregatesValid() && (forall t :: t in teamSumOfEquipment <==> t in teams)
      ensures forall k :: 0 <= k < |teams| ==> teamSumOfEquipment[teams[k]] == sums[k] && teamAverageEquipment[teams[k]] == averages[k]
    {
      var j := 0;
      while j < |teams|
        invariant 0 <= j <= |teams|
        invariant AggregatesValid()
        invariant forall t :: t in teamSumOfEquipment <==> t in old(teamSumOfEquipment) || t in teams[..j]
        invariant forall k :: 0 <= k < j ==> teamSumOfEquipment[teams[k]] == sums[k] && teamAverageEquipment[teams[k]] == averages[k]
      {
        assert forall k :: 0 <= k < j ==> teams[k] != teams[j];
        StoreTeamAggregate(teams[j], sums[j], averages[j]);
        j := j + 1;
      }
      assert teams[..j] == teams;
    }

    /** One iteration of the first loop: stores one team's sum and average. */
    method StoreTeamAggregate(team: TeamId, sum: int, average: int)
      requires AggregatesValid() && team in teams && 1 <= sum
      modifies this`teamSumOfEquipment, this`teamAverageEquipment
      ensures AggregatesValid()
      ensures teamSumOfEquipment == old(teamSumOfEquipment)[team := sum]
      ensures teamAverageEquipment == old(teamAverageEquipment)[team := average]
    {
      teamSumOfEquipment := teamSumOfEquipment[team := sum];
      teamAverageEquipment := teamAverageEquipment[team := average];
    }

    /**
      The second loop of `RequestStartSpawnSession`: every team's quota of the bot budget,
      computed from the averages the first loop stored, read in team order.
    */
    method StoreTeamQuotas(teamAverages: seq<int>)
      requires Valid() && (forall t :: t in teamSumOfEquipment <==> t in teams)
      requires |teamAverages| == |teams|
      requires forall j :: 0 <= j < |teams| ==> teamAverages[j] == teamAverageEquipment[teams[j]]
      requires 0 < (|teams| - 2) * Sum(teamAverages)
      modifies this`teamNumberOfBots
      ensures Valid() && SessionStarted()
      ensures forall j :: 0 <= j < |teams| ==> teamNumberOfBots[teams[j]] == Quotas(totalNumberOfBots, teamAverages)[j]
    {
      StoreQuotas(Quotas(totalNumberOfBots, teamAverages));
    }

    /** Stores precomputed quotas, in team order, as the session's quota table. */
    method StoreQuotas(quotas: seq<int>)
      requires Valid() && (forall t :: t in teamSumOfEquipment <==> t in teams)
      requires |quotas| == |teams|
      modifies this`teamNumberOfBots
      ensures Valid() && SessionStarted()
      ensures forall j :: 0 <= j < |teams| ==> teamNumberOfBots[teams[j]] == quotas[j]
    {
      StoreQuotaTable(quotas);
    }

    /** The loop of `StoreTeamQuotas`, over quotas already computed in team order. */
    method StoreQuotaTable(quotas: seq<int>)
      requires AggregatesValid() && TeamsValid() && |quotas| == |teams|
      modifies this`teamNumberOfBots
      ensures AggregatesValid() && (forall t :: t in teamNumberOfBots <==> t in teams)
      ensures forall k :: 0 <= k < |teams| ==> teamNumberOfBots[teams[k]] == quotas[k]
    {
      var j := 0;
      while j < |teams|
        invariant 0 <= j <= |teams|
        invariant AggregatesValid()
        invariant forall t :: t in teamNumberOfBots <==> t in old(teamNumberOfBots) || t in teams[..j]
        invariant forall k :: 0 <= k < j ==> teamNumberOfBots[teams[k]] == quotas[k]
      {
        assert forall k :: 0 <= k < j ==> teams[k] != teams[j];
        StoreTeamQuota(teams[j], quotas[j]);
        j := j + 1;
      }
      assert teams[..j] == teams;
    }

    /** One iteration of the second loop: stores one team's quota. */
    method StoreTeamQuota(team: TeamId, quota: int)
      requires AggregatesValid() && team in teams
      modifies this`teamNumberOfBots
      ensures AggregatesValid()
      ensures teamNumberOfBots == old(teamNumberOfBots)[team := quota]
    {
      teamNumberOfBots := teamNumberOfBots[team := quota];
    }

    /** Clears `LastSpawnInfo` of every peer that has a cRPG component and no controlled agent. */
    method ResetSpawnTeams()
      requires Valid()
      modifies this`peers
      ensures Valid()
      ensures |peers| == |old(peers)|
      ensures forall i :: 0 <= i < |peers| ==> peers[i] == ResetPeer(old(peers)[i])
    {
      var i := 0;
      while i < |peers|
        invariant 0 <= i <= |peers| == |old(peers)|
        invariant Valid()
        invariant forall k :: 0 <= k < i ==> peers[k] == ResetPeer(old(peers)[k])
        invariant forall k :: i <= k < |peers| ==> peers[k] == old(peers)[k]
      {
        var p := peers[i];
        if p.crpgPeer.Some? && !p.hasControlledAgent {
          peers := peers[i := p.(crpgPeer := Some(p.crpgPeer.value.(lastSpawnInfo := None)))];
        }
        i := i + 1;
      }
    }

    /** The state `SpawnAgents` needs: a valid behaviour, with a started session in a Captain round. */
    ghost predicate SpawnReady(roundInProgress: bool)
      reads this`peers, this`teamSumOfEquipment, this`teamAverageEquipment, this`teamNumberOfBots, this`gameMode
    {
      Valid() && (roundInProgress && gameMode == Captain ==> SessionStarted())
    }

    /** The bot share of peer `k`, a relevant peer, from the session's stored aggregates. */
    function CaptainBotShare(k: nat): int
      reads this`peers, this`teamSumOfEquipment, this`teamAverageEquipment, this`teamNumberOfBots
      requires Valid() && SessionStarted()
      requires k < |peers| && IsNetworkPeerRelevant(peers[k], spectatorTeam)
    {
      var p := peers[k];
      var team := p.missionPeer.value.team.value;
      assert OnTeamSomewhere(peers[k]);
      PeerBotShare(
        teamNumberOfBots[team],
        teamSumOfEquipment[team],
        EquipmentValue(p.crpgPeer, itemValue),
        |TeamRelevantValues(peers, team, spectatorTeam, itemValue)|)
    }

    /**
      The agents spawned for peer `k`: nothing for an ineligible peer; otherwise the player's
      agent, followed in Captain mode during a round by max(share, 0) bots it owns.
    */
    function PeerSpawns(k: nat, roundInProgress: bool, allowedToSpawn: NetworkPeer -> bool): seq<AgentSpawn>
      reads this`peers, this`teamSumOfEquipment, this`teamAverageEquipment, this`teamNumberOfBots, this`gameMode
      requires SpawnReady(roundInProgress) && k < |peers|
    {
      var p := peers[k];
      if !IsEligibleToSpawn(p, spectatorTeam, allowedToSpawn(p)) then []
      else
        var team := p.missionPeer.value.team.value;
        [PlayerAgent(k, team)]
          + if roundInProgress && gameMode == Captain then Repeat(BotAgent(team, Some(k)), CaptainBotShare(k)) else []
    }

    /** The agents spawned for each of the first `n` peers, in peer order. */
    function PeerSegments(n: nat, roundInProgress: bool, allowedToSpawn: NetworkPeer -> bool): (segments: seq<seq<AgentSpawn>>)
      reads this`peers, this`teamSumOfEquipment, this`teamAverageEquipment, this`teamNumberOfBots, this`gameMode
      requires SpawnReady(roundInProgress) && n <= |peers|
      ensures |segments| == n
      ensures forall i :: 0 <= i < n ==> segments[i] == PeerSpawns(i, roundInProgress, allowedToSpawn)
    {
      if n == 0 then []
      else PeerSegments(n - 1, roundInProgress, allowedToSpawn) + [PeerSpawns(n - 1, roundInProgress, allowedToSpawn)]
    }

    /** The agents the first `n` iterations of `SpawnAgents`'s loop spawn. */
    function SpawnAgentsEvents(n: nat, roundInProgress: bool, allowedToSpawn: NetworkPeer -> bool): seq<AgentSpawn>
      reads this`peers, this`teamSumOfEquipment, this`teamAverageEquipment, this`teamNumberOfBots, this`gameMode
      requires SpawnReady(roundInProgress) && n <= |peers|
    {
      Concat(PeerSegments(|peers|, roundInProgress, allowedToSpawn), n)
    }

    /** One more iteration of `SpawnAgents`'s loop appends peer `k`'s agents to the events so far. */
    lemma SpawnAgentsEventsStep(start: seq<AgentSpawn>, before: seq<AgentSpawn>, after: seq<AgentSpawn>,
                                k: nat, roundInProgress: bool, allowedToSpawn: NetworkPeer -> bool)
      requires SpawnReady(roundInProgress) && k < |peers|
      requires before == start + SpawnAgentsEvents(k, roundInProgress, allowedToSpawn)
      requires after == before + PeerSpawns(k, roundInProgress, allowedToSpawn)
      ensures after == start + SpawnAgentsEvents(k + 1, roundInProgress, allowedToSpawn)
    {
      var events := SpawnAgentsEvents(k, roundInProgress, allowedToSpawn);
      assert SpawnAgentsEvents(k + 1, roundInProgress, allowedToSpawn) == events + PeerSpawns(k, roundInProgress, allowedToSpawn);
      AppendAssociative(start, events, PeerSpawns(k, roundInProgress, allowedToSpawn));
    }

    /** Peer `j` is spawned on team `t` by the first `n` iterations of `SpawnAgents`'s loop. */
    predicate SpawnsOnTeam(n: nat, j: nat, t: TeamId, allowedToSpawn: NetworkPeer -> bool)
      reads this`peers
      requires j < |peers|
    {
      && j < n
      && IsEligibleToSpawn(peers[j], spectatorTeam, allowedToSpawn(peers[j]))
      && peers[j].missionPeer.value.team.value == t
    }

    /** Peer `k`'s iteration spawns peer `j`'s agent once, with its share of owned bots, and nothing else of `j`'s. */
    lemma PeerSpawnsCounts(k: nat, j: nat, t: TeamId, roundInProgress: bool, allowedToSpawn: NetworkPeer -> bool)
      requires SpawnReady(roundInProgress) && k < |peers| && j < |peers|
      ensures Count(PeerSpawns(k, roundInProgress, allowedToSpawn), PlayerAgent(j, t))
        == if k == j && SpawnsOnTeam(k + 1, j, t, allowedToSpawn) then 1 else 0
      ensures Count(PeerSpawns(k, roundInProgress, allowedToSpawn), BotAgent(t, Some(j)))
        == if k == j && SpawnsOnTeam(k + 1, j, t, allowedToSpawn) && roundInProgress && gameMode == Captain
           then Max(CaptainBotShare(j), 0) else 0
    {
      var p := peers[k];
      if IsEligibleToSpawn(p, spectatorTeam, allowedToSpawn(p)) {
        var team := p.missionPeer.value.team.value;
        var bots := if roundInProgress && gameMode == Captain then Repeat(BotAgent(team, Some(k)), CaptainBotShare(k)) else [];
        CountAppend([PlayerAgent(k, team)], bots, PlayerAgent(j, t));
        CountAppend([PlayerAgent(k, team)], bots, BotAgent(t, Some(j)));
        if roundInProgress && gameMode == Captain {
          RepeatCount(BotAgent(team, Some(k)), CaptainBotShare(k), BotAgent(t, Some(j)));
          RepeatCount(BotAgent(team, Some(k)), CaptainBotShare(k), PlayerAgent(j, t));
        }
      }
    }

    /**
      After the first `n` iterations of `SpawnAgents`'s loop, every eligible peer among them has
      exactly one agent on its team and, in a Captain round, max(share, 0) bots it owns; no other
      peer has any.
    */
    lemma SpawnAgentsCounts(n: nat, j: nat, t: TeamId, roundInProgress: bool, allowedToSpawn: NetworkPeer -> bool)
      requires SpawnReady(roundInProgress) && n <= |peers| && j < |peers|
      ensures Count(SpawnAgentsEvents(n, roundInProgress, allowedToSpawn), PlayerAgent(j, t))
        == if SpawnsOnTeam(n, j, t, allowedToSpawn) then 1 else 0
      ensures Count(SpawnAgentsEvents(n, roundInProgress, allowedToSpawn), BotAgent(t, Some(j)))
        == if SpawnsOnTeam(n, j, t, allowedToSpawn) && roundInProgress && gameMode == Captain
           then Max(CaptainBotShare(j), 0) else 0
    {
      var segments := PeerSegments(|peers|, roundInProgress, allowedToSpawn);
      forall i | 0 <= i < |segments| && i != j
        ensures Count(segments[i], PlayerAgent(j, t)) == 0 && Count(segments[i], BotAgent(t, Some(j))) == 0
      {
        PeerSpawnsCounts(i, j, t, roundInProgress, allowedToSpawn);
      }
      CountInConcat(segments, n, j, PlayerAgent(j, t));
      CountInConcat(segments, n, j, BotAgent(t, Some(j)));
      PeerSpawnsCounts(j, j, t, roundInProgress, allowedToSpawn);
    }

    /**
      `SpawnAgents`, keeping only which agents are spawned: every eligible peer gets its agent,
      and in Captain mode during a round also its share of the team's bots.
    */
    method SpawnAgents(roundInProgress: bool, allowedToSpawn: NetworkPeer -> bool)
      requires SpawnReady(roundInProgress)
      modifies this`spawned
      ensures spawned == old(spawned) + SpawnAgentsEvents(|peers|, roundInProgress, allowedToSpawn)
    {
      var k := 0;
      while k < |peers|
        invariant 0 <= k <= |peers|
        invariant spawned == old(spawned) + SpawnAgentsEvents(k, roundInProgress, allowedToSpawn)
      {
        SpawnNextPeer(old(spawned), k, roundInProgress, allowedToSpawn);
        k := k + 1;
      }
    }

    /** One iteration of `SpawnAgents`'s loop: the agents of peer `k` follow those of the peers before it. */
    method SpawnNextPeer(ghost start: seq<AgentSpawn>, k: nat, roundInProgress: bool, allowedToSpawn: NetworkPeer -> bool)
      requires SpawnReady(roundInProgress) && k < |peers|
      requires spawned == start + SpawnAgentsEvents(k, roundInProgress, allowedToSpawn)
      modifies this`spawned
      ensures spawned == start + SpawnAgentsEvents(k + 1, roundInProgress, allowedToSpawn)
    {
      ghost var before := spawned;
      SpawnPeerAgents(k, roundInProgress, allowedToSpawn);
      SpawnAgentsEventsStep(start, before, spawned, k, roundInProgress, allowedToSpawn);
    }

    /** One iteration of `SpawnAgents`'s loop: the agents spawned for peer `k`. */
    method SpawnPeerAgents(k: nat, roundInProgress: bool, allowedToSpawn: NetworkPeer -> bool)
      requires SpawnReady(roundInProgress) && k < |peers|
      modifies this`spawned
      ensures spawned == old(spawned) + PeerSpawns(k, roundInProgress, allowedToSpawn)
    {
      var p := peers[k];
      if !IsEligibleToSpawn(p, spectatorTeam, allowedToSpawn(p)) {
        return;
      }
      var team := p.missionPeer.value.team.value;
      spawned := spawned + [PlayerAgent(k, team)];
      if roundInProgress && gameMode == Captain {
        EligibleIsRelevant(p, spectatorTeam, allowedToSpawn(p));
        var peerNumberOfBots := CaptainBotShare(k);
        var i := 0;
        while i < peerNumberOfBots
          invariant 0 <= i <= Max(peerNumberOfBots, 0)
          invariant spawned == old(spawned) + [PlayerAgent(k, team)] + Repeat(BotAgent(team, Some(k)), i)
        {
          spawned := spawned + [BotAgent(team, Some(k))];
          i := i + 1;
        }
        assert Repeat(BotAgent(team, Some(k)), i) == Repeat(BotAgent(team, Some(k)), peerNumberOfBots);
      }
    }

    /** The bots `SpawnBotAgents` adds for one team. */
    function TeamTopUp(team: TeamId, botsTeam1: int, botsTeam2: int, botsAlive: TeamId -> nat): seq<AgentSpawn>
      reads this`peers
    {
      if team != attackerTeam && team != defenderTeam then []
      else
        var numberOfBots := if team == attackerTeam then botsTeam1 else botsTeam2;
        Repeat(BotAgent(team, None), numberOfBots - (botsAlive(team) + TeamPlayerCount(peers, team)))
    }

    /** The top-ups of the first `n` teams, in the mission's team order. */
    function TopUpSegments(n: nat, botsTeam1: int, botsTeam2: int, botsAlive: TeamId -> nat): (segments: seq<seq<AgentSpawn>>)
      reads this`peers
      requires n <= |teams|
      ensures |segments| == n
      ensures forall i :: 0 <= i < n ==> segments[i] == TeamTopUp(teams[i], botsTeam1, botsTeam2, botsAlive)
    {
      if n == 0 then [] else TopUpSegments(n - 1, botsTeam1, botsTeam2, botsAlive) + [TeamTopUp(teams[n - 1], botsTeam1, botsTeam2, botsAlive)]
    }

    /** The bots the first `n` iterations of `SpawnBotAgents`'s loop spawn. */
    function TopUpEvents(n: nat, botsTeam1: int, botsTeam2: int, botsAlive: TeamId -> nat): seq<AgentSpawn>
      reads this`peers
      requires n <= |teams|
    {
      Concat(TopUpSegments(|teams|, botsTeam1, botsTeam2, botsAlive), n)
    }

    function BotTopUp(botsTeam1: int, botsTeam2: int, botsAlive: TeamId -> nat): seq<AgentSpawn>
      reads this`peers
    {
      if botsTeam1 <= 0 && botsTeam2 <= 0 then [] else TopUpEvents(|teams|, botsTeam1, botsTeam2, botsAlive)
    }

    /** The top-up a team would get if it were the attacker or the defender. */
    function TopUpCount(team: TeamId, botsTeam1: int, botsTeam2: int, botsAlive: TeamId -> nat): int
      reads this`peers
    {
      Max((if team == attackerTeam then botsTeam1 else botsTeam2) - (botsAlive(team) + TeamPlayerCount(peers, team)), 0)
    }

    /** One team's top-up holds only unowned bots of that team. */
    lemma TeamTopUpCount(t: TeamId, team: TeamId, botsTeam1: int, botsTeam2: int, botsAlive: TeamId -> nat)
      ensures Count(TeamTopUp(t, botsTeam1, botsTeam2, botsAlive), BotAgent(team, None))
        == if t != team || (t != attackerTeam && t != defenderTeam) then 0
           else TopUpCount(team, botsTeam1, botsTeam2, botsAlive)
    {
      if t == attackerTeam || t == defenderTeam {
        var numberOfBots := if t == attackerTeam then botsTeam1 else botsTeam2;
        RepeatCount(BotAgent(t, None), numberOfBots - (botsAlive(t) + TeamPlayerCount(peers, t)), BotAgent(team, None));
      }
    }

    /**
      The number of unowned bots `SpawnBotAgents` adds for a team: none when both configured
      counts are non-positive or the team is neither attacker nor defender, otherwise
      max(0, configured - alive bots - players).
    */
    lemma BotTopUpCount(team: TeamId, botsTeam1: int, botsTeam2: int, botsAlive: TeamId -> nat)
      requires Valid() && team in teams
      ensures Count(BotTopUp(botsTeam1, botsTeam2, botsAlive), BotAgent(team, None))
        == if (botsTeam1 <= 0 && botsTeam2 <= 0) || (team != attackerTeam && team != defenderTeam) then 0
           else TopUpCount(team, botsTeam1, botsTeam2, botsAlive)
    {
      if !(botsTeam1 <= 0 && botsTeam2 <= 0) {
        var k :| 0 <= k < |teams| && teams[k] == team;
        var segments := TopUpSegments(|teams|, botsTeam1, botsTeam2, botsAlive);
        forall i | 0 <= i < |segments| && i != k
          ensures Count(segments[i], BotAgent(team, None)) == 0
        {
          assert teams[i] != teams[k];
          OtherTeamTopUp(teams[i], team, botsTeam1, botsTeam2, botsAlive);
        }
        CountInConcat(segments, |teams|, k, BotAgent(team, None));
        TeamTopUpCount(team, team, botsTeam1, botsTeam2, botsAlive);
      }
    }

    /** A team's top-up holds no bot of another team. */
    lemma OtherTeamTopUp(t: TeamId, team: TeamId, botsTeam1: int, botsTeam2: int, botsAlive: TeamId -> nat)
      requires t != team
      ensures Count(TeamTopUp(t, botsTeam1, botsTeam2, botsAlive), BotAgent(team, None)) == 0
    {
      if t == attackerTeam || t == defenderTeam {
        var numberOfBots := if t == attackerTeam then botsTeam1 else botsTeam2;
        RepeatCount(BotAgent(t, None), numberOfBots - (botsAlive(t) + TeamPlayerCount(peers, t)), BotAgent(team, None));
      }
    }

    /** `SpawnBotAgents`: tops the attacker and defender teams up to their configured bot counts. */
    method SpawnBotAgents(botsTeam1: int, botsTeam2: int, botsAlive: TeamId -> nat)
      modifies this`spawned
      ensures spawned == old(spawned) + BotTopUp(botsTeam1, botsTeam2, botsAlive)
    {
      if botsTeam1 <= 0 && botsTeam2 <= 0 {
        return;
      }
      var j := 0;
      while j < |teams|
        invariant 0 <= j <= |teams|
        invariant spawned == old(spawned) + TopUpEvents(j, botsTeam1, botsTeam2, botsAlive)
      {
        SpawnNextTeamBots(old(spawned), j, botsTeam1, botsTeam2, botsAlive);
        j := j + 1;
      }
    }

    /** One iteration of `SpawnBotAgents`'s loop: the bots of team `j` follow those of the teams before it. */
    method SpawnNextTeamBots(ghost start: seq<AgentSpawn>, j: nat, botsTeam1: int, botsTeam2: int, botsAlive: TeamId -> nat)
      requires j < |teams|
      requires spawned == start + TopUpEvents(j, botsTeam1, botsTeam2, botsAlive)
      modifies this`spawned
      ensures spawned == start + TopUpEvents(j + 1, botsTeam1, botsTeam2, botsAlive)
    {
      ghost var events := TopUpEvents(j, botsTeam1, botsTeam2, botsAlive);
      assert TopUpEvents(j + 1, botsTeam1, botsTeam2, botsAlive) == events + TeamTopUp(teams[j], botsTeam1, botsTeam2, botsAlive);
      SpawnTeamBots(teams[j], botsTeam1, botsTeam2, botsAlive);
      AppendAssociative(start, events, TeamTopUp(teams[j], botsTeam1, botsTeam2, botsAlive));
    }

    /** One iteration of `SpawnBotAgents`'s loop over the mission's teams. */
    method SpawnTeamBots(team: TeamId, botsTeam1: int, botsTeam2: int, botsAlive: TeamId -> nat)
      modifies this`spawned
      ensures spawned == old(spawned) + TeamTopUp(team, botsTeam1, botsTeam2, botsAlive)
    {
      if attackerTeam != team && defenderTeam != team {
        return;
      }
      var numberOfBots := if team == attackerTeam then botsTeam1 else botsTeam2;
      var numberOfPlayers := TeamPlayerCount(peers, team);
      var i := botsAlive(team) + numberOfPlayers;
      while i < numberOfBots
        invariant botsAlive(team) + numberOfPlayers <= i
        invariant i <= Max(numberOfBots, botsAlive(team) + numberOfPlayers)
        invariant spawned == old(spawned) + Repeat(BotAgent(team, None), i - (botsAlive(team) + numberOfPlayers))
      {
        spawned := spawned + [BotAgent(team, None)];
        i := i + 1;
      }
      assert Repeat(BotAgent(team, None), i - (botsAlive(team) + numberOfPlayers))
          == Repeat(BotAgent(team, None), numberOfBots - (botsAlive(team) + numberOfPlayers));
    }

    /** `DoesEquipmentContainWeapon`: some weapon slot, the extra one included, is not empty. */
    method DoesEquipmentContainWeapon(equipment: seq<EquipmentElement>) returns (r: bool)
      requires |equipment| == NumEquipmentSetSlots
      ensures r <==> exists i :: Weapon0 <= i <= ExtraWeaponSlot && !equipment[i].IsEmpty()
    {
      var i := Weapon0;
      while i <= ExtraWeaponSlot
        invariant Weapon0 <= i <= ExtraWeaponSlot + 1
        invariant forall k :: Weapon0 <= k < i ==> equipment[k].IsEmpty()
      {
        if !equipment[i].IsEmpty() {
          return true;
        }
        i := i + 1;
      }
      return false;
    }
  }
}
