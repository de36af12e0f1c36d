/**
  The cRPG damage model's table and guard logic: the body-part damage multipliers for ranged
  and melee hits on humans and on mounts, the rule that cRPG players deal no damage to the
  VIP bots, and the preconditions for crushing through a block.
*/
module ApplyDamage {
  import opened Wrappers

  /** The engine's body parts; `UnlistedPart` stands for any other value of the enumeration. */
  datatype BoneBodyPartType =
    | NoBodyPart
    | Head | Neck
    | Chest | Abdomen | ShoulderLeft | ShoulderRight
    | ArmLeft | ArmRight | Legs
    | UnlistedPart

  /** The engine's damage types; `UnlistedType` stands for any other value of the enumeration. */
  datatype DamageTypes = Invalid | Cut | Pierce | Blunt | UnlistedType

  predicate IsHeadOrNeck(bodyPart: BoneBodyPartType)
  {
    bodyPart == Head || bodyPart == Neck
  }

  /** The chest, the abdomen and the shoulders. */
  predicate IsTorso(bodyPart: BoneBodyPartType)
  {
    bodyPart == Chest || bodyPart == Abdomen || bodyPart == ShoulderLeft || bodyPart == ShoulderRight
  }

  predicate IsArm(bodyPart: BoneBodyPartType)
  {
    bodyPart == ArmLeft || bodyPart == ArmRight
  }

  /** The factor every table applies to a hit on the head or neck, by damage type. */
  function HeadMultiplier(damageType: DamageTypes, pierce: real): real
  {
    match damageType
      case Invalid => 2.0
      case Cut => 1.2
      case Blunt => 1.2
      case Pierce => pierce
      case UnlistedType => 1.0
  }

  // ---------------------------------------------------------------------------------------
  // The four tables

  /** Ranged hits on a human: headshots hurt most, arms and legs least. */
  function RangedHumanMultiplier(bodyPart: BoneBodyPartType, damageType: DamageTypes): (m: real)
    ensures 0.75 <= m <= 2.0
    ensures IsTorso(bodyPart) ==> m == 0.9
    ensures IsArm(bodyPart) || bodyPart == Legs ==> m == 0.75
  {
    match bodyPart
      case Head => HeadMultiplier(damageType, 1.7)
      case Neck => HeadMultiplier(damageType, 1.7)
      case Chest => 0.9
      case Abdomen => 0.9
      case ShoulderLeft => 0.9
      case ShoulderRight => 0.9
      case ArmLeft => 0.75
      case ArmRight => 0.75
      case Legs => 0.75
      case NoBodyPart => 1.0
      case UnlistedPart => 1.0
  }

  /** Ranged hits on a mount. */
  function RangedNonHumanMultiplier(bodyPart: BoneBodyPartType, damageType: DamageTypes): (m: real)
    ensures 0.75 <= m <= 2.0
    ensures IsTorso(bodyPart) || IsArm(bodyPart) || bodyPart == Legs ==> m == 0.8
  {
    match bodyPart
      case Head => HeadMultiplier(damageType, 1.2)
      case Neck => HeadMultiplier(damageType, 1.2)
      case Chest => 0.8
      case Abdomen => 0.8
      case ShoulderLeft => 0.8
      case ShoulderRight => 0.8
      case ArmLeft => 0.8
      case ArmRight => 0.8
      case Legs => 0.8
      case NoBodyPart => 1.0
      case UnlistedPart => 1.0
  }

  /** Melee hits on a human: the legs take less. */
  function MeleeHumanMultiplier(bodyPart: BoneBodyPartType, damageType: DamageTypes): (m: real)
    ensures 0.75 <= m <= 2.0
    ensures IsTorso(bodyPart) || IsArm(bodyPart) ==> m == 1.0
    ensures bodyPart == Legs ==> m == 0.8
  {
    match bodyPart
      case Head => HeadMultiplier(damageType, 1.3)
      case Neck => HeadMultiplier(damageType, 1.3)
      case Chest => 1.0
      case Abdomen => 1.0
      case ShoulderLeft => 1.0
      case ShoulderRight => 1.0
      case ArmLeft => 1.0
      case ArmRight => 1.0
      case Legs => 0.8
      case NoBodyPart => 1.0
      case UnlistedPart => 1.0
  }

  /** Melee hits on a mount. */
  function MeleeNonHumanMultiplier(bodyPart: BoneBodyPartType, damageType: DamageTypes): (m: real)
    ensures 0.75 <= m <= 2.0
    ensures IsTorso(bodyPart) || IsArm(bodyPart) || bodyPart == Legs ==> m == 0.8
  {
    match bodyPart
      case Head => HeadMultiplier(damageType, 1.3)
      case Neck => HeadMultiplier(damageType, 1.3)
      case Chest => 0.8
      case Abdomen => 0.8
      case ShoulderLeft => 0.8
      case ShoulderRight => 0.8
      case ArmLeft => 0.8
      case ArmRight => 0.8
      case Legs => 0.8
      case NoBodyPart => 1.0
      case UnlistedPart => 1.0
  }

  /** `GetDamageMultiplierForBodyPart`: the ranged tables for missiles, the human tables for humans. */
  function GetDamageMultiplierForBodyPart(bodyPart: BoneBodyPartType, damageType: DamageTypes, isHuman: bool, isMissile: bool): (m: real)
    ensures 0.75 <= m <= 2.0
    ensures bodyPart == NoBodyPart ==> m == 1.0
    ensures IsHeadOrNeck(bodyPart) && damageType == Invalid ==> m == 2.0
    ensures IsHeadOrNeck(bodyPart) && (damageType == Cut || damageType == Blunt) ==> m == 1.2
  {
    if isMissile then
      if isHuman then RangedHumanMultiplier(bodyPart, damageType) else RangedNonHumanMultiplier(bodyPart, damageType)
    else
      if isHuman then MeleeHumanMultiplier(bodyPart, damageType) else MeleeNonHumanMultiplier(bodyPart, damageType)
  }

  /** A pierce to the head or neck: 1.7 for an arrow in a human, 1.2 in a mount, 1.3 in melee. */
  lemma HeadPierceMultiplier(bodyPart: BoneBodyPartType, isHuman: bool, isMissile: bool)
    requires IsHeadOrNeck(bodyPart)
    ensures GetDamageMultiplierForBodyPart(bodyPart, Pierce, isHuman, isMissile)
      == if !isMissile then 1.3 else if isHuman then 1.7 else 1.2
  {
  }

  /**
    The torso and limbs tell the four tables apart: 0.9 or 0.75 for an arrow in a human,
    1 or 0.8 for a melee hit on a human, 0.8 for a mount whatever hits it.
  */
  lemma BodyMultipliers(bodyPart: BoneBodyPartType, damageType: DamageTypes, isHuman: bool, isMissile: bool)
    requires IsTorso(bodyPart) || IsArm(bodyPart) || bodyPart == Legs
    ensures !isHuman ==> GetDamageMultiplierForBodyPart(bodyPart, damageType, isHuman, isMissile) == 0.8
    ensures isHuman && isMissile ==>
      GetDamageMultiplierForBodyPart(bodyPart, damageType, isHuman, isMissile) == if IsTorso(bodyPart) then 0.9 else 0.75
    ensures isHuman && !isMissile ==>
      GetDamageMultiplierForBodyPart(bodyPart, damageType, isHuman, isMissile) == if bodyPart == Legs then 0.8 else 1.0
  {
  }

  /**
    The dispatch reads the missile flag and the human flag: on the chest, a human hit by a
    missile gets 0.9, by a melee weapon 1, and a mount 0.8 either way, so each flag changes
    the table used.
  */
  lemma DispatchDistinguishesTables(damageType: DamageTypes)
    ensures GetDamageMultiplierForBodyPart(Chest, damageType, true, true) == 0.9
    ensures GetDamageMultiplierForBodyPart(Chest, damageType, true, false) == 1.0
    ensures GetDamageMultiplierForBodyPart(Chest, damageType, false, true) == 0.8
    ensures GetDamageMultiplierForBodyPart(Chest, damageType, false, false) == 0.8
    ensures GetDamageMultiplierForBodyPart(Head, Pierce, false, true) != GetDamageMultiplierForBodyPart(Head, Pierce, false, false)
  {
    HeadPierceMultiplier(Head, false, true);
    HeadPierceMultiplier(Head, false, false);
  }

  // ---------------------------------------------------------------------------------------
  // The VIP bots

  /** The character ids of the VIP bots start with this prefix. */
  const VipBotPrefix: string := "crpg_dtv_vip_"

  predicate StartsWith(s: string, prefix: string)
  {
    |prefix| <= |s| && s[..|prefix|] == prefix
  }

  /** What the damage model reads of an attack: whether the attacker is a cRPG agent and the victim's character id. */
  datatype AttackInformation = AttackInformation(attackerIsCrpgOrigin: bool, victimCharacterStringId: Option<string>)

  /** A cRPG agent hits a character whose id carries the VIP prefix. */
  function IsPlayerCharacterAttackingVipBot(attack: AttackInformation): (r: bool)
    ensures r ==> attack.attackerIsCrpgOrigin && attack.victimCharacterStringId.Some?
    ensures r ==> |VipBotPrefix| <= |attack.victimCharacterStringId.value|
  {
    if attack.attackerIsCrpgOrigin then
      if attack.victimCharacterStringId.Some? then StartsWith(attack.victimCharacterStringId.value, VipBotPrefix)
      else false
    else false
  }

  /**
    `CalculateDamage`, reduced to its early return: a cRPG agent hitting a VIP bot deals no
    damage; any other hit deals `otherwiseDamage`, the result of the rest of the computation.
  */
  function CalculateDamage(attack: AttackInformation, otherwiseDamage: real): (damage: real)
    ensures IsPlayerCharacterAttackingVipBot(attack) ==> damage == 0.0
    ensures !IsPlayerCharacterAttackingVipBot(attack) ==> damage == otherwiseDamage
  {
    if IsPlayerCharacterAttackingVipBot(attack) then 0.0 else otherwiseDamage
  }

  /** Every id made of the prefix and any suffix is a VIP bot to a cRPG attacker, and to nobody else. */
  lemma VipBotIds(attackerIsCrpgOrigin: bool, suffix: string, otherwiseDamage: real)
    ensures CalculateDamage(AttackInformation(attackerIsCrpgOrigin, Some(VipBotPrefix + suffix)), otherwiseDamage)
      == if attackerIsCrpgOrigin then 0.0 else otherwiseDamage
  {
    assert (VipBotPrefix + suffix)[..|VipBotPrefix|] == VipBotPrefix;
  }

  /** A hit by an agent that is not a cRPG agent, or on a victim without a character, keeps its damage. */
  lemma NonVipHitsKeepDamage(attack: AttackInformation, otherwiseDamage: real)
    requires !attack.attackerIsCrpgOrigin || attack.victimCharacterStringId.None?
    ensures CalculateDamage(attack, otherwiseDamage) == otherwiseDamage
  {
  }

  /** An id that differs from the prefix anywhere in its first characters is not a VIP bot. */
  lemma NonVipIdKeepsDamage(attackerIsCrpgOrigin: bool, id: string, k: nat, otherwiseDamage: real)
    requires k < |VipBotPrefix| && k < |id| && id[k] != VipBotPrefix[k]
    ensures CalculateDamage(AttackInformation(attackerIsCrpgOrigin, Some(id)), otherwiseDamage) == otherwiseDamage
  {
    if |VipBotPrefix| <= |id| {
      assert id[..|VipBotPrefix|][k] == id[k];
    }
  }

  // ---------------------------------------------------------------------------------------
  // Crushing through a block

  datatype WeaponFlag = CanCrushThrough | OtherWeaponFlag(bit: nat)

  /** The current usage of a weapon: only its flags matter here. */
  datatype WeaponComponentData = WeaponComponentData(weaponFlags: set<WeaponFlag>)

  /** Only an overhead swing may crush through; the other directions are told apart by name only. */
  datatype UsageDirection = AttackUp | AttackDown | AttackLeft | AttackRight | OtherUsageDirection

  datatype StrikeType = Swing | Thrust | OtherStrikeType

  /**
    The attacker as the crush-through rule sees it: the equipment slots wielded in the off
    hand and the main hand, if any, and the current usage of each equipment slot (none for
    an empty slot).
  */
  datatype AttackerAgent = AttackerAgent(
    offHandIndex: Option<nat>,
    mainHandIndex: Option<nat>,
    currentUsageItems: seq<Option<WeaponComponentData>>)

  /** The wielded slots are slots of the agent's equipment. */
  predicate WieldedSlotsExist(attacker: AttackerAgent)
  {
    && (attacker.offHandIndex.Some? ==> attacker.offHandIndex.value < |attacker.currentUsageItems|)
    && (attacker.mainHandIndex.Some? ==> attacker.mainHandIndex.value < |attacker.currentUsageItems|)
  }

  /** The weapon that decides a crush-through: the off hand's if it wields one, else the main hand's. */
  function WieldedWeapon(attacker: AttackerAgent): (w: Option<WeaponComponentData>)
    requires WieldedSlotsExist(attacker)
    ensures attacker.offHandIndex.None? && attacker.mainHandIndex.None? ==> w.None?
    ensures attacker.offHandIndex.Some? ==> w == attacker.currentUsageItems[attacker.offHandIndex.value]
    ensures attacker.offHandIndex.None? && attacker.mainHandIndex.Some? ==>
      w == attacker.currentUsageItems[attacker.mainHandIndex.value]
  {
    var index := if attacker.offHandIndex.None? then attacker.mainHandIndex else attacker.offHandIndex;
    if index.Some? then attacker.currentUsageItems[index.value] else None
  }

  /** The guard of `DecideCrushedThrough`: which blows may roll for a crush-through at all. */
  predicate MayCrushThrough(attacker: AttackerAgent, attackDirection: UsageDirection, strikeType: StrikeType, isPassiveUsage: bool)
    requires WieldedSlotsExist(attacker)
  {
    var weapon := WieldedWeapon(attacker);
    !(weapon.None?
      || isPassiveUsage
      || CanCrushThrough !in weapon.value.weaponFlags
      || strikeType != Swing
      || attackDirection != AttackUp)
  }

  /**
    `DecideCrushedThrough`: false whenever the guard fails; otherwise the outcome of the
    random roll against the attacker's power strike and the defender's strength and shield,
    given here as `rollSucceeds`.
  */
  function DecideCrushedThrough(
    attacker: AttackerAgent, attackDirection: UsageDirection, strikeType: StrikeType,
    isPassiveUsage: bool, rollSucceeds: bool): (crushed: bool)
    requires WieldedSlotsExist(attacker)
    ensures crushed ==> rollSucceeds
    ensures crushed ==> strikeType == Swing && attackDirection == AttackUp && !isPassiveUsage
    ensures crushed ==> WieldedWeapon(attacker).Some? && CanCrushThrough in WieldedWeapon(attacker).value.weaponFlags
  {
    if !MayCrushThrough(attacker, attackDirection, strikeType, isPassiveUsage) then false
    else rollSucceeds
  }

  /**
    A blow that fails the guard never crushes through, whatever the roll would have been, and
    one that passes it crushes through exactly when the roll succeeds.
  */
  lemma CrushThroughNeedsGuard(
    attacker: AttackerAgent, attackDirection: UsageDirection, strikeType: StrikeType,
    isPassiveUsage: bool, roll1: bool, roll2: bool)
    requires WieldedSlotsExist(attacker)
    ensures !MayCrushThrough(attacker, attackDirection, strikeType, isPassiveUsage) ==>
      !DecideCrushedThrough(attacker, attackDirection, strikeType, isPassiveUsage, roll1)
      && DecideCrushedThrough(attacker, attackDirection, strikeType, isPassiveUsage, roll1)
         == DecideCrushedThrough(attacker, attackDirection, strikeType, isPassiveUsage, roll2)
    ensures MayCrushThrough(attacker, attackDirection, strikeType, isPassiveUsage) ==>
      DecideCrushedThrough(attacker, attackDirection, strikeType, isPassiveUsage, roll1) == roll1
  {
  }

  /**
    With a crushing weapon in the off hand, the main hand does not matter: an overhead active
    swing may crush through.
  */
  lemma OffHandWeaponDecides(attacker: AttackerAgent, w: WeaponComponentData)
    requires WieldedSlotsExist(attacker)
    requires attacker.offHandIndex.Some? && attacker.currentUsageItems[attacker.offHandIndex.value] == Some(w)
    requires CanCrushThrough in w.weaponFlags
    ensures MayCrushThrough(attacker, AttackUp, Swing, false)
  {
  }
}
