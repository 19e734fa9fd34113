/**
 * The closed domain enumerations of the game system (src/system/types/cosmere.ts).
 * Every enumeration is a datatype; `...Code` gives the string the source stores for a
 * member, and `...FromCode` decodes a string back, so that a string-keyed lookup
 * becomes total: either the member whose code it is, or None.
 * `All...` lists every member once, in declaration order.
 */
module Cosmere {
  import opened Wrappers

  // ---------------------------------------------------------------- AttributeGroup

  datatype AttributeGroup = Physical | Cognitive | Spiritual

  const AllAttributeGroups: seq<AttributeGroup> := [Physical, Cognitive, Spiritual]

  function AttributeGroupCode(g: AttributeGroup): string
  {
    match g
    case Physical => "phy"
    case Cognitive => "cog"
    case Spiritual => "spi"
  }

  /** Decodes a stored key: the member whose code is `s`, if there is one. */
  function AttributeGroupFromCode(s: string): (r: Option<AttributeGroup>)
    ensures forall g :: r == Some(g) <==> AttributeGroupCode(g) == s
  {
    match s
    case "phy" => Some(Physical)
    case "cog" => Some(Cognitive)
    case "spi" => Some(Spiritual)
    case _ => None
  }

  /** Exactly three groups, each listed once, with pairwise-distinct codes. */
  lemma AttributeGroupsEnumerated()
    ensures |AllAttributeGroups| == 3
    ensures forall g :: g in AllAttributeGroups
    ensures forall i, j :: 0 <= i < j < |AllAttributeGroups| ==>
              AttributeGroupCode(AllAttributeGroups[i]) != AttributeGroupCode(AllAttributeGroups[j])
  {
    forall g: AttributeGroup ensures g in AllAttributeGroups {
      match g
      case Physical =>
      case Cognitive =>
      case Spiritual =>
    }
  }

  lemma AttributeGroupRoundTrip(g: AttributeGroup)
    ensures AttributeGroupFromCode(AttributeGroupCode(g)) == Some(g)
  {
  }

  // ---------------------------------------------------------------- Attribute

  datatype Attribute = Strength | Speed | Intellect | Willpower | Awareness | Presence

  const AllAttributes: seq<Attribute> :=
    [Strength, Speed, Intellect, Willpower, Awareness, Presence]

  function AttributeCode(a: Attribute): string
  {
    match a
    case Strength => "str"
    case Speed => "spd"
    case Intellect => "int"
    case Willpower => "wil"
    case Awareness => "awa"
    case Presence => "pre"
  }

  function AttributeFromCode(s: string): (r: Option<Attribute>)
    ensures forall a :: r == Some(a) <==> AttributeCode(a) == s
  {
    match s
    case "str" => Some(Strength)
    case "spd" => Some(Speed)
    case "int" => Some(Intellect)
    case "wil" => Some(Willpower)
    case "awa" => Some(Awareness)
    case "pre" => Some(Presence)
    case _ => None
  }

  /** Exactly six attributes with pairwise-distinct codes; the four the derivation
      pass reads by name decode from "str", "spd", "wil" and "awa". */
  lemma AttributesEnumerated()
    ensures |AllAttributes| == 6
    ensures forall a :: a in AllAttributes
    ensures forall i, j :: 0 <= i < j < |AllAttributes| ==>
              AttributeCode(AllAttributes[i]) != AttributeCode(AllAttributes[j])
    ensures AttributeFromCode("str") == Some(Strength)
    ensures AttributeFromCode("spd") == Some(Speed)
    ensures AttributeFromCode("wil") == Some(Willpower)
    ensures AttributeFromCode("awa") == Some(Awareness)
  {
    forall a: Attribute ensures a in AllAttributes {
      match a
      case Strength =>
      case Speed =>
      case Intellect =>
      case Willpower =>
      case Awareness =>
      case Presence =>
    }
  }

  lemma AttributeRoundTrip(a: Attribute)
    ensures AttributeFromCode(AttributeCode(a)) == Some(a)
  {
  }

  // ---------------------------------------------------------------- Resource

  datatype Resource = Health | Focus | Investiture

  const AllResources: seq<Resource> := [Health, Focus, Investiture]

  function ResourceCode(k: Resource): string
  {
    match k
    case Health => "hea"
    case Focus => "foc"
    case Investiture => "inv"
  }

  function ResourceFromCode(s: string): (r: Option<Resource>)
    ensures forall k :: r == Some(k) <==> ResourceCode(k) == s
  {
    match s
    case "hea" => Some(Health)
    case "foc" => Some(Focus)
    case "inv" => Some(Investiture)
    case _ => None
  }

  /** Exactly three resources with pairwise-distinct codes; Health is "hea" and Focus "foc". */
  lemma ResourcesEnumerated()
    ensures |AllResources| == 3
    ensures forall k :: k in AllResources
    ensures forall i, j :: 0 <= i < j < |AllResources| ==>
              ResourceCode(AllResources[i]) != ResourceCode(AllResources[j])
    ensures ResourceFromCode("hea") == Some(Health)
    ensures ResourceFromCode("foc") == Some(Focus)
  {
    forall k: Resource ensures k in AllResources {
      match k
      case Health =>
      case Focus =>
      case Investiture =>
    }
  }

  lemma ResourceRoundTrip(k: Resource)
    ensures ResourceFromCode(ResourceCode(k)) == Some(k)
  {
  }

  // ---------------------------------------------------------------- Skill

  datatype Skill =
    // physical
    | Agility | Athletics | HeavyWeapons | LightWeapons | Stealth | Thievery
    // cognitive
    | Crafting | Deduction | Discipline | Intimidation | Lore | Medicine
    // spiritual
    | Deception | Insight | Leadership | Perception | Persuasion | Survival

  const AllSkills: seq<Skill> :=
    [ Agility, Athletics, HeavyWeapons, LightWeapons, Stealth, Thievery,
      Crafting, Deduction, Discipline, Intimidation, Lore, Medicine,
      Deception, Insight, Leadership, Perception, Persuasion, Survival ]

  function SkillCode(s: Skill): string
  {
    match s
    case Agility => "agi"
    case Athletics => "ath"
    case HeavyWeapons => "hwp"
    case LightWeapons => "lwp"
    case Stealth => "stl"
    case Thievery => "thv"
    case Crafting => "cra"
    case Deduction => "ded"
    case Discipline => "dis"
    case Intimidation => "inm"
    case Lore => "lor"
    case Medicine => "med"
    case Deception => "dec"
    case Insight => "ins"
    case Leadership => "lea"
    case Perception => "prc"
    case Persuasion => "prs"
    case Survival => "sur"
  }

  function SkillFromCode(code: string): (r: Option<Skill>)
    ensures forall s :: r == Some(s) <==> SkillCode(s) == code
  {
    match code
    case "agi" => Some(Agility)
    case "ath" => Some(Athletics)
    case "hwp" => Some(HeavyWeapons)
    case "lwp" => Some(LightWeapons)
    case "stl" => Some(Stealth)
    case "thv" => Some(Thievery)
    case "cra" => Some(Crafting)
    case "ded" => Some(Deduction)
    case "dis" => Some(Discipline)
    case "inm" => Some(Intimidation)
    case "lor" => Some(Lore)
    case "med" => Some(Medicine)
    case "dec" => Some(Deception)
    case "ins" => Some(Insight)
    case "lea" => Some(Leadership)
    case "prc" => Some(Perception)
    case "prs" => Some(Persuasion)
    case "sur" => Some(Survival)
    case _ => None
  }

  /** Exactly eighteen skills with pairwise-distinct codes. */
  lemma SkillsEnumerated()
    ensures |AllSkills| == 18
    ensures forall s :: s in AllSkills
    ensures forall i, j :: 0 <= i < j < |AllSkills| ==>
              SkillCode(AllSkills[i]) != SkillCode(AllSkills[j])
  {
    forall s: Skill ensures s in AllSkills {
      match s
      case Agility =>
      case Athletics =>
      case HeavyWeapons =>
      case LightWeapons =>
      case Stealth =>
      case Thievery =>
      case Crafting =>
      case Deduction =>
      case Discipline =>
      case Intimidation =>
      case Lore =>
      case Medicine =>
      case Deception =>
      case Insight =>
      case Leadership =>
      case Perception =>
      case Persuasion =>
      case Survival =>
    }
  }

  lemma SkillRoundTrip(s: Skill)
    ensures SkillFromCode(SkillCode(s)) == Some(s)
  {
  }

  // ---------------------------------------------------------------- DerivedStatistic

  /** `LiftingCapactiy` keeps the spelling of the source's member name. */
  datatype DerivedStatistic = MovementRate | LiftingCapactiy | RecoveryDie

  const AllDerivedStatistics: seq<DerivedStatistic> :=
    [MovementRate, LiftingCapactiy, RecoveryDie]

  function DerivedStatisticCode(d: DerivedStatistic): string
  {
    match d
    case MovementRate => "mvr"
    case LiftingCapactiy => "lif"
    case RecoveryDie => "rcd"
  }

  function DerivedStatisticFromCode(s: string): (r: Option<DerivedStatistic>)
    ensures forall d :: r == Some(d) <==> DerivedStatisticCode(d) == s
  {
    match s
    case "mvr" => Some(MovementRate)
    case "lif" => Some(LiftingCapactiy)
    case "rcd" => Some(RecoveryDie)
    case _ => None
  }

  lemma DerivedStatisticsEnumerated()
    ensures |AllDerivedStatistics| == 3
    ensures forall d :: d in AllDerivedStatistics
    ensures forall i, j :: 0 <= i < j < |AllDerivedStatistics| ==>
              DerivedStatisticCode(AllDerivedStatistics[i]) != DerivedStatisticCode(AllDerivedStatistics[j])
  {
    forall d: DerivedStatistic ensures d in AllDerivedStatistics {
      match d
      case MovementRate =>
      case LiftingCapactiy =>
      case RecoveryDie =>
    }
  }

  lemma DerivedStatisticRoundTrip(d: DerivedStatistic)
    ensures DerivedStatisticFromCode(DerivedStatisticCode(d)) == Some(d)
  {
  }
}
