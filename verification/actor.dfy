/**
 * The derived-statistics pass of a character (src/system/data/actor/common.ts):
 * from the stored attribute values, bonuses, resource values and skill ranks it
 * computes senses, defenses, resource maxima (and clamps each resource's value),
 * skill modifiers, movement rate and lifting/carrying capacity.
 *
 * The global configuration catalogue is an explicit, read-only `Config` parameter.
 * `CommonActor` is the actor's data object, whose fields the pass overwrites in place;
 * `Derive` is the same pass as a pure function on a snapshot (`ActorData`) and is what
 * the properties below are stated about.
 */
module Actor {
  import opened Wrappers
  import opened Cosmere

  // ================================================================ Lookup tables

  /** A senses range; `Unbounded` is the table's `Number.MAX_VALUE` entry. */
  datatype SensesRange = Feet(feet: int) | Unbounded

  const SENSES_RANGES: seq<SensesRange> :=
    [Feet(5), Feet(10), Feet(20), Feet(50), Feet(100), Unbounded]
  const MOVEMENT_RATES: seq<int> := [20, 25, 30, 40, 60, 80]
  const LIFTING_CAPACITIES: seq<int> := [100, 200, 500, 1000, 5000, 10000]
  const CARRYING_CAPACITIES: seq<int> := [50, 100, 250, 500, 2500, 5000]

  /** `Math.ceil(x / 2)` for an integer `x` (Dafny's `/` by 2 rounds down). */
  function CeilHalf(x: int): (c: int)
    ensures 2 * c - 1 <= x <= 2 * c
  {
    (x + 1) / 2
  }

  /** The index every lookup reads: `Math.min(Math.ceil(x / 2), n)` for a table of length n.
      It reaches n itself, one past the last entry, as soon as x >= 2n - 1. */
  function TableIndex(x: int, n: nat): (i: int)
    ensures i <= n
    ensures i < n ==> 2 * i - 1 <= x <= 2 * i
    ensures i == n <==> x >= 2 * n - 1
  {
    if CeilHalf(x) < n then CeilHalf(x) else n
  }

  /** `table[Math.min(Math.ceil(x / 2), table.length)]`. JavaScript reads `undefined`
      at the index `table.length` and at a negative index; both are None here. */
  function Lookup<T>(table: seq<T>, x: int): (r: Option<T>)
    ensures r.Some? <==> -1 <= x <= 2 * |table| - 2
    ensures r.Some? ==> 0 <= TableIndex(x, |table|) < |table| && r.value == table[TableIndex(x, |table|)]
  {
    var i := TableIndex(x, |table|);
    if 0 <= i < |table| then Some(table[i]) else None
  }

  /** The senses range: defined for awareness -1..10, unbounded from 9 upwards. */
  function AwarenessToSensesRange(awareness: int): (r: Option<SensesRange>)
    ensures r.Some? <==> -1 <= awareness <= 10
    ensures r.Some? ==> (r.value.Unbounded? <==> awareness >= 9)
  {
    Lookup(SENSES_RANGES, awareness)
  }

  /** The movement rate: defined for speed -1..10, between 20 and 80 there. */
  function SpeedToMovementRate(speed: int): (r: Option<int>)
    ensures r.Some? <==> -1 <= speed <= 10
    ensures r.Some? ==> 20 <= r.value <= 80
  {
    Lookup(MOVEMENT_RATES, speed)
  }

  /** The lifting capacity: defined for strength -1..10, between 100 and 10000 there. */
  function StrengthToLiftingCapacity(strength: int): (r: Option<int>)
    ensures r.Some? <==> -1 <= strength <= 10
    ensures r.Some? ==> 100 <= r.value <= 10000
  {
    Lookup(LIFTING_CAPACITIES, strength)
  }

  /** The carrying capacity: defined for strength -1..10, between 50 and 5000 there;
      always half the lifting capacity. */
  function StrengthToCarryingCapacity(strength: int): (r: Option<int>)
    ensures r.Some? <==> -1 <= strength <= 10
    ensures r.Some? ==> 50 <= r.value <= 5000 && 2 * r.value == StrengthToLiftingCapacity(strength).value
  {
    Lookup(CARRYING_CAPACITIES, strength)
  }

  /** From 11 upwards the clamped index equals the table length (6), so every lookup
      reads past the end of its table. */
  lemma LookupsPastTable(x: int)
    requires x >= 11
    ensures TableIndex(x, 6) == 6
    ensures AwarenessToSensesRange(x) == None
    ensures SpeedToMovementRate(x) == None
    ensures StrengthToLiftingCapacity(x) == None
    ensures StrengthToCarryingCapacity(x) == None
  {
  }

  /** Inside the stored bound 0..5 of an attribute value the index stays in 0..3,
      so every lookup is defined, and the senses range is finite. */
  lemma LookupsOnStoredRange(x: int)
    requires 0 <= x <= 5
    ensures 0 <= TableIndex(x, 6) <= 3
    ensures AwarenessToSensesRange(x).Some? && AwarenessToSensesRange(x).value.Feet?
    ensures SpeedToMovementRate(x).Some?
    ensures StrengthToLiftingCapacity(x).Some?
    ensures StrengthToCarryingCapacity(x).Some?
  {
  }

  /** A lookup into a table that is ascending under `atMost` is non-decreasing in x
      wherever it is defined. */
  lemma LookupMonotone<T>(table: seq<T>, atMost: (T, T) -> bool, x: int, y: int)
    requires forall i, j :: 0 <= i <= j < |table| ==> atMost(table[i], table[j])
    requires x <= y
    requires Lookup(table, x).Some? && Lookup(table, y).Some?
    ensures atMost(Lookup(table, x).value, Lookup(table, y).value)
  {
  }

  /** `Unbounded` is the largest range. */
  predicate RangeAtMost(a: SensesRange, b: SensesRange)
  {
    b.Unbounded? || (a.Feet? && a.feet <= b.feet)
  }

  /** The four tables are ascending, so on the stored bound 0..5 every derived
      statistic is non-decreasing in its attribute. */
  lemma LookupsMonotone(x: int, y: int)
    requires 0 <= x <= y <= 5
    ensures RangeAtMost(AwarenessToSensesRange(x).value, AwarenessToSensesRange(y).value)
    ensures SpeedToMovementRate(x).value <= SpeedToMovementRate(y).value
    ensures StrengthToLiftingCapacity(x).value <= StrengthToLiftingCapacity(y).value
    ensures StrengthToCarryingCapacity(x).value <= StrengthToCarryingCapacity(y).value
  {
  }

  /** The top of the stored bound: speed 5, strength 5 and awareness 5. */
  lemma LookupsAtFive()
    ensures SpeedToMovementRate(5) == Some(40)
    ensures StrengthToLiftingCapacity(5) == Some(1000)
    ensures StrengthToCarryingCapacity(5) == Some(500)
    ensures AwarenessToSensesRange(5) == Some(Feet(50))
  {
  }

  // ================================================================ Actor data

  datatype Senses = Senses(range: Option<SensesRange>, obscuredAffected: bool)
  datatype Defense = Defense(value: int, bonus: int)
  /** `deflect` exists only for the resources the catalogue gives one. */
  datatype ResourceState = ResourceState(value: int, max: int, bonus: int, deflect: Option<int>)
  /** `attribute` is the stored copy of the governing attribute; the pass does not read it. */
  datatype SkillState = SkillState(attribute: Attribute, rank: int, mod: int)
  datatype Movement = Movement(rate: Option<int>)
  datatype Encumbrance = Encumbrance(lift: Option<int>, carry: Option<int>)

  /** A snapshot of the actor's data, stored and derived fields alike. */
  datatype ActorData = ActorData(
    senses: Senses,
    attributes: map<Attribute, int>,
    defenses: map<AttributeGroup, Defense>,
    resources: map<Resource, ResourceState>,
    skills: map<Skill, SkillState>,
    movement: Movement,
    encumbrance: Encumbrance)

  /** The part of the configuration catalogue the pass reads: the attributes of each
      group, and the governing attribute of each skill. */
  datatype Config = Config(attributeGroups: map<AttributeGroup, seq<Attribute>>, skills: map<Skill, Attribute>)

  /** The catalogue is fully populated. */
  predicate ConfigComplete(cfg: Config)
  {
    (forall g :: g in cfg.attributeGroups) && (forall s :: s in cfg.skills)
  }

  /** Every attribute has a stored value (the schema creates one per attribute). */
  predicate AttributesComplete(attributes: map<Attribute, int>)
  {
    forall a :: a in attributes
  }

  /** The bounds the stored schema enforces: attribute values and skill ranks in 0..5,
      resource values, maxima and deflect non-negative. */
  predicate StoredBounds(d: ActorData)
  {
    && (forall a :: a in d.attributes ==> 0 <= d.attributes[a] <= 5)
    && (forall s :: s in d.skills ==> 0 <= d.skills[s].rank <= 5)
    && (forall k :: k in d.resources ==>
          d.resources[k].value >= 0 && d.resources[k].max >= 0
          && (d.resources[k].deflect.Some? ==> d.resources[k].deflect.value >= 0))
  }

  // ================================================================ Attribute sums

  /** The sum of the values of `attrs`, accumulated left to right as `reduce` does. */
  function AttributeSum(attrs: seq<Attribute>, values: map<Attribute, int>): (r: int)
    requires forall a :: a in attrs ==> a in values
    ensures (forall a :: a in attrs ==> 0 <= values[a] <= 5) ==> 0 <= r <= 5 * |attrs|
  {
    if attrs == [] then 0
    else AttributeSum(attrs[..|attrs| - 1], values) + values[attrs[|attrs| - 1]]
  }

  /** The sum reads only the values of the listed attributes. */
  lemma {:induction false} AttributeSumReadsListed(attrs: seq<Attribute>, v1: map<Attribute, int>, v2: map<Attribute, int>)
    requires forall a :: a in attrs ==> a in v1 && a in v2 && v1[a] == v2[a]
    ensures AttributeSum(attrs, v1) == AttributeSum(attrs, v2)
  {
    if attrs != [] {
      AttributeSumReadsListed(attrs[..|attrs| - 1], v1, v2);
    }
  }

  // ================================================================ The pass as a function

  /** `Math.max(0, Math.min(max, value))`. */
  function Clamp(value: int, max: int): (r: int)
    ensures r >= 0
    ensures max >= 0 ==> r <= max
    ensures 0 <= value <= max ==> r == value
    ensures value < 0 || max < 0 ==> r == 0
    ensures 0 <= max < value ==> r == max
  {
    if max < value then (if max < 0 then 0 else max) else (if value < 0 then 0 else value)
  }

  /** One group's defense: the bonus is kept, and with attribute values in 0..5 the value
      lies between 10 + bonus and 10 + 5 per configured attribute + bonus. */
  function DeriveDefense(cfg: Config, attributes: map<Attribute, int>, g: AttributeGroup, d: Defense): (r: Defense)
    requires ConfigComplete(cfg) && AttributesComplete(attributes)
    ensures r.bonus == d.bonus
    ensures (forall a :: 0 <= attributes[a] <= 5) ==>
      10 + d.bonus <= r.value <= 10 + 5 * |cfg.attributeGroups[g]| + d.bonus
  {
    d.(value := 10 + AttributeSum(cfg.attributeGroups[g], attributes) + d.bonus)
  }

  /** One resource: a new max for Health and Focus, the old max otherwise, and the value
      clamped into it; bonus and deflect are kept. */
  function DeriveResource(attributes: map<Attribute, int>, k: Resource, r: ResourceState): (r': ResourceState)
    requires AttributesComplete(attributes)
    ensures r'.bonus == r.bonus && r'.deflect == r.deflect
    ensures k != Health && k != Focus ==> r'.max == r.max
    ensures r'.value == Clamp(r.value, r'.max)
    ensures r'.value >= 0 && (r'.max >= 0 ==> r'.value <= r'.max)
  {
    var max :=
      if k == Health then 10 + attributes[Strength] + r.bonus
      else if k == Focus then 2 + attributes[Willpower] + r.bonus
      else r.max;
    r.(max := max, value := Clamp(r.value, max))
  }

  /** One skill: rank and stored attribute are kept; with its attribute value and rank
      both in 0..5 the modifier lies in 0..10. */
  function DeriveSkill(cfg: Config, attributes: map<Attribute, int>, s: Skill, st: SkillState): (r: SkillState)
    requires ConfigComplete(cfg) && AttributesComplete(attributes)
    ensures r.rank == st.rank && r.attribute == st.attribute
    ensures 0 <= attributes[cfg.skills[s]] <= 5 && 0 <= st.rank <= 5 ==> 0 <= r.mod <= 10
  {
    st.(mod := attributes[cfg.skills[s]] + st.rank)
  }

  /** One derivation pass over a snapshot: it keeps the stored attributes and the key
      set of every keyed collection. */
  function Derive(d: ActorData, cfg: Config): (r: ActorData)
    requires ConfigComplete(cfg) && AttributesComplete(d.attributes)
    ensures r.attributes == d.attributes
    ensures r.defenses.Keys == d.defenses.Keys
    ensures r.resources.Keys == d.resources.Keys
    ensures r.skills.Keys == d.skills.Keys
  {
    var awareness := d.attributes[Awareness];
    d.(senses := Senses(AwarenessToSensesRange(awareness), awareness < 9),
       defenses := map g | g in d.defenses :: DeriveDefense(cfg, d.attributes, g, d.defenses[g]),
       resources := map k | k in d.resources :: DeriveResource(d.attributes, k, d.resources[k]),
       skills := map s | s in d.skills :: DeriveSkill(cfg, d.attributes, s, d.skills[s]),
       movement := Movement(SpeedToMovementRate(d.attributes[Speed])),
       encumbrance := Encumbrance(StrengthToLiftingCapacity(d.attributes[Strength]),
                                  StrengthToCarryingCapacity(d.attributes[Strength])))
  }

  // ================================================================ Properties of the pass

  /** Senses: the range is the awareness lookup, and the obscured flag is set exactly
      when awareness is below 9, so always under the stored bound. */
  lemma SensesDerived(d: ActorData, cfg: Config)
    requires ConfigComplete(cfg) && AttributesComplete(d.attributes)
    ensures Derive(d, cfg).senses.range == AwarenessToSensesRange(d.attributes[Awareness])
    ensures Derive(d, cfg).senses.obscuredAffected <==> d.attributes[Awareness] < 9
    ensures StoredBounds(d) ==> Derive(d, cfg).senses.obscuredAffected
  {
  }

  /** Defenses: each group present gets 10 + the sum of its configured attributes + its bonus. */
  lemma DefensesDerived(d: ActorData, cfg: Config)
    requires ConfigComplete(cfg) && AttributesComplete(d.attributes)
    ensures Derive(d, cfg).defenses.Keys == d.defenses.Keys
    ensures forall g :: g in d.defenses ==>
      Derive(d, cfg).defenses[g]
        == Defense(10 + AttributeSum(cfg.attributeGroups[g], d.attributes) + d.defenses[g].bonus, d.defenses[g].bonus)
  {
  }

  /** A group's defense depends only on its own bonus and the values of its own attributes. */
  lemma DefenseIsLocal(d1: ActorData, d2: ActorData, cfg: Config, g: AttributeGroup)
    requires ConfigComplete(cfg) && AttributesComplete(d1.attributes) && AttributesComplete(d2.attributes)
    requires g in d1.defenses && g in d2.defenses
    requires d1.defenses[g].bonus == d2.defenses[g].bonus
    requires forall a :: a in cfg.attributeGroups[g] ==> d1.attributes[a] == d2.attributes[a]
    ensures Derive(d1, cfg).defenses[g].value == Derive(d2, cfg).defenses[g].value
  {
    AttributeSumReadsListed(cfg.attributeGroups[g], d1.attributes, d2.attributes);
  }

  /** Resource maxima: Health 10 + strength + bonus, Focus 2 + willpower + bonus,
      every other resource keeps its max; bonus and deflect are kept. */
  lemma ResourceMaximaDerived(d: ActorData, cfg: Config)
    requires ConfigComplete(cfg) && AttributesComplete(d.attributes)
    ensures Derive(d, cfg).resources.Keys == d.resources.Keys
    ensures Health in d.resources ==>
      Derive(d, cfg).resources[Health].max == 10 + d.attributes[Strength] + d.resources[Health].bonus
    ensures Focus in d.resources ==>
      Derive(d, cfg).resources[Focus].max == 2 + d.attributes[Willpower] + d.resources[Focus].bonus
    ensures forall k :: k in d.resources && k != Health && k != Focus ==>
      Derive(d, cfg).resources[k].max == d.resources[k].max
    ensures forall k :: k in d.resources ==>
      Derive(d, cfg).resources[k].bonus == d.resources[k].bonus
      && Derive(d, cfg).resources[k].deflect == d.resources[k].deflect
  {
  }

  /** Resource clamp: afterwards every value is non-negative and at most a non-negative
      max; a value already within [0, max] is left as it was. */
  lemma ResourcesClamped(d: ActorData, cfg: Config)
    requires ConfigComplete(cfg) && AttributesComplete(d.attributes)
    ensures forall k :: k in d.resources ==>
      var r := Derive(d, cfg).resources[k];
      && r.value >= 0
      && (r.max >= 0 ==> r.value <= r.max)
      && (0 <= d.resources[k].value <= r.max ==> r.value == d.resources[k].value)
      && r.value == Clamp(d.resources[k].value, r.max)
  {
  }

  /** Skill modifiers: the value of the attribute the catalogue assigns to the skill,
      plus the rank. */
  lemma SkillModifiersDerived(d: ActorData, cfg: Config)
    requires ConfigComplete(cfg) && AttributesComplete(d.attributes)
    ensures Derive(d, cfg).skills.Keys == d.skills.Keys
    ensures forall s :: s in d.skills ==>
      Derive(d, cfg).skills[s].mod == d.attributes[cfg.skills[s]] + d.skills[s].rank
  {
  }

  /** The stored `attribute` of a skill is not what the modifier is computed from. */
  lemma SkillModifierIgnoresStoredAttribute(d: ActorData, cfg: Config, s: Skill, other: Attribute)
    requires ConfigComplete(cfg) && AttributesComplete(d.attributes)
    requires s in d.skills
    ensures Derive(d.(skills := d.skills[s := d.skills[s].(attribute := other)]), cfg).skills[s].mod
         == Derive(d, cfg).skills[s].mod
  {
  }

  /** Movement rate and encumbrance come from the speed and strength lookups. */
  lemma MovementAndEncumbranceDerived(d: ActorData, cfg: Config)
    requires ConfigComplete(cfg) && AttributesComplete(d.attributes)
    ensures Derive(d, cfg).movement.rate == SpeedToMovementRate(d.attributes[Speed])
    ensures Derive(d, cfg).encumbrance.lift == StrengthToLiftingCapacity(d.attributes[Strength])
    ensures Derive(d, cfg).encumbrance.carry == StrengthToCarryingCapacity(d.attributes[Strength])
  {
  }

  /** Within the stored bounds every derived lookup is defined, and a resource that
      the pass gives a formula ends with a non-negative max when its bonus is non-negative. */
  lemma DerivedStatisticsDefined(d: ActorData, cfg: Config)
    requires ConfigComplete(cfg) && AttributesComplete(d.attributes) && StoredBounds(d)
    ensures Derive(d, cfg).senses.range.Some? && Derive(d, cfg).senses.range.value.Feet?
    ensures Derive(d, cfg).movement.rate.Some?
    ensures Derive(d, cfg).encumbrance.lift.Some? && Derive(d, cfg).encumbrance.carry.Some?
    ensures forall k :: k in d.resources && d.resources[k].bonus >= 0 ==> Derive(d, cfg).resources[k].max >= 0
  {
  }

  /** The pass never changes a stored input: attribute values, defense bonuses,
      resource bonuses and deflect, skill ranks and stored skill attributes. */
  lemma DeriveKeepsStoredFields(d: ActorData, cfg: Config)
    requires ConfigComplete(cfg) && AttributesComplete(d.attributes)
    ensures Derive(d, cfg).attributes == d.attributes
    ensures Derive(d, cfg).defenses.Keys == d.defenses.Keys
    ensures forall g :: g in d.defenses ==> Derive(d, cfg).defenses[g].bonus == d.defenses[g].bonus
    ensures Derive(d, cfg).resources.Keys == d.resources.Keys
    ensures forall k :: k in d.resources ==>
      Derive(d, cfg).resources[k].bonus == d.resources[k].bonus
      && Derive(d, cfg).resources[k].deflect == d.resources[k].deflect
    ensures Derive(d, cfg).skills.Keys == d.skills.Keys
    ensures forall s :: s in d.skills ==>
      Derive(d, cfg).skills[s].rank == d.skills[s].rank
      && Derive(d, cfg).skills[s].attribute == d.skills[s].attribute
  {
  }

  /** Re-deriving a derived resource changes nothing: the max is recomputed from the
      same stored fields, and a clamped value is already clamped. */
  lemma DeriveResourceIdempotent(attributes: map<Attribute, int>, k: Resource, r: ResourceState)
    requires AttributesComplete(attributes)
    ensures DeriveResource(attributes, k, DeriveResource(attributes, k, r)) == DeriveResource(attributes, k, r)
  {
  }

  /** Running the pass a second time changes nothing. */
  lemma DeriveIdempotent(d: ActorData, cfg: Config)
    requires ConfigComplete(cfg) && AttributesComplete(d.attributes)
    ensures AttributesComplete(Derive(d, cfg).attributes)
    ensures Derive(Derive(d, cfg), cfg) == Derive(d, cfg)
  {
    var once := Derive(d, cfg);
    var twice := Derive(once, cfg);
    assert once.attributes == d.attributes;
    forall k | k in once.resources
      ensures twice.resources[k] == once.resources[k]
    {
      DeriveResourceIdempotent(d.attributes, k, d.resources[k]);
    }
    assert twice.resources == once.resources;
    assert twice.defenses == once.defenses;
    assert twice.skills == once.skills;
  }

  // ================================================================ The actor object

  /** The actor's data object; `PrepareDerivedData` overwrites its derived fields in place. */
  class CommonActor {
    var senses: Senses
    var attributes: map<Attribute, int>
    var defenses: map<AttributeGroup, Defense>
    var resources: map<Resource, ResourceState>
    var skills: map<Skill, SkillState>
    var movement: Movement
    var encumbrance: Encumbrance

    ghost predicate Valid()
      reads this
    {
      AttributesComplete(attributes)
    }

    ghost function Data(): ActorData
      reads this
    {
      ActorData(senses, attributes, defenses, resources, skills, movement, encumbrance)
    }

    constructor (d: ActorData)
      requires AttributesComplete(d.attributes)
      ensures Valid() && Data() == d
    {
      senses, attributes, defenses, resources := d.senses, d.attributes, d.defenses, d.resources;
      skills, movement, encumbrance := d.skills, d.movement, d.encumbrance;
    }

    /** The derivation pass. Each map is visited key by key, in no particular order:
        every key's update reads only stored fields, so the order does not matter. */
    method PrepareDerivedData(cfg: Config)
      requires Valid() && ConfigComplete(cfg)
      modifies this
      ensures Valid()
      ensures Data() == Derive(old(Data()), cfg)
    {
      senses := senses.(range := AwarenessToSensesRange(attributes[Awareness]));
      senses := senses.(obscuredAffected := attributes[Awareness] < 9);

      DeriveDefenses(cfg);
      DeriveResources();
      DeriveSkills(cfg);

      movement := movement.(rate := SpeedToMovementRate(attributes[Speed]));
      encumbrance := encumbrance.(lift := StrengthToLiftingCapacity(attributes[Strength]));
      encumbrance := encumbrance.(carry := StrengthToCarryingCapacity(attributes[Strength]));
    }

    /** Defenses: each stored group gets 10 + the sum of its configured attributes + its bonus. */
    method DeriveDefenses(cfg: Config)
      requires Valid() && ConfigComplete(cfg)
      modifies this`defenses
      ensures defenses == map g | g in old(defenses) :: DeriveDefense(cfg, attributes, g, old(defenses)[g])
    {
      var groups := defenses.Keys;
      while groups != {}
        invariant groups <= defenses.Keys == old(defenses).Keys
        invariant forall g :: g in groups ==> defenses[g] == old(defenses)[g]
        invariant forall g :: g in defenses && g !in groups ==>
          defenses[g] == DeriveDefense(cfg, attributes, g, old(defenses)[g])
        decreases groups
      {
        var g :| g in groups;
        var bonus := defenses[g].bonus;
        var attrsSum := AttributeSum(cfg.attributeGroups[g], attributes);
        defenses := defenses[g := defenses[g].(value := 10 + attrsSum + bonus)];
        groups := groups - {g};
      }
    }

    /** Resource maxima for Health and Focus, then the clamp of every resource's value. */
    method DeriveResources()
      requires Valid()
      modifies this`resources
      ensures resources == map k | k in old(resources) :: DeriveResource(attributes, k, old(resources)[k])
    {
      var keys := resources.Keys;
      while keys != {}
        invariant keys <= resources.Keys == old(resources).Keys
        invariant forall k :: k in keys ==> resources[k] == old(resources)[k]
        invariant forall k :: k in resources && k !in keys ==>
          resources[k] == DeriveResource(attributes, k, old(resources)[k])
        decreases keys
      {
        var k :| k in keys;
        var resource := resources[k];
        if k == Health {
          resource := resource.(max := 10 + attributes[Strength] + resource.bonus);
        } else if k == Focus {
          resource := resource.(max := 2 + attributes[Willpower] + resource.bonus);
        }
        resource := resource.(value := Clamp(resource.value, resource.max));
        resources := resources[k := resource];
        keys := keys - {k};
      }
    }

    /** Skill modifiers, from the governing attribute the catalogue names. */
    method DeriveSkills(cfg: Config)
      requires Valid() && ConfigComplete(cfg)
      modifies this`skills
      ensures skills == map s | s in old(skills) :: DeriveSkill(cfg, attributes, s, old(skills)[s])
    {
      var todo := skills.Keys;
      while todo != {}
        invariant todo <= skills.Keys == old(skills).Keys
        invariant forall s :: s in todo ==> skills[s] == old(skills)[s]
        invariant forall s :: s in skills && s !in todo ==>
          skills[s] == DeriveSkill(cfg, attributes, s, old(skills)[s])
        decreases todo
      {
        var s :| s in todo;
        var attribute := cfg.skills[s];
        var rank := skills[s].rank;
        skills := skills[s := skills[s].(mod := attributes[attribute] + rank)];
        todo := todo - {s};
      }
    }
  }
}
