# Cosmere RPG character data: derived statistics and weapon hold type

A Dafny model of three pieces of the Cosmere RPG game system for the Foundry virtual
tabletop:

- `cosmere.dfy` (module `Cosmere`): the closed enumerations of attribute groups,
  attributes, resources, skills and derived statistics, each with its string code and
  a decoder from the code back to the member.
- `actor.dfy` (module `Actor`): the actor's derived-statistics pass. From the stored
  attribute values, defense and resource bonuses, resource values and skill ranks it
  computes the senses range and the "affected by obscured" flag, one defense per
  attribute group, the Health and Focus maxima, the clamp of every resource's value,
  the skill modifiers, the movement rate and the lifting and carrying capacities.
  `CommonActor` is the actor's data object and `PrepareDerivedData` overwrites its
  derived fields in place, one loop per keyed collection. `Derive` is the same pass as a
  pure function on a snapshot (`ActorData`); the method is proved to produce exactly
  `Derive` of its old state, and the properties are lemmas about `Derive`.
- `weapon.dfy` (module `Weapon`): the weapon's hold-type derivation. An active
  two-handed trait makes the weapon two-handed. Otherwise the weapon is one-handed and
  an unset hand defaults to the main hand.
- `wrappers.dfy` (module `Wrappers`): `Option`.

The global configuration catalogue is an explicit, read-only `Config` parameter. It
holds two maps: attribute group to the list of its attributes, and skill to its
governing attribute. `ConfigComplete` says both are total. The stored attribute map
must hold every attribute (`AttributesComplete`), as the schema creates one entry per
attribute. The pass visits the keys that are present in the stored defense, resource
and skill maps, as `Object.keys` does. It visits them in no fixed order, because each
key's update reads only stored fields.

The four table lookups read `table[min(ceil(x / 2), table.length)]`. That index equals
the table length, one past the last entry, for every x >= 11. JavaScript then reads
`undefined`, and so does a negative index (x <= -2). The model returns `None` in
both cases: the boundary is reproduced, not corrected. `ceil(x / 2)` of an integer is
`(x + 1) / 2` with Dafny's division, which rounds down for a positive divisor. The
`Number.MAX_VALUE` entry of the senses table is the `Unbounded` range.

The pass itself takes stored values as they come. The bounds the schema enforces are a
separate predicate, `StoredBounds`: attribute values and ranks in 0..5, resource
values, maxima and deflect non-negative. The lemmas that rely on those bounds take it as
a hypothesis.

Two behaviours of the code are easy to miss:
- The clamp is `max(0, min(max, value))`. When a Health or Focus maximum comes out
  negative (a negative bonus), the value becomes 0 and so exceeds the maximum. The
  model states `value <= max` only for a non-negative `max`.
- There is no explicit failure path for a missing attribute. The requires clause
  `AttributesComplete` makes that case impossible instead.

## Model

| member | source | states |
|---|---|---|
| `Cosmere.AttributeGroupFromCode` | src/system/types/cosmere.ts:1-5 | decoding a string yields a group exactly when that string is the group's code, and None for every other string |
| `Cosmere.AttributeGroupsEnumerated` | src/system/types/cosmere.ts:1-5 | there are exactly three groups, `phy`, `cog` and `spi`, with pairwise-distinct codes |
| `Cosmere.AttributeGroupRoundTrip` | src/system/types/cosmere.ts:1-5 | decoding a group's code gives that group back |
| `Cosmere.AttributeFromCode` | src/system/types/cosmere.ts:7-14 | decoding yields an attribute exactly when the string is its code |
| `Cosmere.AttributesEnumerated` | src/system/types/cosmere.ts:7-14 | there are exactly six attributes with distinct codes; `str`, `spd`, `wil` and `awa` decode to Strength, Speed, Willpower and Awareness |
| `Cosmere.AttributeRoundTrip` | src/system/types/cosmere.ts:7-14 | decoding an attribute's code gives that attribute back |
| `Cosmere.ResourceFromCode` | src/system/types/cosmere.ts:16-20 | decoding yields a resource exactly when the string is its code |
| `Cosmere.ResourcesEnumerated` | src/system/types/cosmere.ts:16-20 | there are exactly three resources with distinct codes; `hea` is Health and `foc` is Focus |
| `Cosmere.ResourceRoundTrip` | src/system/types/cosmere.ts:16-20 | decoding a resource's code gives that resource back |
| `Cosmere.SkillFromCode` | src/system/types/cosmere.ts:22-43 | decoding yields a skill exactly when the string is its code |
| `Cosmere.SkillsEnumerated` | src/system/types/cosmere.ts:22-43 | there are exactly eighteen skills with pairwise-distinct codes |
| `Cosmere.SkillRoundTrip` | src/system/types/cosmere.ts:22-43 | decoding a skill's code gives that skill back |
| `Cosmere.DerivedStatisticFromCode` | src/system/types/cosmere.ts:45-49 | decoding yields a derived statistic exactly when the string is its code |
| `Cosmere.DerivedStatisticsEnumerated` | src/system/types/cosmere.ts:45-49 | there are exactly three derived statistics, `mvr`, `lif` and `rcd`, with distinct codes |
| `Cosmere.DerivedStatisticRoundTrip` | src/system/types/cosmere.ts:45-49 | decoding a derived statistic's code gives it back |
| `Actor.CeilHalf` | src/system/data/actor/common.ts:226 | the result c is the ceiling of x/2: 2c - 1 <= x <= 2c |
| `Actor.TableIndex` | src/system/data/actor/common.ts:224-242 | the index never exceeds the table length n; below n it is ceil(x/2); it equals n exactly when x >= 2n - 1 |
| `Actor.Lookup` | src/system/data/actor/common.ts:224-242 | a lookup is defined exactly when -1 <= x <= 2n - 2, and then it reads the entry at the clamped index |
| `Actor.LookupsPastTable` | src/system/data/actor/common.ts:224-242 | from x = 11 upwards the index is 6, one past the end, and all four lookups are undefined |
| `Actor.LookupsOnStoredRange` | src/system/data/actor/common.ts:224-242 | for an attribute value in the stored bound 0..5 the index lies in 0..3, all four lookups are defined, and the senses range is finite |
| `Actor.LookupMonotone` | src/system/data/actor/common.ts:224-242 | a lookup into a table ascending under a relation is non-decreasing in x wherever it is defined |
| `Actor.LookupsMonotone` | src/system/data/actor/common.ts:224-242 | on 0..5 the senses range, movement rate, lifting and carrying capacity are non-decreasing in their attribute |
| `Actor.LookupsAtFive` | src/system/data/actor/common.ts:224-242 | speed 5 gives rate 40, strength 5 gives lift 1000 and carry 500, awareness 5 gives range 50 |
| `Actor.AwarenessToSensesRange` | src/system/data/actor/common.ts:224-227 | the senses range is defined exactly for awareness -1..10, and is the unbounded entry exactly from awareness 9 upwards |
| `Actor.SpeedToMovementRate` | src/system/data/actor/common.ts:229-232 | the movement rate is defined exactly for speed -1..10, and lies between 20 and 80 there |
| `Actor.StrengthToLiftingCapacity` | src/system/data/actor/common.ts:234-237 | the lifting capacity is defined exactly for strength -1..10, and lies between 100 and 10000 there |
| `Actor.StrengthToCarryingCapacity` | src/system/data/actor/common.ts:239-242 | the carrying capacity is defined exactly for strength -1..10, lies between 50 and 5000 there, and is always half the lifting capacity |
| `Actor.AttributeSum` | src/system/data/actor/common.ts:158-166 | when every listed value is in 0..5, the sum lies between 0 and 5 times the number of listed attributes |
| `Actor.AttributeSumReadsListed` | src/system/data/actor/common.ts:158-166 | the sum depends only on the values of the listed attributes |
| `Actor.Clamp` | src/system/data/actor/common.ts:193 | the result is non-negative; at most max when max >= 0; equal to the value when it is already in [0, max]; 0 when value or max is negative; max when 0 <= max < value |
| `Actor.DeriveDefense` | src/system/data/actor/common.ts:153-170 | one group's step keeps the bonus; with attribute values in 0..5 the value lies between 10 + bonus and 10 + 5 per configured attribute + bonus (the exact formula is `DefensesDerived`) |
| `Actor.DeriveResource` | src/system/data/actor/common.ts:174-194 | one resource's step keeps bonus and deflect, keeps the max of every resource other than Health and Focus, and sets the value to the clamp of the old value into the new max, so 0 <= value and value <= a non-negative max |
| `Actor.DeriveSkill` | src/system/data/actor/common.ts:198-213 | one skill's step keeps the rank and the stored attribute; with the governing attribute's value and the rank in 0..5 the modifier lies in 0..10 (the exact formula is `SkillModifiersDerived`) |
| `Actor.Derive` | src/system/data/actor/common.ts:143-221 | the whole pass on a snapshot keeps the stored attributes and every collection's key set; the lemmas below state each derived field, the frame and idempotence |
| `Actor.SensesDerived` | src/system/data/actor/common.ts:148-149 | the range is the awareness lookup; the obscured flag holds exactly when awareness < 9, so always under the stored bounds |
| `Actor.DefensesDerived` | src/system/data/actor/common.ts:152-170 | every stored group gets value 10 + the sum of its configured attributes + its bonus, and keeps its bonus |
| `Actor.DefenseIsLocal` | src/system/data/actor/common.ts:152-170 | two actors that agree on a group's bonus and on that group's attribute values get the same defense for it |
| `Actor.ResourceMaximaDerived` | src/system/data/actor/common.ts:173-190 | Health max = 10 + strength + bonus, Focus max = 2 + willpower + bonus, every other resource keeps its max; bonus and deflect are kept |
| `Actor.ResourcesClamped` | src/system/data/actor/common.ts:192-193 | after the pass every resource value is `max(0, min(max, value))` of its old value and the new max: >= 0, at most a non-negative max, and unchanged when already in [0, max] |
| `Actor.SkillModifiersDerived` | src/system/data/actor/common.ts:197-213 | every stored skill's modifier is the value of the attribute the catalogue assigns to it, plus its rank |
| `Actor.SkillModifierIgnoresStoredAttribute` | src/system/data/actor/common.ts:199-212 | changing the skill's stored `attribute` field does not change its modifier |
| `Actor.MovementAndEncumbranceDerived` | src/system/data/actor/common.ts:215-220 | the movement rate is the speed lookup; lift and carry are the strength lookups |
| `Actor.DerivedStatisticsDefined` | src/system/data/actor/common.ts:143-221 | under the stored bounds every lookup result is defined and finite, and a Health, Focus or other resource with a non-negative bonus gets a non-negative max |
| `Actor.DeriveKeepsStoredFields` | src/system/data/actor/common.ts:143-221 | the pass never changes attribute values, defense bonuses, resource bonuses and deflect, skill ranks, stored skill attributes, or the key sets |
| `Actor.DeriveResourceIdempotent` | src/system/data/actor/common.ts:174-194 | re-deriving an already derived resource leaves it unchanged |
| `Actor.DeriveIdempotent` | src/system/data/actor/common.ts:143-221 | running the pass on its own result gives the same state again |
| `Actor.CommonActor.PrepareDerivedData` | src/system/data/actor/common.ts:143-221 | updates the actor in place so that its new state is exactly `Derive` of the old state and the catalogue |
| `Actor.CommonActor.DeriveDefenses` | src/system/data/actor/common.ts:151-170 | the loop over the stored groups leaves every defense derived and no other field touched |
| `Actor.CommonActor.DeriveResources` | src/system/data/actor/common.ts:172-194 | the loop over the stored resources leaves every max derived and every value clamped, and no other field touched |
| `Actor.CommonActor.DeriveSkills` | src/system/data/actor/common.ts:196-213 | the loop over the stored skills leaves every modifier derived and no other field touched |
| `Weapon.ActiveTraits` | src/system/data/item/weapon.ts:70 | every active trait occurs in the result exactly as often as in the input, and no inactive trait occurs in it |
| `Weapon.SomeTwoHanded` | src/system/data/item/weapon.ts:73-75 | true exactly when some trait in the list has the two-handed id |
| `Weapon.TwoHandedActive` | src/system/data/item/weapon.ts:70-75 | true exactly when some trait is both active and two-handed |
| `Weapon.DeriveEquip` | src/system/data/item/weapon.ts:77-83 | the hold is two-handed exactly when an active two-handed trait exists and one-handed otherwise; the hand changes only from unset to Main, and only on a one-handed weapon |
| `Weapon.TwoHandedKeepsHand` | src/system/data/item/weapon.ts:78-79 | with an active two-handed trait the hold becomes two-handed and the hand, set or unset, is left as it was |
| `Weapon.OneHandedDefaultsHand` | src/system/data/item/weapon.ts:80-82 | otherwise the hold becomes one-handed, an unset hand becomes Main, and a set hand is kept |
| `Weapon.HoldIsResolved` | src/system/data/item/weapon.ts:77-83 | afterwards the hold is one- or two-handed, and a one-handed weapon has a hand |
| `Weapon.InactiveTraitIgnored` | src/system/data/item/weapon.ts:70-75 | inserting an inactive trait anywhere, a two-handed one included, does not change the result |
| `Weapon.TraitOrderIrrelevant` | src/system/data/item/weapon.ts:70-75 | any reordering of the traits gives the same result |
| `Weapon.DeriveEquipIdempotent` | src/system/data/item/weapon.ts:66-84 | deriving twice gives the same equip as deriving once |
| `Weapon.WeaponItem.PrepareDerivedData` | src/system/data/item/weapon.ts:66-84 | writes only `equip`, leaves `traits` as it was, and sets `equip` to the derivation of the old equip and the traits |

## Left out

- Schema construction (`defineSchema` and the four `get...Schema` helpers of
  src/system/data/actor/common.ts, and the weapon's `defineSchema`): these build the
  host's field descriptors. Only their numeric bounds are kept, as `StoredBounds`.
- The defense `value` field is declared with a maximum of 5, but the pass always writes
  at least 10 + bonus. The model does not reconcile the two. It keeps the code's
  formula and does not bound the defense value.
- The mixin composition of the weapon data model (identity, typed, description,
  equippable, activatable, attacking, damaging, expertise, traits and physical
  fragments, with lazy `choices` closures). Their source is not part of this model. The
  parent `prepareDerivedData` they chain into is taken to leave `traits` and `equip`
  alone.
- The actor's parent `prepareDerivedData` call (host code), taken to touch none of the
  fields the pass reads or writes.
- The global `CONFIG.COSMERE` catalogue: replaced by the explicit `Config` parameter.
  Only the two maps the pass reads are modelled.
- Failure on a missing key (a JavaScript `TypeError`): excluded by the requires clauses
  `ConfigComplete` and `AttributesComplete`, so no error path is modelled.
- `Number.MAX_VALUE` is the `Unbounded` senses range, not a floating-point number. No
  other floating-point behaviour is modelled: every stored number is an integer, as the
  schema requires.
- The order in which `Object.keys` lists the keys: each key's update is independent, so
  the loops take keys in any order.
- The full definitions of the weapon trait, hold-type and hand enumerations are not in
  the modelled source files. `Weapon` declares each with the members the derivation
  names (`TwoHanded`, `OneHanded`, `Main`) and one constructor standing for all other
  members.
- The actor sheet (src/system/applications/actor/base-sheet.ts): presentation only.
  Its alphabetical sort depends on the locale's collation.
