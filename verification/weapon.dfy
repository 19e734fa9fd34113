/**
 * The weapon's hold-type derivation (src/system/data/item/weapon.ts): whether the
 * weapon is held in one hand or two follows from its active traits, and a one-handed
 * weapon with no hand chosen yet gets the main hand.
 *
 * The trait, hold-type and hand enumerations are declared elsewhere in the system;
 * here each has the members this derivation names and one constructor for all the
 * others.
 */
module Weapon {
  import opened Wrappers

  datatype WeaponTraitId = TwoHanded | OtherTrait(name: string)
  datatype HoldType = OneHanded | TwoHanded | OtherHold(name: string)
  datatype EquipHand = Main | OtherHand(name: string)

  datatype WeaponTrait = WeaponTrait(id: WeaponTraitId, active: bool)
  /** `hand` is optional: None until a hand has been chosen. */
  datatype Equip = Equip(hold: HoldType, hand: Option<EquipHand>)

  /** `traits.filter(trait => trait.active)`: the active traits, in their order. */
  function ActiveTraits(traits: seq<WeaponTrait>): (r: seq<WeaponTrait>)
    ensures forall t :: multiset(r)[t] == if t.active then multiset(traits)[t] else 0
    ensures forall t :: t in r <==> t in traits && t.active
  {
    if traits == [] then []
    else
      assert traits == [traits[0]] + traits[1..];
      (if traits[0].active then [traits[0]] else []) + ActiveTraits(traits[1..])
  }

  /** `traits.some(trait => trait.id === WeaponTraitId.TwoHanded)`. */
  function SomeTwoHanded(traits: seq<WeaponTrait>): (b: bool)
    ensures b <==> exists t :: t in traits && t.id == WeaponTraitId.TwoHanded
  {
    if traits == [] then false
    else traits[0].id == WeaponTraitId.TwoHanded || SomeTwoHanded(traits[1..])
  }

  /** Whether some trait that is switched on is the two-handed trait. */
  function TwoHandedActive(traits: seq<WeaponTrait>): (b: bool)
    ensures b <==> exists t :: t in traits && t.active && t.id == WeaponTraitId.TwoHanded
  {
    SomeTwoHanded(ActiveTraits(traits))
  }

  /** The derivation on values: the new `equip` from the traits and the old `equip`. */
  function DeriveEquip(traits: seq<WeaponTrait>, equip: Equip): (r: Equip)
    ensures r.hold == HoldType.TwoHanded <==> TwoHandedActive(traits)
    ensures r.hold != HoldType.TwoHanded ==> r.hold == OneHanded
    ensures r.hand != equip.hand ==> equip.hand == None && r.hand == Some(Main) && r.hold == OneHanded
  {
    if TwoHandedActive(traits) then equip.(hold := HoldType.TwoHanded)
    else equip.(hold := OneHanded, hand := if equip.hand.None? then Some(Main) else equip.hand)
  }

  /** With an active two-handed trait the weapon is held two-handed, and the hand,
      set or unset, stays as it was. */
  lemma TwoHandedKeepsHand(traits: seq<WeaponTrait>, equip: Equip)
    requires exists t :: t in traits && t.active && t.id == WeaponTraitId.TwoHanded
    ensures DeriveEquip(traits, equip) == Equip(HoldType.TwoHanded, equip.hand)
  {
  }

  /** Without one the weapon is held one-handed; an unset hand becomes the main hand
      and a hand already chosen is kept. */
  lemma OneHandedDefaultsHand(traits: seq<WeaponTrait>, equip: Equip)
    requires forall t :: t in traits && t.active ==> t.id != WeaponTraitId.TwoHanded
    ensures DeriveEquip(traits, equip).hold == OneHanded
    ensures equip.hand.None? ==> DeriveEquip(traits, equip).hand == Some(Main)
    ensures equip.hand.Some? ==> DeriveEquip(traits, equip).hand == equip.hand
  {
  }

  /** Afterwards the weapon is held in one hand or two, and a one-handed weapon has a hand. */
  lemma HoldIsResolved(traits: seq<WeaponTrait>, equip: Equip)
    ensures DeriveEquip(traits, equip).hold in {OneHanded, HoldType.TwoHanded}
    ensures DeriveEquip(traits, equip).hold == OneHanded ==> DeriveEquip(traits, equip).hand.Some?
  {
  }

  /** Inserting an inactive trait anywhere, a two-handed one included, changes nothing. */
  lemma InactiveTraitIgnored(traits: seq<WeaponTrait>, k: nat, t: WeaponTrait, equip: Equip)
    requires k <= |traits| && !t.active
    ensures DeriveEquip(traits[..k] + [t] + traits[k..], equip) == DeriveEquip(traits, equip)
  {
  }

  /** The order of the traits does not matter. */
  lemma TraitOrderIrrelevant(traits: seq<WeaponTrait>, reordered: seq<WeaponTrait>, equip: Equip)
    requires multiset(traits) == multiset(reordered)
    ensures DeriveEquip(reordered, equip) == DeriveEquip(traits, equip)
  {
    assert forall u :: u in traits <==> u in reordered by {
      forall u ensures u in traits <==> u in reordered {
        assert u in traits <==> u in multiset(traits);
        assert u in reordered <==> u in multiset(reordered);
      }
    }
  }

  /** Deriving twice is deriving once. */
  lemma DeriveEquipIdempotent(traits: seq<WeaponTrait>, equip: Equip)
    ensures DeriveEquip(traits, DeriveEquip(traits, equip)) == DeriveEquip(traits, equip)
  {
  }

  /** The weapon item's data object; only `equip` is written by the derivation. */
  class WeaponItem {
    var traits: seq<WeaponTrait>
    var equip: Equip

    constructor (traits: seq<WeaponTrait>, equip: Equip)
      ensures this.traits == traits && this.equip == equip
    {
      this.traits := traits;
      this.equip := equip;
    }

    method PrepareDerivedData()
      modifies this`equip
      ensures traits == old(traits)
      ensures equip == DeriveEquip(traits, old(equip))
    {
      var activeTraits := ActiveTraits(traits);
      var twoHandedActive := SomeTwoHanded(activeTraits);
      if twoHandedActive {
        equip := equip.(hold := HoldType.TwoHanded);
      } else {
        equip := equip.(hold := OneHanded);
        if equip.hand.None? {
          equip := equip.(hand := Some(Main));
        }
      }
    }
  }
}
