/**
 * The inventory, the shop and the item factory of the RPG (inventory_system.py).
 *
 * An `Inventory` holds a list of items under a weight bound and keeps a
 * running total of their weight; the `Shop` sells from a fixed catalogue
 * into an inventory and buys back at half price; the item factory builds
 * weapons, potions and materials from small tables.
 */
module InventorySystem {
  import opened Wrappers
  import opened Seqs
  import opened Text

  /** An item; `stats` is the dictionary of named bonuses (`{}` when none is given). */
  datatype Item = Item(
    id: string,
    name: string,
    description: string,
    itemType: string,
    value: int,
    weight: real,
    rarity: string,
    stats: map<string, int>)

  // ---------------------------------------------------------------------------
  // Sums and searches over a list of items
  // ---------------------------------------------------------------------------

  /** The weight of all items together. */
  function Weight(items: seq<Item>): real
  {
    if items == [] then 0.0 else items[0].weight + Weight(items[1..])
  }

  lemma {:induction false} WeightAppend(a: seq<Item>, b: seq<Item>)
    ensures Weight(a + b) == Weight(a) + Weight(b)
    decreases |a|
  {
    if a == [] {
      assert a + b == b;
    } else {
      assert (a + b)[1..] == a[1..] + b;
      WeightAppend(a[1..], b);
    }
  }

  /** Taking out the item at position k lowers the weight by exactly its weight. */
  lemma WeightRemoveAt(s: seq<Item>, k: nat)
    requires k < |s|
    ensures Weight(s[..k] + s[k + 1..]) == Weight(s) - s[k].weight
  {
    assert s == s[..k] + ([s[k]] + s[k + 1..]);
    assert ([s[k]] + s[k + 1..])[1..] == s[k + 1..];
    WeightAppend(s[..k], [s[k]] + s[k + 1..]);
    WeightAppend(s[..k], s[k + 1..]);
  }

  /** `sum(item.value for item in items)`. */
  function ValueSum(items: seq<Item>): int
  {
    if items == [] then 0 else items[0].value + ValueSum(items[1..])
  }

  /** The total value of two lists side by side is the sum of their totals. */
  lemma {:induction false} ValueSumAppend(a: seq<Item>, b: seq<Item>)
    ensures ValueSum(a + b) == ValueSum(a) + ValueSum(b)
    decreases |a|
  {
    if a == [] {
      assert a + b == b;
    } else {
      assert (a + b)[1..] == a[1..] + b;
      ValueSumAppend(a[1..], b);
    }
  }

  /** The position of the first item whose id is `id`, if any. */
  function FindId(items: seq<Item>, id: string): (k: Option<nat>)
    ensures k.Some? ==> k.value < |items| && items[k.value].id == id
    ensures k.Some? ==> forall j :: 0 <= j < k.value ==> items[j].id != id
    ensures k.None? ==> forall j :: 0 <= j < |items| ==> items[j].id != id
  {
    if items == [] then None
    else if items[0].id == id then Some(0)
    else match FindId(items[1..], id)
      case None => None
      case Some(k) => Some(k + 1)
  }

  /** The first item whose id is `id` (`get_item`). */
  function Lookup(items: seq<Item>, id: string): (r: Option<Item>)
    ensures r.None? <==> forall j :: 0 <= j < |items| ==> items[j].id != id
    ensures r.Some? ==> r.value.id == id && r.value in items
  {
    match FindId(items, id)
    case None => None
    case Some(k) => Some(items[k])
  }

  /** `items` without the first item whose id is `id`; unchanged when there is none. */
  function Without(items: seq<Item>, id: string): (r: seq<Item>)
  {
    match FindId(items, id)
    case None => items
    case Some(k) => items[..k] + items[k + 1..]
  }

  /** `any(item.id == id for item in items)`. */
  predicate AnyId(items: seq<Item>, id: string)
  {
    items != [] && (items[0].id == id || AnyId(items[1..], id))
  }

  /** `has_item` agrees with `get_item`: an item is there exactly when the lookup finds one. */
  lemma {:induction false} AnyIdIffLookup(items: seq<Item>, id: string)
    ensures AnyId(items, id) <==> Lookup(items, id).Some?
    decreases |items|
  {
    if items != [] && items[0].id != id {
      AnyIdIffLookup(items[1..], id);
    }
  }

  /**
   * Buying an item whose id the inventory does not hold and then selling
   * that id gives back the inventory as it was.
   */
  lemma {:induction false} WithoutAppend(items: seq<Item>, it: Item)
    requires !AnyId(items, it.id)
    ensures Without(items + [it], it.id) == items
  {
    AnyIdIffLookup(items, it.id);
    var s := items + [it];
    assert s[|items|].id == it.id;
    var k := FindId(s, it.id).value;
    assert k == |items|;
    assert s[..k] == items && s[k + 1..] == [];
  }

  /** The loop of `get_item`, shared by the inventory and the shop. */
  method FindItem(items: seq<Item>, id: string) returns (r: Option<Item>)
    ensures r == Lookup(items, id)
  {
    for i := 0 to |items|
      invariant forall j :: 0 <= j < i ==> items[j].id != id
    {
      if items[i].id == id {
        return Some(items[i]);
      }
    }
    return None;
  }

  // ---------------------------------------------------------------------------
  // Inventory
  // ---------------------------------------------------------------------------

  class Inventory {
    var items: seq<Item>
    var maxWeight: real
    var currentWeight: real

    /** The running total is the weight of the items held. */
    ghost predicate Valid()
      reads this
    {
      currentWeight == Weight(items)
    }

    constructor (maxWeight: real)
      ensures Valid()
      ensures items == [] && this.maxWeight == maxWeight && currentWeight == 0.0
    {
      items := [];
      this.maxWeight := maxWeight;
      currentWeight := 0.0;
    }

    /** `add_item`: appends `item` when it fits under the bound. */
    method AddItem(item: Item) returns (added: bool)
      requires Valid()
      modifies this
      ensures Valid() && maxWeight == old(maxWeight)
      ensures added <==> old(currentWeight) + item.weight <= maxWeight
      ensures added ==> items == old(items) + [item] && currentWeight == old(currentWeight) + item.weight
      ensures !added ==> items == old(items) && currentWeight == old(currentWeight)
    {
      if currentWeight + item.weight <= maxWeight {
        WeightAppend(items, [item]);
        items := items + [item];
        currentWeight := currentWeight + item.weight;
        return true;
      }
      return false;
    }

    /** `remove_item`: pops the first item with the id and returns it. */
    method RemoveItem(id: string) returns (removed: Option<Item>)
      requires Valid()
      modifies this
      ensures Valid() && maxWeight == old(maxWeight)
      ensures removed == Lookup(old(items), id)
      ensures items == Without(old(items), id)
      ensures removed.Some? ==> currentWeight == old(currentWeight) - removed.value.weight
      ensures removed.None? ==> currentWeight == old(currentWeight)
    {
      for i := 0 to |items|
        invariant items == old(items) && currentWeight == old(currentWeight)
        invariant forall j :: 0 <= j < i ==> items[j].id != id
      {
        if items[i].id == id {
          var it := items[i];
          WeightRemoveAt(items, i);
          items := items[..i] + items[i + 1..];
          currentWeight := currentWeight - it.weight;
          return Some(it);
        }
      }
      return None;
    }

    /** `get_item`. */
    method GetItem(id: string) returns (r: Option<Item>)
      ensures r == Lookup(items, id)
    {
      r := FindItem(items, id);
    }

    /** `has_item`: true exactly when `get_item` finds something. */
    function HasItem(id: string): (r: bool)
      reads this
      ensures r <==> Lookup(items, id).Some?
    {
      AnyIdIffLookup(items, id);
      AnyId(items, id)
    }

    /** `get_items_by_type`: the items of that type, in inventory order. */
    function ItemsOfType(itemType: string): (r: seq<Item>)
      reads this
      ensures forall i :: 0 <= i < |r| ==> r[i].itemType == itemType
      ensures forall i :: 0 <= i < |items| && items[i].itemType == itemType ==> items[i] in r
      ensures Subseq(r, items)
    {
      Filter(items, (it: Item) => it.itemType == itemType)
    }

    /** `get_total_value`. */
    function TotalValue(): int
      reads this
    {
      ValueSum(items)
    }
  }

  // ---------------------------------------------------------------------------
  // Shop
  // ---------------------------------------------------------------------------

  /** The dictionary `buy_item` / `sell_item` return. */
  datatype Receipt =
    | Failed(message: string)
    | Bought(item: Item, cost: int, message: string)
    | Sold(item: Item, price: int, message: string)

  /** The nine items `load_shop_items` puts on sale. */
  function Catalogue(): (c: seq<Item>)
    ensures |c| == 9
    ensures forall i :: 0 <= i < |c| ==> c[i].value > 0 && c[i].weight > 0.0
    ensures forall i, j :: 0 <= i < j < |c| ==> c[i].id != c[j].id
  {
    [ Item("sword_iron", "Épée en Fer", "Une épée solide en fer forgé", "weapon", 100, 2.0, "common",
           map["damage" := 15, "durability" := 100]),
      Item("sword_steel", "Épée en Acier", "Une épée tranchante en acier", "weapon", 250, 2.5, "uncommon",
           map["damage" := 25, "durability" := 150]),
      Item("armor_leather", "Armure en Cuir", "Une armure légère en cuir", "armor", 80, 3.0, "common",
           map["defense" := 10, "weight" := 3]),
      Item("armor_chain", "Cotte de Mailles", "Une armure en mailles de fer", "armor", 200, 8.0, "uncommon",
           map["defense" := 25, "weight" := 8]),
      Item("potion_health", "Potion de Vie", "Restaure 50 points de vie", "potion", 30, 0.5, "common",
           map["heal" := 50]),
      Item("potion_mana", "Potion de Mana", "Restaure 50 points de mana", "potion", 25, 0.5, "common",
           map["mana" := 50]),
      Item("potion_strength", "Potion de Force", "Augmente temporairement la force", "potion", 50, 0.5, "uncommon",
           map["strength" := 10, "duration" := 300]),
      Item("shield_wooden", "Bouclier en Bois", "Un bouclier simple en bois", "shield", 40, 2.0, "common",
           map["defense" := 5, "block" := 15]),
      Item("shield_iron", "Bouclier en Fer", "Un bouclier solide en fer", "shield", 120, 4.0, "uncommon",
           map["defense" := 15, "block" := 25]) ]
  }

  /** Catalogue ids are unique, so looking up the id of a catalogue entry finds that entry. */
  lemma CatalogueLookup(k: nat)
    requires k < |Catalogue()|
    ensures Lookup(Catalogue(), Catalogue()[k].id) == Some(Catalogue()[k])
  {
    var c := Catalogue();
    var f := FindId(c, c[k].id);
    assert f.Some?;
    assert f.value == k;
  }

  /** What the shop pays back for an item of value `value`: `value // 2`. */
  function SellPrice(value: int): (p: int)
    ensures 2 * p <= value < 2 * p + 2
    ensures value >= 0 ==> 0 <= p <= value
  {
    value / 2
  }

  class Shop {
    var availableItems: seq<Item>

    constructor ()
      ensures availableItems == Catalogue()
    {
      availableItems := Catalogue();
    }

    /** `get_item`. */
    method GetItem(id: string) returns (r: Option<Item>)
      ensures r == Lookup(availableItems, id)
    {
      r := FindItem(availableItems, id);
    }

    /**
     * `buy_item`: fails on an unknown id, then on too little gold, then on a
     * full inventory; otherwise the item goes into the inventory and its
     * value is the cost. The gold itself is not deducted here.
     */
    method BuyItem(inv: Inventory, gold: int, id: string) returns (r: Receipt)
      requires inv.Valid()
      modifies inv
      ensures inv.Valid() && inv.maxWeight == old(inv.maxWeight)
      ensures Lookup(availableItems, id).None? ==> r == Failed("Objet non trouvé")
      ensures Lookup(availableItems, id).Some? && gold < Lookup(availableItems, id).value.value ==>
        r == Failed("Pas assez d'or")
      ensures (Lookup(availableItems, id).Some? && gold >= Lookup(availableItems, id).value.value &&
               old(inv.currentWeight) + Lookup(availableItems, id).value.weight > inv.maxWeight) ==>
        r == Failed("Inventaire plein")
      ensures (Lookup(availableItems, id).Some? && gold >= Lookup(availableItems, id).value.value &&
               old(inv.currentWeight) + Lookup(availableItems, id).value.weight <= inv.maxWeight) ==>
        r.Bought?
      ensures r.Failed? ==> inv.items == old(inv.items) && inv.currentWeight == old(inv.currentWeight)
      ensures r.Bought? ==>
        && Lookup(availableItems, id) == Some(r.item)
        && gold >= r.item.value
        && r.cost == r.item.value
        && r.message == "Acheté: " + r.item.name
        && inv.items == old(inv.items) + [r.item]
        && inv.currentWeight == old(inv.currentWeight) + r.item.weight
      ensures !r.Sold?
    {
      var found := GetItem(id);
      if found.None? {
        return Failed("Objet non trouvé");
      }
      var item := found.value;
      if gold < item.value {
        return Failed("Pas assez d'or");
      }
      var added := inv.AddItem(item);
      if !added {
        return Failed("Inventaire plein");
      }
      return Bought(item, item.value, "Acheté: " + item.name);
    }

    /** `sell_item`: takes the first item with the id out of the inventory and pays half its value. */
    method SellItem(inv: Inventory, id: string) returns (r: Receipt)
      requires inv.Valid()
      modifies inv
      ensures inv.Valid() && inv.maxWeight == old(inv.maxWeight)
      ensures inv.items == Without(old(inv.items), id)
      ensures Lookup(old(inv.items), id).None? <==> r == Failed("Objet non trouvé dans l'inventaire")
      ensures Lookup(old(inv.items), id).Some? ==> r.Sold?
      ensures r.Failed? ==> inv.currentWeight == old(inv.currentWeight)
      ensures r.Sold? ==>
        && Lookup(old(inv.items), id) == Some(r.item)
        && r.price == SellPrice(r.item.value)
        && r.message == "Vendu: " + r.item.name + " pour " + IntToString(r.price) + " or"
        && inv.currentWeight == old(inv.currentWeight) - r.item.weight
      ensures !r.Bought?
    {
      var removed := inv.RemoveItem(id);
      if removed.None? {
        return Failed("Objet non trouvé dans l'inventaire");
      }
      var item := removed.value;
      var price := SellPrice(item.value);
      return Sold(item, price, "Vendu: " + item.name + " pour " + IntToString(price) + " or");
    }

    /** `get_items_by_type`. */
    function ItemsOfType(itemType: string): (r: seq<Item>)
      reads this
      ensures forall i :: 0 <= i < |r| ==> r[i].itemType == itemType
      ensures forall i :: 0 <= i < |availableItems| && availableItems[i].itemType == itemType ==> availableItems[i] in r
      ensures Subseq(r, availableItems)
    {
      Filter(availableItems, (it: Item) => it.itemType == itemType)
    }

    /** `get_items_by_rarity`. */
    function ItemsOfRarity(rarity: string): (r: seq<Item>)
      reads this
      ensures forall i :: 0 <= i < |r| ==> r[i].rarity == rarity
      ensures forall i :: 0 <= i < |availableItems| && availableItems[i].rarity == rarity ==> availableItems[i] in r
      ensures Subseq(r, availableItems)
    {
      Filter(availableItems, (it: Item) => it.rarity == rarity)
    }
  }

  // ---------------------------------------------------------------------------
  // Item factory
  // ---------------------------------------------------------------------------

  /** Python's `int(x)` on a float: truncation toward zero. */
  function Trunc(x: real): (n: int)
    ensures x >= 0.0 ==> n as real <= x < n as real + 1.0
    ensures x < 0.0 ==> n as real - 1.0 < x <= n as real
  {
    if x >= 0.0 then x.Floor else -((-x).Floor)
  }

  const BaseDamage: map<string, int> := map["sword" := 10, "axe" := 15, "mace" := 12, "dagger" := 8]
  const MaterialMultiplier: map<string, real> := map["wood" := 0.5, "iron" := 1.0, "steel" := 1.5, "magic" := 2.0]

  /** `base_damage.get(weaponType, 10)`. */
  function BaseDamageOf(weaponType: string): (d: int)
    ensures d > 0
  {
    if weaponType in BaseDamage then BaseDamage[weaponType] else 10
  }

  /** `material_multiplier.get(material, 1.0)`. */
  function MultiplierOf(material: string): (m: real)
    ensures m > 0.0
  {
    if material in MaterialMultiplier then MaterialMultiplier[material] else 1.0
  }

  /** The damage of a weapon: base damage times multiplier times level, truncated. */
  function WeaponDamage(weaponType: string, material: string, level: int): int
  {
    Trunc(BaseDamageOf(weaponType) as real * MultiplierOf(material) * level as real)
  }

  /** `create_weapon`. */
  function CreateWeapon(weaponType: string, material: string, level: int): (it: Item)
    ensures it.itemType == "weapon" && it.weight == 2.0 && it.rarity == "common"
    ensures it.stats == map["damage" := WeaponDamage(weaponType, material, level), "level" := level]
    ensures it.value == 5 * it.stats["damage"]
  {
    var damage := WeaponDamage(weaponType, material, level);
    Item(
      weaponType + "_" + material + "_" + IntToString(level),
      Title(weaponType) + " en " + Title(material),
      "Une " + weaponType + " en " + material + " de niveau " + IntToString(level),
      "weapon",
      damage * 5,
      2.0,
      "common",
      map["damage" := damage, "level" := level])
  }

  /** A higher level never gives a weaker weapon. */
  lemma WeaponDamageMonotone(weaponType: string, material: string, l1: int, l2: int)
    requires 0 <= l1 <= l2
    ensures 0 <= WeaponDamage(weaponType, material, l1) <= WeaponDamage(weaponType, material, l2)
  {
    var f := BaseDamageOf(weaponType) as real * MultiplierOf(material);
    assert f * l1 as real <= f * l2 as real;
  }

  /** Weapons of the same kind and material but different levels get different ids. */
  lemma WeaponIdsDistinct(weaponType: string, material: string, l1: int, l2: int)
    requires l1 != l2
    ensures CreateWeapon(weaponType, material, l1).id != CreateWeapon(weaponType, material, l2).id
  {
    var prefix := weaponType + "_" + material + "_";
    var a, b := IntToString(l1), IntToString(l2);
    if prefix + a == prefix + b {
      assert a == (prefix + a)[|prefix|..] == (prefix + b)[|prefix|..] == b;
      IntToStringInjective(l1, l2);
    }
  }

  datatype PotionInfo = PotionInfo(name: string, stat: string, baseValue: int)

  const Potions: map<string, PotionInfo> := map[
    "health" := PotionInfo("Potion de Vie", "heal", 20),
    "mana" := PotionInfo("Potion de Mana", "mana", 15),
    "strength" := PotionInfo("Potion de Force", "strength", 5),
    "speed" := PotionInfo("Potion de Vitesse", "speed", 3)]

  /** `create_potion`: `None` for an unknown kind; the stat is base value times power, the price twice the stat. */
  function CreatePotion(potionType: string, power: int): (r: Option<Item>)
    ensures r.None? <==> potionType !in Potions
    ensures r.Some? ==>
      && r.value.itemType == "potion" && r.value.weight == 0.5
      && r.value.stats == map[Potions[potionType].stat := Potions[potionType].baseValue * power]
      && r.value.value == 2 * Potions[potionType].baseValue * power
  {
    if potionType !in Potions then None
    else
      var data := Potions[potionType];
      var statValue := data.baseValue * power;
      Some(Item(
        "potion_" + potionType + "_" + IntToString(power),
        data.name,
        "Restaure " + IntToString(statValue) + " points de " + potionType,
        "potion",
        statValue * 2,
        0.5,
        "common",
        map[data.stat := statValue]))
  }

  datatype MaterialInfo = MaterialInfo(name: string, value: int)

  const Materials: map<string, MaterialInfo> := map[
    "iron" := MaterialInfo("Minerai de Fer", 5),
    "gold" := MaterialInfo("Minerai d'Or", 15),
    "wood" := MaterialInfo("Bois", 2),
    "leather" := MaterialInfo("Cuir", 3),
    "cloth" := MaterialInfo("Tissu", 1)]

  /** `create_material`: `None` for an unknown kind; value and weight grow linearly with the quantity. */
  function CreateMaterial(materialType: string, quantity: int): (r: Option<Item>)
    ensures r.None? <==> materialType !in Materials
    ensures r.Some? ==>
      && r.value.itemType == "material"
      && r.value.value == Materials[materialType].value * quantity
      && r.value.weight == 0.1 * quantity as real
      && r.value.stats == map["quantity" := quantity]
  {
    if materialType !in Materials then None
    else
      var data := Materials[materialType];
      Some(Item(
        "material_" + materialType + "_" + IntToString(quantity),
        data.name + " x" + IntToString(quantity),
        IntToString(quantity) + " unité(s) de " + Lower(data.name),
        "material",
        data.value * quantity,
        0.1 * quantity as real,
        "common",
        map["quantity" := quantity]))
  }
}
