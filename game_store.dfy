/**
 * The front-end game store (src/stores/gameStore.ts): one immutable state
 * record and the actions that compute the next state from it. Every
 * player action is a no-op while nobody is logged in.
 */
module GameStore {
  import opened Wrappers
  import opened Seqs

  datatype Pos = Pos(x: real, y: real, z: real)

  datatype ItemKind = Weapon | Armor | Consumable | Material
  datatype Rarity = Common | Uncommon | Rare | Epic | Legendary
  datatype PlayerClass = Warrior | Mage | Archer | Assassin

  datatype StoreItem = StoreItem(id: string, name: string, kind: ItemKind, rarity: Rarity, level: real, icon: string)

  datatype Slot = WeaponSlot | ArmorSlot | HelmetSlot | GlovesSlot | BootsSlot

  /** The optional equipment slots; `None` is a slot left empty. */
  datatype Equipment = Equipment(
    weapon: Option<StoreItem>,
    armor: Option<StoreItem>,
    helmet: Option<StoreItem>,
    gloves: Option<StoreItem>,
    boots: Option<StoreItem>)

  datatype Player = Player(
    id: string,
    name: string,
    level: real,
    experience: real,
    maxExperience: real,
    health: real,
    maxHealth: real,
    mana: real,
    maxMana: real,
    position: Pos,
    rotation: Pos,
    playerClass: PlayerClass,
    inventory: seq<StoreItem>,
    equipment: Equipment)

  /** Another actor the store keeps in a list without looking inside it. */
  datatype Actor = Actor(id: string)

  datatype Panel = InventoryPanel | CharacterPanel | SkillsPanel | ChatPanel

  datatype GameState = GameState(
    isLoggedIn: bool,
    isLoading: bool,
    player: Option<Player>,
    currentZone: string,
    otherPlayers: seq<Player>,
    npcs: seq<Actor>,
    enemies: seq<Actor>,
    showInventory: bool,
    showCharacter: bool,
    showSkills: bool,
    showChat: bool)

  /** The player a fresh login starts from. */
  function InitialPlayer(): Player
  {
    Player("1", "Héros", 1.0, 0.0, 100.0, 100.0, 100.0, 50.0, 50.0,
           Pos(0.0, 0.0, 0.0), Pos(0.0, 0.0, 0.0), Warrior, [],
           Equipment(None, None, None, None, None))
  }

  /** The state the store is created with: logged out, every panel closed. */
  function InitialState(): (s: GameState)
    ensures !s.isLoggedIn && !s.isLoading && s.player.None?
    ensures !s.showInventory && !s.showCharacter && !s.showSkills && !s.showChat
  {
    GameState(false, false, None, "flaris", [], [], [], false, false, false, false)
  }

  /** `login`, first half: the store says it is loading; nothing else changes. */
  function LoginStarted(s: GameState): (r: GameState)
    ensures r == s.(isLoading := true)
  {
    s.(isLoading := true)
  }

  /** `login`, second half (after the simulated delay): logged in as `username` with a fresh player. */
  function LoginCompleted(s: GameState, username: string): (r: GameState)
    ensures r.isLoggedIn && !r.isLoading
    ensures r.player == Some(InitialPlayer().(name := username))
    ensures r.(isLoggedIn := s.isLoggedIn, isLoading := s.isLoading, player := s.player) == s
  {
    s.(isLoggedIn := true, isLoading := false, player := Some(InitialPlayer().(name := username)))
  }

  /** `logout`: no player, and the other players, NPCs and enemies are forgotten. */
  function Logout(s: GameState): (r: GameState)
    ensures !r.isLoggedIn && r.player.None?
    ensures r.otherPlayers == [] && r.npcs == [] && r.enemies == []
    ensures r.(isLoggedIn := s.isLoggedIn, player := s.player, otherPlayers := s.otherPlayers,
               npcs := s.npcs, enemies := s.enemies) == s
  {
    s.(isLoggedIn := false, player := None, otherPlayers := [], npcs := [], enemies := [])
  }

  // ---------------------------------------------------------------------------
  // updatePlayer: `{ ...player, ...updates }`
  // ---------------------------------------------------------------------------

  /** `Partial<Player>`: `None` for a field the update does not carry. */
  datatype PlayerUpdate = PlayerUpdate(
    id: Option<string>,
    name: Option<string>,
    level: Option<real>,
    experience: Option<real>,
    maxExperience: Option<real>,
    health: Option<real>,
    maxHealth: Option<real>,
    mana: Option<real>,
    maxMana: Option<real>,
    position: Option<Pos>,
    rotation: Option<Pos>,
    playerClass: Option<PlayerClass>,
    inventory: Option<seq<StoreItem>>,
    equipment: Option<Equipment>)

  /** The update that carries no field. */
  function NoUpdate(): PlayerUpdate
  {
    PlayerUpdate(None, None, None, None, None, None, None, None, None, None, None, None, None, None)
  }

  /** The value a spread leaves: the update's field when it carries one. */
  function Over<T>(update: Option<T>, current: T): T
  {
    if update.Some? then update.value else current
  }

  /** `{ ...p, ...u }`. */
  function Spread(p: Player, u: PlayerUpdate): Player
  {
    Player(Over(u.id, p.id), Over(u.name, p.name), Over(u.level, p.level),
           Over(u.experience, p.experience), Over(u.maxExperience, p.maxExperience),
           Over(u.health, p.health), Over(u.maxHealth, p.maxHealth),
           Over(u.mana, p.mana), Over(u.maxMana, p.maxMana),
           Over(u.position, p.position), Over(u.rotation, p.rotation),
           Over(u.playerClass, p.playerClass), Over(u.inventory, p.inventory), Over(u.equipment, p.equipment))
  }

  /** `{ ...u, ...v }`: the fields of `v`, and those of `u` that `v` does not carry. */
  function Then(u: PlayerUpdate, v: PlayerUpdate): PlayerUpdate
  {
    PlayerUpdate(
      if v.id.Some? then v.id else u.id,
      if v.name.Some? then v.name else u.name,
      if v.level.Some? then v.level else u.level,
      if v.experience.Some? then v.experience else u.experience,
      if v.maxExperience.Some? then v.maxExperience else u.maxExperience,
      if v.health.Some? then v.health else u.health,
      if v.maxHealth.Some? then v.maxHealth else u.maxHealth,
      if v.mana.Some? then v.mana else u.mana,
      if v.maxMana.Some? then v.maxMana else u.maxMana,
      if v.position.Some? then v.position else u.position,
      if v.rotation.Some? then v.rotation else u.rotation,
      if v.playerClass.Some? then v.playerClass else u.playerClass,
      if v.inventory.Some? then v.inventory else u.inventory,
      if v.equipment.Some? then v.equipment else u.equipment)
  }

  /** An empty update changes nothing. */
  lemma SpreadNothing(p: Player)
    ensures Spread(p, NoUpdate()) == p
  {
  }

  /** Two updates in a row are one update in which the later fields win. */
  lemma SpreadThen(p: Player, u: PlayerUpdate, v: PlayerUpdate)
    ensures Spread(Spread(p, u), v) == Spread(p, Then(u, v))
  {
  }

  /** `updatePlayer`: the supplied fields replace the player's, the others stay. */
  function UpdatePlayer(s: GameState, u: PlayerUpdate): (r: GameState)
    ensures s.player.None? ==> r == s
    ensures s.player.Some? ==> r == s.(player := Some(Spread(s.player.value, u)))
  {
    if s.player.Some? then s.(player := Some(Spread(s.player.value, u))) else s
  }

  /** Applying the same update twice is applying it once. */
  lemma UpdatePlayerIdempotent(s: GameState, u: PlayerUpdate)
    ensures UpdatePlayer(UpdatePlayer(s, u), u) == UpdatePlayer(s, u)
  {
  }

  // ---------------------------------------------------------------------------
  // The other actions
  // ---------------------------------------------------------------------------

  /** `movePlayer`: only the position changes. */
  function MovePlayer(s: GameState, position: Pos): (r: GameState)
    ensures s.player.None? ==> r == s
    ensures s.player.Some? ==> r.player == Some(s.player.value.(position := position))
    ensures r.(player := s.player) == s
  {
    if s.player.Some? then s.(player := Some(s.player.value.(position := position))) else s
  }

  /** Moving is the update that carries only a position. */
  lemma MoveIsPositionUpdate(s: GameState, position: Pos)
    ensures MovePlayer(s, position) == UpdatePlayer(s, NoUpdate().(position := Some(position)))
  {
  }

  /** Whether a panel is shown. */
  function Shown(s: GameState, panel: Panel): bool
  {
    match panel
    case InventoryPanel => s.showInventory
    case CharacterPanel => s.showCharacter
    case SkillsPanel => s.showSkills
    case ChatPanel => s.showChat
  }

  /** `toggleUI`: the `show…` flag named after the panel flips. */
  function ToggleUI(s: GameState, panel: Panel): (r: GameState)
    ensures Shown(r, panel) == !Shown(s, panel)
    ensures forall q :: q != panel ==> Shown(r, q) == Shown(s, q)
    ensures r.(showInventory := s.showInventory, showCharacter := s.showCharacter,
               showSkills := s.showSkills, showChat := s.showChat) == s
  {
    match panel
    case InventoryPanel => s.(showInventory := !s.showInventory)
    case CharacterPanel => s.(showCharacter := !s.showCharacter)
    case SkillsPanel => s.(showSkills := !s.showSkills)
    case ChatPanel => s.(showChat := !s.showChat)
  }

  /** Toggling a panel twice restores the state. */
  lemma ToggleTwice(s: GameState, panel: Panel)
    ensures ToggleUI(ToggleUI(s, panel), panel) == s
  {
  }

  /** `addItem`: the item goes at the end of the inventory. */
  function AddItem(s: GameState, item: StoreItem): (r: GameState)
    ensures s.player.None? ==> r == s
    ensures s.player.Some? ==> r.player == Some(s.player.value.(inventory := s.player.value.inventory + [item]))
    ensures r.(player := s.player) == s
  {
    if s.player.Some? then s.(player := Some(s.player.value.(inventory := s.player.value.inventory + [item]))) else s
  }

  /** `inventory.filter(item => item.id !== itemId)`. */
  function WithoutId(inventory: seq<StoreItem>, itemId: string): (r: seq<StoreItem>)
    ensures forall i :: 0 <= i < |r| ==> r[i].id != itemId
    ensures forall i :: 0 <= i < |inventory| && inventory[i].id != itemId ==> inventory[i] in r
    ensures Subseq(r, inventory)
  {
    Filter(inventory, (it: StoreItem) => it.id != itemId)
  }

  /** `removeItem`: every item with the id goes, the rest keep their order. */
  function RemoveItem(s: GameState, itemId: string): (r: GameState)
    ensures s.player.None? ==> r == s
    ensures s.player.Some? ==> r.player == Some(s.player.value.(inventory := WithoutId(s.player.value.inventory, itemId)))
    ensures r.(player := s.player) == s
  {
    if s.player.Some? then s.(player := Some(s.player.value.(inventory := WithoutId(s.player.value.inventory, itemId)))) else s
  }

  /** Removing an id twice is removing it once. */
  lemma {:induction false} WithoutIdIdempotent(inventory: seq<StoreItem>, itemId: string)
    ensures WithoutId(WithoutId(inventory, itemId), itemId) == WithoutId(inventory, itemId)
    decreases |inventory|
  {
    if inventory != [] {
      WithoutIdIdempotent(inventory[1..], itemId);
    }
  }

  /** Adding an item and removing its id gives back an inventory that did not hold that id. */
  lemma {:induction false} RemoveAfterAdd(inventory: seq<StoreItem>, item: StoreItem)
    requires forall i :: 0 <= i < |inventory| ==> inventory[i].id != item.id
    ensures WithoutId(inventory + [item], item.id) == inventory
    decreases |inventory|
  {
    if inventory == [] {
      assert [] + [item] == [item];
      assert [item][1..] == [];
    } else {
      assert (inventory + [item])[1..] == inventory[1..] + [item];
      RemoveAfterAdd(inventory[1..], item);
      assert inventory == [inventory[0]] + inventory[1..];
    }
  }

  /** The item in a slot. */
  function InSlot(e: Equipment, slot: Slot): Option<StoreItem>
  {
    match slot
    case WeaponSlot => e.weapon
    case ArmorSlot => e.armor
    case HelmetSlot => e.helmet
    case GlovesSlot => e.gloves
    case BootsSlot => e.boots
  }

  /** `{ ...equipment, [slot]: item }`. */
  function Equip(e: Equipment, item: StoreItem, slot: Slot): (r: Equipment)
    ensures InSlot(r, slot) == Some(item)
    ensures forall other :: other != slot ==> InSlot(r, other) == InSlot(e, other)
  {
    match slot
    case WeaponSlot => e.(weapon := Some(item))
    case ArmorSlot => e.(armor := Some(item))
    case HelmetSlot => e.(helmet := Some(item))
    case GlovesSlot => e.(gloves := Some(item))
    case BootsSlot => e.(boots := Some(item))
  }

  /** `equipItem`: only the chosen slot of the player's equipment changes. */
  function EquipItem(s: GameState, item: StoreItem, slot: Slot): (r: GameState)
    ensures s.player.None? ==> r == s
    ensures s.player.Some? ==> r.player == Some(s.player.value.(equipment := Equip(s.player.value.equipment, item, slot)))
    ensures r.(player := s.player) == s
  {
    if s.player.Some? then s.(player := Some(s.player.value.(equipment := Equip(s.player.value.equipment, item, slot)))) else s
  }
}
