# Flaris game core in Dafny

This project models the game logic of the Flaris RPG prototype. Each part
becomes one Dafny module:

- the enemy and NPC artificial intelligence (`ai_system.py`, module `Ai`).
  It is a per-frame state machine over IDLE, PATROL, CHASE, ATTACK, FLEE and
  DEAD, with five specialised kinds: goblin, troll, merchant, guard, sage.
  A system object owns the controllers, ticks them and drops the dead ones;
- the inventory, shop and item factory (`inventory_system.py`, module
  `InventorySystem`). The inventory has a weight limit. Buying, selling and
  the generated items are covered;
- the quest log (`quest_system.py`, module `QuestLog`): offered, accepted and
  finished quests with a progress counter;
- the configuration tree (`config.py`, module `Config`): defaults merged
  with a saved file, with dotted-path `get` and `set`;
- the play statistics (`stats.py`, module `GameStatistics`): counters,
  tallies and achievements;
- the web client's store (`src/stores/gameStore.ts`, module `GameStore`):
  every action is a pure function from state to state;
- the keyboard dispatch (`src/utils/controls.ts`, module `Controls`).

The modelling choices follow the source:

- Python objects whose methods update fields are Dafny classes.
  `AIController`, `AISystem`, `Inventory`, `Shop`, `Quest`, `QuestSystem`,
  `GameConfig` and `GameStats` are classes.
- Each method is proved against a specification function on values.
  `Update` is proved against `Tick`, and `UpdateAll` against `Keep` and
  `Tick`.
- The history of an AI agent is the sequence `States` of its successive
  models. Properties of runs are lemmas about that sequence: attack spacing,
  stationary NPCs, fixed cooldown, stable patrol ring.
- The zustand store is immutable state with `set`. It is written as
  functions from `GameState` to `GameState`.

Supporting modules:

- `Wrappers` holds `Option`.
- `Seqs` holds subsequence and distinctness helpers.
- `Text` holds decimal rendering, `lower()` and `title()`, which the item
  names and messages use.

## Model

| member | source | states |
|---|---|---|
| Ai.Stats | ai_system.py:150-241 | every kind has positive health and cooldown and an attack range below its detection range; speed is zero exactly for merchant and sage |
| Ai.KindOf | ai_system.py:249-265 | a type tag selects its specialised controller exactly when it is one of the five names, and the kind's tag is the tag given |
| Ai.Spawn | ai_system.py:25-39 | a new agent keeps its tag and position, starts IDLE at full (positive) health with no patrol points and last attack at 0, and satisfies the agent invariant |
| Ai.Ring | ai_system.py:132-140 | the patrol ring has five points, all at the height of the centre |
| Ai.RingIsPatrolRing | ai_system.py:132-140 | point i of the ring lies at the drawn radius, at angle 2πi/5, around the centre |
| Ai.IdleStep | ai_system.py:61-66 | only the state changes; CHASE when the player is within detection range, otherwise PATROL on a draw under 1 %, otherwise unchanged |
| Ai.PatrolStep | ai_system.py:68-85 | player detected: CHASE and nothing else changes; otherwise generates the ring when empty, steps toward the current point and advances the index modulo the ring size once within 1 |
| Ai.ChaseStep | ai_system.py:87-96 | ATTACK within attack range, PATROL beyond 1.5 × detection range, otherwise one speed × 0.016 step toward the player |
| Ai.AttackStep | ai_system.py:98-107 | out of range: back to CHASE without attacking; in range: attacks and stamps the time exactly when the cooldown has elapsed |
| Ai.FleeStep | ai_system.py:109-117 | steps away from the player; returns to IDLE on a draw under 1 %; nothing else changes |
| Ai.Behave | ai_system.py:41-59 | base update: health ≤ 0 gives DEAD without moving (for controllers the system builds that branch only re-marks an agent already DEAD, because only take_damage lowers health and it sets DEAD); an attack happens only from ATTACK and stamps the time; health, type and an existing patrol ring are kept; the invariant is preserved |
| Ai.Tick | ai_system.py:41-241 | with the overrides: merchants and sages never change, a guard never ends in FLEE, and an attack fires exactly when a living agent in ATTACK is within range and off cooldown |
| Ai.Damaged | ai_system.py:124-130 | health drops by the damage; DEAD at ≤ 0, FLEE below 30 % of maximum, otherwise the state is unchanged; the invariant is preserved |
| Ai.States | ai_system.py:41-59 | the history of an agent has one more model than frames and every model keeps the invariant |
| Ai.StatesStep | ai_system.py:41-59 | each model of the history is the tick of the previous one |
| Ai.CooldownFixed | ai_system.py:98-107 | no tick changes the cooldown |
| Ai.StampKept | ai_system.py:98-107 | after an attack, the last-attack time stays that attack's time until the next attack |
| Ai.AttackSpacing | ai_system.py:98-107 | two consecutive attacks of one agent are at least its cooldown apart |
| Ai.StationaryStaysPut | ai_system.py:186-241 | a merchant or sage is the same at every frame of any history |
| Ai.PatrolPointsStable | ai_system.py:68-140 | once generated, the patrol ring never changes |
| Ai.AIController.constructor | ai_system.py:25-39 | the controller's model is the spawned agent |
| Ai.AIController.IdleBehavior | ai_system.py:61-66 | updates the controller as IdleStep says |
| Ai.AIController.GeneratePatrolPoints | ai_system.py:132-140 | appends the ring around the current position and changes nothing else |
| Ai.AIController.PatrolBehavior | ai_system.py:68-85 | updates the controller as PatrolStep says |
| Ai.AIController.ChaseBehavior | ai_system.py:87-96 | updates the controller as ChaseStep says |
| Ai.AIController.AttackBehavior | ai_system.py:98-107 | updates the controller and reports the attack as AttackStep says |
| Ai.AIController.FleeBehavior | ai_system.py:109-117 | updates the controller as FleeStep says |
| Ai.AIController.BaseUpdate | ai_system.py:41-59 | updates the controller as Behave says and keeps it valid |
| Ai.AIController.Update | ai_system.py:41-241 | updates the controller as Tick says and keeps it valid |
| Ai.AIController.TakeDamage | ai_system.py:124-130 | updates the controller as Damaged says and keeps it valid |
| Ai.Live | ai_system.py:267-274 | the controllers that are not DEAD, in order: a subsequence holding every living one and no dead one |
| Ai.Keep | ai_system.py:267-274 | filtering by the models taken before the pass never lengthens the list |
| Ai.KeepDistinct | ai_system.py:267-274 | what survives the pass comes from the list and is still free of duplicates |
| Ai.LiveIsKeep | ai_system.py:267-274 | on the current models, the survivors of the pass are exactly the living controllers |
| Ai.UpdatePass | ai_system.py:267-274 | over a copy of the list: every living controller is ticked once, dead ones are left as they were, and the kept list is those that were alive before their tick |
| Ai.Nearby | ai_system.py:276-292 | the nearby list is never longer than the controller list |
| Ai.NearbyIsFilter | ai_system.py:276-292 | the nearby list is the in-order subsequence of controllers of the given types within range, dead ones included |
| Ai.EnemyTypesAreGoblinsAndTrolls | ai_system.py:276-292 | the enemy query's tags are exactly the goblin and troll kinds, the NPC query's exactly merchant, guard and sage |
| Ai.AISystem.constructor | ai_system.py:246-247 | starts with no controller |
| Ai.AISystem.AddController | ai_system.py:249-265 | appends one new controller spawned from the tag |
| Ai.AISystem.UpdateAll | ai_system.py:267-274 | every controller alive at the start is ticked with its own draws, dead ones are removed, and the rest keep their order |
| Ai.AISystem.GetNearbyEnemies | ai_system.py:276-283 | returns the goblins and trolls within range |
| Ai.AISystem.GetNearbyNpcs | ai_system.py:285-292 | returns the merchants, guards and sages within range |
| Ai.AISystem.Collect | ai_system.py:276-292 | the shared loop returns the Nearby filter of the controllers |
| InventorySystem.WeightAppend | inventory_system.py:35-41 | the carried weight of two lists put together is the sum of their weights |
| InventorySystem.WeightRemoveAt | inventory_system.py:43-50 | taking out one item lowers the weight by exactly that item's weight |
| InventorySystem.ValueSumAppend | inventory_system.py:67-69 | the total value is additive over concatenation |
| InventorySystem.FindId | inventory_system.py:43-50 | finds the first index with the id, or reports that no item has it |
| InventorySystem.Lookup | inventory_system.py:52-57 | there is no result exactly when no item has the id; a result has the id and is in the list |
| InventorySystem.AnyIdIffLookup | inventory_system.py:52-65 | `has_item` is true exactly when `get_item` finds something |
| InventorySystem.WithoutAppend | inventory_system.py:35-50 | adding an item whose id is new and then removing that id restores the list |
| InventorySystem.FindItem | inventory_system.py:52-57 | the search loop returns what Lookup specifies |
| InventorySystem.Inventory.constructor | inventory_system.py:30-33 | an empty inventory with the given capacity and weight zero |
| InventorySystem.Inventory.AddItem | inventory_system.py:35-41 | accepts exactly when the new weight fits the capacity; if accepted, appends the item and adds its weight, otherwise changes nothing |
| InventorySystem.Inventory.RemoveItem | inventory_system.py:43-50 | removes and returns the first item with the id and subtracts its weight; changes nothing when there is none |
| InventorySystem.Inventory.GetItem | inventory_system.py:52-57 | returns what Lookup specifies |
| InventorySystem.Inventory.HasItem | inventory_system.py:63-65 | true exactly when an item has the id |
| InventorySystem.Inventory.ItemsOfType | inventory_system.py:59-61 | the in-order subsequence of the items of that type, all of them |
| InventorySystem.Catalogue | inventory_system.py:127-233 | nine items, each with positive value and weight, with pairwise distinct ids |
| InventorySystem.CatalogueLookup | inventory_system.py:127-275 | looking up any catalogue id finds that item |
| InventorySystem.SellPrice | inventory_system.py:261 | half the value, rounded down; never more than the value |
| InventorySystem.Shop.constructor | inventory_system.py:123-125 | the shop offers the catalogue |
| InventorySystem.Shop.GetItem | inventory_system.py:270-275 | returns what Lookup specifies on the shop's items |
| InventorySystem.Shop.BuyItem | inventory_system.py:235-252 | fails, in this order, on an unknown id, too little gold or a full inventory, changing nothing; otherwise succeeds, adds the item to the inventory and charges its value |
| InventorySystem.Shop.SellItem | inventory_system.py:254-268 | fails exactly when the inventory lacks the id; otherwise succeeds, removes the first such item and pays half its value rounded down |
| InventorySystem.Shop.ItemsOfType | inventory_system.py:277-279 | the in-order subsequence of the offered items of that type, all of them |
| InventorySystem.Shop.ItemsOfRarity | inventory_system.py:281-283 | the in-order subsequence of the offered items of that rarity, all of them |
| InventorySystem.Trunc | inventory_system.py:294 | `int()` of a float rounds toward zero |
| InventorySystem.CreateWeapon | inventory_system.py:289-306 | a common weapon of weight 2 whose damage is the truncated base × material × level and whose value is five times the damage |
| InventorySystem.WeaponDamageMonotone | inventory_system.py:289-306 | for non-negative levels, damage is non-negative and never falls as the level rises |
| InventorySystem.WeaponIdsDistinct | inventory_system.py:298 | weapons of different levels get different ids |
| InventorySystem.CreatePotion | inventory_system.py:309-333 | no potion exactly for an unknown kind; otherwise the stat value is base × power and the price twice that |
| InventorySystem.CreateMaterial | inventory_system.py:336-359 | no material exactly for an unknown kind; otherwise the value is unit value × quantity |
| QuestLog.Quest.constructor | quest_system.py:13-22 | a quest starts neither active nor completed |
| QuestLog.Percentage | quest_system.py:141-152 | reaches 100 exactly when the counter reaches three, and stays within 0..100 on the way |
| QuestLog.Advanced | quest_system.py:108-111 | only a tracked counter changes, by the amount; no counter is created |
| QuestLog.AdvancedTwice | quest_system.py:108-111 | two progress updates add up |
| QuestLog.FirstWithId | quest_system.py:98-139 | the first quest with the id, and inactive if asked; or none at all |
| QuestLog.Open | quest_system.py:93-96 | the in-order subsequence of quests within the level that are not completed, all of them |
| QuestLog.QuestSystem.constructor | quest_system.py:27-91 | five quests on offer, with the five built-in ids and levels; nothing accepted, finished or tracked |
| QuestLog.QuestSystem.AvailableFor | quest_system.py:93-96 | the offered quests the player's level allows that are not completed |
| QuestLog.QuestSystem.AcceptQuest | quest_system.py:98-106 | succeeds exactly when an offered quest with the id is not active; that quest becomes active, joins the accepted list and its counter is reset to 0 |
| QuestLog.QuestSystem.UpdateQuestProgress | quest_system.py:108-111 | advances the counter as Advanced says and touches no list |
| QuestLog.QuestSystem.CheckQuestCompletion | quest_system.py:113-120 | true exactly when the quest is accepted and its counter is at least three |
| QuestLog.QuestSystem.CompleteQuest | quest_system.py:122-139 | none exactly when no accepted quest has the id; otherwise the first one leaves the accepted list, joins the finished list flagged completed, and its rewards and message are returned |
| QuestLog.QuestSystem.Retire | quest_system.py:126-130 | moves one accepted quest to the finished list, updates its flags and keeps the log consistent |
| QuestLog.QuestSystem.GetQuestStatus | quest_system.py:141-152 | none exactly when the quest is not accepted; otherwise its counter, ceiling three and percentage |
| Config.Split | config.py:125-137 | a dotted path splits into at least one key, none containing a dot |
| Config.JoinSplit | config.py:125-137 | joining the keys of a split path gives the path back |
| Config.SplitJoin | config.py:125-137 | splitting keys joined by dots gives the keys back |
| Config.Merge | config.py:111-121 | the merged configuration has the keys of both |
| Config.MergeEmpty | config.py:111-121 | merging nothing keeps the defaults |
| Config.MergeOverEmpty | config.py:111-121 | merging over no defaults gives the user's tree |
| Config.MergeKeepsUserLeaves | config.py:111-121 | every value the user file sets survives the merge |
| Config.UnreachedIsMissing | config.py:123-133 | get finds nothing at a path that the user's tree does not reach |
| Config.MergeKeepsDefaults | config.py:111-121 | any path the user file does not reach, at any depth, reads as in the defaults |
| Config.SetPath | config.py:135-150 | a successful set adds only the first key at the top level |
| Config.SetPathSucceeds | config.py:135-150 | setting succeeds exactly when no proper prefix of the path ends at a leaf |
| Config.GetAfterSet | config.py:123-150 | after a set, getting the same path returns the value set |
| Config.SetLeavesOtherPaths | config.py:123-150 | a set leaves every path that diverges from it unchanged |
| Config.Defaults | config.py:13-82 | seven sections, each a dictionary |
| Config.SetInSection | config.py:13-150 | any key of a built-in section can be set |
| Config.GameConfig.constructor | config.py:13-98 | the defaults, or the defaults merged with the saved file |
| Config.GameConfig.Get | config.py:123-133 | the value at the dotted path, or the supplied default when the path is missing or runs into a leaf |
| Config.GameConfig.Settings | config.py:157-183 | a section's dictionary, or an empty one |
| Config.GameConfig.Set | config.py:135-150 | succeeds exactly when the path is open; then get returns the value, otherwise nothing changes |
| Config.GameConfig.ResetToDefaults | config.py:152-155 | the configuration becomes the defaults |
| GameStatistics.DefaultStats | stats.py:33-58 | all counters zero, tallies with their categories and total, no achievement |
| GameStatistics.Tally | stats.py:83-95 | a known category goes up by one, an unknown one is not created, total always goes up by one |
| GameStatistics.TallyCommutes | stats.py:83-95 | the order of two tallied events does not matter |
| GameStatistics.WithAchievement | stats.py:127-131 | the name is present afterwards; appended only when absent, so the list stays duplicate-free |
| GameStatistics.WithAchievementIdempotent | stats.py:127-131 | recording an achievement twice is the same as once |
| GameStatistics.SummaryOf | stats.py:133-147 | each summary entry is its counter; gold balance is earned minus spent; achievements are counted |
| GameStatistics.GameStats.constructor | stats.py:17-58 | statistics start at the defaults |
| GameStatistics.GameStats.UpdateSessionCount | stats.py:68-71 | one more session, nothing else |
| GameStatistics.GameStats.AddPlaytime | stats.py:73-76 | playtime grows by the minutes, nothing else |
| GameStatistics.GameStats.AddQuestCompleted | stats.py:78-81 | one more quest, nothing else |
| GameStatistics.GameStats.AddEnemyDefeated | stats.py:83-88 | tallies the enemy as Tally says |
| GameStatistics.GameStats.AddItemCollected | stats.py:90-95 | tallies the item as Tally says |
| GameStatistics.GameStats.AddGoldEarned | stats.py:97-100 | gold earned grows by the amount, nothing else |
| GameStatistics.GameStats.AddGoldSpent | stats.py:102-105 | gold spent grows by the amount, nothing else |
| GameStatistics.GameStats.AddExperience | stats.py:107-110 | experience grows by the amount, nothing else |
| GameStatistics.GameStats.AddLevel | stats.py:112-115 | one more level, nothing else |
| GameStatistics.GameStats.AddDeath | stats.py:117-120 | one more death, nothing else |
| GameStatistics.GameStats.AddSave | stats.py:122-125 | one more save, nothing else |
| GameStatistics.GameStats.AddAchievement | stats.py:127-131 | records the achievement as WithAchievement says |
| GameStore.InitialState | src/stores/gameStore.ts:85-97 | logged out, not loading, no player, every panel closed |
| GameStore.LoginStarted | src/stores/gameStore.ts:100-101 | only the loading flag is raised |
| GameStore.LoginCompleted | src/stores/gameStore.ts:104-110 | logged in, not loading, the initial player under the given name; nothing else changes |
| GameStore.Logout | src/stores/gameStore.ts:113-121 | logged out with no player and empty player, NPC and enemy lists; loading flag, zone and panels untouched |
| GameStore.SpreadNothing | src/stores/gameStore.ts:123-128 | an empty partial update changes nothing |
| GameStore.SpreadThen | src/stores/gameStore.ts:123-128 | two updates applied in turn are one combined update |
| GameStore.UpdatePlayer | src/stores/gameStore.ts:123-128 | without a player nothing changes; otherwise only the player changes, by the update |
| GameStore.UpdatePlayerIdempotent | src/stores/gameStore.ts:123-128 | applying the same update twice is applying it once |
| GameStore.MovePlayer | src/stores/gameStore.ts:130-135 | only the player's position changes, and only when there is a player |
| GameStore.MoveIsPositionUpdate | src/stores/gameStore.ts:123-135 | a move is the update that sets only the position |
| GameStore.ToggleUI | src/stores/gameStore.ts:137-144 | flips the named panel and leaves the others and the rest of the state alone |
| GameStore.ToggleTwice | src/stores/gameStore.ts:137-144 | toggling a panel twice restores the state |
| GameStore.AddItem | src/stores/gameStore.ts:146-156 | appends the item to the player's inventory; nothing else changes |
| GameStore.WithoutId | src/stores/gameStore.ts:164 | the in-order subsequence of the items whose id differs, all of them |
| GameStore.RemoveItem | src/stores/gameStore.ts:158-168 | drops every item with the id from the player's inventory; nothing else changes |
| GameStore.WithoutIdIdempotent | src/stores/gameStore.ts:158-168 | removing an id twice is removing it once |
| GameStore.RemoveAfterAdd | src/stores/gameStore.ts:146-168 | adding an item with a new id and removing that id restores the inventory |
| GameStore.Equip | src/stores/gameStore.ts:176-179 | the slot holds the item and every other slot is unchanged |
| GameStore.EquipItem | src/stores/gameStore.ts:170-183 | equips the player as Equip says; nothing else changes |
| Controls.HandleKey | src/utils/controls.ts:6-52 | nothing without a player; a move shifts one ground coordinate by 0.5; a jump goes up by one and returns to where the key was pressed |
| Controls.HandleKeyIgnoresCase | src/utils/controls.ts:12 | upper- and lower-case spellings of a key do the same |
| Controls.OppositeKeysCancel | src/utils/controls.ts:13-28 | forward then backward, or left then right, returns to the start |
| Controls.TableMatchesDispatch | src/utils/controls.ts:12-72 | every key the CONTROLS table lists does what the table names |
| Controls.UnlistedKeyDoesNothing | src/utils/controls.ts:12-72 | a key the table does not list does nothing |
| Controls.Perform | src/utils/controls.ts:36-47 | no action leaves the store alone; a toggle is the store's toggleUI |
| Controls.JumpReturns | src/utils/controls.ts:29-35 | the jump and its delayed move put the player back where they were |
| Text.DigitChar | inventory_system.py:298 | a digit character with that value |
| Text.DigitValue | inventory_system.py:298 | the value of a digit, inverse of DigitChar |
| Text.NatToString | inventory_system.py:298 | non-empty, all digits, no leading zero except for 0 |
| Text.ParseNatToString | inventory_system.py:298 | reading the decimal rendering back gives the number |
| Text.IntToString | inventory_system.py:298 | non-empty, starts with a minus sign exactly for negatives |
| Text.IntToStringInjective | inventory_system.py:298 | different integers render differently |
| Text.LowerChar | inventory_system.py:354 | an upper-case ASCII letter becomes its lower-case form; anything else is kept |
| Text.UpperChar | inventory_system.py:299 | a lower-case ASCII letter becomes its upper-case form; anything else is kept |
| Text.Lower | src/utils/controls.ts:12 | same length, each character lowered, no upper-case letter left |
| Text.TitleChar | inventory_system.py:299 | a letter after a letter becomes small, any other letter a capital, other characters are kept |
| Text.TitleFrom | inventory_system.py:299 | same length; each letter is small after a letter and a capital otherwise, other characters are kept |
| Text.Title | inventory_system.py:299 | same length; a letter becomes a capital exactly when it does not follow a letter, otherwise small; other characters are kept |
| Text.TitleFromIdempotent | inventory_system.py:299 | title-casing twice is title-casing once |
| Text.TitleIdempotent | inventory_system.py:299 | `title()` is idempotent |

## Left out

- Floating-point numbers are modelled as exact reals, and Python integers as unbounded integers. No rounding is modelled.
- The game engine's vector maths is an `Engine` parameter of oracle functions: subtraction, normalisation, length, `math.cos` and `math.sin`. `random.random()` and `random.uniform(5, 15)` are a `Draws` parameter, bounded as the source bounds them.
- The entity an AI controls is reduced to its position, held by the controller. Aliasing between entities is not modelled.
- Ai.AttackStep: `perform_attack` does nothing in every subclass, so the attack is an `attacked` flag.
- Ai.Tick: `update`'s second argument is named `delta_time` but `attack_behavior` uses it as a clock. The model keeps it as the value supplied, with no clock behind it.
- Ai.Tick: the distance a merchant or sage computes has no effect, so the model does not compute it.
- Ai.Damaged: health is not floored at zero, and a controller is DEAD whenever health ≤ 0. The model follows the code here, not the intent that health stays at or above zero.
- Ai.AISystem.UpdateAll: the source removes dead controllers from the live list while looping over a copy. The model ticks over the copy and then keeps those that were alive before their tick. Because the list never holds a controller twice, the two are the same.
- Inventory.TotalValue: no contract of its own; additivity of the sum is `ValueSumAppend`.
- GameStats.GetSummary: no contract of its own; it is `SummaryOf`, whose contract states the summary. Python's `round(total_playtime / 60, 2)` for `playtime_hours` is not modelled.
- Config.GameConfig.Settings requires a section name without a dot, because the getters are only called with the fixed section names.
- Config.GameConfig.ResetToDefaults: the source does not restore the defaults after a nested `set`. `load_config` can return the defaults object itself (config.py:94-95). `merge_configs` (config.py:113) and `reset_to_defaults` (config.py:154) make shallow copies, so the live configuration shares its section dictionaries with the defaults. After `set("graphics.quality", x)`, `reset_to_defaults` therefore keeps `x`. The model treats configurations as values, so its `ResetToDefaults` restores the built-in defaults, and this aliasing is not captured.
- Config.GameConfig.Set: through the same sharing, a `set` in the source can also change the stored defaults. The model's `Set` changes only the live configuration.
- Config: the module-level helpers `get_resolution`, `get_fullscreen`, `get_volume` and similar are thin calls of `get` and are not modelled.
- Loading and saving files is not modelled. That covers `load_config`/`save_config`, `load_stats`/`save_stats` and the save and load of inventory and quests. A load is the `saved` parameter of `GameConfig`. Every `save_stats` call after an update is dropped.
- `print_detailed_stats`, `generate_report` and the analysis functions of `stats.py` only print or format, so they are not modelled.
- Controls.Perform: applies the jump's upward move only. The return move 200 ms later is a separate `MovePlayer`, and `JumpReturns` covers it.
- Controls: the escape key does nothing in the source and does nothing here.
- Text.Lower and Text.Title handle ASCII letters only. Python's and JavaScript's Unicode case mapping is not modelled.
- GameStore.LoginCompleted: the one-second `setTimeout` is modelled as a separate action. The password is ignored, as in the source.
- QuestLog: a completed quest is no longer active, so it can be accepted and completed again. The model allows this, as the source does; the finished list then holds that quest twice.
- Config.GameConfig.Set: when the path runs into a leaf, the source raises `TypeError` before anything changes. The model returns `false` and leaves the configuration unchanged. Writing the file after a set is not modelled.
