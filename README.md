# Mekanism core rules, modelled in Dafny

This is a Dafny model of six pieces of the Mekanism Minecraft mod, with proofs of what each one promises:

- **Fission reactor port** (`fission_port.dfy`, module `FissionReactorPort`). This is a casing block of the fission reactor multiblock.
  - Its mode is INPUT, OUTPUT_STEAM or OUTPUT_WASTE. A sneak right-click on the server moves it to the next of `values()`, so the cycle has three steps.
  - The mode decides which gas insert and extract requests reach the structure's tanks.
    Extraction is refused only from tank 2 in OUTPUT_STEAM and only from tank 3 in OUTPUT_WASTE; every other tank index is passed on (`ExtractOpenCases`).
  - Each server tick it emits from the steam or waste tank, depending on the mode.
  - An accepted fluid insert notifies the valves located at the port.
- **Energy inventory slot** (`energy_slot.dfy`, module `EnergyInventorySlot`). This is the machine slot that gives energy to an item or takes energy from it.
  - It has five insert/extract/validity predicates that automation must obey.
  - `discharge` and `charge` try the energized-item path first, then the Forge path, then (for discharge only) redstone.
- **Tag cache** (`tag_cache.dfy`, module `TagCache`). These are the memo maps the digital miner's filters use.
  - They are keyed by tag name, mod id, material and block.
  - The getters fill them lazily, and a tag reload clears part of them.
  - The cached answers are checked against reference definitions over the registries.
- **Thermodynamic conductor** (`conductor.dfy`, module `ThermodynamicConductor`). This is a heat transmitter with one heat capacitor (its buffer).
  - It sends a client update only after the temperature moves by more than a twentieth of its value.
  - The buffer heat makes a round trip through the update tag.
  - Its neighbour lookup is gated by connected side.
- **Factory block** (`block_factory.dfy`, module `BlockFactory`).
  - Its registry name is built from the tier and the recipe type.
  - It has dispatch tables: (tier, type) to tile-entity type, and type to machine sound.
  - Its energy storage and usage are fixed values, and it supports a fixed set of upgrades.
  - A right-click follows a fixed decision chain.
- **Mekanism hoe** (`hoe.dfy`, module `MekanismHoe`).
  - It follows the till rule for dirt and grass, after the edit permission and the use-hoe event.
  - Each use costs durability.
  - Its tooltip shows the remaining durability as "HP: n", and the model proves that line reads back as the same number.

State that the Java code changes in place is held in Dafny classes, with `modifies` frames on their methods:

- the port's mode and the structure's valves;
- the slot's stack and the handler's energy;
- the tag caches;
- the conductor's client temperature;
- the hoe's world and stack.

`wrappers.dfy` (module `Wrappers`) holds the `Option` type the modules share. Value types and decision rules are datatypes and functions. Each method is proved against a specification function, and lemmas state that function's properties.

Things the code calls but that are not part of this model are inputs:

- the superclass tanks (delegate functions);
- the game registries and `WildcardMatcher.matches`;
- the Forge energy conversions;
- the capacitor's temperature reading;
- the tier and type enum data.

## Model

| member | source | states |
|---|---|---|
| FissionReactorPort.Ordinal | src/generators/java/mekanism/generators/common/tile/fission/TileEntityFissionReactorPort.java:99 | A mode's ordinal is its position in `values()`. |
| FissionReactorPort.NextMode | src/generators/java/mekanism/generators/common/tile/fission/TileEntityFissionReactorPort.java:97-100 | The next mode's ordinal is `(ordinal + 1) mod n`, n being the number of modes. |
| FissionReactorPort.CycleOrdinal | src/generators/java/mekanism/generators/common/tile/fission/TileEntityFissionReactorPort.java:99 | After k server sneak-clicks, the ordinal is `(ordinal + k) mod n`, n being the number of modes. |
| FissionReactorPort.CycleRestores | src/generators/java/mekanism/generators/common/tile/fission/TileEntityFissionReactorPort.java:99 | n clicks, n being the number of modes, bring back the original mode. |
| FissionReactorPort.CycleReachesAll | src/generators/java/mekanism/generators/common/tile/fission/TileEntityFissionReactorPort.java:99 | Every mode is reached from every mode in fewer clicks than there are modes. |
| FissionReactorPort.FissionPort.OnSneakRightClick | src/generators/java/mekanism/generators/common/tile/fission/TileEntityFissionReactorPort.java:96-105 | The result is always SUCCESS. On the server the mode advances and the player is told the new mode. On the client neither happens. |
| FissionReactorPort.InsertGas | src/generators/java/mekanism/generators/common/tile/fission/TileEntityFissionReactorPort.java:139-146 | Outside INPUT the stack comes back whole and the tanks are untouched. In INPUT the answer is exactly the superclass answer. |
| FissionReactorPort.ExtractGas | src/generators/java/mekanism/generators/common/tile/fission/TileEntityFissionReactorPort.java:150-158 | Closed (mode, tank) pairs yield EMPTY and leave the tanks unchanged. Open pairs are passed to the superclass. |
| FissionReactorPort.ExtractOpenCases | src/generators/java/mekanism/generators/common/tile/fission/TileEntityFissionReactorPort.java:153 | An extract gets through iff the mode is OUTPUT_STEAM with a tank other than 2, or OUTPUT_WASTE with a tank other than 3. |
| FissionReactorPort.RejectedIgnoresDelegate | src/generators/java/mekanism/generators/common/tile/fission/TileEntityFissionReactorPort.java:141-157 | A rejected insert or extract gives the same answer whatever the superclass does. |
| FissionReactorPort.SimulationAgrees | src/generators/java/mekanism/generators/common/tile/fission/TileEntityFissionReactorPort.java:139-158 | The gate ignores simulate vs execute. With a superclass that simulates faithfully, a simulated request returns what the executed one returns and changes nothing. |
| FissionReactorPort.Persists | src/generators/java/mekanism/generators/common/tile/fission/TileEntityFissionReactorPort.java:84-89 | False exactly for HEAT, GAS and FLUID. Every other substance defers to the superclass. |
| FissionReactorPort.GetAdjacent | src/generators/java/mekanism/generators/common/tile/fission/TileEntityFissionReactorPort.java:55-63 | The superclass heat handler, unless the neighbour is another port, in which case none. |
| FissionReactorPort.EmittedTank | src/generators/java/mekanism/generators/common/tile/fission/TileEntityFissionReactorPort.java:40-51 | Returns the steam tank iff formed and OUTPUT_STEAM, and the waste tank iff formed and OUTPUT_WASTE. Returns none iff unformed or INPUT. |
| FissionReactorPort.FissionPort.OnUpdateServer | src/generators/java/mekanism/generators/common/tile/fission/TileEntityFissionReactorPort.java:40-51 | One emission of the tank `EmittedTank` selects is appended, or none. |
| FissionReactorPort.NotifiedAt | src/generators/java/mekanism/generators/common/tile/fission/TileEntityFissionReactorPort.java:127-131 | Notifying gives exactly the valves located at the port one more transfer each. All other valves are left as they were, and locations are kept. |
| FissionReactorPort.FissionPort.InsertFluid | src/generators/java/mekanism/generators/common/tile/fission/TileEntityFissionReactorPort.java:122-135 | Returns the superclass result. The valves are notified only when something was accepted and the action is EXECUTE, and only if the structure exists. |
| EnergyInventorySlot.DischargeExtract | src/main/java/mekanism/common/inventory/slot/EnergyInventorySlot.java:32-49 | MANUAL is always allowed. For automation, an energized item may leave iff it is empty, and a Forge store iff it cannot extract or yields nothing. Anything else is allowed. |
| EnergyInventorySlot.DischargeInsert | src/main/java/mekanism/common/inventory/slot/EnergyInventorySlot.java:50-65 | Accepted: redstone, an energized item that can send and is not empty, and (with Forge energy in use) a Forge store that yields energy for a simulated extraction of 1. Nothing else is accepted. |
| EnergyInventorySlot.ChargeExtract | src/main/java/mekanism/common/inventory/slot/EnergyInventorySlot.java:66-84 | MANUAL is always allowed. For automation, an energized item may leave iff it is full, and a Forge store iff it cannot receive or takes nothing. |
| EnergyInventorySlot.ChargeInsert | src/main/java/mekanism/common/inventory/slot/EnergyInventorySlot.java:85-103 | Accepted iff the item is an energized item that can receive and is below its max, or a Forge store that takes energy. |
| EnergyInventorySlot.ValidItem | src/main/java/mekanism/common/inventory/slot/EnergyInventorySlot.java:104-117 | Valid: every energized item, redstone, and (with Forge energy in use) a Forge store that can extract. Nothing else is valid. |
| EnergyInventorySlot.DrainedItemLeavesDischargeSlot | src/main/java/mekanism/common/inventory/slot/EnergyInventorySlot.java:32-65 | A drained energized item (not redstone, no Forge) may be extracted but not inserted in a discharge slot. |
| EnergyInventorySlot.FullItemLeavesChargeSlot | src/main/java/mekanism/common/inventory/slot/EnergyInventorySlot.java:66-103 | A full energized item may be extracted but not inserted in a charge slot (without Forge). |
| EnergyInventorySlot.DischargeAmount | src/main/java/mekanism/common/inventory/slot/EnergyInventorySlot.java:148 | The amount is at most each of max transfer, stored energy and handler free space, and equals one of them. |
| EnergyInventorySlot.ChargeAmount | src/main/java/mekanism/common/inventory/slot/EnergyInventorySlot.java:187 | The amount is at most each of max transfer, item free space and handler energy, and equals one of them. |
| EnergyInventorySlot.DischargeStep | src/main/java/mekanism/common/inventory/slot/EnergyInventorySlot.java:142-178 | An empty slot or a full handler changes nothing. The energized path moves exactly the min amount, conserving energy and keeping the handler at or below max. The Forge branch is taken exactly when the energized path moved nothing and the store can extract. Redstone is taken exactly when neither earlier branch applied and `ENERGY_PER_REDSTONE` fits; it adds that amount and shrinks the stack by one. |
| EnergyInventorySlot.ChargeStep | src/main/java/mekanism/common/inventory/slot/EnergyInventorySlot.java:180-212 | An empty slot or a handler at 0 changes nothing. The energized path moves exactly the min amount, conserving energy with the item at or below its max. The Forge branch is taken exactly when the energized path moved nothing and the store can receive. There is no redstone path. |
| EnergyInventorySlot.TransfersKeepBounds | src/main/java/mekanism/common/inventory/slot/EnergyInventorySlot.java:142-212 | Outside the Forge branch, item and handler stay within [0, max]. Energy is conserved on every path except redstone. |
| EnergyInventorySlot.EnergySlot.constructor | src/main/java/mekanism/common/inventory/slot/EnergyInventorySlot.java:122-138 | A discharge or charge slot holding the given stack. |
| EnergyInventorySlot.EnergySlot.CanExtract | src/main/java/mekanism/common/inventory/slot/EnergyInventorySlot.java:122-135 | A discharge slot extracts by `DischargeExtract`, a charge slot by `ChargeExtract`; manual extraction is always allowed in both. |
| EnergyInventorySlot.EnergySlot.CanInsert | src/main/java/mekanism/common/inventory/slot/EnergyInventorySlot.java:122-135 | A discharge slot inserts by `DischargeInsert`, a charge slot by `ChargeInsert`; a charge slot refuses an item with neither an energized nor a Forge store. |
| EnergyInventorySlot.EnergySlot.Discharge | src/main/java/mekanism/common/inventory/slot/EnergyInventorySlot.java:142-178 | The new stack and handler energy are `DischargeStep`'s. Contents-changed fires once iff a transfer branch is taken, even a Forge branch that moves nothing. |
| EnergyInventorySlot.EnergySlot.Charge | src/main/java/mekanism/common/inventory/slot/EnergyInventorySlot.java:180-212 | The new stack and handler energy are `ChargeStep`'s. Contents-changed fires once iff a transfer branch is taken, even a Forge branch that moves nothing. |
| TagCache.ValidMembers | src/main/java/mekanism/common/base/TagCache.java:128-132 | An element passes the filter iff it is in the tag and is not the bounding block. |
| TagCache.CollectedMembers | src/main/java/mekanism/common/base/TagCache.java:123-136 | An element is collected iff some tag whose name matches holds it and it is not the bounding block. |
| TagCache.CollectTagStacks | src/main/java/mekanism/common/base/TagCache.java:123-136 | The nested loops build exactly the reference set `Collected`. |
| TagCache.BoundingNeverCollected | src/main/java/mekanism/common/base/TagCache.java:109-119 | The bounding block and its item are never in a tag query's answer. |
| TagCache.GetTagsAsStrings | src/main/java/mekanism/common/base/TagCache.java:94-103 | One string per tag, and the strings are exactly the tags' `toString`s. No tags gives the empty list. |
| TagCache.StacksOf | src/main/java/mekanism/common/base/TagCache.java:143 | The listed items are exactly the non-empty item forms of the set. There are no more of them than elements. |
| TagCache.GetMatching | src/main/java/mekanism/common/base/TagCache.java:138-146 | No blocks gives NONE and leaves the cache unchanged. Otherwise `hasMatch` holds with the non-empty stacks, stored under the name. |
| TagCache.MatchWithoutStacks | src/main/java/mekanism/common/base/TagCache.java:259-262 | If every matching block lacks an item form, the answer has `hasMatch` set and no stacks. |
| TagCache.ModIDItems | src/main/java/mekanism/common/base/TagCache.java:152-163 | An item is listed iff it is registered, is not the bounding item, is not empty, and its mod id matches. |
| TagCache.BoundingNotAModIDBlock | src/main/java/mekanism/common/base/TagCache.java:172-178 | The bounding block is never among a mod's blocks. |
| TagCache.MaterialItems | src/main/java/mekanism/common/base/TagCache.java:190-199 | An item is listed iff it is the non-empty item form of a registered block (not the bounding block) of that material. |
| TagCache.Caches.constructor | src/main/java/mekanism/common/base/TagCache.java:40-49 | All nine maps start empty, and the coherence invariant holds. |
| TagCache.Caches.ResetTagCaches | src/main/java/mekanism/common/base/TagCache.java:51-59 | Empties the block-tag, item-tag, tile-type and three blacklist maps. The mod id and material maps are left untouched, and the invariant is kept. |
| TagCache.Caches.GetItemTags | src/main/java/mekanism/common/base/TagCache.java:61-63 | Lists the item's tags as strings. |
| TagCache.Caches.GetTileEntityTypeTags | src/main/java/mekanism/common/base/TagCache.java:65-92 | A cached block returns the stored list. Otherwise it returns the tags of the block's own tile type, or else of every block entity type valid for it, or else none, and caches the result. |
| TagCache.Caches.GetItemTagStacks | src/main/java/mekanism/common/base/TagCache.java:105-113 | A stored key returns the stored list unchanged. Otherwise it returns the non-empty stacks of the collected items and stores them, even when empty. |
| TagCache.Caches.GetBlockTagStacks | src/main/java/mekanism/common/base/TagCache.java:115-121 | A stored key returns the stored value. A query matching no block answers NONE and is not stored. Otherwise the matching answer is stored. |
| TagCache.Caches.GetItemModIDStacks | src/main/java/mekanism/common/base/TagCache.java:148-166 | The answer is `ModIDItems` over the registry, stored on first query. |
| TagCache.Caches.GetBlockModIDStacks | src/main/java/mekanism/common/base/TagCache.java:168-180 | A stored key returns the stored value. A mod with no blocks answers NONE and is not stored. Otherwise the matching answer is stored. |
| TagCache.Caches.GetMaterialStacks | src/main/java/mekanism/common/base/TagCache.java:186-202 | The answer is `MaterialItems` over the registry, stored on first query. |
| TagCache.Caches.GetMaterialStacksOfItem | src/main/java/mekanism/common/base/TagCache.java:182-184 | The material query for the material of the item's block: its answer, and the material stack cache gains that answer under the material unless it is already stored. |
| TagCache.Caches.TagHasMinerBlacklisted | src/main/java/mekanism/common/base/TagCache.java:204-219 | An empty blacklist gives false and no cache change. Otherwise the result is true iff a matching tag holds a blacklisted block, and it is cached on first query. |
| TagCache.Caches.ModIDHasMinerBlacklisted | src/main/java/mekanism/common/base/TagCache.java:221-236 | An empty blacklist gives false. Otherwise the result is true iff a blacklisted registered block belongs to a matching mod, and it is cached. |
| TagCache.Caches.MaterialHasMinerBlacklisted | src/main/java/mekanism/common/base/TagCache.java:242-257 | An empty blacklist gives false. Otherwise the result is true iff a blacklisted registered block is made of the material, and it is cached. |
| TagCache.Caches.MaterialHasMinerBlacklistedOfItem | src/main/java/mekanism/common/base/TagCache.java:238-240 | The material query for the material of the item's block: false with no cache change for an empty blacklist; otherwise the answer, cached under the material unless already stored. |
| ThermodynamicConductor.SyncedTemperature | src/main/java/mekanism/common/content/network/transmitter/ThermodynamicConductor.java:112-117 | The client temperature becomes T exactly when the server sees `abs(T - client) > T/20`, and is kept otherwise. Afterwards, on the server, it is within T/20 of T for T >= 0. |
| ThermodynamicConductor.SyncSettles | src/main/java/mekanism/common/content/network/transmitter/ThermodynamicConductor.java:112-116 | Right after a server sync, the same temperature does not trigger another. |
| ThermodynamicConductor.ClientNeverRefreshes | src/main/java/mekanism/common/content/network/transmitter/ThermodynamicConductor.java:112-113 | On the client the remembered temperature never changes. |
| ThermodynamicConductor.Conductor.OnContentsChanged | src/main/java/mekanism/common/content/network/transmitter/ThermodynamicConductor.java:111-119 | The client temperature follows `SyncedTemperature`. One packet is sent iff it refreshed. `markDirty` is counted on every call. |
| ThermodynamicConductor.Conductor.constructor | src/main/java/mekanism/common/content/network/transmitter/ThermodynamicConductor.java:33-42 | The client temperature starts at ambient, and the capacitor list is the singleton buffer. |
| ThermodynamicConductor.ReducedUpdateTag | src/main/java/mekanism/common/content/network/transmitter/ThermodynamicConductor.java:88-92 | The superclass tag plus the heat as a double under the temperature key. No other key changes. |
| ThermodynamicConductor.Conductor.GetReducedUpdateTag | src/main/java/mekanism/common/content/network/transmitter/ThermodynamicConductor.java:88-92 | The tag carries the buffer's heat under the temperature key, on top of the superclass keys. |
| ThermodynamicConductor.HeatAfterUpdateTag | src/main/java/mekanism/common/content/network/transmitter/ThermodynamicConductor.java:95-98 | The heat is set from the tag when the key is present as a double. Without the key it is kept. |
| ThermodynamicConductor.UpdateTagRoundTrip | src/main/java/mekanism/common/content/network/transmitter/ThermodynamicConductor.java:88-98 | Handling the written tag restores the written heat, whatever the superclass wrote. |
| ThermodynamicConductor.MissingKeyKeepsHeat | src/main/java/mekanism/common/content/network/transmitter/ThermodynamicConductor.java:97 | A tag without the key leaves the heat unchanged. |
| ThermodynamicConductor.Conductor.HandleUpdateTag | src/main/java/mekanism/common/content/network/transmitter/ThermodynamicConductor.java:95-98 | The buffer heat becomes `HeatAfterUpdateTag` of the tag. |
| ThermodynamicConductor.SyncHeat | src/main/java/mekanism/common/content/network/transmitter/ThermodynamicConductor.java:88-98 | Sending one conductor's update tag to another gives the receiver the sender's heat. |
| ThermodynamicConductor.Conductor.GetHeatCapacitors | src/main/java/mekanism/common/content/network/transmitter/ThermodynamicConductor.java:105-108 | The same one-element list holding the buffer, for every side. |
| ThermodynamicConductor.Conductor.GetAdjacent | src/main/java/mekanism/common/content/network/transmitter/ThermodynamicConductor.java:123-130 | None for an unconnected side. Otherwise the cached acceptor for that side, if any. |
| BlockFactory.Lower | src/main/java/mekanism/common/block/machine/factory/BlockFactory.java:85 | Same length, no upper-case letter, each character lower-cased. |
| BlockFactory.LowerIdempotent | src/main/java/mekanism/common/block/machine/factory/BlockFactory.java:85 | Lower-casing a lower-cased name changes nothing. |
| BlockFactory.RegistryName | src/main/java/mekanism/common/block/machine/factory/BlockFactory.java:85 | The lower-cased tier name, then `_`, then the type component, then `_factory`, with the matching length. |
| BlockFactory.RegistryNameDeterminesTier | src/main/java/mekanism/common/block/machine/factory/BlockFactory.java:85 | For one type, equal registry names imply equal lower-cased tier names. |
| BlockFactory.Create | src/main/java/mekanism/common/block/machine/factory/BlockFactory.java:81-98 | `getTier` and `getFactoryType` return the constructor arguments. The registry name is in the mekanism namespace with the built path. |
| BlockFactory.GetTileType | src/main/java/mekanism/common/block/machine/factory/BlockFactory.java:248-360 | The constant named after the block's own tier and type. |
| BlockFactory.TileTypeInjective | src/main/java/mekanism/common/block/machine/factory/BlockFactory.java:248-360 | Different (tier, type) pairs get different tile types. |
| BlockFactory.TileTypeSurjective | src/main/java/mekanism/common/block/machine/factory/BlockFactory.java:248-360 | Every one of the 36 constants is some factory's tile type. |
| BlockFactory.TileTypeIgnoresName | src/main/java/mekanism/common/block/machine/factory/BlockFactory.java:248-360 | The tile type depends only on tier and type. |
| BlockFactory.GetSoundEvent | src/main/java/mekanism/common/block/machine/factory/BlockFactory.java:206-228 | The sound of the machine that runs the same recipe type. SMELTING gives the energized smelter. |
| BlockFactory.SoundEventBijective | src/main/java/mekanism/common/block/machine/factory/BlockFactory.java:206-228 | Two blocks share a sound iff they share a type, and every machine's sound is used. |
| BlockFactory.GetStorage | src/main/java/mekanism/common/block/machine/factory/BlockFactory.java:236-239 | Exactly a thousand per tier process. |
| BlockFactory.GetUsage | src/main/java/mekanism/common/block/machine/factory/BlockFactory.java:242-245 | Always 10. |
| BlockFactory.EnergyIndependentOfType | src/main/java/mekanism/common/block/machine/factory/BlockFactory.java:236-245 | Blocks of one tier have equal storage and usage, whatever their types. |
| BlockFactory.GetSupportedUpgrade | src/main/java/mekanism/common/block/machine/factory/BlockFactory.java:364-366 | Exactly {SPEED, ENERGY, MUFFLING}. |
| BlockFactory.OnBlockActivated | src/main/java/mekanism/common/block/machine/factory/BlockFactory.java:159-171 | The result is true iff client, or a tile exists and the wrench did not pass or the gui opened. The wrench is tried iff server with a tile, and the gui is opened iff the wrench passed too. |
| BlockFactory.GuiResultMattersOnlyAfterPass | src/main/java/mekanism/common/block/machine/factory/BlockFactory.java:159-171 | The gui's answer changes the result iff server, tile and PASS. |
| MekanismHoe.RejectionMeansNotTillable | src/minecraft/mekanism/tools/common/ItemMekanismHoe.java:55-58 | The code's rejection test holds iff the block is not tillable. Dirt is tillable always; grass needs a side other than 0 and air above. |
| MekanismHoe.UseDecision | src/minecraft/mekanism/tools/common/ItemMekanismHoe.java:32-74 | No permission or a cancelled event gives false with no effect. ALLOW gives true with damage. Otherwise the result is true iff tillable, the block changes only on the server, and damage follows the block change or ALLOW. |
| MekanismHoe.DenyActsAsDefault | src/minecraft/mekanism/tools/common/ItemMekanismHoe.java:46-58 | A DENY result behaves exactly like DEFAULT. |
| MekanismHoe.DamageOnlyOnSuccess | src/minecraft/mekanism/tools/common/ItemMekanismHoe.java:46-70 | Damage implies a true result, and a till implies damage. |
| MekanismHoe.TilledFieldStaysPut | src/minecraft/mekanism/tools/common/ItemMekanismHoe.java:55-58 | Tilled field is not tillable again. |
| MekanismHoe.World.BlockAt | src/minecraft/mekanism/tools/common/ItemMekanismHoe.java:52-53 | An unset position reads as air. |
| MekanismHoe.OnItemUse | src/minecraft/mekanism/tools/common/ItemMekanismHoe.java:32-74 | The result, the block map, the damage and the sound count are exactly as `UseDecision` says for the world before the call. |
| MekanismHoe.NatToStringRoundTrip | src/minecraft/mekanism/tools/common/ItemMekanismHoe.java:79 | The decimal form of a natural is all digits and parses back to it. |
| MekanismHoe.IntToStringRoundTrip | src/minecraft/mekanism/tools/common/ItemMekanismHoe.java:79 | Java's decimal form of an int, sign included, parses back to it. |
| MekanismHoe.HpLineRoundTrip | src/minecraft/mekanism/tools/common/ItemMekanismHoe.java:79 | The "HP: " line reads back as the same number. |
| MekanismHoe.AddInformation | src/minecraft/mekanism/tools/common/ItemMekanismHoe.java:76-80 | Appends exactly one line, which reads back as `maxDamage - itemDamage`. |
| MekanismHoe.ItemHoe.constructor | src/minecraft/mekanism/tools/common/ItemMekanismHoe.java:22-29 | The max stack size is 1 and the max damage is the material's max uses. |

## Left out

- IEEE double rounding: energy and temperature are `real`, and no floating-point fidelity is claimed.
- EnergyInventorySlot.DischargeStep: the Forge branch adds a caller-supplied amount (`forgeGain`), because `ForgeEnergyIntegration.toForge`/`fromForge` and `IEnergyStorage.extractEnergy` are not part of this model. No bound or conservation is stated for that branch.
- EnergyInventorySlot.ChargeStep: the Forge branch subtracts a caller-supplied amount (`forgeTaken`), for the same reason. No bound is stated for that branch.
- EnergyInventorySlot.TransfersKeepBounds: excludes the Forge branch, and does not claim conservation for redstone, which creates energy from an item.
- Each energy predicate's Forge capability is reduced to four booleans (`canExtract`, `canReceive`, `extractEnergy(1, true) > 0`, `receiveEnergy(1, true) > 0`).
- The port's superclass gas and fluid tanks are delegate functions over an abstract tank state. The same holds for the superclass's `persists` and `getAdjacent`, and for whether the neighbouring tile is a port.
- `GasUtils.emit` is recorded as a log of the tanks emitted. It is not simulated.
- FissionReactorPort.FissionPort.OnUpdateServer: the call to `super.onUpdateServer()` is not modelled; only the port's own emission is.
- The player's chat message is returned as the new mode. The block-state write is the `mode` field.
- FissionReactorPort.FissionPort.InsertFluid: `ValveData` objects are shared with the structure, but here they are values in its `valves` sequence. Aliasing of one valve through several lists is not modelled. `onTransfer` is a counter.
- The port's `getInitial*Tanks` holders, `getCapabilityIfEnabled` and `onRightClick`: capability plumbing of the host, not part of this model.
- The `FissionPortMode` enum definition is not part of this model. The model has the three values named in the code, and assumes they are declared in the order INPUT, OUTPUT_STEAM, OUTPUT_WASTE. `NextMode` and `OnSneakRightClick` depend on that order; the cycle lemmas do not.
- TagCache.GetTagsAsStrings: the order of a list built from a Java `HashSet` is unspecified, so only the list's length and its set of strings are stated.
- TagCache.StacksOf: only the set of listed items and a length bound are stated. The order in which a `HashSet` of blocks streams is unspecified, and two blocks sharing one item form would give two equal stacks.
- TagCache.Caches.GetItemTagStacks: states the set of listed items, not their order or multiplicity, for the same reason.
- The tag cache's static maps are the fields of one `Caches` object.
- The game registries, the tag collections (read in a fixed order) and the miner blacklist are immutable inputs.
- `WildcardMatcher.matches` is an uninterpreted function, because its source is not part of this model.
- `ResourceLocation.toString()` is modelled as namespace, `:`, path.
- `MekanismUtils.getModId` is the item's `modId` field.
- `Block.byItem` is an input function.
- ThermodynamicConductor.Conductor.OnContentsChanged: the buffer temperature is passed in. `BasicHeatCapacitor.getTemperature` and the heat-to-temperature relation are not part of this model.
- The conductor's initial buffer heat and `HeatAPI.AMBIENT_TEMP` are constructor inputs.
- The conductor's update packet and `markDirty` are counters.
- `NBTUtils.setDoubleIfPresent` is read as "set when the key holds a double". `NBTConstants.TEMPERATURE` is written as `"temperature"`; no property depends on its spelling.
- The superclass part of `getReducedUpdateTag` is a delegate. The superclass part of `handleUpdateTag` is not modelled.
- The conductor's `write`/`read` (served by `DataHandlerUtils`) are left out; so are network creation and merging, `takeShare`, `isValidAcceptor`, and the tier colour. Their logic lives in code that is not part of this model.
- The conductor's acceptor cache is a map from side to handler. Its listening and invalidation are not modelled.
- BlockFactory.Lower: lower-cases ASCII letters only; `Locale.ROOT` lower-casing of other scripts is not modelled.
- BlockFactory.GetStorage: computed on unbounded integers. Java's 32-bit `processes * 1000` would overflow only above two million processes.
- The tier's simple name, process count and the type's registry-name component come from enums that are not part of this model. They are supplied as data (`EnumData`).
- The `MekanismTileEntityTypes` constants are a 36-value datatype. The machines' `SOUND_EVENT` constants are identified by their machine.
- The `default:` branches of the Java switches cannot be reached for these enums, and have no counterpart.
- `Upgrade` values other than the three named here are `OtherUpgrade`. The full enum is not part of this model.
- `tryWrench` and `openGui` are inputs; what they do to the tile is not modelled.
- BlockFactory's `setTileData`, `animateTick`, `getLightValue`, `getRenderLayer`, `getPlayerRelativeBlockHardness`, `getExplosionResistance`, `neighborChanged` and `getProvider` are left out. They are engine callbacks: particles, lighting, rendering and container plumbing.
- MekanismHoe.OnItemUse: `damageItem(1, player)` is modelled as adding one point of damage. Breaking the stack when damage passes the maximum is not modelled.
- The hoe's `canPlayerEdit`, the event bus's cancellation and the event result are inputs.
- The hoe's tilling sound is a counter, and `setBlockWithNotify`'s neighbour updates are not modelled.
- The block ids are the game's constants (air 0, grass 2, dirt 3, tilled field 60).
- The hoe's `isFull3D` and `setCreativeTab` are rendering and creative-menu hints; they are left out.
