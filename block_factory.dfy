/**
 * The factory block: one block per (tier, recipe type) pair. Its registry
 * name is built from the tier's base-tier name and the type's name component,
 * and it answers fixed dispatch tables: the tile-entity type for each pair,
 * the machine sound for each type, constant energy storage and usage, the set
 * of supported upgrades, and the decision chain of a right-click.
 *
 * The tier's simple name and process count and the type's registry-name
 * component are inputs; they are supplied as a table.
 */
module BlockFactory {

  datatype FactoryType =
    | SMELTING | ENRICHING | CRUSHING | COMPRESSING | COMBINING
    | PURIFYING | INJECTING | INFUSING | SAWING

  datatype FactoryTier = BASIC | ADVANCED | ELITE | ULTIMATE

  /** The data of the tier and type enums that the block reads. */
  datatype EnumData = EnumData(
    baseTierSimpleName: FactoryTier -> string,
    processes: FactoryTier -> int,
    registryNameComponent: FactoryType -> string)

  const ModId: string := "mekanism"

  datatype ResourceLocation = ResourceLocation(namespace: string, path: string)

  // ---------------------------------------------------------------------------
  // Registry name
  // ---------------------------------------------------------------------------

  predicate IsUpper(c: char)
  {
    'A' <= c <= 'Z'
  }

  function LowerChar(c: char): (r: char)
    ensures !IsUpper(r)
    ensures !IsUpper(c) ==> r == c
  {
    if IsUpper(c) then (c as int - 'A' as int + 'a' as int) as char else c
  }

  /** `toLowerCase(Locale.ROOT)` on the ASCII letters. */
  function Lower(s: string): (r: string)
    ensures |r| == |s|
    ensures forall i :: 0 <= i < |r| ==> !IsUpper(r[i]) && r[i] == LowerChar(s[i])
  {
    if s == [] then [] else [LowerChar(s[0])] + Lower(s[1..])
  }

  /** Lower-casing twice is lower-casing once. */
  lemma LowerIdempotent(s: string)
    ensures Lower(Lower(s)) == Lower(s)
  {
  }

  /** The name the constructor registers the block under. */
  function RegistryName(simpleName: string, component: string): (r: string)
    ensures |r| == |simpleName| + |component| + 9
    ensures r[..|simpleName|] == Lower(simpleName)
    ensures r[|simpleName|] == '_'
    ensures r[|simpleName| + 1..|r| - 8] == component
    ensures r[|r| - 8..] == "_factory"
  {
    Lower(simpleName) + "_" + component + "_factory"
  }

  /**
   * For one type component, the registry name determines the lower-cased
   * tier name: two tiers with different lower-cased simple names never
   * collide.
   */
  lemma {:induction false} RegistryNameDeterminesTier(a: string, b: string, component: string)
    requires RegistryName(a, component) == RegistryName(b, component)
    ensures Lower(a) == Lower(b)
  {
    var r := RegistryName(a, component);
    assert |a| == |b|;
    assert Lower(a) == r[..|a|] == Lower(b);
  }

  /** The block as constructed: its tier, its type and its registry name. */
  datatype Block = Block(tier: FactoryTier, factoryType: FactoryType, registryName: ResourceLocation)

  /** `new BlockFactory(tier, type)`. */
  function Create(tier: FactoryTier, factoryType: FactoryType, data: EnumData): (r: Block)
    ensures r.tier == tier && r.factoryType == factoryType
    ensures r.registryName.namespace == ModId
    ensures r.registryName.path == RegistryName(data.baseTierSimpleName(tier), data.registryNameComponent(factoryType))
  {
    Block(tier, factoryType,
      ResourceLocation(ModId, RegistryName(data.baseTierSimpleName(tier), data.registryNameComponent(factoryType))))
  }

  // ---------------------------------------------------------------------------
  // Tile-entity types
  // ---------------------------------------------------------------------------

  /** The 36 factory tile-entity type constants. */
  datatype TileType =
    | BASIC_CRUSHING_FACTORY | ADVANCED_CRUSHING_FACTORY | ELITE_CRUSHING_FACTORY | ULTIMATE_CRUSHING_FACTORY
    | BASIC_COMBINING_FACTORY | ADVANCED_COMBINING_FACTORY | ELITE_COMBINING_FACTORY | ULTIMATE_COMBINING_FACTORY
    | BASIC_COMPRESSING_FACTORY | ADVANCED_COMPRESSING_FACTORY | ELITE_COMPRESSING_FACTORY | ULTIMATE_COMPRESSING_FACTORY
    | BASIC_ENRICHING_FACTORY | ADVANCED_ENRICHING_FACTORY | ELITE_ENRICHING_FACTORY | ULTIMATE_ENRICHING_FACTORY
    | BASIC_INFUSING_FACTORY | ADVANCED_INFUSING_FACTORY | ELITE_INFUSING_FACTORY | ULTIMATE_INFUSING_FACTORY
    | BASIC_INJECTING_FACTORY | ADVANCED_INJECTING_FACTORY | ELITE_INJECTING_FACTORY | ULTIMATE_INJECTING_FACTORY
    | BASIC_PURIFYING_FACTORY | ADVANCED_PURIFYING_FACTORY | ELITE_PURIFYING_FACTORY | ULTIMATE_PURIFYING_FACTORY
    | BASIC_SAWING_FACTORY | ADVANCED_SAWING_FACTORY | ELITE_SAWING_FACTORY | ULTIMATE_SAWING_FACTORY
    | BASIC_SMELTING_FACTORY | ADVANCED_SMELTING_FACTORY | ELITE_SMELTING_FACTORY | ULTIMATE_SMELTING_FACTORY

  /** The tier a tile-type constant is named after. */
  function TileTier(t: TileType): FactoryTier
  {
    match t
    case BASIC_CRUSHING_FACTORY | BASIC_COMBINING_FACTORY | BASIC_COMPRESSING_FACTORY
      | BASIC_ENRICHING_FACTORY | BASIC_INFUSING_FACTORY | BASIC_INJECTING_FACTORY
      | BASIC_PURIFYING_FACTORY | BASIC_SAWING_FACTORY | BASIC_SMELTING_FACTORY => BASIC
    case ADVANCED_CRUSHING_FACTORY | ADVANCED_COMBINING_FACTORY | ADVANCED_COMPRESSING_FACTORY
      | ADVANCED_ENRICHING_FACTORY | ADVANCED_INFUSING_FACTORY | ADVANCED_INJECTING_FACTORY
      | ADVANCED_PURIFYING_FACTORY | ADVANCED_SAWING_FACTORY | ADVANCED_SMELTING_FACTORY => ADVANCED
    case ELITE_CRUSHING_FACTORY | ELITE_COMBINING_FACTORY | ELITE_COMPRESSING_FACTORY
      | ELITE_ENRICHING_FACTORY | ELITE_INFUSING_FACTORY | ELITE_INJECTING_FACTORY
      | ELITE_PURIFYING_FACTORY | ELITE_SAWING_FACTORY | ELITE_SMELTING_FACTORY => ELITE
    case ULTIMATE_CRUSHING_FACTORY | ULTIMATE_COMBINING_FACTORY | ULTIMATE_COMPRESSING_FACTORY
      | ULTIMATE_ENRICHING_FACTORY | ULTIMATE_INFUSING_FACTORY | ULTIMATE_INJECTING_FACTORY
      | ULTIMATE_PURIFYING_FACTORY | ULTIMATE_SAWING_FACTORY | ULTIMATE_SMELTING_FACTORY => ULTIMATE
  }

  /** The recipe type a tile-type constant is named after. */
  function TileFactoryType(t: TileType): FactoryType
  {
    match t
    case BASIC_CRUSHING_FACTORY | ADVANCED_CRUSHING_FACTORY | ELITE_CRUSHING_FACTORY | ULTIMATE_CRUSHING_FACTORY => CRUSHING
    case BASIC_COMBINING_FACTORY | ADVANCED_COMBINING_FACTORY | ELITE_COMBINING_FACTORY | ULTIMATE_COMBINING_FACTORY => COMBINING
    case BASIC_COMPRESSING_FACTORY | ADVANCED_COMPRESSING_FACTORY | ELITE_COMPRESSING_FACTORY | ULTIMATE_COMPRESSING_FACTORY => COMPRESSING
    case BASIC_ENRICHING_FACTORY | ADVANCED_ENRICHING_FACTORY | ELITE_ENRICHING_FACTORY | ULTIMATE_ENRICHING_FACTORY => ENRICHING
    case BASIC_INFUSING_FACTORY | ADVANCED_INFUSING_FACTORY | ELITE_INFUSING_FACTORY | ULTIMATE_INFUSING_FACTORY => INFUSING
    case BASIC_INJECTING_FACTORY | ADVANCED_INJECTING_FACTORY | ELITE_INJECTING_FACTORY | ULTIMATE_INJECTING_FACTORY => INJECTING
    case BASIC_PURIFYING_FACTORY | ADVANCED_PURIFYING_FACTORY | ELITE_PURIFYING_FACTORY | ULTIMATE_PURIFYING_FACTORY => PURIFYING
    case BASIC_SAWING_FACTORY | ADVANCED_SAWING_FACTORY | ELITE_SAWING_FACTORY | ULTIMATE_SAWING_FACTORY => SAWING
    case BASIC_SMELTING_FACTORY | ADVANCED_SMELTING_FACTORY | ELITE_SMELTING_FACTORY | ULTIMATE_SMELTING_FACTORY => SMELTING
  }

  /** `getTileType`: the constant named after the block's tier and type. */
  function GetTileType(b: Block): (r: TileType)
    ensures TileTier(r) == b.tier && TileFactoryType(r) == b.factoryType
  {
    match b.factoryType
    case CRUSHING =>
      (match b.tier
       case ADVANCED => ADVANCED_CRUSHING_FACTORY
       case ELITE => ELITE_CRUSHING_FACTORY
       case ULTIMATE => ULTIMATE_CRUSHING_FACTORY
       case BASIC => BASIC_CRUSHING_FACTORY)
    case COMBINING =>
      (match b.tier
       case ADVANCED => ADVANCED_COMBINING_FACTORY
       case ELITE => ELITE_COMBINING_FACTORY
       case ULTIMATE => ULTIMATE_COMBINING_FACTORY
       case BASIC => BASIC_COMBINING_FACTORY)
    case COMPRESSING =>
      (match b.tier
       case ADVANCED => ADVANCED_COMPRESSING_FACTORY
       case ELITE => ELITE_COMPRESSING_FACTORY
       case ULTIMATE => ULTIMATE_COMPRESSING_FACTORY
       case BASIC => BASIC_COMPRESSING_FACTORY)
    case ENRICHING =>
      (match b.tier
       case ADVANCED => ADVANCED_ENRICHING_FACTORY
       case ELITE => ELITE_ENRICHING_FACTORY
       case ULTIMATE => ULTIMATE_ENRICHING_FACTORY
       case BASIC => BASIC_ENRICHING_FACTORY)
    case INFUSING =>
      (match b.tier
       case ADVANCED => ADVANCED_INFUSING_FACTORY
       case ELITE => ELITE_INFUSING_FACTORY
       case ULTIMATE => ULTIMATE_INFUSING_FACTORY
       case BASIC => BASIC_INFUSING_FACTORY)
    case INJECTING =>
      (match b.tier
       case ADVANCED => ADVANCED_INJECTING_FACTORY
       case ELITE => ELITE_INJECTING_FACTORY
       case ULTIMATE => ULTIMATE_INJECTING_FACTORY
       case BASIC => BASIC_INJECTING_FACTORY)
    case PURIFYING =>
      (match b.tier
       case ADVANCED => ADVANCED_PURIFYING_FACTORY
       case ELITE => ELITE_PURIFYING_FACTORY
       case ULTIMATE => ULTIMATE_PURIFYING_FACTORY
       case BASIC => BASIC_PURIFYING_FACTORY)
    case SAWING =>
      (match b.tier
       case ADVANCED => ADVANCED_SAWING_FACTORY
       case ELITE => ELITE_SAWING_FACTORY
       case ULTIMATE => ULTIMATE_SAWING_FACTORY
       case BASIC => BASIC_SAWING_FACTORY)
    case SMELTING =>
      (match b.tier
       case ADVANCED => ADVANCED_SMELTING_FACTORY
       case ELITE => ELITE_SMELTING_FACTORY
       case ULTIMATE => ULTIMATE_SMELTING_FACTORY
       case BASIC => BASIC_SMELTING_FACTORY)
  }

  /** Different (tier, type) pairs get different tile types. */
  lemma TileTypeInjective(b1: Block, b2: Block)
    requires GetTileType(b1) == GetTileType(b2)
    ensures b1.tier == b2.tier && b1.factoryType == b2.factoryType
  {
    assert b1.tier == TileTier(GetTileType(b1));
    assert b2.tier == TileTier(GetTileType(b2));
  }

  /** Every one of the 36 tile types is the tile type of some factory block. */
  lemma TileTypeSurjective(t: TileType, data: EnumData)
    ensures GetTileType(Create(TileTier(t), TileFactoryType(t), data)) == t
  {
  }

  /** The tile type depends only on tier and type, not on the registry name. */
  lemma TileTypeIgnoresName(b1: Block, b2: Block)
    requires b1.tier == b2.tier && b1.factoryType == b2.factoryType
    ensures GetTileType(b1) == GetTileType(b2)
  {
  }

  // ---------------------------------------------------------------------------
  // Sound, energy, upgrades
  // ---------------------------------------------------------------------------

  /** The machine blocks whose sound events the factory reuses. */
  datatype Machine =
    | EnrichmentChamber | Crusher | OsmiumCompressor | Combiner | PurificationChamber
    | ChemicalInjectionChamber | MetallurgicInfuser | PrecisionSawmill | EnergizedSmelter

  /** A sound event: the `SOUND_EVENT` constant of a machine block. */
  datatype SoundEvent = SoundOf(machine: Machine)

  /** The recipe type whose single machine a machine block is. */
  function MachineFactoryType(m: Machine): FactoryType
  {
    match m
    case EnrichmentChamber => ENRICHING
    case Crusher => CRUSHING
    case OsmiumCompressor => COMPRESSING
    case Combiner => COMBINING
    case PurificationChamber => PURIFYING
    case ChemicalInjectionChamber => INJECTING
    case MetallurgicInfuser => INFUSING
    case PrecisionSawmill => SAWING
    case EnergizedSmelter => SMELTING
  }

  /** `getSoundEvent`: the sound of the machine that does the same recipe type. */
  function GetSoundEvent(b: Block): (r: SoundEvent)
    ensures MachineFactoryType(r.machine) == b.factoryType
    ensures b.factoryType == SMELTING <==> r == SoundOf(EnergizedSmelter)
  {
    match b.factoryType
    case ENRICHING => SoundOf(EnrichmentChamber)
    case CRUSHING => SoundOf(Crusher)
    case COMPRESSING => SoundOf(OsmiumCompressor)
    case COMBINING => SoundOf(Combiner)
    case PURIFYING => SoundOf(PurificationChamber)
    case INJECTING => SoundOf(ChemicalInjectionChamber)
    case INFUSING => SoundOf(MetallurgicInfuser)
    case SAWING => SoundOf(PrecisionSawmill)
    case SMELTING => SoundOf(EnergizedSmelter)
  }

  /** Each type has its own sound, and every machine sound is used. */
  lemma SoundEventBijective(b1: Block, b2: Block, m: Machine, data: EnumData)
    ensures GetSoundEvent(b1) == GetSoundEvent(b2) <==> b1.factoryType == b2.factoryType
    ensures GetSoundEvent(Create(b1.tier, MachineFactoryType(m), data)) == SoundOf(m)
  {
    if GetSoundEvent(b1) == GetSoundEvent(b2) {
      assert b1.factoryType == MachineFactoryType(GetSoundEvent(b1).machine);
    }
  }

  /** `getStorage`: a thousand per process of the tier, whatever the type. */
  function GetStorage(b: Block, data: EnumData): (r: int)
    ensures data.processes(b.tier) > 0 ==> r >= 1000
    ensures r % 1000 == 0 && r / 1000 == data.processes(b.tier)
  {
    data.processes(b.tier) * 1000
  }

  /** `getUsage`: a constant. */
  function GetUsage(b: Block): (r: int)
    ensures r == 10
  {
    10
  }

  /** Two blocks of one tier store the same energy and use the same, whatever their types. */
  lemma EnergyIndependentOfType(b1: Block, b2: Block, data: EnumData)
    requires b1.tier == b2.tier
    ensures GetStorage(b1, data) == GetStorage(b2, data)
    ensures GetUsage(b1) == GetUsage(b2)
  {
  }

  /** The upgrades named by this block, and any other upgrade. */
  datatype Upgrade = SPEED | ENERGY | MUFFLING | OtherUpgrade(name: string)

  /** `getSupportedUpgrade`. */
  function GetSupportedUpgrade(b: Block): (r: set<Upgrade>)
    ensures forall u :: u in r <==> u == SPEED || u == ENERGY || u == MUFFLING
    ensures |r| == 3
  {
    {SPEED, ENERGY, MUFFLING}
  }

  // ---------------------------------------------------------------------------
  // Right-click
  // ---------------------------------------------------------------------------

  /** What `tryWrench` on the tile returned: `PASS`, or any other result. */
  datatype WrenchResult = PASS | Handled(name: string)

  /** The calls `onBlockActivated` makes on the tile entity. */
  datatype TileCall = TryWrench | OpenGui

  datatype Activation = Activation(result: bool, calls: seq<TileCall>)

  /**
   * `onBlockActivated`: on the client it claims the click; on the server,
   * without a tile it declines; otherwise the wrench goes first and the gui
   * opens only when the wrench passed.
   */
  function OnBlockActivated(isRemote: bool, hasTile: bool, wrench: WrenchResult, guiOpened: bool): (r: Activation)
    ensures r.result <==> isRemote || (hasTile && (wrench != PASS || guiOpened))
    ensures OpenGui in r.calls <==> !isRemote && hasTile && wrench == PASS
    ensures TryWrench in r.calls <==> !isRemote && hasTile
    ensures r.calls == [] || r.calls[0] == TryWrench
  {
    if isRemote then Activation(true, [])
    else if !hasTile then Activation(false, [])
    else if wrench != PASS then Activation(true, [TryWrench])
    else Activation(guiOpened, [TryWrench, OpenGui])
  }

  /** The gui result matters only when the click reached it. */
  lemma GuiResultMattersOnlyAfterPass(isRemote: bool, hasTile: bool, wrench: WrenchResult)
    ensures OnBlockActivated(isRemote, hasTile, wrench, true).result != OnBlockActivated(isRemote, hasTile, wrench, false).result
        <==> !isRemote && hasTile && wrench == PASS
  {
  }
}
