/**
 * The energy inventory slot of a machine: a slot holding an item that either
 * gives energy to the machine (a discharge slot) or takes energy from it (a
 * charge slot), with the insert/extract rules that automation must obey.
 *
 * Energy is a `real`; the game uses IEEE doubles, whose rounding is not
 * modelled. An item may be a Mekanism energized item, carry a Forge energy
 * capability, or be redstone; the Forge conversions are not modelled, so the
 * amount a Forge transfer moves is a parameter.
 */
module EnergyInventorySlot {

  import opened Wrappers

  datatype AutomationType = MANUAL | INTERNAL | EXTERNAL

  /** The per-stack state an `IEnergizedItem` reports for this stack. */
  datatype Energized = Energized(stored: real, maxEnergy: real, maxTransfer: real, canSend: bool, canReceive: bool)

  /**
   * A Forge `IEnergyStorage` capability: `extractsOne` stands for
   * `extractEnergy(1, true) > 0`, `receivesOne` for `receiveEnergy(1, true) > 0`.
   */
  datatype ForgeStorage = ForgeStorage(canExtract: bool, canReceive: bool, extractsOne: bool, receivesOne: bool)

  datatype Item = Item(energized: Option<Energized>, forge: Option<ForgeStorage>, isRedstone: bool)

  datatype ItemStack = ItemStack(item: Item, count: nat)

  predicate IsEmpty(s: ItemStack)
  {
    s.count == 0
  }

  /** The configuration the slot reads: whether Forge energy is used and `ENERGY_PER_REDSTONE`. */
  datatype Config = Config(useForge: bool, energyPerRedstone: real)

  /** The Forge capability of a stack, when Forge energy is in use. */
  function ForgeCap(s: ItemStack, cfg: Config): Option<ForgeStorage>
  {
    if cfg.useForge then s.item.forge else None
  }

  // The five slot predicates.

  /** Extraction from a discharge slot: by hand always, by automation once the item is drained. */
  function DischargeExtract(s: ItemStack, t: AutomationType, cfg: Config): (r: bool)
    ensures t == MANUAL ==> r
    ensures t != MANUAL && s.item.energized.Some? ==> (r <==> s.item.energized.value.stored == 0.0)
    ensures t != MANUAL && s.item.energized.None? && ForgeCap(s, cfg).Some? ==>
              (r <==> !ForgeCap(s, cfg).value.canExtract || !ForgeCap(s, cfg).value.extractsOne)
    ensures s.item.energized.None? && ForgeCap(s, cfg).None? ==> r
  {
    if t == MANUAL then true
    else if s.item.energized.Some? then s.item.energized.value.stored == 0.0
    else if ForgeCap(s, cfg).Some? then
      var storage := ForgeCap(s, cfg).value;
      !storage.canExtract || !storage.extractsOne
    else true
  }

  /** Insertion into a discharge slot: an item that can give energy, or redstone. */
  function DischargeInsert(s: ItemStack, t: AutomationType, cfg: Config): (r: bool)
    ensures s.item.isRedstone ==> r
    ensures s.item.energized.Some? && s.item.energized.value.canSend && s.item.energized.value.stored > 0.0 ==> r
    ensures ForgeCap(s, cfg).Some? && ForgeCap(s, cfg).value.extractsOne ==> r
    ensures r ==> s.item.isRedstone
                  || (s.item.energized.Some? && s.item.energized.value.canSend && s.item.energized.value.stored > 0.0)
                  || (ForgeCap(s, cfg).Some? && ForgeCap(s, cfg).value.extractsOne)
  {
    if s.item.energized.Some? && s.item.energized.value.canSend && s.item.energized.value.stored > 0.0 then true
    else if ForgeCap(s, cfg).Some? && ForgeCap(s, cfg).value.extractsOne then true
    else s.item.isRedstone
  }

  /** Extraction from a charge slot: by hand always, by automation once the item is full. */
  function ChargeExtract(s: ItemStack, t: AutomationType, cfg: Config): (r: bool)
    ensures t == MANUAL ==> r
    ensures t != MANUAL && s.item.energized.Some? ==>
              (r <==> s.item.energized.value.stored == s.item.energized.value.maxEnergy)
    ensures t != MANUAL && s.item.energized.None? && ForgeCap(s, cfg).Some? ==>
              (r <==> !ForgeCap(s, cfg).value.canReceive || !ForgeCap(s, cfg).value.receivesOne)
    ensures s.item.energized.None? && ForgeCap(s, cfg).None? ==> r
  {
    if t == MANUAL then true
    else if s.item.energized.Some? then s.item.energized.value.stored == s.item.energized.value.maxEnergy
    else if ForgeCap(s, cfg).Some? then
      var storage := ForgeCap(s, cfg).value;
      !storage.canReceive || !storage.receivesOne
    else true
  }

  /** Insertion into a charge slot: only an item that can still take energy. */
  function ChargeInsert(s: ItemStack, t: AutomationType, cfg: Config): (r: bool)
    ensures r <==> (s.item.energized.Some? && s.item.energized.value.canReceive
                    && s.item.energized.value.stored < s.item.energized.value.maxEnergy)
                   || (ForgeCap(s, cfg).Some? && ForgeCap(s, cfg).value.receivesOne)
    ensures ForgeCap(s, cfg).None? && r ==> s.item.energized.Some? && s.item.energized.value.canReceive
    ensures s.item.energized.None? && ForgeCap(s, cfg).None? ==> !r
  {
    if s.item.energized.Some? && s.item.energized.value.canReceive
       && s.item.energized.value.stored < s.item.energized.value.maxEnergy then true
    else ForgeCap(s, cfg).Some? && ForgeCap(s, cfg).value.receivesOne
  }

  /** The item validity of both kinds of slot: any energized item, an extractable Forge store, or redstone. */
  function ValidItem(s: ItemStack, cfg: Config): (r: bool)
    ensures s.item.energized.Some? ==> r
    ensures s.item.isRedstone ==> r
    ensures ForgeCap(s, cfg).Some? && ForgeCap(s, cfg).value.canExtract ==> r
    ensures r ==> s.item.energized.Some? || s.item.isRedstone || (ForgeCap(s, cfg).Some? && ForgeCap(s, cfg).value.canExtract)
  {
    if s.item.energized.Some? then true
    else if ForgeCap(s, cfg).Some? && ForgeCap(s, cfg).value.canExtract then true
    else s.item.isRedstone
  }

  /** A drained energized item passes automated discharge extraction, but is refused for insertion unless it is redstone. */
  lemma DrainedItemLeavesDischargeSlot(s: ItemStack, t: AutomationType, cfg: Config)
    requires s.item.energized.Some? && s.item.energized.value.stored == 0.0 && !s.item.isRedstone && ForgeCap(s, cfg).None?
    ensures DischargeExtract(s, t, cfg) && !DischargeInsert(s, t, cfg)
  {
  }

  /** A full energized item passes automated charge extraction and is refused for charge insertion without Forge. */
  lemma FullItemLeavesChargeSlot(s: ItemStack, t: AutomationType, cfg: Config)
    requires s.item.energized.Some? && s.item.energized.value.stored == s.item.energized.value.maxEnergy
    requires ForgeCap(s, cfg).None?
    ensures ChargeExtract(s, t, cfg) && !ChargeInsert(s, t, cfg)
  {
  }

  function Min(a: real, b: real): (r: real)
    ensures r <= a && r <= b && (r == a || r == b)
  {
    if a <= b then a else b
  }

  /** The energy a handler holds and can hold. */
  datatype HandlerState = HandlerState(energy: real, maxEnergy: real)

  /** Which branch of `discharge`/`charge` moved energy, if any. */
  datatype Path = NoTransfer | EnergizedPath | ForgePath | RedstonePath

  /** The slot's stack and the handler's energy after one call, and the branch taken. */
  datatype Outcome = Outcome(stack: ItemStack, energy: real, path: Path)

  function WithStored(s: ItemStack, stored: real): ItemStack
    requires s.item.energized.Some?
  {
    s.(item := s.item.(energized := Some(s.item.energized.value.(stored := stored))))
  }

  /** The energy the stack itself stores, as an energized item. */
  function StoredIn(s: ItemStack): real
  {
    if s.item.energized.Some? then s.item.energized.value.stored else 0.0
  }

  /** `min(maxTransfer, min(stored, handler free space))`. */
  function DischargeAmount(e: Energized, h: HandlerState): (r: real)
    ensures r <= e.maxTransfer && r <= e.stored && r <= h.maxEnergy - h.energy
    ensures r == e.maxTransfer || r == e.stored || r == h.maxEnergy - h.energy
  {
    Min(e.maxTransfer, Min(e.stored, h.maxEnergy - h.energy))
  }

  /** `min(maxTransfer, min(item free space, handler energy))`. */
  function ChargeAmount(e: Energized, h: HandlerState): (r: real)
    ensures r <= e.maxTransfer && r <= e.maxEnergy - e.stored && r <= h.energy
    ensures r == e.maxTransfer || r == e.maxEnergy - e.stored || r == h.energy
  {
    Min(e.maxTransfer, Min(e.maxEnergy - e.stored, h.energy))
  }

  predicate EnergizedDischargeMoves(s: ItemStack, h: HandlerState)
  {
    s.item.energized.Some? && s.item.energized.value.canSend && DischargeAmount(s.item.energized.value, h) > 0.0
  }

  predicate EnergizedChargeMoves(s: ItemStack, h: HandlerState)
  {
    s.item.energized.Some? && s.item.energized.value.canReceive && ChargeAmount(s.item.energized.value, h) > 0.0
  }

  /**
   * `discharge(handler)`: the energized item first, then a Forge store
   * (`forgeGain` is what the Forge extraction delivers, an input), then one
   * redstone; the first branch that applies is the only one taken.
   */
  function DischargeStep(s: ItemStack, h: HandlerState, cfg: Config, forgeGain: real): (o: Outcome)
    // nothing happens to an empty slot or a full handler
    ensures IsEmpty(s) || h.energy >= h.maxEnergy ==> o == Outcome(s, h.energy, NoTransfer)
    ensures o.path == NoTransfer ==> o.stack == s && o.energy == h.energy
    // the energized path moves min(maxTransfer, stored, free space) from the item to the handler
    ensures o.path == EnergizedPath ==>
              EnergizedDischargeMoves(s, h)
              && o.energy == h.energy + DischargeAmount(s.item.energized.value, h)
              && o.stack == WithStored(s, s.item.energized.value.stored - DischargeAmount(s.item.energized.value, h))
              && StoredIn(o.stack) + o.energy == StoredIn(s) + h.energy
              && StoredIn(o.stack) >= 0.0 && o.energy <= h.maxEnergy
    // later branches run only when the earlier ones moved nothing
    ensures o.path == ForgePath ==>
              !EnergizedDischargeMoves(s, h) && ForgeCap(s, cfg).Some? && ForgeCap(s, cfg).value.canExtract
              && o.stack == s && o.energy == h.energy + forgeGain
    ensures o.path == RedstonePath ==>
              !EnergizedDischargeMoves(s, h) && !(ForgeCap(s, cfg).Some? && ForgeCap(s, cfg).value.canExtract)
              && s.item.isRedstone && h.energy + cfg.energyPerRedstone <= h.maxEnergy
              && o.energy == h.energy + cfg.energyPerRedstone && o.stack == s.(count := s.count - 1)
    // and each branch is taken whenever its condition holds and the earlier ones did not apply
    ensures !IsEmpty(s) && h.energy < h.maxEnergy && EnergizedDischargeMoves(s, h) ==> o.path == EnergizedPath
    ensures (!IsEmpty(s) && h.energy < h.maxEnergy && !EnergizedDischargeMoves(s, h)
             && ForgeCap(s, cfg).Some? && ForgeCap(s, cfg).value.canExtract) ==> o.path == ForgePath
    ensures (!IsEmpty(s) && h.energy < h.maxEnergy && !EnergizedDischargeMoves(s, h)
             && !(ForgeCap(s, cfg).Some? && ForgeCap(s, cfg).value.canExtract)
             && s.item.isRedstone && h.energy + cfg.energyPerRedstone <= h.maxEnergy) ==> o.path == RedstonePath
  {
    if IsEmpty(s) || !(h.energy < h.maxEnergy) then Outcome(s, h.energy, NoTransfer)
    else if EnergizedDischargeMoves(s, h) then
      var e := s.item.energized.value;
      var t := DischargeAmount(e, h);
      Outcome(WithStored(s, e.stored - t), h.energy + t, EnergizedPath)
    else if ForgeCap(s, cfg).Some? && ForgeCap(s, cfg).value.canExtract then
      Outcome(s, h.energy + forgeGain, ForgePath)
    else if s.item.isRedstone && h.energy + cfg.energyPerRedstone <= h.maxEnergy then
      Outcome(s.(count := s.count - 1), h.energy + cfg.energyPerRedstone, RedstonePath)
    else Outcome(s, h.energy, NoTransfer)
  }

  /**
   * `charge(handler)`: the energized item first, then a Forge store
   * (`forgeTaken` is what the Forge insertion takes, an input); there is no
   * redstone branch.
   */
  function ChargeStep(s: ItemStack, h: HandlerState, cfg: Config, forgeTaken: real): (o: Outcome)
    ensures IsEmpty(s) || h.energy <= 0.0 ==> o == Outcome(s, h.energy, NoTransfer)
    ensures o.path == NoTransfer ==> o.stack == s && o.energy == h.energy
    // the energized path moves min(maxTransfer, free item space, handler energy) into the item
    ensures o.path == EnergizedPath ==>
              EnergizedChargeMoves(s, h)
              && o.energy == h.energy - ChargeAmount(s.item.energized.value, h)
              && o.stack == WithStored(s, s.item.energized.value.stored + ChargeAmount(s.item.energized.value, h))
              && StoredIn(o.stack) + o.energy == StoredIn(s) + h.energy
              && StoredIn(o.stack) <= s.item.energized.value.maxEnergy && o.energy >= 0.0
    ensures o.path == ForgePath ==>
              !EnergizedChargeMoves(s, h) && ForgeCap(s, cfg).Some? && ForgeCap(s, cfg).value.canReceive
              && o.stack == s && o.energy == h.energy - forgeTaken
    ensures o.path != RedstonePath
    ensures !IsEmpty(s) && h.energy > 0.0 && EnergizedChargeMoves(s, h) ==> o.path == EnergizedPath
    ensures (!IsEmpty(s) && h.energy > 0.0 && !EnergizedChargeMoves(s, h)
             && ForgeCap(s, cfg).Some? && ForgeCap(s, cfg).value.canReceive) ==> o.path == ForgePath
  {
    if IsEmpty(s) || !(h.energy > 0.0) then Outcome(s, h.energy, NoTransfer)
    else if EnergizedChargeMoves(s, h) then
      var e := s.item.energized.value;
      var t := ChargeAmount(e, h);
      Outcome(WithStored(s, e.stored + t), h.energy - t, EnergizedPath)
    else if ForgeCap(s, cfg).Some? && ForgeCap(s, cfg).value.canReceive then
      Outcome(s, h.energy - forgeTaken, ForgePath)
    else Outcome(s, h.energy, NoTransfer)
  }

  /** An energized item stores between nothing and its maximum; a handler likewise. */
  predicate WellFormed(s: ItemStack, h: HandlerState)
  {
    (s.item.energized.Some? ==> 0.0 <= s.item.energized.value.stored <= s.item.energized.value.maxEnergy)
    && 0.0 <= h.energy <= h.maxEnergy
  }

  /**
   * Outside the Forge branch, discharging and charging keep item and handler
   * within their bounds and conserve the energy held by the two together.
   */
  lemma TransfersKeepBounds(s: ItemStack, h: HandlerState, cfg: Config, forge: real)
    requires WellFormed(s, h) && cfg.energyPerRedstone >= 0.0
    ensures var o := DischargeStep(s, h, cfg, forge);
            o.path != ForgePath ==> WellFormed(o.stack, HandlerState(o.energy, h.maxEnergy))
    ensures var o := DischargeStep(s, h, cfg, forge);
            o.path != ForgePath && o.path != RedstonePath ==> StoredIn(o.stack) + o.energy == StoredIn(s) + h.energy
    ensures var o := ChargeStep(s, h, cfg, forge);
            o.path != ForgePath ==>
              (WellFormed(o.stack, HandlerState(o.energy, h.maxEnergy))
               && StoredIn(o.stack) + o.energy == StoredIn(s) + h.energy)
  {
  }

  /** A slot the machine drains items from, or one it charges items in. */
  datatype SlotKind = DischargeSlot | ChargeSlot

  /** The energy handler of the machine the slot belongs to. */
  class EnergyHandler {
    var energy: real
    const maxEnergy: real

    constructor (energy: real, maxEnergy: real)
      ensures this.energy == energy && this.maxEnergy == maxEnergy
    {
      this.energy := energy;
      this.maxEnergy := maxEnergy;
    }

    function State(): HandlerState
      reads this
    {
      HandlerState(energy, maxEnergy)
    }
  }

  class EnergySlot {
    const kind: SlotKind
    var current: ItemStack
    /** The number of `onContentsChanged` calls so far. */
    var changes: nat

    /** `EnergyInventorySlot.discharge(...)` and `EnergyInventorySlot.charge(...)`. */
    constructor (kind: SlotKind, current: ItemStack)
      ensures this.kind == kind && this.current == current && changes == 0
    {
      this.kind := kind;
      this.current := current;
      changes := 0;
    }

    /** The extract predicate the slot was built with. */
    function CanExtract(t: AutomationType, cfg: Config): (r: bool)
      reads this
      ensures t == MANUAL ==> r
      ensures kind == DischargeSlot ==> (r <==> DischargeExtract(current, t, cfg))
      ensures kind == ChargeSlot ==> (r <==> ChargeExtract(current, t, cfg))
    {
      if kind == DischargeSlot then DischargeExtract(current, t, cfg) else ChargeExtract(current, t, cfg)
    }

    /** The insert predicate the slot was built with. */
    function CanInsert(s: ItemStack, t: AutomationType, cfg: Config): (r: bool)
      ensures kind == DischargeSlot ==> (r <==> DischargeInsert(s, t, cfg))
      ensures kind == ChargeSlot ==> (r <==> ChargeInsert(s, t, cfg))
      ensures kind == ChargeSlot && s.item.energized.None? && ForgeCap(s, cfg).None? ==> !r
    {
      if kind == DischargeSlot then DischargeInsert(s, t, cfg) else ChargeInsert(s, t, cfg)
    }

    method Discharge(handler: EnergyHandler, cfg: Config, forgeGain: real)
      modifies this, handler
      ensures var o := DischargeStep(old(current), old(handler.State()), cfg, forgeGain);
              current == o.stack && handler.energy == o.energy
              && changes == old(changes) + (if o.path == NoTransfer then 0 else 1)
    {
      if !IsEmpty(current) && handler.energy < handler.maxEnergy {
        if current.item.energized.Some? {
          var energizedItem := current.item.energized.value;
          if energizedItem.canSend {
            var currentStoredEnergy := energizedItem.stored;
            var energyToTransfer := Min(energizedItem.maxTransfer, Min(currentStoredEnergy, handler.maxEnergy - handler.energy));
            if energyToTransfer > 0.0 {
              current := WithStored(current, currentStoredEnergy - energyToTransfer);
              handler.energy := handler.energy + energyToTransfer;
              changes := changes + 1;
              return;
            }
          }
        }
        if cfg.useForge && current.item.forge.Some? {
          var storage := current.item.forge.value;
          if storage.canExtract {
            handler.energy := handler.energy + forgeGain;
            changes := changes + 1;
            return;
          }
        }
        if current.item.isRedstone && handler.energy + cfg.energyPerRedstone <= handler.maxEnergy {
          handler.energy := handler.energy + cfg.energyPerRedstone;
          current := current.(count := current.count - 1);
          changes := changes + 1;
        }
      }
    }

    method Charge(handler: EnergyHandler, cfg: Config, forgeTaken: real)
      modifies this, handler
      ensures var o := ChargeStep(old(current), old(handler.State()), cfg, forgeTaken);
              current == o.stack && handler.energy == o.energy
              && changes == old(changes) + (if o.path == NoTransfer then 0 else 1)
    {
      if !IsEmpty(current) && handler.energy > 0.0 {
        if current.item.energized.Some? {
          var energizedItem := current.item.energized.value;
          if energizedItem.canReceive {
            var storedEnergy := handler.energy;
            var itemStoredEnergy := energizedItem.stored;
            var energyToTransfer := Min(energizedItem.maxTransfer, Min(energizedItem.maxEnergy - itemStoredEnergy, storedEnergy));
            if energyToTransfer > 0.0 {
              current := WithStored(current, itemStoredEnergy + energyToTransfer);
              handler.energy := storedEnergy - energyToTransfer;
              changes := changes + 1;
              return;
            }
          }
        }
        if cfg.useForge && current.item.forge.Some? {
          var storage := current.item.forge.value;
          if storage.canReceive {
            handler.energy := handler.energy - forgeTaken;
            changes := changes + 1;
            return;
          }
        }
      }
    }
  }
}
