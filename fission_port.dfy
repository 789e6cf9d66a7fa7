/**
 * The fission reactor port: a casing block of the fission multiblock whose
 * block-state mode (input, output steam, output waste) gates which gas insert
 * and extract requests reach the structure's tanks, which tank it emits each
 * server tick, and whether an accepted fluid insert notifies the valves.
 *
 * The superclass tank operations are inputs; they are modelled as
 * delegates: functions from a request and an abstract tank state `S` to the
 * returned stack and the new tank state.
 */
module FissionReactorPort {

  import opened Wrappers

  datatype FissionPortMode = INPUT | OUTPUT_STEAM | OUTPUT_WASTE

  /** `FissionPortMode.values()`, taking the enum to declare the modes in this order. */
  const Modes: seq<FissionPortMode> := [INPUT, OUTPUT_STEAM, OUTPUT_WASTE]

  function Ordinal(m: FissionPortMode): (r: nat)
    ensures r < |Modes| && Modes[r] == m
  {
    match m
    case INPUT => 0
    case OUTPUT_STEAM => 1
    case OUTPUT_WASTE => 2
  }

  /** The mode a sneak right-click selects: the next value, wrapping around. */
  function NextMode(m: FissionPortMode): (r: FissionPortMode)
    ensures Ordinal(r) == (Ordinal(m) + 1) % |Modes|
  {
    Modes[(Ordinal(m) + 1) % |Modes|]
  }

  /** The mode after `k` sneak right-clicks on the server. */
  function Cycle(m: FissionPortMode, k: nat): FissionPortMode
  {
    if k == 0 then m else NextMode(Cycle(m, k - 1))
  }

  lemma {:induction false} CycleOrdinal(m: FissionPortMode, k: nat)
    ensures Ordinal(Cycle(m, k)) == (Ordinal(m) + k) % |Modes|
  {
    if k > 0 {
      CycleOrdinal(m, k - 1);
    }
  }

  /** Clicking as many times as there are modes restores the original mode. */
  lemma CycleRestores(m: FissionPortMode)
    ensures Cycle(m, |Modes|) == m
  {
    CycleOrdinal(m, |Modes|);
    assert Modes[Ordinal(Cycle(m, |Modes|))] == Modes[Ordinal(m)];
  }

  /** Every mode is reached from every other one by clicking. */
  lemma CycleReachesAll(m: FissionPortMode, target: FissionPortMode)
    ensures exists k: nat :: k < |Modes| && Cycle(m, k) == target
  {
    var k: nat := (Ordinal(target) - Ordinal(m) + |Modes|) % |Modes|;
    CycleOrdinal(m, k);
    assert Modes[Ordinal(Cycle(m, k))] == Modes[Ordinal(target)];
  }

  datatype Action = EXECUTE | SIMULATE
  datatype ActionResultType = SUCCESS | PASS
  datatype GasStack = EMPTY | GasStack(gas: string, amount: nat)
  datatype SubstanceType = ENERGY | FLUID | GAS | INFUSION | PIGMENT | SLURRY | HEAT

  /** Whether a gas insert is passed on to the structure's tanks. */
  predicate InsertOpen(mode: FissionPortMode)
  {
    mode == INPUT
  }

  /** Whether a gas extract from `tank` is passed on to the structure's tanks. */
  predicate ExtractOpen(mode: FissionPortMode, tank: int)
  {
    !(mode == INPUT || (tank == 2 && mode == OUTPUT_STEAM) || (tank == 3 && mode == OUTPUT_WASTE))
  }

  /** The extract gate read the other way round: which requests get through. */
  lemma ExtractOpenCases(mode: FissionPortMode, tank: int)
    ensures ExtractOpen(mode, tank) <==>
              (mode == OUTPUT_STEAM && tank != 2) || (mode == OUTPUT_WASTE && tank != 3)
  {
  }

  /**
   * `insertGas`: outside INPUT mode the stack comes back whole and the tanks
   * are not reached; in INPUT mode the answer is the delegate's.
   */
  function InsertGas<S>(mode: FissionPortMode, tank: int, stack: GasStack, action: Action, tanks: S,
                        super: (int, GasStack, Action, S) -> (GasStack, S)): (r: (GasStack, S))
    ensures !InsertOpen(mode) ==> r == (stack, tanks)
    ensures InsertOpen(mode) ==> r == super(tank, stack, action, tanks)
  {
    if mode != INPUT then (stack, tanks) else super(tank, stack, action, tanks)
  }

  /**
   * `extractGas`: a closed (mode, tank) pair yields EMPTY and leaves the
   * tanks alone; an open one is the delegate's answer.
   */
  function ExtractGas<S>(mode: FissionPortMode, tank: int, amount: int, action: Action, tanks: S,
                         super: (int, int, Action, S) -> (GasStack, S)): (r: (GasStack, S))
    ensures !ExtractOpen(mode, tank) ==> r == (EMPTY, tanks)
    ensures ExtractOpen(mode, tank) ==> r == super(tank, amount, action, tanks)
  {
    if mode == INPUT || (tank == 2 && mode == OUTPUT_STEAM) || (tank == 3 && mode == OUTPUT_WASTE) then
      (EMPTY, tanks)
    else
      super(tank, amount, action, tanks)
  }

  /**
   * A rejected request does not depend on the delegate at all, whatever the
   * action: two different superclasses give the same answer.
   */
  lemma RejectedIgnoresDelegate<S>(mode: FissionPortMode, tank: int, stack: GasStack, amount: int, action: Action,
                                   tanks: S, ins1: (int, GasStack, Action, S) -> (GasStack, S),
                                   ins2: (int, GasStack, Action, S) -> (GasStack, S),
                                   ext1: (int, int, Action, S) -> (GasStack, S),
                                   ext2: (int, int, Action, S) -> (GasStack, S))
    ensures !InsertOpen(mode) ==> InsertGas(mode, tank, stack, action, tanks, ins1) == InsertGas(mode, tank, stack, action, tanks, ins2)
    ensures !ExtractOpen(mode, tank) ==> ExtractGas(mode, tank, amount, action, tanks, ext1) == ExtractGas(mode, tank, amount, action, tanks, ext2)
  {
  }

  /**
   * The gate ignores simulate versus execute: when the delegate itself
   * answers a simulation as it would answer the real call and does not touch
   * its tanks, a simulated port request returns what the executed one
   * returns and leaves the tanks as they were.
   */
  lemma SimulationAgrees<S>(mode: FissionPortMode, tank: int, stack: GasStack, amount: int, tanks: S,
                            ins: (int, GasStack, Action, S) -> (GasStack, S),
                            ext: (int, int, Action, S) -> (GasStack, S))
    requires ins(tank, stack, SIMULATE, tanks).0 == ins(tank, stack, EXECUTE, tanks).0
    requires ins(tank, stack, SIMULATE, tanks).1 == tanks
    requires ext(tank, amount, SIMULATE, tanks).0 == ext(tank, amount, EXECUTE, tanks).0
    requires ext(tank, amount, SIMULATE, tanks).1 == tanks
    ensures InsertGas(mode, tank, stack, SIMULATE, tanks, ins).0 == InsertGas(mode, tank, stack, EXECUTE, tanks, ins).0
    ensures InsertGas(mode, tank, stack, SIMULATE, tanks, ins).1 == tanks
    ensures ExtractGas(mode, tank, amount, SIMULATE, tanks, ext).0 == ExtractGas(mode, tank, amount, EXECUTE, tanks, ext).0
    ensures ExtractGas(mode, tank, amount, SIMULATE, tanks, ext).1 == tanks
  {
  }

  /** `persists`: heat, gas and fluid are never saved with the port itself. */
  function Persists(t: SubstanceType, super: SubstanceType -> bool): (r: bool)
    ensures (t == HEAT || t == GAS || t == FLUID) ==> !r
    ensures !(t == HEAT || t == GAS || t == FLUID) ==> r == super(t)
  {
    if t == HEAT || t == GAS || t == FLUID then false else super(t)
  }

  /**
   * `getAdjacent`: the superclass handler on that side, except that another
   * port next to this one is never a heat neighbour.
   */
  function GetAdjacent<H>(superHandler: Option<H>, neighbourIsPort: bool): (r: Option<H>)
    ensures r.Some? <==> superHandler.Some? && !neighbourIsPort
    ensures r.Some? ==> r == superHandler
  {
    if superHandler.Some? && neighbourIsPort then None else superHandler
  }

  /** The structure tank a server tick hands to `GasUtils.emit`. */
  datatype OutputTank = SteamTank | WasteTank

  function EmittedTank(mode: FissionPortMode, hasStructure: bool): (r: Option<OutputTank>)
    ensures r == Some(SteamTank) <==> hasStructure && mode == OUTPUT_STEAM
    ensures r == Some(WasteTank) <==> hasStructure && mode == OUTPUT_WASTE
    ensures r == None <==> !hasStructure || mode == INPUT
  {
    if !hasStructure then None
    else match mode
      case OUTPUT_STEAM => Some(SteamTank)
      case OUTPUT_WASTE => Some(WasteTank)
      case INPUT => None
  }

  datatype Coord4D = Coord4D(x: int, y: int, z: int, dimension: int)
  datatype FluidStack = FluidStack(fluid: string, amount: nat)

  /** A valve of the multiblock; `transfers` counts its `onTransfer` notifications. */
  datatype ValveData = ValveData(location: Coord4D, transfers: nat)

  /** The valves after every one located at `here` has been notified once. */
  function Notified(valves: seq<ValveData>, here: Coord4D): (r: seq<ValveData>)
    ensures |r| == |valves|
  {
    if valves == [] then []
    else
      var last := valves[|valves| - 1];
      Notified(valves[..|valves| - 1], here)
        + [if last.location == here then last.(transfers := last.transfers + 1) else last]
  }

  lemma {:induction false} NotifiedAt(valves: seq<ValveData>, here: Coord4D, i: nat)
    requires i < |valves|
    ensures Notified(valves, here)[i].location == valves[i].location
    ensures Notified(valves, here)[i].transfers ==
              valves[i].transfers + (if valves[i].location == here then 1 else 0)
  {
    if i < |valves| - 1 {
      NotifiedAt(valves[..|valves| - 1], here, i);
    }
  }

  /** The multiblock structure the port belongs to; only its valve list is modelled. */
  class FissionStructure {
    var valves: seq<ValveData>

    constructor (valves: seq<ValveData>)
      ensures this.valves == valves
    {
      this.valves := valves;
    }
  }

  class FissionPort {
    /** The mode property of the port's block state in the world. */
    var mode: FissionPortMode
    /** The multiblock the port is part of, or null while it is not formed. */
    var structure: FissionStructure?
    const location: Coord4D
    /** The tanks handed to `GasUtils.emit`, one entry per emission, oldest first. */
    var emitted: seq<OutputTank>

    constructor (location: Coord4D, mode: FissionPortMode, structure: FissionStructure?)
      ensures this.location == location && this.mode == mode && this.structure == structure
      ensures emitted == []
    {
      this.location := location;
      this.mode := mode;
      this.structure := structure;
      emitted := [];
    }

    /**
     * `onSneakRightClick`: on the server the mode moves to the next value and
     * the player is told the new mode; on the client nothing changes. Either
     * way the click succeeds.
     */
    method OnSneakRightClick(isRemote: bool) returns (r: ActionResultType, message: Option<FissionPortMode>)
      modifies this`mode
      ensures r == SUCCESS
      ensures mode == if isRemote then old(mode) else NextMode(old(mode))
      ensures message == if isRemote then None else Some(mode)
    {
      message := None;
      if !isRemote {
        mode := Modes[(Ordinal(mode) + 1) % |Modes|];
        message := Some(mode);
      }
      r := SUCCESS;
    }

    /** `onUpdateServer`: emit from the tank the mode selects, if any. */
    method OnUpdateServer()
      modifies this`emitted
      ensures var t := EmittedTank(mode, structure != null);
              emitted == old(emitted) + (if t.Some? then [t.value] else [])
    {
      if structure != null {
        if mode == OUTPUT_STEAM {
          emitted := emitted + [SteamTank];
        } else if mode == OUTPUT_WASTE {
          emitted := emitted + [WasteTank];
        }
      }
    }

    /**
     * `insertFluid`: the superclass result is returned as it is; when it took
     * something and the action is execute, every valve of the structure that
     * sits at this port is notified.
     */
    method InsertFluid(stack: FluidStack, action: Action, super: (FluidStack, Action) -> FluidStack)
      returns (ret: FluidStack)
      modifies structure
      ensures ret == super(stack, action)
      ensures structure != null ==>
                structure.valves == if ret.amount < stack.amount && action == EXECUTE
                                    then Notified(old(structure.valves), location)
                                    else old(structure.valves)
    {
      ret := super(stack, action);
      if ret.amount < stack.amount && action == EXECUTE {
        if structure != null {
          var s := structure;
          var here := location;
          ghost var before := s.valves;
          var i := 0;
          while i < |s.valves|
            invariant |s.valves| == |before|
            invariant 0 <= i <= |before|
            invariant s.valves[..i] == Notified(before[..i], here)
            invariant forall j :: i <= j < |before| ==> s.valves[j] == before[j]
          {
            var data := s.valves[i];
            assert before[..i + 1][..i] == before[..i];
            if data.location == here {
              s.valves := s.valves[i := data.(transfers := data.transfers + 1)];
            }
            i := i + 1;
          }
          assert before[..|before|] == before;
          assert s.valves[..|s.valves|] == s.valves;
        }
      }
    }
  }
}
