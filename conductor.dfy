/**
 * The thermodynamic conductor: a heat transmitter holding a single heat
 * capacitor (its buffer). It remembers the temperature it last reported to
 * clients and only sends a new update packet when the buffer temperature has
 * moved away from it by more than a twentieth of the current temperature. It
 * writes the buffer heat into the reduced update tag, restores it from a
 * received tag, and answers neighbour lookups only for connected sides.
 *
 * The buffer's temperature reading (`BasicHeatCapacitor.getTemperature`) is
 * not modelled and is passed in; packets and `markDirty` are counters; the
 * transmitter superclass's part of the update tag is a delegate.
 */
module ThermodynamicConductor {

  import opened Wrappers

  datatype Direction = DOWN | UP | NORTH | SOUTH | WEST | EAST

  /** A value stored under a key of a compound tag. */
  datatype NbtValue = DoubleValue(d: real) | OtherValue(kind: nat)

  /** A compound tag, keyed by name. */
  type CompoundTag = map<string, NbtValue>

  /** The key under which the buffer heat travels in an update tag. */
  const TemperatureKey: string := "temperature"

  function Abs(x: real): (r: real)
    ensures r >= 0.0 && (r == x || r == -x)
  {
    if x < 0.0 then -x else x
  }

  // ---------------------------------------------------------------------------
  // Client synchronisation threshold
  // ---------------------------------------------------------------------------

  /**
   * Whether `onContentsChanged` refreshes the client temperature: only on the
   * server, and only when the reading has moved by more than `temperature / 20`.
   */
  predicate Refreshes(isRemote: bool, temperature: real, clientTemperature: real)
  {
    !isRemote && Abs(temperature - clientTemperature) > temperature / 20.0
  }

  /** The remembered client temperature after `onContentsChanged`. */
  function SyncedTemperature(isRemote: bool, temperature: real, clientTemperature: real): (r: real)
    ensures Refreshes(isRemote, temperature, clientTemperature) ==> r == temperature
    ensures !Refreshes(isRemote, temperature, clientTemperature) ==> r == clientTemperature
    ensures !isRemote && temperature >= 0.0 ==> Abs(temperature - r) <= temperature / 20.0
  {
    if Refreshes(isRemote, temperature, clientTemperature) then temperature else clientTemperature
  }

  /**
   * Once the server has synchronised, a second change notification at the same
   * (non-negative) temperature sends nothing: the threshold is not exceeded
   * again until the temperature moves.
   */
  lemma SyncSettles(temperature: real, clientTemperature: real)
    requires temperature >= 0.0
    ensures !Refreshes(false, temperature, SyncedTemperature(false, temperature, clientTemperature))
  {
  }

  /** The client never refreshes, whatever the temperatures. */
  lemma ClientNeverRefreshes(temperature: real, clientTemperature: real)
    ensures SyncedTemperature(true, temperature, clientTemperature) == clientTemperature
  {
  }

  // ---------------------------------------------------------------------------
  // Update tag
  // ---------------------------------------------------------------------------

  /**
   * `getReducedUpdateTag`: the superclass's reduced tag with the buffer heat
   * stored as a double under the temperature key.
   */
  function ReducedUpdateTag(updateTag: CompoundTag, heat: real, superReduce: CompoundTag -> CompoundTag): (r: CompoundTag)
    ensures TemperatureKey in r && r[TemperatureKey] == DoubleValue(heat)
    ensures r.Keys == superReduce(updateTag).Keys + {TemperatureKey}
    ensures forall k :: k in superReduce(updateTag) && k != TemperatureKey ==> r[k] == superReduce(updateTag)[k]
  {
    superReduce(updateTag)[TemperatureKey := DoubleValue(heat)]
  }

  /**
   * The buffer heat after `handleUpdateTag`: set from the tag when the
   * temperature key is present as a double, and kept otherwise.
   */
  function HeatAfterUpdateTag(tag: CompoundTag, heat: real): (r: real)
    ensures TemperatureKey !in tag ==> r == heat
    ensures TemperatureKey in tag && tag[TemperatureKey].DoubleValue? ==> r == tag[TemperatureKey].d
  {
    if TemperatureKey in tag && tag[TemperatureKey].DoubleValue? then tag[TemperatureKey].d else heat
  }

  /**
   * Writing the reduced update tag and then handling it restores the heat that
   * was written, whatever the receiver's previous heat and whatever the
   * superclass put into the tag.
   */
  lemma UpdateTagRoundTrip(updateTag: CompoundTag, heat: real, previous: real, superReduce: CompoundTag -> CompoundTag)
    ensures HeatAfterUpdateTag(ReducedUpdateTag(updateTag, heat, superReduce), previous) == heat
  {
  }

  /** Handling a tag that does not carry the key is a no-op on the heat. */
  lemma MissingKeyKeepsHeat(tag: CompoundTag, heat: real)
    requires TemperatureKey !in tag
    ensures HeatAfterUpdateTag(tag, heat) == heat
  {
  }

  // ---------------------------------------------------------------------------
  // The conductor
  // ---------------------------------------------------------------------------

  class HeatCapacitor {
    var heat: real

    constructor (heat: real)
      ensures this.heat == heat
    {
      this.heat := heat;
    }
  }

  /** A conductor whose neighbouring heat handlers have type `H`. */
  class Conductor<H> {
    var clientTemperature: real
    const buffer: HeatCapacitor
    const capacitors: seq<HeatCapacitor>
    /** The sides the transmitter is currently connected on. */
    var connections: set<Direction>
    /** The acceptor cache: the heat handler last seen on each side. */
    var acceptors: map<Direction, H>
    /** How many update packets `sendUpdatePacket` has sent. */
    var packetsSent: nat
    /** How many times `markDirty` has been called. */
    var dirtyMarks: nat

    /** The capacitor list is the singleton list of the buffer. */
    ghost predicate Valid()
      reads this
    {
      capacitors == [buffer]
    }

    constructor (ambientTemp: real, initialHeat: real)
      ensures Valid()
      ensures clientTemperature == ambientTemp
      ensures buffer.heat == initialHeat && fresh(buffer)
      ensures connections == {} && acceptors == map[]
      ensures packetsSent == 0 && dirtyMarks == 0
    {
      clientTemperature := ambientTemp;
      var b := new HeatCapacitor(initialHeat);
      buffer := b;
      capacitors := [b];
      connections := {};
      acceptors := map[];
      packetsSent := 0;
      dirtyMarks := 0;
    }

    /** `getHeatCapacitors`: the buffer alone, for every side including none. */
    function GetHeatCapacitors(side: Option<Direction>): (r: seq<HeatCapacitor>)
      requires Valid()
      reads this
      ensures |r| == 1 && r[0] == buffer
    {
      capacitors
    }

    /**
     * `getAdjacent`: nothing for a side that is not connected; otherwise the
     * acceptor cached for that side, if there is one.
     */
    function GetAdjacent(side: Direction): (r: Option<H>)
      reads this
      ensures side !in connections ==> r == None
      ensures side in connections ==> (r.Some? <==> side in acceptors)
      ensures r.Some? ==> side in acceptors && r.value == acceptors[side]
    {
      if side in connections && side in acceptors then Some(acceptors[side]) else None
    }

    /**
     * `onContentsChanged`, given the buffer's current temperature. On the
     * server a change beyond the threshold refreshes the client temperature
     * and sends one packet; the tile is marked dirty in every case.
     */
    method OnContentsChanged(isRemote: bool, temperature: real)
      modifies this`clientTemperature, this`packetsSent, this`dirtyMarks
      ensures clientTemperature == SyncedTemperature(isRemote, temperature, old(clientTemperature))
      ensures packetsSent == old(packetsSent) + (if Refreshes(isRemote, temperature, old(clientTemperature)) then 1 else 0)
      ensures dirtyMarks == old(dirtyMarks) + 1
    {
      if !isRemote {
        if Abs(temperature - clientTemperature) > temperature / 20.0 {
          clientTemperature := temperature;
          packetsSent := packetsSent + 1;
        }
      }
      dirtyMarks := dirtyMarks + 1;
    }

    /** `getReducedUpdateTag`, with the superclass part as a delegate. */
    function GetReducedUpdateTag(updateTag: CompoundTag, superReduce: CompoundTag -> CompoundTag): (r: CompoundTag)
      reads this, buffer
      ensures TemperatureKey in r && r[TemperatureKey] == DoubleValue(buffer.heat)
      ensures r.Keys == superReduce(updateTag).Keys + {TemperatureKey}
    {
      ReducedUpdateTag(updateTag, buffer.heat, superReduce)
    }

    /** `handleUpdateTag`: the buffer heat is set when the tag carries it. */
    method HandleUpdateTag(tag: CompoundTag)
      modifies buffer
      ensures buffer.heat == HeatAfterUpdateTag(tag, old(buffer.heat))
    {
      if TemperatureKey in tag && tag[TemperatureKey].DoubleValue? {
        buffer.heat := tag[TemperatureKey].d;
      }
    }
  }

  /**
   * Sending the reduced update tag of one conductor to another gives the
   * receiving buffer the sender's heat.
   */
  method SyncHeat<H>(sender: Conductor<H>, receiver: Conductor<H>, updateTag: CompoundTag, superReduce: CompoundTag -> CompoundTag)
    modifies receiver.buffer
    ensures receiver.buffer.heat == old(sender.buffer.heat)
  {
    var tag := sender.GetReducedUpdateTag(updateTag, superReduce);
    UpdateTagRoundTrip(updateTag, sender.buffer.heat, receiver.buffer.heat, superReduce);
    receiver.HandleUpdateTag(tag);
  }
}
