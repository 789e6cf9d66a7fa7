/**
 * The Mekanism hoe: a tool item with one use rule. Right-clicking a block
 * first asks whether the player may edit it and posts a use-hoe event; an
 * event that allows the use just damages the hoe. Otherwise dirt, and grass
 * with air above when not clicked from below, turn into tilled field on the
 * server, at the cost of one point of durability. The tooltip shows the
 * remaining durability as "HP: n".
 *
 * Block ids are the game's numeric ids (air 0, grass 2, dirt 3, tilled
 * field 60). The edit permission, the event bus and the event's result are
 * inputs; sound effects are counted.
 */
module MekanismHoe {

  import opened Wrappers

  const AIR_ID: int := 0
  const GRASS_ID: int := 2
  const DIRT_ID: int := 3
  const TILLED_FIELD_ID: int := 60

  datatype Pos = Pos(x: int, y: int, z: int)

  function Above(p: Pos): Pos
  {
    Pos(p.x, p.y + 1, p.z)
  }

  // ---------------------------------------------------------------------------
  // The use rule
  // ---------------------------------------------------------------------------

  /** The result a listener gave the use-hoe event. */
  datatype EventResult = ALLOW | DEFAULT | DENY

  /** The rejection test exactly as the code writes it. */
  predicate RejectedAsWritten(blockId: int, aboveId: int, side: int)
  {
    (side == 0 || aboveId != AIR_ID || blockId != GRASS_ID) && blockId != DIRT_ID
  }

  /** Which blocks a hoe tills. */
  predicate Tillable(blockId: int, aboveId: int, side: int)
  {
    blockId == DIRT_ID || (blockId == GRASS_ID && side != 0 && aboveId == AIR_ID)
  }

  /**
   * The code's rejection test rejects exactly the blocks that are not
   * tillable: dirt from any side under anything, grass only from a side
   * other than the bottom and with air above, and nothing else.
   */
  lemma RejectionMeansNotTillable(blockId: int, aboveId: int, side: int)
    ensures RejectedAsWritten(blockId, aboveId, side) <==> !Tillable(blockId, aboveId, side)
  {
  }

  /** What one use does: the return value and which effects happen. */
  datatype UseOutcome = UseOutcome(result: bool, soundPlayed: bool, tilled: bool, damaged: bool)

  const Refused := UseOutcome(false, false, false, false)

  /** The decision chain of `onItemUse`. */
  function UseDecision(canEdit: bool, cancelled: bool, eventResult: EventResult,
                       blockId: int, aboveId: int, side: int, isRemote: bool): (r: UseOutcome)
    ensures !canEdit || cancelled ==> r == Refused
    ensures r.result <==> canEdit && !cancelled && (eventResult == ALLOW || Tillable(blockId, aboveId, side))
    ensures r.soundPlayed <==> canEdit && !cancelled && eventResult != ALLOW && Tillable(blockId, aboveId, side)
    ensures r.tilled <==> r.soundPlayed && !isRemote
    ensures r.damaged <==> canEdit && !cancelled && (eventResult == ALLOW || (Tillable(blockId, aboveId, side) && !isRemote))
  {
    if !canEdit then Refused
    else if cancelled then Refused
    else if eventResult == ALLOW then UseOutcome(true, false, false, true)
    else if RejectedAsWritten(blockId, aboveId, side) then Refused
    else if isRemote then UseOutcome(true, true, false, false)
    else UseOutcome(true, true, true, true)
  }

  /** A listener's DENY is treated like DEFAULT: the block rule still applies. */
  lemma DenyActsAsDefault(canEdit: bool, cancelled: bool, blockId: int, aboveId: int, side: int, isRemote: bool)
    ensures UseDecision(canEdit, cancelled, DENY, blockId, aboveId, side, isRemote)
         == UseDecision(canEdit, cancelled, DEFAULT, blockId, aboveId, side, isRemote)
  {
  }

  /** The hoe is damaged at most once per use, and never without a `true` result. */
  lemma DamageOnlyOnSuccess(canEdit: bool, cancelled: bool, eventResult: EventResult,
                            blockId: int, aboveId: int, side: int, isRemote: bool)
    ensures UseDecision(canEdit, cancelled, eventResult, blockId, aboveId, side, isRemote).damaged
        ==> UseDecision(canEdit, cancelled, eventResult, blockId, aboveId, side, isRemote).result
    ensures UseDecision(canEdit, cancelled, eventResult, blockId, aboveId, side, isRemote).tilled
        ==> UseDecision(canEdit, cancelled, eventResult, blockId, aboveId, side, isRemote).damaged
  {
  }

  /** Tilled field is not tillable, so a second use on the same block does nothing. */
  lemma TilledFieldStaysPut(aboveId: int, side: int)
    ensures !Tillable(TILLED_FIELD_ID, aboveId, side)
  {
  }

  // ---------------------------------------------------------------------------
  // The tooltip line
  // ---------------------------------------------------------------------------

  predicate IsDigit(c: char)
  {
    '0' <= c <= '9'
  }

  function DigitChar(d: nat): (c: char)
    requires d < 10
    ensures IsDigit(c) && c as int - '0' as int == d
  {
    ('0' as int + d) as char
  }

  /** Decimal digits of `n`, most significant first, without leading zeros. */
  function NatToString(n: nat): (s: string)
    ensures |s| > 0
    decreases n
  {
    if n < 10 then [DigitChar(n)] else NatToString(n / 10) + [DigitChar(n % 10)]
  }

  /** Java's `int` to decimal string conversion. */
  function IntToString(i: int): string
  {
    if i < 0 then "-" + NatToString(-i) else NatToString(i)
  }

  predicate AllDigits(s: string)
  {
    forall k :: 0 <= k < |s| ==> IsDigit(s[k])
  }

  function ParseNat(s: string): nat
    requires AllDigits(s)
  {
    if s == [] then 0 else ParseNat(s[..|s| - 1]) * 10 + (s[|s| - 1] as int - '0' as int)
  }

  /** Reads back a decimal integer with an optional minus sign. */
  function ParseInt(s: string): (r: Option<int>)
    ensures r.Some? ==> |s| > 0
  {
    if |s| > 1 && s[0] == '-' && AllDigits(s[1..]) then Some(-(ParseNat(s[1..]) as int))
    else if |s| > 0 && AllDigits(s) then Some(ParseNat(s))
    else None
  }

  lemma {:induction false} NatToStringRoundTrip(n: nat)
    ensures AllDigits(NatToString(n))
    ensures ParseNat(NatToString(n)) == n
    decreases n
  {
    if n >= 10 {
      NatToStringRoundTrip(n / 10);
      var s := NatToString(n);
      assert s[..|s| - 1] == NatToString(n / 10);
    }
  }

  lemma IntToStringRoundTrip(i: int)
    ensures ParseInt(IntToString(i)) == Some(i)
  {
    if i < 0 {
      NatToStringRoundTrip(-i);
      assert IntToString(i)[1..] == NatToString(-i);
    } else {
      NatToStringRoundTrip(i);
      assert IntToString(i)[0] != '-';
    }
  }

  const HpPrefix: string := "HP: "

  /** The tooltip line for a remaining durability. */
  function HpLine(hp: int): string
  {
    HpPrefix + IntToString(hp)
  }

  /** Reads the remaining durability back from a tooltip line. */
  function ParseHpLine(line: string): (r: Option<int>)
    ensures r.Some? ==> |line| > |HpPrefix| && line[..|HpPrefix|] == HpPrefix
  {
    if |line| >= |HpPrefix| && line[..|HpPrefix|] == HpPrefix then ParseInt(line[|HpPrefix|..]) else None
  }

  /** The tooltip line shows the durability faithfully: it reads back as the same number. */
  lemma HpLineRoundTrip(hp: int)
    ensures ParseHpLine(HpLine(hp)) == Some(hp)
  {
    IntToStringRoundTrip(hp);
    assert HpLine(hp)[|HpPrefix|..] == IntToString(hp);
  }

  // ---------------------------------------------------------------------------
  // World, item and stack
  // ---------------------------------------------------------------------------

  class World {
    /** Block ids by position; positions not in the map hold air. */
    var blocks: map<Pos, int>
    const isRemote: bool
    var soundsPlayed: nat

    constructor (blocks: map<Pos, int>, isRemote: bool)
      ensures this.blocks == blocks && this.isRemote == isRemote && soundsPlayed == 0
    {
      this.blocks := blocks;
      this.isRemote := isRemote;
      soundsPlayed := 0;
    }

    function BlockAt(p: Pos): (id: int)
      reads this
      ensures p !in blocks ==> id == AIR_ID
    {
      if p in blocks then blocks[p] else AIR_ID
    }
  }

  datatype ToolMaterial = ToolMaterial(maxUses: int)

  class ItemHoe {
    const toolMaterial: ToolMaterial
    const maxStackSize: nat
    const maxDamage: int

    constructor (id: int, material: ToolMaterial)
      ensures toolMaterial == material
      ensures maxStackSize == 1
      ensures maxDamage == material.maxUses
    {
      toolMaterial := material;
      maxStackSize := 1;
      maxDamage := material.maxUses;
    }
  }

  class HoeStack {
    const item: ItemHoe
    var itemDamage: int

    constructor (item: ItemHoe)
      ensures this.item == item && itemDamage == 0
    {
      this.item := item;
      itemDamage := 0;
    }
  }

  /** A tooltip under construction. */
  class Tooltip {
    var lines: seq<string>

    constructor ()
      ensures lines == []
    {
      lines := [];
    }
  }

  /**
   * `onItemUse` at position `p`, with the edit permission, the event bus's
   * cancellation and the event result as inputs.
   */
  method OnItemUse(stack: HoeStack, world: World, p: Pos, side: int,
                   canEdit: bool, cancelled: bool, eventResult: EventResult) returns (r: bool)
    modifies stack`itemDamage, world`blocks, world`soundsPlayed
    ensures var o := UseDecision(canEdit, cancelled, eventResult,
                                 old(world.BlockAt(p)), old(world.BlockAt(Above(p))), side, world.isRemote);
      && r == o.result
      && world.blocks == (if o.tilled then old(world.blocks)[p := TILLED_FIELD_ID] else old(world.blocks))
      && stack.itemDamage == old(stack.itemDamage) + (if o.damaged then 1 else 0)
      && world.soundsPlayed == old(world.soundsPlayed) + (if o.soundPlayed then 1 else 0)
  {
    if !canEdit {
      return false;
    }
    if cancelled {
      return false;
    }
    if eventResult == ALLOW {
      stack.itemDamage := stack.itemDamage + 1;
      return true;
    }
    var blockId := world.BlockAt(p);
    var aboveBlockId := world.BlockAt(Above(p));
    if (side == 0 || aboveBlockId != AIR_ID || blockId != GRASS_ID) && blockId != DIRT_ID {
      return false;
    }
    world.soundsPlayed := world.soundsPlayed + 1;
    if world.isRemote {
      return true;
    }
    world.blocks := world.blocks[p := TILLED_FIELD_ID];
    stack.itemDamage := stack.itemDamage + 1;
    return true;
  }

  /** `addInformation`: appends the remaining durability line. */
  method AddInformation(stack: HoeStack, list: Tooltip)
    modifies list
    ensures list.lines == old(list.lines) + [HpLine(stack.item.maxDamage - stack.itemDamage)]
    ensures ParseHpLine(list.lines[|list.lines| - 1]) == Some(stack.item.maxDamage - stack.itemDamage)
  {
    list.lines := list.lines + [HpLine(stack.item.maxDamage - stack.itemDamage)];
    HpLineRoundTrip(stack.item.maxDamage - stack.itemDamage);
  }
}
