/**
 * The tag, mod id and material caches the digital miner's filters use: memo
 * maps from a tag name, a mod id, a material or a block to what the
 * registries hold for it, filled lazily by the getters and partly cleared when
 * tags reload.
 *
 * The Java class keeps the maps in static fields; here they are the fields of
 * one `Caches` object. The game registries are immutable inputs (`Registries`),
 * and `WildcardMatcher.matches` is the uninterpreted `matches` function in them.
 * Java `HashSet`s are Dafny sets; a list built from a set comes out in an
 * unspecified order, so the model states what it contains, not its order.
 */
module TagCache {

  import opened Wrappers

  datatype ResourceLocation = ResourceLocation(namespace: string, path: string)

  /** `ResourceLocation.toString()`. */
  function LocString(rl: ResourceLocation): string
  {
    rl.namespace + ":" + rl.path
  }

  datatype Material = Material(id: string)

  /** An item; `isAir` is true when `new ItemStack(item)` is empty. */
  datatype Item = Item(name: ResourceLocation, modId: string, isAir: bool, tags: set<ResourceLocation>)

  /** A block entity type: its tags and the blocks whose default state it is valid for. */
  datatype BlockEntityType = BlockEntityType(tags: set<ResourceLocation>, validBlocks: set<ResourceLocation>)

  /**
   * A block: its registry name, the material of its default state, its item
   * form, the tile type when it is one of Mekanism's `IHasTileEntity` blocks,
   * and whether its default state has a block entity.
   */
  datatype Block = Block(name: ResourceLocation, material: Material, item: Item,
                         ownTileType: Option<BlockEntityType>, hasBlockEntity: bool)

  datatype TagEntry<T> = TagEntry(name: ResourceLocation, values: seq<T>)

  /** The registries, tag collections and helpers the caches read; none of them changes. */
  datatype Registries = Registries(
    blockTags: seq<TagEntry<Block>>,
    itemTags: seq<TagEntry<Item>>,
    blocks: seq<Block>,
    items: seq<Item>,
    blockEntityTypes: seq<BlockEntityType>,
    minerBlacklist: seq<Block>,
    boundingBlock: Block,
    blockByItem: Item -> Block,
    matches: (string, string) -> bool)

  /** `hasMatch` may hold with no stacks, when the matching blocks have no item form. */
  datatype MatchingStacks = MatchingStacks(hasMatch: bool, stacks: seq<Item>)

  const NONE: MatchingStacks := MatchingStacks(false, [])

  // ---------------------------------------------------------------------------
  // What the registries hold for a key: the reference the caches are checked against.
  // ---------------------------------------------------------------------------

  /** The elements of `values` other than `excluded`. */
  function Valid<T>(values: seq<T>, excluded: T): set<T>
  {
    if values == [] then {}
    else Valid(values[..|values| - 1], excluded)
         + (if values[|values| - 1] != excluded then {values[|values| - 1]} else {})
  }

  /** The union of the valid elements of every tag whose name matches `name`. */
  function Collected<T>(tags: seq<TagEntry<T>>, name: string, excluded: T, matches: (string, string) -> bool): set<T>
  {
    if tags == [] then {}
    else
      var last := tags[|tags| - 1];
      Collected(tags[..|tags| - 1], name, excluded, matches)
        + (if matches(name, LocString(last.name)) then Valid(last.values, excluded) else {})
  }

  lemma {:induction false} ValidMembers<T>(values: seq<T>, excluded: T, e: T)
    ensures e in Valid(values, excluded) <==> e in values && e != excluded
  {
    if values != [] {
      ValidMembers(values[..|values| - 1], excluded, e);
      assert values == values[..|values| - 1] + [values[|values| - 1]];
    }
  }

  /**
   * The reference reading of `collectTagStacks`: an element is collected
   * exactly when some matching tag contains it and it is not the excluded one.
   */
  lemma {:induction false} CollectedMembers<T>(tags: seq<TagEntry<T>>, name: string, excluded: T,
                                               matches: (string, string) -> bool, e: T)
    ensures e in Collected(tags, name, excluded, matches) <==>
              e != excluded && exists i :: 0 <= i < |tags| && matches(name, LocString(tags[i].name)) && e in tags[i].values
  {
    if tags != [] {
      var n := |tags| - 1;
      CollectedMembers(tags[..n], name, excluded, matches, e);
      ValidMembers(tags[n].values, excluded, e);
      if e in Collected(tags, name, excluded, matches) {
        if e !in Collected(tags[..n], name, excluded, matches) {
          assert matches(name, LocString(tags[n].name)) && e in tags[n].values;
        } else {
          var i :| 0 <= i < n && matches(name, LocString(tags[..n][i].name)) && e in tags[..n][i].values;
          assert tags[i] == tags[..n][i];
        }
      }
      if e != excluded && exists i :: 0 <= i < |tags| && matches(name, LocString(tags[i].name)) && e in tags[i].values {
        var i :| 0 <= i < |tags| && matches(name, LocString(tags[i].name)) && e in tags[i].values;
        if i < n {
          assert tags[..n][i] == tags[i];
        }
      }
    }
  }

  function BlockTagSet(reg: Registries, name: string): set<Block>
  {
    Collected(reg.blockTags, name, reg.boundingBlock, reg.matches)
  }

  function ItemTagSet(reg: Registries, name: string): set<Item>
  {
    Collected(reg.itemTags, name, reg.boundingBlock.item, reg.matches)
  }

  /** The bounding block is never among the blocks or items a tag query collects. */
  lemma BoundingNeverCollected(reg: Registries, name: string)
    ensures reg.boundingBlock !in BlockTagSet(reg, name)
    ensures reg.boundingBlock.item !in ItemTagSet(reg, name)
  {
    CollectedMembers(reg.blockTags, name, reg.boundingBlock, reg.matches, reg.boundingBlock);
    CollectedMembers(reg.itemTags, name, reg.boundingBlock.item, reg.matches, reg.boundingBlock.item);
  }

  /** The registered blocks, other than the bounding block, whose namespace matches `modName`. */
  function ModIDBlocks(blocks: seq<Block>, bounding: Block, modName: string, matches: (string, string) -> bool): set<Block>
  {
    if blocks == [] then {}
    else
      var b := blocks[|blocks| - 1];
      ModIDBlocks(blocks[..|blocks| - 1], bounding, modName, matches)
        + (if b != bounding && matches(modName, b.name.namespace) then {b} else {})
  }

  /** The non-empty stacks of the registered items, other than the bounding block's, whose mod id matches. */
  function ModIDItems(items: seq<Item>, bounding: Item, modName: string, matches: (string, string) -> bool): (r: seq<Item>)
    ensures forall x :: x in r <==> x in items && x != bounding && !x.isAir && matches(modName, x.modId)
  {
    if items == [] then []
    else
      var it := items[|items| - 1];
      ModIDItems(items[..|items| - 1], bounding, modName, matches)
        + (if it != bounding && !it.isAir && matches(modName, it.modId) then [it] else [])
  }

  /** The non-empty item forms of the registered blocks, other than the bounding block, made of `material`. */
  function MaterialItems(blocks: seq<Block>, bounding: Block, material: Material): (r: seq<Item>)
    ensures forall x :: x in r <==> exists b :: b in blocks && b != bounding && b.material == material && !b.item.isAir && b.item == x
  {
    if blocks == [] then []
    else
      var b := blocks[|blocks| - 1];
      var r := MaterialItems(blocks[..|blocks| - 1], bounding, material)
        + (if b != bounding && b.material == material && !b.item.isAir then [b.item] else []);
      assert forall c :: c in blocks <==> c in blocks[..|blocks| - 1] || c == b by {
        assert blocks == blocks[..|blocks| - 1] + [b];
      }
      r
  }

  /** The tags of every registered block entity type valid for the block named `name`. */
  function TileTypeTags(types: seq<BlockEntityType>, name: ResourceLocation): set<ResourceLocation>
  {
    if types == [] then {}
    else
      var t := types[|types| - 1];
      TileTypeTags(types[..|types| - 1], name) + (if name in t.validBlocks then t.tags else {})
  }

  /** The tags `getTileEntityTypeTags` reports for a block, before turning them into strings. */
  function TileTagSet(reg: Registries, block: Block): set<ResourceLocation>
  {
    if block.ownTileType.Some? then block.ownTileType.value.tags
    else if block.hasBlockEntity then TileTypeTags(reg.blockEntityTypes, block.name)
    else {}
  }

  predicate Blacklisted(reg: Registries, b: Block)
  {
    b in reg.minerBlacklist
  }

  /** Tag entry `i` matches `tag` and holds a blacklisted block. */
  predicate TagHit(reg: Registries, tag: string, i: int)
  {
    0 <= i < |reg.blockTags|
    && reg.matches(tag, LocString(reg.blockTags[i].name))
    && exists v :: v in reg.blockTags[i].values && Blacklisted(reg, v)
  }

  predicate TagBlacklisted(reg: Registries, tag: string)
  {
    exists i :: 0 <= i < |reg.blockTags| && TagHit(reg, tag, i)
  }

  predicate ModIDHit(reg: Registries, modName: string, i: int)
  {
    0 <= i < |reg.blocks| && Blacklisted(reg, reg.blocks[i]) && reg.matches(modName, reg.blocks[i].name.namespace)
  }

  predicate ModIDBlacklisted(reg: Registries, modName: string)
  {
    exists i :: 0 <= i < |reg.blocks| && ModIDHit(reg, modName, i)
  }

  predicate MaterialHit(reg: Registries, material: Material, i: int)
  {
    0 <= i < |reg.blocks| && reg.blocks[i].material == material && Blacklisted(reg, reg.blocks[i])
  }

  predicate MaterialBlacklisted(reg: Registries, material: Material)
  {
    exists i :: 0 <= i < |reg.blocks| && MaterialHit(reg, material, i)
  }

  // ---------------------------------------------------------------------------
  // How a list built from a set relates to the set.
  // ---------------------------------------------------------------------------

  /** The item forms of `xs` whose stacks are not empty. */
  function StackItems<T>(xs: set<T>, toItem: T -> Item): set<Item>
  {
    set x | x in xs && !toItem(x).isAir :: toItem(x)
  }

  /** `r` lists the strings of every tag in `tags`, one per tag. */
  predicate ListsTags(r: seq<string>, tags: set<ResourceLocation>)
  {
    |r| == |tags| && (set s | s in r) == (set t | t in tags :: LocString(t))
  }

  /** `m` is what `getMatching` answers for a non-empty set of blocks. */
  predicate MatchingFor(m: MatchingStacks, blocks: set<Block>)
  {
    m.hasMatch && (set x | x in m.stacks) == StackItems(blocks, (b: Block) => b.item)
  }

  /**
   * A match is reported even when no matching block has an item form: the
   * answer then has `hasMatch` set and no stacks.
   */
  lemma MatchWithoutStacks(m: MatchingStacks, blocks: set<Block>)
    requires MatchingFor(m, blocks)
    requires forall b :: b in blocks ==> b.item.isAir
    ensures m.hasMatch && m.stacks == []
  {
    assert StackItems(blocks, (b: Block) => b.item) == {};
    NothingListed(m.stacks);
  }

  lemma NothingListed<T>(s: seq<T>)
    ensures (set y | y in s) == {} ==> s == []
  {
    if s != [] {
      var listed := set y | y in s;
      assert s[0] in listed;
      assert listed != {};
    }
  }

  /** The mod id query never includes the bounding block. */
  lemma {:induction false} BoundingNotAModIDBlock(blocks: seq<Block>, bounding: Block, modName: string,
                                                  matches: (string, string) -> bool)
    ensures bounding !in ModIDBlocks(blocks, bounding, modName, matches)
  {
    if blocks != [] {
      BoundingNotAModIDBlock(blocks[..|blocks| - 1], bounding, modName, matches);
    }
  }

  // ---------------------------------------------------------------------------
  // The static helpers, which read no cache.
  // ---------------------------------------------------------------------------

  /** `getTagsAsStrings`: one string per tag; the empty list for no tags. */
  method GetTagsAsStrings(tags: set<ResourceLocation>) returns (r: seq<string>)
    ensures ListsTags(r, tags)
    ensures tags == {} ==> r == []
  {
    if tags == {} {
      return [];
    }
    r := [];
    var rest := tags;
    while rest != {}
      invariant rest <= tags
      invariant |r| == |tags - rest|
      invariant (set s | s in r) == (set t | t in tags - rest :: LocString(t))
      decreases rest
    {
      var tag :| tag in rest;
      assert tags - (rest - {tag}) == (tags - rest) + {tag};
      assert tag !in tags - rest;
      assert (set s | s in r + [LocString(tag)]) == (set s | s in r) + {LocString(tag)};
      r := r + [LocString(tag)];
      rest := rest - {tag};
    }
    assert tags - rest == tags;
  }

  /** `stream().map(ItemStack::new).filter(stack -> !stack.isEmpty()).toList()` over a set. */
  method StacksOf<T>(xs: set<T>, toItem: T -> Item) returns (r: seq<Item>)
    ensures (set x | x in r) == StackItems(xs, toItem)
    ensures |r| <= |xs|
  {
    r := [];
    var rest := xs;
    while rest != {}
      invariant rest <= xs
      invariant |r| <= |xs - rest|
      invariant (set x | x in r) == StackItems(xs - rest, toItem)
      decreases rest
    {
      var x :| x in rest;
      assert xs - (rest - {x}) == (xs - rest) + {x};
      assert x !in xs - rest;
      var it := toItem(x);
      if !it.isAir {
        assert (set y | y in r + [it]) == (set y | y in r) + {it};
        r := r + [it];
      }
      rest := rest - {x};
    }
    assert xs - rest == xs;
  }

  /** `collectTagStacks`: the union of the valid elements of every tag whose name matches. */
  method CollectTagStacks<T>(tags: seq<TagEntry<T>>, name: string, excluded: T, matches: (string, string) -> bool)
    returns (items: set<T>)
    ensures items == Collected(tags, name, excluded, matches)
  {
    items := {};
    for i := 0 to |tags|
      invariant items == Collected(tags[..i], name, excluded, matches)
    {
      assert tags[..i + 1][..i] == tags[..i];
      var entry := tags[i];
      if matches(name, LocString(entry.name)) {
        var elements := entry.values;
        ghost var before := items;
        for j := 0 to |elements|
          invariant items == before + Valid(elements[..j], excluded)
        {
          assert elements[..j + 1][..j] == elements[..j];
          if elements[j] != excluded {
            items := items + {elements[j]};
          }
        }
        assert elements[..|elements|] == elements;
      }
    }
    assert tags[..|tags|] == tags;
  }

  /**
   * `getMatching`: no blocks gives NONE and leaves the cache as it is;
   * otherwise the non-empty stacks of the blocks are stored under `name`.
   * The Java method puts into the map it is given; here it returns that map.
   */
  method GetMatching(cache: map<string, MatchingStacks>, blocks: set<Block>, name: string)
    returns (m: MatchingStacks, cache': map<string, MatchingStacks>)
    ensures blocks == {} ==> m == NONE && cache' == cache
    ensures blocks != {} ==> MatchingFor(m, blocks) && cache' == cache[name := m]
  {
    if blocks == {} {
      return NONE, cache;
    }
    var stacks := StacksOf(blocks, (b: Block) => b.item);
    m := MatchingStacks(true, stacks);
    cache' := cache[name := m];
  }

  // ---------------------------------------------------------------------------
  // The caches.
  // ---------------------------------------------------------------------------

  class Caches {
    const reg: Registries
    var blockTagStacks: map<string, MatchingStacks>
    var itemTagStacks: map<string, seq<Item>>
    var itemModIDStacks: map<string, seq<Item>>
    var blockModIDStacks: map<string, MatchingStacks>
    var materialStacks: map<Material, seq<Item>>
    var tileEntityTypeTagCache: map<Block, seq<string>>
    var blockTagBlacklistedElements: map<string, bool>
    var modIDBlacklistedElements: map<string, bool>
    var materialBlacklistedElements: map<Material, bool>

    /** Every cached value is what the registries hold for its key. */
    ghost predicate Valid()
      reads this
    {
      && (forall k :: k in blockTagStacks ==>
            BlockTagSet(reg, k) != {} && MatchingFor(blockTagStacks[k], BlockTagSet(reg, k)))
      && (forall k :: k in itemTagStacks ==>
            (set x | x in itemTagStacks[k]) == StackItems(ItemTagSet(reg, k), (i: Item) => i))
      && (forall k :: k in itemModIDStacks ==>
            itemModIDStacks[k] == ModIDItems(reg.items, reg.boundingBlock.item, k, reg.matches))
      && (forall k :: k in blockModIDStacks ==>
            var blocks := ModIDBlocks(reg.blocks, reg.boundingBlock, k, reg.matches);
            blocks != {} && MatchingFor(blockModIDStacks[k], blocks))
      && (forall m :: m in materialStacks ==>
            materialStacks[m] == MaterialItems(reg.blocks, reg.boundingBlock, m))
      && (forall b :: b in tileEntityTypeTagCache ==>
            ListsTags(tileEntityTypeTagCache[b], TileTagSet(reg, b)))
      && (forall k :: k in blockTagBlacklistedElements ==>
            blockTagBlacklistedElements[k] == TagBlacklisted(reg, k))
      && (forall k :: k in modIDBlacklistedElements ==>
            modIDBlacklistedElements[k] == ModIDBlacklisted(reg, k))
      && (forall m :: m in materialBlacklistedElements ==>
            materialBlacklistedElements[m] == MaterialBlacklisted(reg, m))
    }

    constructor (reg: Registries)
      ensures this.reg == reg && Valid()
      ensures blockTagStacks == map[] && itemTagStacks == map[] && itemModIDStacks == map[]
      ensures blockModIDStacks == map[] && materialStacks == map[] && tileEntityTypeTagCache == map[]
      ensures blockTagBlacklistedElements == map[] && modIDBlacklistedElements == map[]
      ensures materialBlacklistedElements == map[]
    {
      this.reg := reg;
      blockTagStacks, itemTagStacks, itemModIDStacks := map[], map[], map[];
      blockModIDStacks, materialStacks, tileEntityTypeTagCache := map[], map[], map[];
      blockTagBlacklistedElements, modIDBlacklistedElements, materialBlacklistedElements := map[], map[], map[];
    }

    /**
     * `resetTagCaches`: empties the caches that depend on tags; the mod id
     * and material caches survive a tag reload.
     */
    method ResetTagCaches()
      requires Valid()
      modifies this`blockTagStacks, this`itemTagStacks, this`tileEntityTypeTagCache,
               this`blockTagBlacklistedElements, this`modIDBlacklistedElements, this`materialBlacklistedElements
      ensures Valid()
      ensures blockTagStacks == map[] && itemTagStacks == map[] && tileEntityTypeTagCache == map[]
      ensures blockTagBlacklistedElements == map[] && modIDBlacklistedElements == map[]
      ensures materialBlacklistedElements == map[]
      ensures itemModIDStacks == old(itemModIDStacks) && blockModIDStacks == old(blockModIDStacks)
      ensures materialStacks == old(materialStacks)
    {
      blockTagStacks := map[];
      itemTagStacks := map[];
      tileEntityTypeTagCache := map[];
      blockTagBlacklistedElements := map[];
      modIDBlacklistedElements := map[];
      materialBlacklistedElements := map[];
    }

    /** `getItemTags`: the item's tags as strings; nothing is cached. */
    method GetItemTags(item: Item) returns (r: seq<string>)
      ensures ListsTags(r, item.tags)
    {
      r := GetTagsAsStrings(item.tags);
    }

    method GetTileEntityTypeTags(block: Block) returns (r: seq<string>)
      requires Valid()
      modifies this`tileEntityTypeTagCache
      ensures Valid()
      ensures ListsTags(r, TileTagSet(reg, block))
      ensures block in old(tileEntityTypeTagCache) ==>
                r == old(tileEntityTypeTagCache[block]) && tileEntityTypeTagCache == old(tileEntityTypeTagCache)
      ensures block !in old(tileEntityTypeTagCache) ==> tileEntityTypeTagCache == old(tileEntityTypeTagCache)[block := r]
    {
      if block in tileEntityTypeTagCache {
        return tileEntityTypeTagCache[block];
      }
      if block.ownTileType.Some? {
        r := GetTagsAsStrings(block.ownTileType.value.tags);
      } else if block.hasBlockEntity {
        var tileEntityTags: set<ResourceLocation> := {};
        var types := reg.blockEntityTypes;
        for i := 0 to |types|
          invariant tileEntityTags == TileTypeTags(types[..i], block.name)
        {
          assert types[..i + 1][..i] == types[..i];
          if block.name in types[i].validBlocks {
            tileEntityTags := tileEntityTags + types[i].tags;
          }
        }
        assert types[..|types|] == types;
        r := GetTagsAsStrings(tileEntityTags);
      } else {
        r := [];
      }
      tileEntityTypeTagCache := tileEntityTypeTagCache[block := r];
    }

    /** `getItemTagStacks`: cached whatever the answer, even an empty list. */
    method GetItemTagStacks(tagName: string) returns (r: seq<Item>)
      requires Valid()
      modifies this`itemTagStacks
      ensures Valid()
      ensures (set x | x in r) == StackItems(ItemTagSet(reg, tagName), (i: Item) => i)
      ensures tagName in old(itemTagStacks) ==> r == old(itemTagStacks[tagName]) && itemTagStacks == old(itemTagStacks)
      ensures tagName !in old(itemTagStacks) ==> itemTagStacks == old(itemTagStacks)[tagName := r]
    {
      if tagName in itemTagStacks {
        return itemTagStacks[tagName];
      }
      var items := CollectTagStacks(reg.itemTags, tagName, reg.boundingBlock.item, reg.matches);
      r := StacksOf(items, (i: Item) => i);
      itemTagStacks := itemTagStacks[tagName := r];
    }

    /** `getBlockTagStacks`: a query matching no block answers NONE and is not cached. */
    method GetBlockTagStacks(tagName: string) returns (r: MatchingStacks)
      requires Valid()
      modifies this`blockTagStacks
      ensures Valid()
      ensures tagName in old(blockTagStacks) ==> r == old(blockTagStacks[tagName]) && blockTagStacks == old(blockTagStacks)
      ensures tagName !in old(blockTagStacks) && BlockTagSet(reg, tagName) == {} ==>
                r == NONE && blockTagStacks == old(blockTagStacks)
      ensures tagName !in old(blockTagStacks) && BlockTagSet(reg, tagName) != {} ==>
                MatchingFor(r, BlockTagSet(reg, tagName)) && blockTagStacks == old(blockTagStacks)[tagName := r]
    {
      if tagName in blockTagStacks {
        return blockTagStacks[tagName];
      }
      var blocks := CollectTagStacks(reg.blockTags, tagName, reg.boundingBlock, reg.matches);
      r, blockTagStacks := GetMatching(blockTagStacks, blocks, tagName);
    }

    /** `getItemModIDStacks`: the non-empty stacks of the items of matching mods, in registry order. */
    method GetItemModIDStacks(modName: string) returns (r: seq<Item>)
      requires Valid()
      modifies this`itemModIDStacks
      ensures Valid()
      ensures r == ModIDItems(reg.items, reg.boundingBlock.item, modName, reg.matches)
      ensures modName in old(itemModIDStacks) ==> itemModIDStacks == old(itemModIDStacks)
      ensures modName !in old(itemModIDStacks) ==> itemModIDStacks == old(itemModIDStacks)[modName := r]
    {
      if modName in itemModIDStacks {
        return itemModIDStacks[modName];
      }
      var stacks: seq<Item> := [];
      var items := reg.items;
      var bounding := reg.boundingBlock.item;
      for i := 0 to |items|
        invariant stacks == ModIDItems(items[..i], bounding, modName, reg.matches)
      {
        assert items[..i + 1][..i] == items[..i];
        var item := items[i];
        if item != bounding {
          if !item.isAir && reg.matches(modName, item.modId) {
            stacks := stacks + [item];
          }
        }
      }
      assert items[..|items|] == items;
      r := stacks;
      itemModIDStacks := itemModIDStacks[modName := r];
    }

    /** `getBlockModIDStacks`: like the block tag query, a mod with no blocks is not cached. */
    method GetBlockModIDStacks(modName: string) returns (r: MatchingStacks)
      requires Valid()
      modifies this`blockModIDStacks
      ensures Valid()
      ensures modName in old(blockModIDStacks) ==> r == old(blockModIDStacks[modName]) && blockModIDStacks == old(blockModIDStacks)
      ensures var blocks := ModIDBlocks(reg.blocks, reg.boundingBlock, modName, reg.matches);
              modName !in old(blockModIDStacks) ==>
                if blocks == {} then r == NONE && blockModIDStacks == old(blockModIDStacks)
                else MatchingFor(r, blocks) && blockModIDStacks == old(blockModIDStacks)[modName := r]
    {
      if modName in blockModIDStacks {
        return blockModIDStacks[modName];
      }
      var blocks: set<Block> := {};
      var all := reg.blocks;
      for i := 0 to |all|
        invariant blocks == ModIDBlocks(all[..i], reg.boundingBlock, modName, reg.matches)
      {
        assert all[..i + 1][..i] == all[..i];
        var block := all[i];
        if block != reg.boundingBlock && reg.matches(modName, block.name.namespace) {
          blocks := blocks + {block};
        }
      }
      assert all[..|all|] == all;
      r, blockModIDStacks := GetMatching(blockModIDStacks, blocks, modName);
    }

    /** `getMaterialStacks(Material)`: the non-empty stacks of the blocks of that material, in registry order. */
    method GetMaterialStacks(material: Material) returns (r: seq<Item>)
      requires Valid()
      modifies this`materialStacks
      ensures Valid()
      ensures r == MaterialItems(reg.blocks, reg.boundingBlock, material)
      ensures material in old(materialStacks) ==> materialStacks == old(materialStacks)
      ensures material !in old(materialStacks) ==> materialStacks == old(materialStacks)[material := r]
    {
      if material in materialStacks {
        return materialStacks[material];
      }
      var stacks: seq<Item> := [];
      var all := reg.blocks;
      for i := 0 to |all|
        invariant stacks == MaterialItems(all[..i], reg.boundingBlock, material)
      {
        assert all[..i + 1][..i] == all[..i];
        var block := all[i];
        if block != reg.boundingBlock && block.material == material {
          if !block.item.isAir {
            stacks := stacks + [block.item];
          }
        }
      }
      assert all[..|all|] == all;
      r := stacks;
      materialStacks := materialStacks[material := r];
    }

    /** `getMaterialStacks(ItemStack)`: the query for the material of the item's block. */
    method GetMaterialStacksOfItem(item: Item) returns (r: seq<Item>)
      requires Valid()
      modifies this`materialStacks
      ensures Valid()
      ensures r == MaterialItems(reg.blocks, reg.boundingBlock, reg.blockByItem(item).material)
      ensures reg.blockByItem(item).material in old(materialStacks) ==> materialStacks == old(materialStacks)
      ensures reg.blockByItem(item).material !in old(materialStacks) ==>
                materialStacks == old(materialStacks)[reg.blockByItem(item).material := r]
    {
      r := GetMaterialStacks(reg.blockByItem(item).material);
    }

    /**
     * `tagHasMinerBlacklisted`: false without touching the cache when the
     * blacklist is empty; otherwise whether some matching tag holds a
     * blacklisted block, cached.
     */
    method TagHasMinerBlacklisted(tag: string) returns (r: bool)
      requires Valid()
      modifies this`blockTagBlacklistedElements
      ensures Valid()
      ensures |reg.minerBlacklist| == 0 ==> !r && blockTagBlacklistedElements == old(blockTagBlacklistedElements)
      ensures |reg.minerBlacklist| > 0 ==> r == TagBlacklisted(reg, tag)
      ensures |reg.minerBlacklist| > 0 && tag in old(blockTagBlacklistedElements) ==>
                blockTagBlacklistedElements == old(blockTagBlacklistedElements)
      ensures |reg.minerBlacklist| > 0 && tag !in old(blockTagBlacklistedElements) ==>
                blockTagBlacklistedElements == old(blockTagBlacklistedElements)[tag := r]
    {
      if |reg.minerBlacklist| == 0 {
        return false;
      } else if tag in blockTagBlacklistedElements {
        return blockTagBlacklistedElements[tag];
      }
      var hasBlacklisted := false;
      var tags := reg.blockTags;
      var i := 0;
      while i < |tags|
        invariant 0 <= i <= |tags|
        invariant !hasBlacklisted ==> forall k :: 0 <= k < i ==> !TagHit(reg, tag, k)
        invariant hasBlacklisted ==> TagHit(reg, tag, i)
      {
        var entry := tags[i];
        if reg.matches(tag, LocString(entry.name)) && exists v :: v in entry.values && v in reg.minerBlacklist {
          hasBlacklisted := true;
          break;
        }
        i := i + 1;
      }
      if hasBlacklisted {
        assert TagHit(reg, tag, i);
      }
      assert hasBlacklisted == TagBlacklisted(reg, tag);
      blockTagBlacklistedElements := blockTagBlacklistedElements[tag := hasBlacklisted];
      r := hasBlacklisted;
    }

    /** `modIDHasMinerBlacklisted`: whether a blacklisted block belongs to a matching mod. */
    method ModIDHasMinerBlacklisted(modName: string) returns (r: bool)
      requires Valid()
      modifies this`modIDBlacklistedElements
      ensures Valid()
      ensures |reg.minerBlacklist| == 0 ==> !r && modIDBlacklistedElements == old(modIDBlacklistedElements)
      ensures |reg.minerBlacklist| > 0 ==> r == ModIDBlacklisted(reg, modName)
      ensures |reg.minerBlacklist| > 0 && modName in old(modIDBlacklistedElements) ==>
                modIDBlacklistedElements == old(modIDBlacklistedElements)
      ensures |reg.minerBlacklist| > 0 && modName !in old(modIDBlacklistedElements) ==>
                modIDBlacklistedElements == old(modIDBlacklistedElements)[modName := r]
    {
      if |reg.minerBlacklist| == 0 {
        return false;
      } else if modName in modIDBlacklistedElements {
        return modIDBlacklistedElements[modName];
      }
      var hasBlacklisted := false;
      var all := reg.blocks;
      var i := 0;
      while i < |all|
        invariant 0 <= i <= |all|
        invariant !hasBlacklisted ==> forall k :: 0 <= k < i ==> !ModIDHit(reg, modName, k)
        invariant hasBlacklisted ==> ModIDHit(reg, modName, i)
      {
        var block := all[i];
        if block in reg.minerBlacklist && reg.matches(modName, block.name.namespace) {
          hasBlacklisted := true;
          break;
        }
        i := i + 1;
      }
      if hasBlacklisted {
        assert ModIDHit(reg, modName, i);
      }
      assert hasBlacklisted == ModIDBlacklisted(reg, modName);
      modIDBlacklistedElements := modIDBlacklistedElements[modName := hasBlacklisted];
      r := hasBlacklisted;
    }

    /** `materialHasMinerBlacklisted(Material)`: whether a blacklisted block is made of `material`. */
    method MaterialHasMinerBlacklisted(material: Material) returns (r: bool)
      requires Valid()
      modifies this`materialBlacklistedElements
      ensures Valid()
      ensures |reg.minerBlacklist| == 0 ==> !r && materialBlacklistedElements == old(materialBlacklistedElements)
      ensures |reg.minerBlacklist| > 0 ==> r == MaterialBlacklisted(reg, material)
      ensures |reg.minerBlacklist| > 0 && material in old(materialBlacklistedElements) ==>
                materialBlacklistedElements == old(materialBlacklistedElements)
      ensures |reg.minerBlacklist| > 0 && material !in old(materialBlacklistedElements) ==>
                materialBlacklistedElements == old(materialBlacklistedElements)[material := r]
    {
      if |reg.minerBlacklist| == 0 {
        return false;
      } else if material in materialBlacklistedElements {
        return materialBlacklistedElements[material];
      }
      var hasBlacklisted := false;
      var all := reg.blocks;
      var i := 0;
      while i < |all|
        invariant 0 <= i <= |all|
        invariant !hasBlacklisted ==> forall k :: 0 <= k < i ==> !MaterialHit(reg, material, k)
        invariant hasBlacklisted ==> MaterialHit(reg, material, i)
      {
        var block := all[i];
        if block.material == material && block in reg.minerBlacklist {
          hasBlacklisted := true;
          break;
        }
        i := i + 1;
      }
      if hasBlacklisted {
        assert MaterialHit(reg, material, i);
      }
      assert hasBlacklisted == MaterialBlacklisted(reg, material);
      materialBlacklistedElements := materialBlacklistedElements[material := hasBlacklisted];
      r := hasBlacklisted;
    }

    /** `materialHasMinerBlacklisted(ItemStack)`: the query for the material of the item's block. */
    method MaterialHasMinerBlacklistedOfItem(item: Item) returns (r: bool)
      requires Valid()
      modifies this`materialBlacklistedElements
      ensures Valid()
      ensures |reg.minerBlacklist| == 0 ==> !r && materialBlacklistedElements == old(materialBlacklistedElements)
      ensures |reg.minerBlacklist| > 0 ==> r == MaterialBlacklisted(reg, reg.blockByItem(item).material)
      ensures |reg.minerBlacklist| > 0 && reg.blockByItem(item).material in old(materialBlacklistedElements) ==>
                materialBlacklistedElements == old(materialBlacklistedElements)
      ensures |reg.minerBlacklist| > 0 && reg.blockByItem(item).material !in old(materialBlacklistedElements) ==>
                materialBlacklistedElements == old(materialBlacklistedElements)[reg.blockByItem(item).material := r]
    {
      r := MaterialHasMinerBlacklisted(reg.blockByItem(item).material);
    }
  }
}
