/**
 * The game library as the bridge sees it: a snapshot of what the bot can
 * observe when an event is handled, and the requests the bridge sends to it.
 * Everything here is an oracle; nothing of the library's own behaviour is
 * modelled.
 */
module Game {
  import opened JsValues
  import opened Commands

  /** An inventory stack. */
  datatype Item = Item(name: string, count: nat)

  /**
   * What the bot observes while one event is handled. The distance tests of
   * the handlers (`distanceTo(pos) <= 5`, `> 4.5`) are given as answers, not
   * computed.
   */
  datatype World = World(
    pathfinder: bool,                      // `bot.pathfinder && bot.pathfinder.movements`
    loaded: map<Pos, string>,              // the names of the loaded blocks, for `bot.blockAt(pos)`
    cursor: Block,                         // `bot.blockAtCursor(5)`
    cursorPos: Pos,                        // its `position`
    digReach: set<Pos>,                    // distance at most 4.5: `dig_area` needs no approach
    findReach: set<Pos>,                   // distance at most 5: `find_and_dig` may dig without a pathfinder
    players: map<JsValue, Pos>,            // `bot.players[target].entity.position` of the visible players
    nearest: Option<string>,               // `bot.nearestEntity()`, with its name ("" when it has none)
    items: seq<Item>,                      // `bot.inventory.items()`
    held: Option<Item>,                    // `bot.heldItem`
    blockNames: set<JsValue>,              // the keys of `mcData.blocksByName`
    found: map<JsValue, Pos>,              // first result of `findBlocks` within 32 blocks, by block type
    itemNames: set<JsValue>,               // the keys of `mcData.itemsByName`
    craftable: set<JsValue>,               // the items for which `recipesFor` returns a recipe
    bedNearby: bool,                       // `findBlock` finds a bed within 4 blocks
    throws: Option<string>)                // the error a direct call (`activateItem`, `deactivateItem`, `wake`) throws
  {
    /** `bot.blockAt(p)`. */
    function BlockAt(p: Pos): Block {
      BlockIn(loaded, p)
    }

    /** The entity position of player `target`, when the player is visible. */
    function PlayerEntity(target: JsValue): Option<Pos> {
      if target in players then Some(players[target]) else None
    }

    /** The first block of type `blockType` within 32 blocks. */
    function FindBlock(blockType: JsValue): Option<Pos> {
      if blockType in found then Some(found[blockType]) else None
    }
  }

  /** Requests issued to the game library whose arguments the bridge computes. */
  datatype Call =
    | AttackCall(target: string)
    | DigCall(pos: Pos)
    | PlaceCall(reference: Pos, face: Vec)
    | TossCall(item: string, count: JsNum)
    | TossStackCall(item: string)

  /**
   * `items.find(i => i.name === name)` as an index: the first stack whose
   * name is strictly equal to `name`, or -1.
   */
  function FindItem(items: seq<Item>, name: JsValue): (i: int)
    ensures -1 <= i < |items|
    ensures i >= 0 ==> Str(items[i].name) == name
    ensures forall j :: 0 <= j < |items| && (i < 0 || j < i) ==> Str(items[j].name) != name
  {
    if items == [] then -1
    else if Str(items[0].name) == name then 0
    else
      var k := FindItem(items[1..], name);
      if k < 0 then -1 else k + 1
  }
}
