/**
 * The records the bridge writes to standard output, one JSON object per
 * line. Each event is kept as a structured value; values a message
 * interpolates are kept as the values themselves, and only fixed texts are
 * spelled out.
 */
module Outbound {
  import opened JsValues
  import opened Commands

  /** The extra fields of an `ack`. */
  datatype Detail =
    | NoDetail
    | Target(target: JsValue)                                 // goto, follow: `target`
    | Coords(x: JsValue, y: JsValue, z: JsValue)              // goto without a target: "x,y,z"
    | EntityName(name: string)                                // attack
    | BlockAt(block: string, x: JsValue, y: JsValue, z: JsValue)
    | Placed(x: JsValue, y: JsValue, z: JsValue, face: JsValue)
    | Equipped(item: JsValue, destination: JsValue)
    | Crafted(item: JsValue, count: JsValue)
    | Tossed(stack: string, stackCount: nat)                        // drop: the whole held stack
    | TossedSome(itemName: JsValue, amount: JsNum)                 // drop_item
    | TossedAll(attempts: nat)                                   // drop_all: toss attempts made
    | FoundBlock(blockType: JsValue, pos: Pos)                // find_and_dig
    | AlreadyGone(blockType: JsValue)                         // find_and_dig: "block already gone"
    | AreaStart(w: JsNum, h: JsNum, d: JsNum, total: nat)     // "Starting to dig WxHxD area (N blocks)"
    | AreaProgress(reached: nat, total: nat)                    // "Progress: i/N blocks"

  /** The `message` of an `error` event. */
  datatype Message =
    | Text(s: string)                                         // a fixed text, or a library error's message
    | UnknownAction(action: JsValue)
    | InvalidCoordinates(x: JsValue, y: JsValue, z: JsValue)
    | PlayerNotFound(target: JsValue)
    | NoBlockAt(x: JsValue, y: JsValue, z: JsValue)
    | NoReferenceBlockAt(x: JsValue, y: JsValue, z: JsValue)
    | NotInInventory(item: JsValue)
    | UnknownItem(item: JsValue)
    | NoRecipe(item: JsValue)
    | UnknownBlockType(blockType: JsValue)
    | NoneWithinRange(blockType: JsValue)                     // "No X found within 32 blocks"
    | Disappeared(pos: Pos)
    | TooFar(blockType: JsValue, pos: Pos)                    // the rounded distance is not modelled
    | TooFarNoPathfinder(blockType: JsValue)                  // "X too far and no pathfinder"

  datatype Event =
    | Queued(queuedAction: JsValue, queueLength: nat)
    | Ack(action: string, detail: Detail)
    | Error(errorAction: Option<string>, message: Message)
    | MoveDone(x: JsValue, y: JsValue, z: JsValue)
    | GotoDone(x: JsValue, y: JsValue, z: JsValue)
    | DigDone(block: string, x: JsValue, y: JsValue, z: JsValue)
    | FindAndDigDone(blockType: JsValue, pos: Pos)
    | FindAndDigError(error: Message)
    | DigAreaCancelled(blocksRemoved: nat)
    | DigAreaDone(blocksRemoved: nat)
    | Stopped
    | Status(actionBusy: bool, queueLength: nat)              // the library readings of `status` are not modelled
    | Report(query: string)                                   // inventory, position, players, survey
    | Reconnecting(attempt: nat, backoffMs: nat)
    | Kicked(reason: string)
    | Disconnected(reason: string)
    | Spawned(position: Pos, dimension: JsValue)                 // `bot.entity.position`, `bot.game && bot.game.dimension`
    | Chat(username: string, text: string)
    | Whisper(username: string, text: string)
    | Death
    | BotError(errorText: string)

  /** "Pathfinding timed out after <ms>ms". */
  function PathTimeoutText(ms: nat): string {
    "Pathfinding timed out after " + NatText(ms) + "ms"
  }

  const BotNotConnected: string := "Bot not connected yet"
  const NoEntityNearby: string := "No entity nearby to attack"
  const NotHolding: string := "Not holding any item"
  const NoBedNearby: string := "No bed found within 4 blocks"
  const NoBlockInSight: string := "No block in line of sight"
  const ReconnectExhausted: string := "Failed to reconnect after 10 attempts"

  /** "Invalid JSON: <line>". */
  function InvalidJsonText(line: string): string {
    "Invalid JSON: " + line
  }

  /** The pathfinding timeout message names its deadline: different deadlines give different messages. */
  lemma PathTimeoutTextDistinct(a: nat, b: nat)
    ensures PathTimeoutText(a) == PathTimeoutText(b) ==> a == b
  {
    if PathTimeoutText(a) == PathTimeoutText(b) {
      var p := "Pathfinding timed out after ";
      var ta, tb := NatText(a), NatText(b);
      assert p + ta + "ms" == p + tb + "ms";
      assert |ta| == |tb|;
      assert ta == PathTimeoutText(a)[|p|..|p| + |ta|];
      assert tb == PathTimeoutText(b)[|p|..|p| + |tb|];
      NatTextRoundTrip(a);
      NatTextRoundTrip(b);
    }
  }
}
