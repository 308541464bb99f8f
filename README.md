# Action coordination of the Minecraft bot bridge

The bot bridge is a Node.js process. It reads commands as JSON lines on
standard input, drives a Minecraft bot through the game library, and writes
events as JSON lines on standard output. This project models the part that
decides when bot actions may run, and proves properties of that model in Dafny.

- **Commands.** They are split statically into *sync* commands
  (`SYNC_ACTIONS`), which run at once, and *exclusive* ones.
- **The lane.** Exclusive commands run one at a time on a FIFO lane: the
  `actionBusy` flag plus the `actionQueue`. The lane moves on only when the
  running action calls `done`.
- **Goal handles.** An action that waits for the pathfinder registers an
  `onGoalReached` handle. Its callback and its deadline race, and
  `cleanupAllGoals` resolves all live handles in bulk.
- **Outstanding promises.** Library promises are raced against a deadline
  (`withTimeout`). Their `.finally` calls `done`.
- **Movement timer.** Without a pathfinder, a fallback `movementTimer`
  stands in for the goal handle.
- **The `dig_area` walk.** It builds an ordered target list, then walks it
  with a cursor. At each step it checks a cancel flag and at every tenth
  position it sends a progress ack.
- **Disconnect and reconnect.** Disconnect cleanup runs in a fixed order, then
  the reconnection controller takes over: the `reconnecting` guard, at most 10
  attempts, exponential backoff and fatal kick reasons.

The modular bridge (`apps/bot_farmer/priv/mineflayer/`) is the base of the
model. The older monolithic bridge (`apps/mc_fun/priv/mineflayer/bridge.js`)
is the variant selected by the constant `Bridge.legacy`. Where the two differ,
the contracts say so:
- its `validCoords` is weaker;
- it has no `drop_item` or `drop_all` case;
- it has no fatal-kick classification;
- it does not filter the bot's own whispers;
- its `find_and_dig` without a pathfinder digs the block it found without
  reading it again;
- a goal deadline always calls `actionDone`, so a `dig_area` walk whose
  approach times out is abandoned.

## How it is modelled

- **One event, one method.** Every JavaScript event handler is one method of
  the class `Coordination.Bridge` that runs to completion. The environment
  calls these methods in any order. The external happenings are:
  - a stdin line (`Line`);
  - a goal reached or a goal deadline (`GoalReached`, `GoalDeadline`);
  - a promise settling (`Settle`);
  - the fallback timer firing (`MovementTimerFires`);
  - a reconnect timer firing (`ReconnectTimerFires`);
  - `spawn`, `kicked`, `end`, `chat`, `whisper`, `death` and `error`.
- **The game library is an oracle**, the `Game.World` snapshot passed to each
  handler. It answers block lookups, reach, inventory and the pathfinder's
  presence. The requests the bridge makes of it are appended to `calls`.
  Everything the bridge sends is appended to `trace` as a structured
  `Outbound.Event`.
- **`done` runs the next command at once.** It can execute the next queued
  command in the same call, and that command can call `done` again. The model
  follows this chain of re-entrant calls, using lexicographic `decreases`
  clauses on the queue length. For the same reason a handler's contract says
  `old(trace) + evs <= trace`: its own events come first, and a queued
  command may append more.
- **Ghost bookkeeping.** Each continuation (goal handle, outstanding promise,
  movement timer) is tagged with the epoch in which it was created, and
  `clearQueue` starts a new epoch. The ghost `owner` names the one
  continuation of the current epoch that will call `done`. `Valid()` states
  that the lane is busy exactly when it has an owner, and that no other
  continuation of the current epoch is outstanding.
- **What an action leaves alone.** No action touches the reconnection state
  (`attempts`, `reconnecting`, the pending reconnect timers) or the bot slot.
  Every handler of the exclusive lane states this through `Chained()`, and so
  do `ProcessCommand`, `Line`, `GoalReached`, `GoalDeadline`, `Settle` and
  `MovementTimerFires`, through `ReconnectKept()`. A path that registers a goal
  handle (`NewGoal`) leaves the outstanding promises, the fallback timer and
  the cancel flag as they were. A path that starts a promise (`NewSettle`)
  leaves the goal handles, the registry, the timer and the flag as they were.
- **Stale completions.** `stop` and disconnect clear the queue but cannot
  recall continuations already in flight: a pending `.finally(done)`, a
  fallback timer, or a resumed `digNext`. Such a stale continuation may later
  call `done` while a newer action holds the lane. The model keeps this
  behaviour. A stale `done` on a busy lane sets the ghost flag `corrupted`,
  and single flight (`Bridge.SingleFlight`) is proved only while no such call
  has happened since the last `clearQueue`.
- **Stdin.** A line that parses to JSON `null` makes `cmd.action` throw inside
  the `line` handler, and the process ends (`halted := Some(Crashed)`). The
  `Bot not connected yet` guard cannot fire in this model, because `bot` is
  set during bootstrap and never cleared.
- **A reconnect that never comes.** A reconnected session can end before it
  spawns. In that case `reconnecting` is still set, so the `end` handler's
  `scheduleReconnect` does nothing and no further attempt is made. `End`'s
  contract, through `Rescheduled`, states this case too.

## Model

| member | source | states |
|---|---|---|
| JsValues.NatTextRoundTrip | apps/bot_farmer/priv/mineflayer/action_queue.js:81 | the decimal text a template literal gives a count reads back as that count, so messages that interpolate numbers keep them |
| JsValues.ToNumber | apps/mc_fun/priv/mineflayer/bridge.js:44-46 | the coercion the global `isFinite` applies: numbers are kept, `undefined` is NaN, `null` is 0 |
| JsValues.StringToNumber | apps/mc_fun/priv/mineflayer/bridge.js:44-46 | the empty string is 0, a decimal integer with an optional sign is its value, and only "Infinity", "+Infinity" and "-Infinity" give the infinities |
| JsValues.JsMin | apps/bot_farmer/priv/mineflayer/commands/world.js:156-158 | `Math.min` is NaN exactly when an argument is NaN, and otherwise is one of the arguments and no greater than either |
| JsValues.ValidCoords | apps/bot_farmer/priv/mineflayer/utils.js:27-30 | true iff every coordinate is of type number and finite, so null, undefined, strings, NaN and the infinities are refused in any position |
| JsValues.LegacyValidCoords | apps/mc_fun/priv/mineflayer/bridge.js:44-46 | true iff every coordinate coerces to a finite number |
| JsValues.StrictCoordsAdmittedByLegacy | apps/mc_fun/priv/mineflayer/bridge.js:44-46 | whatever the strict test admits, the monolithic test admits too |
| JsValues.LegacyCoordsAcceptNonNumbers | apps/mc_fun/priv/mineflayer/bridge.js:44-46 | the monolithic test lets null, booleans and digit strings through where the strict one refuses them, and still refuses undefined |
| JsValues.CoordValue | apps/bot_farmer/priv/mineflayer/commands/world.js:18 | the position `new Vec3(x, y, z)` stands for: a number coordinate is kept as it is |
| JsValues.PlusOffset | apps/mc_fun/priv/mineflayer/bridge.js:752 | JavaScript `a + k` on a validated coordinate: a string is joined with the digits of `k` as text, any other value is added as the number it coerces to |
| Outbound.PathTimeoutTextDistinct | apps/bot_farmer/priv/mineflayer/action_queue.js:81 | the pathfinding timeout message names its deadline: different deadlines give different messages |
| Reconnect.BackoffSchedule | apps/bot_farmer/priv/mineflayer/bridge.js:127 | the backoff is 1000·2^(n-1) ms up to attempt 5 (1, 2, 4, 8, 16 s) and the 30 s cap from attempt 6 on |
| Reconnect.BackoffMonotoneBounded | apps/bot_farmer/priv/mineflayer/bridge.js:127 | a later attempt never waits less, and every wait lies between 1 s and 30 s |
| Reconnect.ContainsFoldedCorrect | apps/bot_farmer/priv/mineflayer/events.js:66 | the left-to-right case-insensitive scan finds a phrase exactly when it occurs at some position |
| Reconnect.FatalKickMeaning | apps/bot_farmer/priv/mineflayer/events.js:66 | a kick is fatal iff "not whitelisted" or "banned" occurs in its reason, in any mix of letter case |
| Reconnect.FatalKickExamples | apps/bot_farmer/priv/mineflayer/events.js:66-69 | "BANNED" and "You are Banned" are fatal kicks |
| Reconnect.RetryableKickExample | apps/bot_farmer/priv/mineflayer/events.js:66-70 | "timeout" is not a fatal kick, so it leads to a reconnect |
| TimeoutRace.Settle | apps/bot_farmer/priv/mineflayer/utils.js:16-22 | when the operation settles first its resolution or rejection passes through unchanged; when the deadline comes first the race rejects with the labelled timeout message; `RaceAgreesWithSettle` ties it to the timer class |
| TimeoutRace.TimeoutMessageNamesLabel | apps/bot_farmer/priv/mineflayer/utils.js:19 | the timeout message starts with the label, so a deadline rejection names the operation that timed out |
| TimeoutRace.TimeoutMessageExample | apps/bot_farmer/priv/mineflayer/tests/utils.test.js:82-90 | a 50 ms deadline labelled "test_op" rejects with "test_op timed out after 50ms" |
| TimeoutRace.Race.constructor | apps/bot_farmer/priv/mineflayer/utils.js:16-20 | the deadline timer is armed and nothing has settled |
| TimeoutRace.Race.InnerSettles | apps/bot_farmer/priv/mineflayer/utils.js:21 | an open race takes the operation's result, a decided race keeps its result, and the timer is cleared either way |
| TimeoutRace.Race.DeadlineElapses | apps/bot_farmer/priv/mineflayer/utils.js:19 | only an open race is affected: it rejects with the labelled timeout message; the timer is no longer armed |
| TimeoutRace.RaceAgreesWithSettle | apps/bot_farmer/priv/mineflayer/utils.js:16-22 | for every race, playing its arrivals in order on the timer class (the winner first, the loser afterwards) settles to `Settle`'s outcome, so the bridge's use of `Settle` agrees with the timer and `.finally` logic |
| TimeoutRace.RaceExamples | apps/bot_farmer/priv/mineflayer/tests/utils.test.js:73-97 | played on the class, a quick resolution passes through, a slow operation times out with the labelled message, and an early rejection propagates unchanged |
| Commands.HandlerFor | apps/bot_farmer/priv/mineflayer/bridge.js:51-104 | a selected case is one the bridge's switch has, and the action is exactly that case's label (strict equality, so never a non-string); `CaseLabel` is the independent label table |
| Commands.CaseReachedByItsLabel | apps/bot_farmer/priv/mineflayer/bridge.js:51-104 | for every case the bridge's switch has, an action selects it if and only if it is that case's label; with `HandlerFor`'s contract, everything else reaches `default` |
| Commands.VariantsDispatchAlike | apps/bot_farmer/priv/mineflayer/bridge.js:88-89 | the two bridges dispatch an action differently iff it is `drop_item` or `drop_all` |
| Commands.SyncSetMatchesTable | apps/bot_farmer/priv/mineflayer/bridge.js:101-103 | an action is in `SYNC_ACTIONS` iff its case is a sync handler, so the unknown-action default always calls `done` |
| Commands.SyncActionsHaveSyncCases | apps/bot_farmer/priv/mineflayer/action_queue.js:10-13 | every listed sync action has a sync case in the switch |
| Commands.SyncCasesAreSyncActions | apps/bot_farmer/priv/mineflayer/action_queue.js:10-13 | every sync case of the switch is a listed sync action |
| Commands.FaceLookupAsWritten | apps/bot_farmer/priv/mineflayer/commands/world.js:59-74 | the lookup as written: a face name gives its vector, but a string naming an `Object.prototype` member yields that inherited member |
| Commands.FaceVector | apps/bot_farmer/priv/mineflayer/commands/world.js:59-74 | a known face name gives its vector, any other string or a missing face gives `top`, an object with `fx` gives `(fx, fy, fz)` |
| Commands.FaceLookupAgreesOffPrototype | apps/bot_farmer/priv/mineflayer/commands/world.js:68-69 | the lookup as written and the intended one agree on every face except the prototype member names |
| Commands.FaceLookupPrototypeLeak | apps/bot_farmer/priv/mineflayer/commands/world.js:69 | `face: "toString"` reaches `placeBlock` as the inherited member where the intended lookup gives `top` |
| Commands.ClampDim | apps/bot_farmer/priv/mineflayer/commands/world.js:156-158 | `Math.min(v \|\| dflt, cap)`: a falsy value gives the default, a finite non-zero number is capped, the result never exceeds the cap and is never +Infinity |
| Commands.UpCountBound | apps/bot_farmer/priv/mineflayer/commands/world.js:162-163 | the ascending loop test `k < n` holds exactly for the first `UpCount(n)` values of `k` |
| Commands.DownCountBound | apps/bot_farmer/priv/mineflayer/commands/world.js:161 | the descending loop test `dy >= 0` holds exactly for the first `DownCount(h)` rounds |
| Commands.IntegerDimCounts | apps/bot_farmer/priv/mineflayer/commands/world.js:161-163 | for an integer dimension both loops run `max(0, n)` rounds |
| Commands.BuildTargets | apps/bot_farmer/priv/mineflayer/commands/world.js:160-167 | the nested loops push exactly the target list `AreaTargets` |
| Commands.AreaTargetsShape | apps/bot_farmer/priv/mineflayer/commands/world.js:160-167 | the list's length is the product of the loop counts, and the entry at `(ky·nw + dx)·nd + dz` is the anchor offset by `(dx, h-1-ky, dz)`: top layer first, then by `dx`, then by `dz` |
| Commands.AreaTargetsCount | apps/bot_farmer/priv/mineflayer/commands/world.js:156-167 | with integer dimensions the list holds `max(0,h)·max(0,w)·max(0,d)` positions |
| Commands.DefaultArea | apps/bot_farmer/priv/mineflayer/commands/world.js:156-158 | without width, height and depth the area is 5 x 3 x 5, 75 positions |
| Commands.WalkStep | apps/bot_farmer/priv/mineflayer/commands/world.js:172-188 | a set cancel flag stops at the cursor; otherwise the scan finishes iff every remaining position is missing, air or cave air, and else stops at the first uncleared position, having skipped only cleared ones |
| Commands.ProgressReportsDug | apps/bot_farmer/priv/mineflayer/commands/world.js:185-216 | along an uncancelled walk, every progress ack reports a multiple of 10 within the list, one past a position that was dug (a skipped position never gets one), in increasing order |
| Commands.ProgressReportsUncleared | apps/bot_farmer/priv/mineflayer/commands/world.js:172-218 | a walk in which no position is already clear sends `\|blocks\| / 10` progress acks, reporting 10, 20, 30, ... |
| Commands.LegacyStringAnchorJoinsText | apps/mc_fun/priv/mineflayer/bridge.js:744-755 | the monolithic bridge admits the anchor `x: "5"` and then targets x "51" at `dx = 1`, where the numeric target list has 6 |
| Commands.DropAmount | apps/bot_farmer/priv/mineflayer/commands/inventory.js:75 | no count drops the whole stack; a finite non-zero count is capped at the stack size; a finite result never exceeds the stack |
| Game.FindItem | apps/bot_farmer/priv/mineflayer/commands/inventory.js:10 | the index of the first stack whose name is strictly equal to the requested name, or -1 when there is none |
| Coordination.IndexOf | apps/bot_farmer/priv/mineflayer/action_queue.js:64 | `indexOf` gives the first index holding the handle, or -1 exactly when it is absent |
| Coordination.NoDupAppend | apps/bot_farmer/priv/mineflayer/action_queue.js:86 | pushing a new handle keeps the registry free of duplicates |
| Coordination.NoDupRemove | apps/bot_farmer/priv/mineflayer/action_queue.js:64-65 | splicing one entry out of a duplicate-free registry removes exactly that handle and keeps it duplicate-free |
| Coordination.AllExclusiveAppend | apps/bot_farmer/priv/mineflayer/action_queue.js:22-24 | appending an exclusive command keeps the queue free of sync commands |
| Coordination.Bridge.constructor | apps/bot_farmer/priv/mineflayer/bridge.js:37-42 | the process after bootstrap: idle lane, empty queue and registry, no timers, zero attempts, nothing sent |
| Coordination.Bridge.ClearQueue | apps/bot_farmer/priv/mineflayer/action_queue.js:40-43 | the queue is empty and the lane idle; every continuation in flight becomes stale |
| Coordination.Bridge.Cleanup | apps/bot_farmer/priv/mineflayer/action_queue.js:59-66 | idempotent: only the first call marks the handle resolved and splices it out of the registry; a later call changes nothing |
| Coordination.Bridge.CleanupAllGoals | apps/bot_farmer/priv/mineflayer/action_queue.js:90-95 | afterwards the registry is empty and every handle is resolved, with nothing else about it changed and no callback run |
| Coordination.Bridge.StartGoal | apps/bot_farmer/priv/mineflayer/action_queue.js:56-88 | a new unresolved handle with its continuation and deadline is registered at the end of the registry and, in the current epoch, holds the lane |
| Coordination.Bridge.StartTimer | apps/bot_farmer/priv/mineflayer/commands/movement.js:38-39 | the previous fallback timer is replaced; a timer that calls `done` holds the lane |
| Coordination.Bridge.Done | apps/bot_farmer/priv/mineflayer/action_queue.js:31-38 | with an empty queue the lane goes idle and nothing is sent or started; otherwise the next queued command is dequeued; the lane only moves forward along the queue, and only a stale call on a busy lane sets `corrupted` |
| Coordination.Bridge.RunNext | apps/bot_farmer/priv/mineflayer/action_queue.js:33-37 | the queue shrinks, and what has started since, followed by the new queue, is the old queue in order |
| Coordination.Bridge.Dequeue | apps/bot_farmer/priv/mineflayer/action_queue.js:34 | the head of the queue is taken off and returned, it is an exclusive command, and the lane stays granted to it |
| Coordination.Bridge.ProcessCommand | apps/bot_farmer/priv/mineflayer/action_queue.js:19-29 | a sync command runs at once and leaves `busy` and the queue alone; an exclusive one behind a busy lane is appended, not run, with `queued` carrying the new length; one on an idle lane takes the lane and runs |
| Coordination.Bridge.Execute | apps/bot_farmer/priv/mineflayer/bridge.js:51-105 | the command is recorded as started; an exclusive one moves the lane only forward along the queue, keeps the epoch and the reconnection state, and never sets `corrupted`; an unknown action sends "Unknown action" with its value and calls `done` |
| Coordination.Bridge.ExecuteSync | apps/bot_farmer/priv/mineflayer/bridge.js:51-105 | a sync command is recorded as started and, unless it is `stop` or `quit`, leaves `busy` and the queue alone |
| Coordination.Bridge.ExecuteExclusive | apps/bot_farmer/priv/mineflayer/bridge.js:51-105 | an exclusive command is recorded as started after what started before; the queue only moves forward; the epoch, the exit state and the reconnection state are unchanged; an unknown action sends "Unknown action" and calls `done` |
| Coordination.Bridge.RunSync | apps/bot_farmer/priv/mineflayer/bridge.js:53-99 | a sync case other than `stop` and `quit` sends its one reply and leaves the lane alone |
| Coordination.Bridge.Reply | apps/bot_farmer/priv/mineflayer/bridge.js:69-74 | one reply is sent; `status` reports the lane's busy flag and queue length |
| Coordination.Bridge.RunExclusive | apps/bot_farmer/priv/mineflayer/bridge.js:57-103 | each exclusive case keeps the lane invariant and hands the lane on correctly; the default sends "Unknown action" with the action's value and calls `done` |
| Coordination.Bridge.RunMotion | apps/bot_farmer/priv/mineflayer/bridge.js:58-67 | the movement and combat cases keep the lane invariant |
| Coordination.Bridge.RunWorld | apps/bot_farmer/priv/mineflayer/bridge.js:77-82 | the world cases keep the lane invariant |
| Coordination.Bridge.RunInventory | apps/bot_farmer/priv/mineflayer/bridge.js:85-93 | the inventory cases keep the lane invariant |
| Coordination.Bridge.SetDigAreaCancelled | apps/bot_farmer/priv/mineflayer/commands/movement.js:15-16 | after `setDigAreaCancelled(v)`, the flag `getDigAreaCancelled` reads is `v` |
| Coordination.Bridge.HeadFor | apps/bot_farmer/priv/mineflayer/commands/movement.js:25-41 | with a pathfinder a 30 s goal handle holds the lane, without one the fallback timer does; then the ack is sent |
| Coordination.Bridge.Move | apps/bot_farmer/priv/mineflayer/commands/movement.js:18-42 | invalid coordinates give an error and `done`, and no ack; otherwise a `GoalBlock` handle (30 s) or the 2 s timer holds the lane and the ack is sent |
| Coordination.Bridge.Goto | apps/bot_farmer/priv/mineflayer/commands/movement.js:44-85 | a target player that is not visible gives an error and `done`; coordinates are validated only without a target; otherwise a `GoalNear` handle or the 3 s timer holds the lane and the ack names the target or the coordinates |
| Coordination.Bridge.Follow | apps/bot_farmer/priv/mineflayer/commands/movement.js:87-109 | acks a visible target, or reports it missing, and never calls `done`, so the lane stays held; without a pathfinder it arms a 2 s timer that does not call `done`; with a pathfinder, or with the target missing, the fallback timer slot is left as it was, so an older `move` timer that `stop` did not clear survives |
| Coordination.Bridge.Stop | apps/bot_farmer/priv/mineflayer/commands/movement.js:127-135 | afterwards all goal handles are resolved and the registry is empty, the cancel flag is set, the queue is empty and the lane idle, and `stopped` is the last event |
| Coordination.Bridge.CleanupMovement | apps/bot_farmer/priv/mineflayer/commands/movement.js:137-143 | the fallback timer is cleared and the cancel flag set |
| Coordination.Bridge.Attack | apps/bot_farmer/priv/mineflayer/commands/combat.js:7-16 | `done` is called whether or not an entity is nearby; the attack is issued only for a nearby entity and the ack names it (or "entity"); otherwise "No entity nearby to attack" |
| Coordination.Bridge.Dig | apps/bot_farmer/priv/mineflayer/commands/world.js:11-33 | invalid coordinates, or no block or air, give an error and `done`; otherwise the dig is issued, raced against 30 s, and holds the lane until it settles |
| Coordination.Bridge.DigLookingAt | apps/bot_farmer/priv/mineflayer/commands/world.js:35-50 | nothing or air under the cursor gives an error and `done`; otherwise a 30 s dig of the cursor block holds the lane |
| Coordination.Bridge.Place | apps/bot_farmer/priv/mineflayer/commands/world.js:52-89 | invalid coordinates or no reference block give an error and `done`; otherwise the block is placed against the intended face vector, raced against 10 s, and the ack shows `face \|\| 'top'` |
| Coordination.Bridge.ActivateBlock | apps/bot_farmer/priv/mineflayer/commands/world.js:224-245 | invalid coordinates or no block give an error and `done`; otherwise a 10 s activation holds the lane |
| Coordination.Bridge.FindAndDig | apps/bot_farmer/priv/mineflayer/commands/world.js:91-147 | an unknown block type, nothing within 32 blocks, or a vanished block give an error and `done`; then a 15 s goal handle, a dig in reach, "block already gone", or the two too-far errors and `done` |
| Coordination.Bridge.ReachFound | apps/bot_farmer/priv/mineflayer/commands/world.js:134-146 | with a pathfinder a 15 s `GoalNear` handle holds the lane; within 5 blocks the block is dug; otherwise the two too-far errors are sent and `done` is called |
| Coordination.Bridge.DigTarget | apps/bot_farmer/priv/mineflayer/commands/world.js:114-132 | the block is read again: if still there a 30 s dig holds the lane, otherwise "block already gone" and `find_and_dig_done` are sent and `done` is called |
| Coordination.Bridge.DigArea | apps/bot_farmer/priv/mineflayer/commands/world.js:149-171 | invalid coordinates give an error and `done`; otherwise the start ack reports the clamped dimensions and the length of the target list, the walk over `AreaTargets` is never cancelled at its first step (the flag was reset), and a list with nothing to dig ends with `dig_area_done{|blocks|}` and `done` right after the ack |
| Coordination.Bridge.StartWalk | apps/bot_farmer/priv/mineflayer/commands/world.js:169-170 | the cancel flag is reset, so whatever the flag was before (a `stop` sets it) the first step is not a cancellation; the start ack comes before anything the walk sends, and a list with nothing to dig ends with `dig_area_done` and `done` |
| Coordination.Bridge.DigNext | apps/bot_farmer/priv/mineflayer/commands/world.js:172-201 | a set cancel flag ends the walk with `dig_area_cancelled{idx}` and `done`; past the end it sends `dig_area_done` with the full list length and calls `done`; otherwise the first uncleared position is approached (10 s) or dug (30 s), and the other continuations, the timer and the flag are left alone; its first event is never a progress ack for a cursor before `idx` |
| Coordination.Bridge.Visit | apps/bot_farmer/priv/mineflayer/commands/world.js:190-201 | out of reach with a pathfinder the position is approached with a 10 s handle; otherwise the dig step runs |
| Coordination.Bridge.DigStep | apps/bot_farmer/priv/mineflayer/commands/world.js:203-211 | the block is read again and, if not yet clear, dug against 30 s |
| Coordination.Bridge.AfterDig | apps/bot_farmer/priv/mineflayer/commands/world.js:213-218 | the first event sent is the progress ack `idx + 1` if and only if `(idx + 1) % 10 === 0`; then the walk goes on at the next cursor |
| Coordination.Bridge.Equip | apps/bot_farmer/priv/mineflayer/commands/inventory.js:7-24 | a missing item gives an error and `done`; otherwise a 10 s equip to `destination \|\| 'hand'` holds the lane |
| Coordination.Bridge.Craft | apps/bot_farmer/priv/mineflayer/commands/inventory.js:26-49 | an unknown item or no recipe give an error and `done`; otherwise a 15 s craft of `count \|\| 1` holds the lane |
| Coordination.Bridge.Drop | apps/bot_farmer/priv/mineflayer/commands/inventory.js:51-66 | nothing held gives an error and `done`; otherwise the held stack is tossed against 10 s |
| Coordination.Bridge.DropItem | apps/bot_farmer/priv/mineflayer/commands/inventory.js:68-85 | a missing item gives an error and `done`; otherwise the clamped amount of the first matching stack is tossed against 10 s |
| Coordination.Bridge.DropAll | apps/bot_farmer/priv/mineflayer/commands/inventory.js:87-108 | an empty inventory acks a count of 0 and calls `done`; otherwise the first stack is tossed |
| Coordination.Bridge.DropNext | apps/bot_farmer/priv/mineflayer/commands/inventory.js:94-105 | an empty inventory acks the number of toss attempts and calls `done`; otherwise the first remaining stack is tossed |
| Coordination.Bridge.DirectCall | apps/bot_farmer/priv/mineflayer/commands/inventory.js:110-118 | an ack, or an error when the library call throws, and `done` either way |
| Coordination.Bridge.Sleep | apps/bot_farmer/priv/mineflayer/commands/inventory.js:130-152 | no bed within 4 blocks gives an error and `done`; otherwise a 10 s sleep holds the lane |
| Coordination.Bridge.GoalReached | apps/bot_farmer/priv/mineflayer/action_queue.js:68-73 | a resolved handle changes nothing; otherwise the handle is resolved and unregistered before its callback runs: `move_done` or `goto_done` then `done` |
| Coordination.Bridge.Reached | apps/bot_farmer/priv/mineflayer/commands/movement.js:27-30 | the callback of `move` sends `move_done` and calls `done`; that of `goto` sends `goto_done` and calls `done` |
| Coordination.Bridge.GoalDeadline | apps/bot_farmer/priv/mineflayer/action_queue.js:77-84 | a resolved handle changes nothing; otherwise the handle is resolved and unregistered, the timeout error names its deadline, and the lane is released, except by a modular walk's approach, which resumes |
| Coordination.Bridge.Expired | apps/mc_fun/priv/mineflayer/bridge.js:115-122 | the timeout error is sent; the monolithic bridge always calls `actionDone`, the modular one does unless the walk resumes |
| Coordination.Bridge.Settle | apps/bot_farmer/priv/mineflayer/commands/world.js:23-31 | the promise's `.then` events on success or its error on failure, then `done`; `find_and_dig` sends its done or error pair; a `drop_all` toss counts as an attempt whatever its outcome |
| Coordination.Bridge.Resume | apps/bot_farmer/priv/mineflayer/commands/world.js:117-126 | the continuation of a settled promise: success or failure events, then `done` |
| Coordination.Bridge.MovementTimerFires | apps/bot_farmer/priv/mineflayer/commands/movement.js:39 | a `move` or `goto` timer calls `done` and releases the lane; a `follow` timer only empties the timer slot |
| Coordination.Bridge.Line | apps/bot_farmer/priv/mineflayer/bridge.js:164-179 | malformed JSON or a missing bot gives an error and never reaches `processCommand`; a `null` command ends the process; anything else is processed |
| Coordination.Bridge.StdinClose | apps/bot_farmer/priv/mineflayer/bridge.js:181-185 | the process exits with code 0 |
| Coordination.Bridge.ScheduleReconnect | apps/bot_farmer/priv/mineflayer/bridge.js:116-141 | a no-op while `reconnecting`; otherwise the guard is set and the attempt counted once; past 10 attempts an error and exit 1 with no timer, else `reconnecting{attempt, backoff_ms}` and one timer |
| Coordination.Bridge.ReconnectTimerFires | apps/bot_farmer/priv/mineflayer/bridge.js:131-140 | a successful `createBot` only retires the timer; a throw clears the guard and re-enters `scheduleReconnect`, so the attempt count advances again |
| Coordination.Bridge.Spawn | apps/bot_farmer/priv/mineflayer/bridge.js:152-155 | the attempt count and the guard are reset to `(0, false)`, and `spawn` is sent with the position and dimension the library reports (apps/bot_farmer/priv/mineflayer/events.js:28-31) |
| Coordination.Bridge.Kick | apps/bot_farmer/priv/mineflayer/events.js:62-71 | `kicked` is sent first; in the modular bridge a fatal reason exits with code 1 and schedules nothing; any other kick goes through `scheduleReconnect`: nothing more while a reconnect is in progress, else the next attempt with its backoff, or past 10 attempts the exhaustion error and exit 1 |
| Coordination.Bridge.End | apps/bot_farmer/priv/mineflayer/events.js:78-83 | `disconnected` shows the reason or "unknown"; the cleanup resolves every handle, empties the queue, sets the cancel flag and clears the timer; then the reconnect is scheduled |
| Coordination.Bridge.ReportEnd | apps/bot_farmer/priv/mineflayer/events.js:79-82 | `disconnected` is sent before anything `scheduleReconnect` sends |
| Coordination.Bridge.CleanupOnDisconnect | apps/bot_farmer/priv/mineflayer/bridge.js:109-114 | afterwards no goal handle is outstanding, the registry and the queue are empty, the lane is idle, the cancel flag is set and the timer cleared |
| Coordination.Bridge.IncomingChat | apps/bot_farmer/priv/mineflayer/events.js:35-38 | chat from another player is forwarded; the bot's own is not |
| Coordination.Bridge.IncomingWhisper | apps/bot_farmer/priv/mineflayer/events.js:40-43 | a whisper is forwarded unless it is the bot's own and the bridge is the modular one |
| Coordination.Bridge.Died | apps/bot_farmer/priv/mineflayer/events.js:57-60 | `death` is only reported: no cleanup and no reconnect |
| Coordination.Bridge.LibraryError | apps/bot_farmer/priv/mineflayer/events.js:73-76 | a library error is only reported |
| Coordination.Bridge.SingleFlight | apps/bot_farmer/priv/mineflayer/action_queue.js:19-38 | unless a stale continuation has called `done` since the last `clearQueue`, an idle lane has an empty queue and nothing in flight, and at most one continuation of the current epoch is outstanding |

## Left out

- The game library (mineflayer, its pathfinder, minecraft-data) is an oracle snapshot (`Game.World`). Block lookups, reach, recipes, the inventory and the pathfinder's presence are given, not modelled.
- Distances and angles (`distanceTo` against 4.5 and 5, `Math.atan2`, `Math.round`) are floating point. They are replaced by the reach sets of `Game.World`, and the rounded distance of the too-far message is not kept.
- Real time: deadlines and timers are events the environment may deliver in any order. The milliseconds are kept only as values.
- Standard output and standard error: `send` appends a structured event to `trace`, and `log` is left out. The texts of most messages are kept as their interpolated values, not as rendered strings.
- The contents of the `inventory`, `position`, `players` and `survey` replies (`commands/info.js`) are library readings. Each is one `Report` event; `status` carries the lane's busy flag and queue length.
- The `chat` and `whisper` commands (`commands/chat.js`) are two pass-throughs to the bot; only their acks are modelled.
- The `health`, `player_joined` and `player_left` events are pass-throughs of library readings and are not modelled; neither is the pathfinder set-up on the first spawn.
- `bot.quit()`, `bot.clearControlStates()`, `bot.pathfinder.stop()`, `bot.stopDigging()`, `setGoal`, `look`, `setControlState` and the other library calls whose arguments the bridge does not compute are not recorded in `calls`.
- Promise microtask ordering: a `.then` and its `.finally` run as one step, and a `digNext` resumed after an `await` runs as one step with what follows it.
- Several `goal_reached` listeners are live at once when several handles are registered; one library event reaching each of them is modelled as separate `GoalReached` steps.
- JsValues.StringToNumber: covers the empty string, signed decimal integers and the signed infinities; decimals, exponents, hexadecimal and surrounding whitespace coerce to NaN here rather than to their values.
- JsValues.ToNumber: JSON arrays are not among the modelled values. In JavaScript `[]` and `[7]` coerce to 0 and 7, so the monolithic coordinate test, `Math.min` in the `dig_area` clamps and the `drop_item` amount would accept array-valued fields that this model cannot express.
- Coordination.Bridge.Follow: the follow distance `cmd.distance \|\| 3` and the `GoalFollow` goal go to the library and are not recorded.
- Coordination.Bridge.Craft: the count passed to `recipesFor` and `craft` is kept only in the ack.
- Coordination.Bridge.End: the disconnect cleanup is applied after `scheduleReconnect` rather than before it. The two write disjoint state and the cleanup sends nothing, so the final state and trace are the same.
- Coordination.Bridge.RunNext: `actionBusy` is cleared and set again within one step; the model keeps it set, since a non-empty queue means a busy lane.
- Coordination.Bridge.DigArea: in the monolithic bridge a string anchor coordinate is joined with the loop offsets as text (see Findings); the model builds the numeric target list `AreaTargets` for both bridges, and a string anchor with a non-integer height is not modelled even as written.
- Coordination.Bridge.Place: the placement request records the intended face vector `FaceVector`; for a face string naming an `Object.prototype` member the source passes the inherited member instead (see Findings).
- Coordination.Bridge.DigArea: the contract states the start ack, the reset flag and a walk with nothing to dig; what a first step that digs or approaches does is stated by `DigNext`, which it calls.
- Coordination.Bridge.StartWalk: likewise leaves a first step that digs or approaches to `DigNext`.
- Coordination.Bridge.GoalReached: the `find_and_dig` and `dig_area` callbacks are stated by `DigTarget` and `DigStep`, not repeated here.
- Coordination.Bridge.Reached: likewise states only the `move` and `goto` callbacks.
- Coordination.Bridge.Settle: a `dig_area` dig and a `drop_all` toss with items left are stated by `AfterDig` and `DropNext`, not repeated here.
- Coordination.Bridge.Resume: likewise.
- Coordination.Bridge.AfterDig: states whether the progress ack is sent and, when the next cursor sees the cancel flag, the cancellation; the later steps are stated by `DigNext`.
- Coordination.Bridge.Execute: states what every command shares; what each case does is stated by the handler method named in the switch.
- Coordination.Bridge.RunMotion, Coordination.Bridge.RunWorld, Coordination.Bridge.RunInventory: they state only that the lane invariant is kept; the effects of each case are stated by its handler.
- Coordination.Bridge.RunExclusive: states the default case in full and, for the named cases, only the lane invariant; their effects are stated by their handlers.
- Coordination.Bridge.Line: the "Bot not connected yet" branch cannot be reached here, because the bot exists from bootstrap on and is never cleared.
- Coordination.Bridge.ReconnectTimerFires: a successful `createBot` only marks the bot as present; the new session's events are further calls of the event methods.
- TimeoutRace.Race: the class models one `withTimeout` call on its own; the bridge uses the function `TimeoutRace.Settle` for the outcome of its outstanding promises, which `RaceAgreesWithSettle` proves equal to the class's outcome.
- The earliest bridge (`mc_fun/priv/mineflayer/bridge.js`) has no queue and no reconnection, and the browser UI (`apps/mc_fun_web`) is not part of the bridge: neither is part of this model.

## Findings

| source | as written | input that shows it | evidently intended | confidence | as-written member | corrected member |
|---|---|---|---|---|---|---|
| apps/bot_farmer/priv/mineflayer/commands/world.js:69 | `faceVectors[face] \|\| faceVectors.top` indexes a plain object, so a face string naming an inherited `Object.prototype` member finds that member, which is truthy, and passes it to `placeBlock` | `{"action":"place","x":0,"y":64,"z":0,"face":"toString"}` | an unknown face string falls back to the `top` vector | not executed | Commands.FaceLookupAsWritten, Commands.FaceLookupPrototypeLeak | Commands.FaceVector, used by Coordination.Bridge.Place |
| apps/mc_fun/priv/mineflayer/bridge.js:752 | `blocks.push({ x: ax + dx, y: ay + dy, z: az + dz })` after a `validCoords` that admits digit strings, so a string anchor is joined with the offsets as text | `{"action":"dig_area","x":"5","y":64,"z":0}` targets x "50" to "54", read as 50 to 54, instead of 5 to 9 | the anchor plus the offsets as numbers, as the modular bridge guarantees by admitting only numbers | not executed | JsValues.PlusOffset, Commands.LegacyStringAnchorJoinsText | Commands.AreaTargetsShape (about Commands.AreaTargets, used by Coordination.Bridge.DigArea) |
