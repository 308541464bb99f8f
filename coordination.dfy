/**
 * The action-coordination layer of the bot bridge: the single-flight lane of
 * exclusive actions with its FIFO queue, goal-wait handles and their
 * registry, the outstanding library promises, the fallback movement timer,
 * the `dig_area` walk, disconnect cleanup and the reconnection controller.
 *
 * Every JavaScript event handler is one method of `Bridge` that runs to
 * completion; the environment may call them in any order. `legacy` selects
 * the behaviour of the monolithic bridge where it differs.
 *
 * Ghost bookkeeping: `epoch` counts `clearQueue` calls; every continuation
 * (goal handle, pending promise, movement timer) is tagged with the epoch in
 * which it was created. `owner` names the one continuation of the current
 * epoch that will call `done`, or `OParked` for `follow`. The flag
 * `corrupted` records that a continuation of an earlier epoch called `done`
 * while the lane was busy; `clearQueue` resets it.
 */
module Coordination {
  import opened JsValues
  import opened Commands
  import opened Game
  import opened Outbound
  import TimeoutRace
  import Reconnect

  /** A line read from standard input. */
  datatype Input = Malformed(text: string) | Parsed(value: JsValue)

  /** How the process ended. */
  datatype Halt = Exited(code: int) | Crashed

  /** What a goal handle does when its goal is reached. */
  datatype GoalCont =
    | KMoveDone(x: JsValue, y: JsValue, z: JsValue)     // move: `move_done`, then done
    | KGotoDone(x: JsValue, y: JsValue, z: JsValue)     // goto: `goto_done`, then done
    | KFindDig(blockType: JsValue, pos: Pos)            // find_and_dig: `digTarget`
    | KWalkApproach(blocks: seq<Pos>, idx: nat)         // dig_area: resume the walk at the dig step

  /** A handle of `onGoalReached`: its continuation, deadline and write-once `resolved` flag. */
  datatype Goal = Goal(cont: GoalCont, ms: nat, resolved: bool, ghost epoch: nat)

  /** The deadline and label of a `withTimeout` race. */
  datatype Deadline = Deadline(opLabel: string, ms: nat)

  /** What runs when an outstanding library promise settles. */
  datatype SettleCont =
    | SReport(action: string, onOk: seq<Event>)        // `.then` sends `onOk`, `.catch` an error; `.finally` calls done
    | SFindDig(blockType: JsValue, pos: Pos)            // find_and_dig's dig
    | SWalkDig(blocks: seq<Pos>, idx: nat)              // dig_area's dig: a failure is only logged
    | SDropAll(dropped: nat)                            // one `tossStack` of drop_all

  /** An outstanding promise, raced against a deadline or not. */
  datatype Settling = Settling(cont: SettleCont, deadline: Option<Deadline>, ghost epoch: nat)

  /** The fallback `movementTimer`; a move or goto timer calls done, a follow timer does not. */
  datatype MoveTimer = MoveTimer(callsDone: bool, ms: nat, ghost epoch: nat)

  /** Who holds the lane. */
  datatype Obligation = OGoal(h: nat) | OSettle(s: nat) | OTimer | OParked

  /** No handle occurs twice. */
  predicate NoDup(s: seq<nat>)
    decreases |s|
  {
    s == [] || (s[0] !in s[1..] && NoDup(s[1..]))
  }

  /** Registering a handle not yet present keeps the registry duplicate-free. */
  lemma {:induction false} NoDupAppend(s: seq<nat>, x: nat)
    requires NoDup(s) && x !in s
    ensures NoDup(s + [x])
    decreases |s|
  {
    if s != [] {
      assert (s + [x])[1..] == s[1..] + [x];
      NoDupAppend(s[1..], x);
    }
  }

  /** Splicing one entry out of a duplicate-free registry removes exactly that entry. */
  lemma {:induction false} NoDupRemove(s: seq<nat>, idx: nat)
    requires NoDup(s) && idx < |s|
    ensures NoDup(s[..idx] + s[idx + 1..])
    ensures forall x :: x in s[..idx] + s[idx + 1..] <==> x in s && x != s[idx]
    decreases |s|
  {
    if idx == 0 {
      assert s[..0] + s[1..] == s[1..];
      assert s == [s[0]] + s[1..];
    } else {
      var t := s[1..];
      NoDupRemove(t, idx - 1);
      assert s[..idx] + s[idx + 1..] == [s[0]] + (t[..idx - 1] + t[idx..]);
      assert s == [s[0]] + t;
      assert s[idx] == t[idx - 1] && s[idx] in t;
    }
  }

  ghost predicate ContOk(c: GoalCont) {
    c.KWalkApproach? ==> c.idx < |c.blocks|
  }

  ghost predicate SettleContOk(c: SettleCont) {
    c.SWalkDig? ==> c.idx < |c.blocks|
  }

  /*
   * The invariants of the action lane, stated over the values of the
   * bridge's fields (the class predicates below apply them to the fields).
   */

  /**
   * The structural invariant: the registry lists exactly the unresolved
   * handles, once each; ids are below the next id; epochs are not in the
   * future; only a busy lane has a queue, and the queue holds no sync
   * command.
   */
  ghost predicate LaneBase(registry: seq<nat>, goals: map<nat, Goal>, nextId: nat, epoch: nat,
                           settles: map<nat, Settling>, timer: Option<MoveTimer>, pending: seq<JsValue>, busy: bool)
  {
    (forall i :: 0 <= i < |registry| ==> registry[i] in goals && !goals[registry[i]].resolved) &&
    (forall h :: h in goals && !goals[h].resolved ==> h in registry) &&
    NoDup(registry) &&
    (forall h :: h in goals ==> h < nextId && goals[h].epoch <= epoch && ContOk(goals[h].cont)) &&
    (forall s :: s in settles ==> s < nextId && settles[s].epoch <= epoch && SettleContOk(settles[s].cont)) &&
    (timer.Some? ==> timer.value.epoch <= epoch) &&
    (pending != [] ==> busy) &&
    AllExclusive(pending)
  }

  /** The movement timer is armed, calls `done`, and belongs to the current epoch. */
  ghost predicate TimerCurrent(timer: Option<MoveTimer>, epoch: nat) {
    timer.Some? && timer.value.callsDone && timer.value.epoch == epoch
  }

  /** No continuation of the current epoch is outstanding. */
  ghost predicate NoLiveWork(goals: map<nat, Goal>, settles: map<nat, Settling>, timer: Option<MoveTimer>, epoch: nat) {
    (forall h :: h in goals && !goals[h].resolved ==> goals[h].epoch < epoch) &&
    (forall s :: s in settles ==> settles[s].epoch < epoch) &&
    !TimerCurrent(timer, epoch)
  }

  /**
   * The lane is busy exactly when someone holds it, the holder is a live
   * continuation of the current epoch (or a parked `follow`), and every
   * live continuation of the current epoch is the holder.
   */
  ghost predicate OwnedBy(busy: bool, owner: Option<Obligation>, goals: map<nat, Goal>,
                          settles: map<nat, Settling>, timer: Option<MoveTimer>, epoch: nat)
  {
    (busy <==> owner.Some?) &&
    (forall h :: h in goals && !goals[h].resolved && goals[h].epoch == epoch ==> owner == Some(OGoal(h))) &&
    (forall s :: s in settles && settles[s].epoch == epoch ==> owner == Some(OSettle(s))) &&
    (TimerCurrent(timer, epoch) ==> owner == Some(OTimer)) &&
    (owner.Some? && owner.value.OGoal? ==>
      owner.value.h in goals && !goals[owner.value.h].resolved && goals[owner.value.h].epoch == epoch) &&
    (owner.Some? && owner.value.OSettle? ==>
      owner.value.s in settles && settles[owner.value.s].epoch == epoch) &&
    (owner == Some(OTimer) ==> TimerCurrent(timer, epoch))
  }

  /** The index `indexOf` returns, or -1. */
  function IndexOf(s: seq<nat>, x: nat): (i: int)
    ensures -1 <= i < |s|
    ensures i >= 0 ==> s[i] == x && x !in s[..i]
    ensures i < 0 ==> x !in s
  {
    if s == [] then -1
    else if s[0] == x then 0
    else
      var k := IndexOf(s[1..], x);
      if k < 0 then -1
      else
        assert s[..k + 1] == [s[0]] + s[1..][..k];
        k + 1
  }

  /** The reply of a sync command other than `stop` and `quit`. */
  function SyncReply(h: Handler, busy: bool, queueLength: nat): Event
    requires SyncHandler(h) && h != HStop && h != HQuit
  {
    match h
    case HChat => Ack("chat", NoDetail)
    case HWhisper => Ack("whisper", NoDetail)
    case HLook => Ack("look", NoDetail)
    case HJump => Ack("jump", NoDetail)
    case HSneak => Ack("sneak", NoDetail)
    case HInventory => Report("inventory")
    case HPosition => Report("position")
    case HPlayers => Report("players")
    case HSurvey => Report("survey")
    case HStatus => Status(busy, queueLength)
  }

  /** `ev` is a `dig_area` progress ack reporting at most `idx` blocks. */
  predicate ProgressAtMost(ev: Event, idx: nat) {
    ev.Ack? && ev.action == "dig_area" && ev.detail.AreaProgress? && ev.detail.reached <= idx
  }

  /** No queued command is a sync one: only exclusive commands are ever queued. */
  predicate AllExclusive(q: seq<JsValue>) {
    q == [] || (!IsSync(q[0]) && AllExclusive(q[1..]))
  }

  lemma {:induction false} AllExclusiveAppend(q: seq<JsValue>, cmd: JsValue)
    requires AllExclusive(q) && !IsSync(cmd)
    ensures AllExclusive(q + [cmd])
  {
    if q != [] {
      AllExclusiveAppend(q[1..], cmd);
      assert (q + [cmd])[1..] == q[1..] + [cmd];
    }
  }

  class Bridge {
    /** The monolithic bridge rather than the modular one. */
    const legacy: bool
    /** `bot.username`. */
    const selfName: string

    // action_queue.js
    var busy: bool
    var pending: seq<JsValue>
    var goals: map<nat, Goal>
    var registry: seq<nat>          // `activeCleanups`, in registration order
    var nextId: nat
    // outstanding library promises
    var settles: map<nat, Settling>
    // movement.js
    var movementTimer: Option<MoveTimer>
    var digCancelled: bool
    // bridge.js
    var attempts: nat
    var reconnecting: bool
    var reconnectTimers: nat        // armed reconnect timers
    var hasBot: bool
    var halted: Option<Halt>
    // what the bridge has sent and requested
    var trace: seq<Event>
    var calls: seq<Call>

    ghost var epoch: nat
    ghost var owner: Option<Obligation>
    ghost var corrupted: bool
    ghost var started: seq<JsValue>  // every command `executeCommand` has been called with

    // -------------------------------------------------------------------
    // Invariants
    // -------------------------------------------------------------------

    /** The structural invariant, kept whatever stale continuations do. */
    ghost predicate Base()
      reads this`registry, this`goals, this`nextId, this`epoch,
        this`settles, this`movementTimer, this`pending, this`busy
    {
      LaneBase(registry, goals, nextId, epoch, settles, movementTimer, pending, busy)
    }

    ghost predicate CurrentTimer()
      reads this`movementTimer, this`epoch
    {
      TimerCurrent(movementTimer, epoch)
    }

    /** No continuation of the current epoch is outstanding. */
    ghost predicate NoCurrentWork()
      reads this`goals, this`settles, this`epoch, this`movementTimer
    {
      NoLiveWork(goals, settles, movementTimer, epoch)
    }

    ghost predicate LaneOwned()
      reads this`busy, this`owner, this`goals, this`epoch, this`settles, this`movementTimer
    {
      OwnedBy(busy, owner, goals, settles, movementTimer, epoch)
    }

    ghost predicate Valid()
      reads this`registry, this`goals, this`nextId, this`epoch, this`settles,
        this`movementTimer, this`pending, this`busy, this`owner, this`corrupted
    {
      LaneBase(registry, goals, nextId, epoch, settles, movementTimer, pending, busy) &&
      (!corrupted ==> OwnedBy(busy, owner, goals, settles, movementTimer, epoch))
    }

    /**
     * A continuation of epoch `e` may go on: for the current epoch the lane
     * is granted to it (busy, unowned, nothing else outstanding).
     */
    ghost predicate Ready(e: nat)
      reads this`registry, this`goals, this`nextId, this`epoch, this`settles,
        this`movementTimer, this`pending, this`busy, this`owner, this`corrupted
    {
      LaneBase(registry, goals, nextId, epoch, settles, movementTimer, pending, busy) && e <= epoch &&
      (!corrupted ==>
        if e == epoch then busy && owner.None? && NoLiveWork(goals, settles, movementTimer, epoch)
        else OwnedBy(busy, owner, goals, settles, movementTimer, epoch))
    }

    /**
     * The lane moved forward along the queue only: what was started since is
     * a prefix of the old queue, in order, and the rest is still queued.
     */
    twostate predicate Forward()
      reads this`pending, this`started
    {
      |pending| <= |old(pending)| && started + pending == old(started) + old(pending)
    }

    /** `done` ran: the lane went idle, or to the next queued command. */
    twostate predicate Released()
      reads this`pending, this`busy
    {
      (old(pending) == [] ==> !busy) && (old(pending) != [] ==> |pending| < |old(pending)|)
    }

    /** The lane stays with the running action: nothing dequeued. */
    twostate predicate Holds()
      reads this`busy, this`pending, this`started
    {
      busy == old(busy) && pending == old(pending) && started == old(started)
    }

    /** An action outside the switch is answered with an error and releases the lane. */
    twostate predicate ReportsUnknown(cmd: JsValue)
      reads this`trace, this`pending, this`busy
    {
      HandlerOf(cmd) == HUnknown ==> Released() && old(trace) + [Error(None, UnknownAction(ActionOf(cmd)))] <= trace
    }

    /** A resolved handle stays resolved. */
    twostate predicate ResolvedStay()
      reads this`goals
    {
      forall h :: h in old(goals) && old(goals)[h].resolved ==> h in goals && goals[h].resolved
    }

    /** The reconnection state and the bot slot, which no action touches, are as they were. */
    twostate predicate ReconnectKept()
      reads this`attempts, this`reconnecting, this`reconnectTimers, this`hasBot
    {
      attempts == old(attempts) && reconnecting == old(reconnecting) &&
      reconnectTimers == old(reconnectTimers) && hasBot == old(hasBot)
    }

    /** What every step of a synchronous run guarantees. */
    twostate predicate Chained()
      reads this`registry, this`goals, this`nextId, this`epoch, this`settles, this`movementTimer, this`pending, this`busy, this`owner, this`corrupted,
        this`halted, this`started, this`trace, this`calls, this`attempts, this`reconnecting, this`reconnectTimers, this`hasBot
    {
      Valid() && halted == old(halted) && epoch == old(epoch) && Forward() && ResolvedStay() &&
      old(trace) <= trace && old(calls) <= calls && ReconnectKept()
    }

    /**
     * The first event sent since the old state, if there is one, is not a
     * `dig_area` progress ack reporting `idx` blocks or fewer.
     */
    twostate predicate NoProgressUpTo(idx: nat)
      reads this`trace
    {
      |trace| > |old(trace)| ==> !ProgressAtMost(trace[|old(trace)|], idx)
    }

    /** A new goal handle `old(nextId)` was registered for epoch `e`. */
    twostate predicate NewGoal(c: GoalCont, ms: nat, e: nat)
      reads this`goals, this`registry, this`nextId, this`settles, this`movementTimer, this`digCancelled
    {
      goals == old(goals)[old(nextId) := Goal(c, ms, false, e)] &&
      registry == old(registry) + [old(nextId)] && nextId == old(nextId) + 1 &&
      settles == old(settles) && movementTimer == old(movementTimer) && digCancelled == old(digCancelled)
    }

    /** A new outstanding promise `old(nextId)` was recorded for epoch `e`. */
    twostate predicate NewSettle(c: SettleCont, d: Option<Deadline>, e: nat)
      reads this`settles, this`nextId, this`goals, this`registry, this`movementTimer, this`digCancelled
    {
      settles == old(settles)[old(nextId) := Settling(c, d, e)] && nextId == old(nextId) + 1 &&
      goals == old(goals) && registry == old(registry) &&
      movementTimer == old(movementTimer) && digCancelled == old(digCancelled)
    }

    /** The case of the `executeCommand` switch that `cmd.action` selects. */
    function HandlerOf(cmd: JsValue): Handler {
      HandlerFor(ActionOf(cmd), legacy)
    }

    /** `validCoords` of the variant. */
    function CoordsOk(x: JsValue, y: JsValue, z: JsValue): bool {
      if legacy then LegacyValidCoords(x, y, z) else ValidCoords(x, y, z)
    }

    /** The block position `new Vec3(x, y, z)` of validated coordinates. */
    function PosOf(x: JsValue, y: JsValue, z: JsValue): Pos
      requires CoordsOk(x, y, z)
    {
      StrictCoordsAdmittedByLegacy(x, y, z);
      Pos(CoordValue(x), CoordValue(y), CoordValue(z))
    }

    // -------------------------------------------------------------------
    // Bootstrap
    // -------------------------------------------------------------------

    /** The process after its bootstrap `createBot()`: idle lane, nothing registered. */
    constructor (legacy: bool, selfName: string)
      ensures Valid() && this.legacy == legacy && this.selfName == selfName
      ensures !busy && pending == [] && goals == map[] && registry == [] && settles == map[]
      ensures movementTimer == None && !digCancelled
      ensures attempts == 0 && !reconnecting && reconnectTimers == 0 && hasBot && halted == None
      ensures trace == [] && calls == [] && !corrupted
    {
      this.legacy := legacy;
      this.selfName := selfName;
      busy := false;
      pending := [];
      goals := map[];
      registry := [];
      nextId := 0;
      settles := map[];
      movementTimer := None;
      digCancelled := false;
      attempts := 0;
      reconnecting := false;
      reconnectTimers := 0;
      hasBot := true;
      halted := None;
      trace := [];
      calls := [];
      epoch := 0;
      owner := None;
      corrupted := false;
      started := [];
    }

    // -------------------------------------------------------------------
    // action_queue.js
    // -------------------------------------------------------------------

    /** `clearQueue`: the queue is emptied and the lane freed; every outstanding continuation becomes stale. */
    method ClearQueue()
      requires Base()
      modifies this`pending, this`busy, this`epoch, this`owner, this`corrupted
      ensures Valid()
      ensures pending == [] && !busy
      ensures epoch == old(epoch) + 1 && owner == None && !corrupted
    {
      pending := [];
      busy := false;
      epoch := epoch + 1;
      owner := None;
      corrupted := false;
    }

    /**
     * The `cleanup` closure of handle `h`: the first call marks it resolved,
     * unsubscribes, clears its timer and splices it out of the registry;
     * later calls do nothing.
     */
    method Cleanup(h: nat)
      requires Base() && h in goals
      modifies this`goals, this`registry
      ensures Base()
      ensures old(goals[h].resolved) ==> goals == old(goals) && registry == old(registry)
      ensures !old(goals[h].resolved) ==> goals == old(goals)[h := old(goals[h]).(resolved := true)]
      ensures !old(goals[h].resolved) ==>
        registry == old(registry)[..IndexOf(old(registry), h)] + old(registry)[IndexOf(old(registry), h) + 1..]
      ensures h !in registry
    {
      if goals[h].resolved {
        return;
      }
      goals := goals[h := goals[h].(resolved := true)];
      var idx := IndexOf(registry, h);
      if idx != -1 {
        registry := registry[..idx] + registry[idx + 1..];
        NoDupRemove(old(registry), idx);
      }
    }

    /**
     * `cleanupAllGoals`: every handle in a snapshot of the registry is
     * cleaned up, in order, and the registry emptied. No callback runs.
     */
    method CleanupAllGoals()
      requires Base()
      modifies this`goals, this`registry
      ensures Base() && registry == []
      ensures goals.Keys == old(goals).Keys
      ensures forall h :: h in goals ==> goals[h].resolved
      ensures forall h :: h in goals ==> goals[h] == old(goals[h]).(resolved := true)
    {
      var snapshot := registry;
      for i := 0 to |snapshot|
        invariant Base()
        invariant registry == snapshot[i..]
        invariant goals.Keys == old(goals).Keys
        invariant forall h :: h in goals ==> goals[h] == old(goals[h]) || goals[h] == old(goals[h]).(resolved := true)
        invariant forall h :: h in goals && !goals[h].resolved ==> goals[h] == old(goals[h])
      {
        assert IndexOf(registry, snapshot[i]) == 0;
        Cleanup(snapshot[i]);
        assert registry == snapshot[i + 1..];
      }
      registry := [];
    }

    /** Registering a goal handle of epoch `e` (`onGoalReached`); in the current epoch it takes the lane. */
    method StartGoal(c: GoalCont, ms: nat, ghost e: nat)
      requires Ready(e) && ContOk(c)
      modifies this`goals, this`registry, this`nextId, this`owner
      ensures Valid() && NewGoal(c, ms, e)
      ensures owner == if e == epoch then Some(OGoal(old(nextId))) else old(owner)
    {
      assert old(nextId) !in registry;
      NoDupAppend(registry, nextId);
      goals := goals[nextId := Goal(c, ms, false, e)];
      registry := registry + [nextId];
      if e == epoch {
        owner := Some(OGoal(nextId));
      }
      nextId := nextId + 1;
    }

    /**
     * Starting a promise of epoch `e`: the library requests `issued` are
     * made and the promise is recorded; in the current epoch it takes the lane.
     */
    method StartSettle(issued: seq<Call>, c: SettleCont, d: Option<Deadline>, ghost e: nat)
      requires Ready(e) && SettleContOk(c)
      modifies this`calls, this`settles, this`nextId, this`owner
      ensures Valid() && NewSettle(c, d, e) && calls == old(calls) + issued
      ensures owner == if e == epoch then Some(OSettle(old(nextId))) else old(owner)
    {
      calls := calls + issued;
      settles := settles[nextId := Settling(c, d, e)];
      if e == epoch {
        owner := Some(OSettle(nextId));
      }
      nextId := nextId + 1;
    }

    /**
     * Arming the fallback movement timer, clearing the previous one
     * (`if (movementTimer) clearTimeout(movementTimer)`).
     */
    method StartTimer(callsDone: bool, ms: nat)
      requires Ready(epoch)
      modifies this`movementTimer, this`owner
      ensures movementTimer == Some(MoveTimer(callsDone, ms, epoch))
      ensures callsDone ==> Valid() && owner == Some(OTimer)
      ensures !callsDone ==> Ready(epoch) && owner == old(owner)
    {
      movementTimer := Some(MoveTimer(callsDone, ms, epoch));
      if callsDone {
        owner := Some(OTimer);
      }
    }

    /**
     * The continuation of live handle `h` is about to run: the handle is
     * cleaned up and, in the current epoch, hands the lane to it.
     */
    method TakeGoal(h: nat)
      requires Valid() && h in goals && !goals[h].resolved
      modifies this`goals, this`registry, this`owner
      ensures Ready(old(goals[h].epoch))
      ensures goals == old(goals)[h := old(goals[h]).(resolved := true)] && h !in registry
      ensures old(goals[h].epoch) < epoch ==> owner == old(owner)
    {
      Cleanup(h);
      if goals[h].epoch == epoch {
        owner := None;
      }
    }

    /**
     * The continuation of outstanding promise `id` is about to run: the
     * promise is forgotten and, in the current epoch, hands the lane to it.
     */
    method TakeSettle(id: nat)
      requires Valid() && id in settles
      modifies this`settles, this`owner
      ensures Ready(old(settles[id].epoch))
      ensures settles == old(settles) - {id}
      ensures old(settles[id].epoch) < epoch ==> owner == old(owner)
    {
      var e := settles[id].epoch;
      settles := settles - {id};
      if e == epoch {
        owner := None;
      }
    }

    /**
     * `actionDone` as called by a continuation of epoch `e`: the lane is
     * freed and, when a command is queued, the head is dequeued, the lane
     * taken again and the command executed.
     */
    method Done(ghost e: nat, w: World)
      requires Ready(e) && halted.None?
      modifies this
      decreases |pending|, 0
      ensures Chained() && Released()
      ensures corrupted == (old(corrupted) || (e < epoch && old(busy)))
      ensures old(pending) == [] ==> trace == old(trace) && calls == old(calls) && started == old(started)
    {
      if |pending| > 0 {
        RunNext(e, w);
      } else {
        corrupted := corrupted || (e < epoch && busy);
        busy := false;
      }
    }

    /** `actionDone` with a queued command: the lane is released, retaken, and the head of the queue runs. */
    method RunNext(ghost e: nat, w: World)
      requires Ready(e) && halted.None? && pending != []
      modifies this
      decreases |pending|, 0, 0
      ensures Chained() && Released()
      ensures corrupted == (old(corrupted) || (e < epoch && old(busy)))
    {
      // `actionBusy` is cleared and at once set again: a non-empty queue means a busy lane, so it stays set
      var next := Dequeue(e);
      Execute(next, w);
    }

    /** `actionQueue.shift()` by a continuation of epoch `e`: the lane passes to the head of the queue. */
    method Dequeue(ghost e: nat) returns (next: JsValue)
      requires Ready(e) && pending != []
      modifies this`corrupted, this`pending
      ensures old(pending) == [next] + pending && !IsSync(next)
      ensures old(started) + old(pending) == started + [next] + pending
      ensures corrupted == (old(corrupted) || (e < epoch && busy))
      ensures Ready(epoch)
    {
      next := pending[0];
      assert pending == [next] + pending[1..] && !IsSync(next) && AllExclusive(pending[1..]);
      corrupted, pending := corrupted || (e < epoch && busy), pending[1..];
    }

    /** Sending `evs` and then calling `done`: the common ending of a handler path. */
    method Finish(evs: seq<Event>, ghost e: nat, w: World)
      requires Ready(e) && halted.None?
      modifies this
      decreases |pending|, 1
      ensures Chained() && Released()
      ensures corrupted == (old(corrupted) || (e < epoch && old(busy)))
      ensures old(trace) + evs <= trace
      ensures old(pending) == [] ==> trace == old(trace) + evs && calls == old(calls)
    {
      trace := trace + evs;
      Done(e, w);
    }

    /**
     * `processCommand`: a sync command runs at once whatever the lane; an
     * exclusive one is queued behind a busy lane, or takes the idle lane and
     * runs.
     */
    method ProcessCommand(cmd: JsValue, w: World)
      requires Valid() && halted.None?
      modifies this
      ensures ReconnectKept()
      ensures Valid()
      ensures IsSync(cmd) ==> started == old(started) + [cmd]
      ensures IsSync(cmd) && HandlerOf(cmd) != HStop && HandlerOf(cmd) != HQuit ==>
        busy == old(busy) && pending == old(pending)
      ensures !IsSync(cmd) && old(busy) ==>
        pending == old(pending) + [cmd] && busy && started == old(started) &&
        trace == old(trace) + [Queued(ActionOf(cmd), |pending|)]
      ensures !IsSync(cmd) && !old(busy) ==> started == old(started) + [cmd] && pending == []
      ensures !IsSync(cmd) ==> halted == old(halted) && corrupted == old(corrupted)
    {
      if IsSync(cmd) {
        Execute(cmd, w);
      } else if busy {
        AllExclusiveAppend(pending, cmd);
        pending := pending + [cmd];
        trace := trace + [Queued(ActionOf(cmd), |pending|)];
      } else {
        busy := true;
        Execute(cmd, w);
        assert pending == [] && started + pending == started;
      }
    }

    // -------------------------------------------------------------------
    // bridge.js: dispatch
    // -------------------------------------------------------------------

    /**
     * `executeCommand`: the switch on `cmd.action`. Exclusive handlers
     * receive the lane and hand it on through `done`; the default case
     * reports an unknown action and calls `done`.
     */
    method Execute(cmd: JsValue, w: World)
      requires Base() && halted.None?
      requires IsSync(cmd) ==> Valid()
      requires !IsSync(cmd) ==> Ready(epoch)
      modifies this
      decreases |pending|, 7
      ensures Valid() && ReportsUnknown(cmd) && ReconnectKept()
      ensures IsSync(cmd) ==> SyncRan(cmd)
      ensures !IsSync(cmd) ==> ExclusiveRan(cmd)
    {
      SyncSetMatchesTable(cmd, legacy);
      if IsSync(cmd) {
        ExecuteSync(cmd);
      } else {
        ExecuteExclusive(cmd, w);
      }
    }

    /**
     * A sync command ran: it was recorded as started and, unless it is
     * `stop` or `quit`, left the lane alone.
     */
    twostate predicate SyncRan(cmd: JsValue)
      reads this`started, this`busy, this`pending
    {
      started == old(started) + [cmd] &&
      (HandlerOf(cmd) != HStop && HandlerOf(cmd) != HQuit ==> busy == old(busy) && pending == old(pending))
    }

    /**
     * An exclusive command ran on the lane: it was recorded as started after
     * what was started before, the queue only moved forward, the epoch, the
     * exit state and the reconnection state are unchanged, and the trace and
     * the library requests only grew.
     */
    twostate predicate ExclusiveRan(cmd: JsValue)
      reads this`halted, this`epoch, this`corrupted, this`goals, this`trace, this`calls, this`pending, this`started,
        this`attempts, this`reconnecting, this`reconnectTimers, this`hasBot
    {
      halted == old(halted) && epoch == old(epoch) && corrupted == old(corrupted) && ResolvedStay() &&
      old(trace) <= trace && old(calls) <= calls &&
      |pending| <= |old(pending)| && started + pending == old(started) + [cmd] + old(pending) && ReconnectKept()
    }

    /** `executeCommand` on a sync command: recorded as started, then its case runs. */
    method ExecuteSync(cmd: JsValue)
      requires Valid() && halted.None? && SyncHandler(HandlerOf(cmd))
      modifies this`goals, this`registry, this`digCancelled, this`pending, this`busy,
        this`epoch, this`owner, this`corrupted, this`trace, this`halted, this`started
      ensures Valid() && SyncRan(cmd)
    {
      started := started + [cmd];
      RunSync(HandlerOf(cmd));
    }

    /** `executeCommand` on an exclusive command: recorded as started, then its case runs on the lane. */
    method ExecuteExclusive(cmd: JsValue, w: World)
      requires Ready(epoch) && halted.None? && !SyncHandler(HandlerOf(cmd))
      modifies this
      decreases |pending|, 6, 1
      ensures Valid() && ReportsUnknown(cmd) && ExclusiveRan(cmd)
    {
      started := started + [cmd];
      RunExclusive(cmd, HandlerOf(cmd), w);
    }

    /** The sync cases of the switch: they run whatever the state of the lane. */
    method RunSync(h: Handler)
      requires Valid() && halted.None? && SyncHandler(h)
      modifies this`goals, this`registry, this`digCancelled, this`pending, this`busy,
        this`epoch, this`owner, this`corrupted, this`trace, this`halted
      ensures Valid()
      ensures h != HStop && h != HQuit ==>
        trace == old(trace) + [SyncReply(h, busy, |pending|)] && busy == old(busy) && pending == old(pending)
    {
      match h
      case HChat | HWhisper | HLook | HJump | HSneak | HInventory | HPosition | HPlayers | HStatus | HSurvey =>
        Reply(h);
      case HStop => Stop();
      case HQuit =>
        // bot.quit(); process.exit(0)
        halted := Some(Exited(0));
    }

    /** The exclusive cases of the switch, which hold the lane; the default case reports and calls done. */
    method RunExclusive(cmd: JsValue, h: Handler, w: World)
      requires Ready(epoch) && halted.None? && !SyncHandler(h)
      modifies this
      decreases |pending|, 6, 0
      ensures Chained() && corrupted == old(corrupted) && ReconnectKept()
      ensures h == HUnknown ==> Released() && old(trace) + [Error(None, UnknownAction(ActionOf(cmd)))] <= trace
    {
      match h
      case HMove | HGoto | HFollow | HAttack => RunMotion(cmd, h, w);
      case HDig | HDigLookingAt | HDigArea | HFindAndDig | HPlace | HActivateBlock => RunWorld(cmd, h, w);
      case HUnknown => Finish([Error(None, UnknownAction(ActionOf(cmd)))], epoch, w);
      case HEquip | HCraft | HDrop | HDropItem | HDropAll | HUseItem | HDeactivateItem | HSleep | HWake =>
        RunInventory(cmd, h, w);
    }

    /** The cases of the switch that `movement.js` and `combat.js` implement. */
    method RunMotion(cmd: JsValue, h: Handler, w: World)
      requires Ready(epoch) && halted.None?
      requires h.HMove? || h.HGoto? || h.HFollow? || h.HAttack?
      modifies this
      decreases |pending|, 5
      ensures Chained() && corrupted == old(corrupted)
    {
      match h
      case HMove => Move(cmd, w);
      case HGoto => Goto(cmd, w);
      case HFollow => Follow(cmd, w);
      case HAttack => Attack(w);
    }

    /** The cases of the switch that `inventory.js` implements. */
    method RunInventory(cmd: JsValue, h: Handler, w: World)
      requires Ready(epoch) && halted.None?
      requires h.HEquip? || h.HCraft? || h.HDrop? || h.HDropItem? || h.HDropAll? || h.HUseItem? ||
        h.HDeactivateItem? || h.HSleep? || h.HWake?
      modifies this
      decreases |pending|, 5
      ensures Chained() && corrupted == old(corrupted)
    {
      match h
      case HEquip => Equip(cmd, w);
      case HCraft => Craft(cmd, w);
      case HDrop => Drop(w);
      case HDropItem => DropItem(cmd, w);
      case HDropAll => DropAll(w);
      case HUseItem => DirectCall("use_item", w);
      case HDeactivateItem => DirectCall("deactivate_item", w);
      case HSleep => Sleep(w);
      case HWake => DirectCall("wake", w);
    }

    /** The cases of the switch that `commands/world.js` implements. */
    method RunWorld(cmd: JsValue, h: Handler, w: World)
      requires Ready(epoch) && halted.None?
      requires h.HDig? || h.HDigLookingAt? || h.HDigArea? || h.HFindAndDig? || h.HPlace? || h.HActivateBlock?
      modifies this
      decreases |pending|, 5
      ensures Chained() && corrupted == old(corrupted)
    {
      match h
      case HDig => Dig(cmd, w);
      case HDigLookingAt => DigLookingAt(w);
      case HDigArea => DigArea(cmd, w);
      case HFindAndDig => FindAndDig(cmd, w);
      case HPlace => Place(cmd, w);
      case HActivateBlock => ActivateBlock(cmd, w);
    }

    /** A sync query or one-shot command: one reply, nothing else changes. */
    method Reply(h: Handler)
      requires SyncHandler(h) && h != HStop && h != HQuit
      modifies this`trace
      ensures trace == old(trace) + [SyncReply(h, busy, |pending|)]
      ensures h == HStatus ==> trace[|old(trace)|] == Status(busy, |pending|)
    {
      trace := trace + [SyncReply(h, busy, |pending|)];
    }

    // -------------------------------------------------------------------
    // movement.js
    // -------------------------------------------------------------------

    /** `setDigAreaCancelled(v)`; `getDigAreaCancelled()` reads the field. */
    method SetDigAreaCancelled(v: bool)
      modifies this`digCancelled
      ensures digCancelled == v
    {
      digCancelled := v;
    }

    /**
     * The common tail of `move` and `goto_`: with a pathfinder a goal handle
     * (30 s) takes the lane; without one the bot walks forward under the
     * fallback timer of `timerMs`, which calls done. Then the ack is sent.
     */
    method HeadFor(c: GoalCont, timerMs: nat, ack: Event, w: World)
      requires Ready(epoch) && ContOk(c)
      modifies this`goals, this`registry, this`nextId, this`owner, this`movementTimer, this`trace
      ensures Chained() && Holds() && corrupted == old(corrupted) && trace == old(trace) + [ack]
      ensures w.pathfinder ==> NewGoal(c, 30000, epoch) && owner == Some(OGoal(old(nextId)))
      ensures !w.pathfinder ==> movementTimer == Some(MoveTimer(true, timerMs, epoch)) && owner == Some(OTimer)
    {
      if w.pathfinder {
        StartGoal(c, 30000, epoch);
      } else {
        StartTimer(true, timerMs);
      }
      trace := trace + [ack];
    }

    /**
     * `move`: invalid coordinates give an error and done, and no ack;
     * otherwise a `GoalBlock` handle (30 s) or the 2 s fallback timer takes
     * the lane and an ack is sent.
     */
    method Move(cmd: JsValue, w: World)
      requires Ready(epoch) && halted.None?
      modifies this
      decreases |pending|, 4
      ensures Chained() && corrupted == old(corrupted)
      ensures var x, y, z := Field(cmd, "x"), Field(cmd, "y"), Field(cmd, "z");
        (!CoordsOk(x, y, z) ==> Released() && old(trace) + [Error(Some("move"), InvalidCoordinates(x, y, z))] <= trace) &&
        (CoordsOk(x, y, z) ==> Holds() && trace == old(trace) + [Ack("move", NoDetail)]) &&
        (CoordsOk(x, y, z) && w.pathfinder ==>
          NewGoal(KMoveDone(x, y, z), 30000, epoch) && owner == Some(OGoal(old(nextId)))) &&
        (CoordsOk(x, y, z) && !w.pathfinder ==>
          movementTimer == Some(MoveTimer(true, 2000, epoch)) && owner == Some(OTimer))
    {
      var x, y, z := Field(cmd, "x"), Field(cmd, "y"), Field(cmd, "z");
      if !CoordsOk(x, y, z) {
        Finish([Error(Some("move"), InvalidCoordinates(x, y, z))], epoch, w);
        return;
      }
      HeadFor(KMoveDone(x, y, z), 2000, Ack("move", NoDetail), w);
    }

    /** Where `goto` heads: the visible target player's position, or the given coordinates. */
    function GotoPoint(cmd: JsValue, w: World): (JsValue, JsValue, JsValue) {
      var target := Field(cmd, "target");
      if Truthy(target) && w.PlayerEntity(target).Some? then
        var p := w.PlayerEntity(target).value;
        (Num(Finite(p.x)), Num(Finite(p.y)), Num(Finite(p.z)))
      else (Field(cmd, "x"), Field(cmd, "y"), Field(cmd, "z"))
    }

    /**
     * `goto_`: a target player that is not visible gives an error and done.
     * Coordinates are validated only when no target is given. Otherwise a
     * `GoalNear` handle (30 s) or the 3 s fallback timer takes the lane and
     * an ack names the target or the coordinates.
     */
    method Goto(cmd: JsValue, w: World)
      requires Ready(epoch) && halted.None?
      modifies this
      decreases |pending|, 4
      ensures Chained() && corrupted == old(corrupted)
      ensures var target := Field(cmd, "target");
        var (gx, gy, gz) := GotoPoint(cmd, w);
        var ok := if Truthy(target) then w.PlayerEntity(target).Some? else CoordsOk(gx, gy, gz);
        (Truthy(target) && !ok ==> Released() && old(trace) + [Error(Some("goto"), PlayerNotFound(target))] <= trace) &&
        (!Truthy(target) && !ok ==> Released() && old(trace) + [Error(Some("goto"), InvalidCoordinates(gx, gy, gz))] <= trace) &&
        (ok ==>
          Holds() && trace == old(trace) + [Ack("goto", if Truthy(target) then Target(target) else Coords(gx, gy, gz))]) &&
        (ok && w.pathfinder ==> NewGoal(KGotoDone(gx, gy, gz), 30000, epoch) && owner == Some(OGoal(old(nextId)))) &&
        (ok && !w.pathfinder ==> movementTimer == Some(MoveTimer(true, 3000, epoch)) && owner == Some(OTimer))
    {
      var target := Field(cmd, "target");
      var gx, gy, gz;
      if Truthy(target) {
        var player := w.PlayerEntity(target);
        if player.None? {
          Finish([Error(Some("goto"), PlayerNotFound(target))], epoch, w);
          return;
        }
        gx, gy, gz := Num(Finite(player.value.x)), Num(Finite(player.value.y)), Num(Finite(player.value.z));
      } else {
        gx, gy, gz := Field(cmd, "x"), Field(cmd, "y"), Field(cmd, "z");
      }
      if !Truthy(target) && !CoordsOk(gx, gy, gz) {
        Finish([Error(Some("goto"), InvalidCoordinates(gx, gy, gz))], epoch, w);
        return;
      }
      HeadFor(KGotoDone(gx, gy, gz), 3000, Ack("goto", if Truthy(target) then Target(target) else Coords(gx, gy, gz)), w);
    }

    /**
     * `follow`: acks a visible target (arming the 2 s fallback timer, which
     * does not call done, when there is no pathfinder) or reports it
     * missing. Either way it never calls done: the lane stays held.
     */
    method Follow(cmd: JsValue, w: World)
      requires Ready(epoch) && halted.None?
      modifies this`movementTimer, this`owner, this`trace
      ensures Valid() && Holds() && owner == Some(OParked)
      ensures var target := Field(cmd, "target");
        (w.PlayerEntity(target).Some? ==> trace == old(trace) + [Ack("follow", Target(target))]) &&
        (w.PlayerEntity(target).Some? && !w.pathfinder ==> movementTimer == Some(MoveTimer(false, 2000, epoch))) &&
        (w.PlayerEntity(target).Some? && w.pathfinder ==> movementTimer == old(movementTimer)) &&
        (w.PlayerEntity(target).None? ==>
          trace == old(trace) + [Error(None, PlayerNotFound(target))] && movementTimer == old(movementTimer))
    {
      var target := Field(cmd, "target");
      if w.PlayerEntity(target).Some? {
        if !w.pathfinder {
          StartTimer(false, 2000);
        }
        trace := trace + [Ack("follow", Target(target))];
      } else {
        trace := trace + [Error(None, PlayerNotFound(target))];
      }
      owner := Some(OParked);
    }

    /**
     * `stop`: every goal handle is resolved without its callback, the
     * walk is told to cancel, the queue is cleared and `stopped` is sent last.
     */
    method Stop()
      requires Base()
      modifies this`goals, this`registry, this`digCancelled, this`pending, this`busy,
        this`epoch, this`owner, this`corrupted, this`trace
      ensures Valid()
      ensures registry == [] && goals.Keys == old(goals).Keys && forall h :: h in goals ==> goals[h].resolved
      ensures digCancelled && pending == [] && !busy
      ensures trace == old(trace) + [Stopped]
      ensures epoch == old(epoch) + 1 && !corrupted
    {
      CleanupAllGoals();
      // bot.pathfinder.stop(), bot.stopDigging(), bot.clearControlStates()
      digCancelled := true;
      ClearQueue();
      trace := trace + [Stopped];
    }

    /** `cleanupMovement`: the fallback timer is cleared and the walk told to cancel. */
    method CleanupMovement()
      requires Base()
      modifies this`movementTimer, this`digCancelled
      ensures Base() && movementTimer == None && digCancelled
    {
      if movementTimer.Some? {
        movementTimer := None;
      }
      digCancelled := true;
    }

    // -------------------------------------------------------------------
    // combat.js
    // -------------------------------------------------------------------

    /**
     * `attack`: the attack is issued only when an entity is nearby; the ack
     * names it (or "entity"), otherwise an error is sent. Done either way.
     */
    method Attack(w: World)
      requires Ready(epoch) && halted.None?
      modifies this
      decreases |pending|, 4
      ensures Chained() && Released() && corrupted == old(corrupted)
      ensures w.nearest.Some? ==>
        var name := if w.nearest.value != "" then w.nearest.value else "entity";
        old(trace) + [Ack("attack", EntityName(name))] <= trace &&
        old(calls) + [AttackCall(w.nearest.value)] <= calls
      ensures w.nearest.None? ==> old(trace) + [Error(None, Text(NoEntityNearby))] <= trace
      ensures w.nearest.None? && old(pending) == [] ==> calls == old(calls)
    {
      if w.nearest.Some? {
        var entity := w.nearest.value;
        calls := calls + [AttackCall(entity)];
        Finish([Ack("attack", EntityName(if entity != "" then entity else "entity"))], epoch, w);
      } else {
        Finish([Error(None, Text(NoEntityNearby))], epoch, w);
      }
    }

    // -------------------------------------------------------------------
    // world.js
    // -------------------------------------------------------------------

    /**
     * `dig`: invalid coordinates, or no block or air there, give an error
     * and done; otherwise the dig is raced against 30 s and holds the lane
     * until it settles.
     */
    method Dig(cmd: JsValue, w: World)
      requires Ready(epoch) && halted.None?
      modifies this
      decreases |pending|, 4
      ensures Chained() && corrupted == old(corrupted)
      ensures var x, y, z := Field(cmd, "x"), Field(cmd, "y"), Field(cmd, "z");
        (!CoordsOk(x, y, z) ==> Released() && old(trace) + [Error(Some("dig"), InvalidCoordinates(x, y, z))] <= trace) &&
        (CoordsOk(x, y, z) && NothingToDig(w.BlockAt(PosOf(x, y, z))) ==>
          Released() && old(trace) + [Error(Some("dig"), NoBlockAt(x, y, z))] <= trace) &&
        (CoordsOk(x, y, z) && !NothingToDig(w.BlockAt(PosOf(x, y, z))) ==>
          var name := w.BlockAt(PosOf(x, y, z)).name;
          Holds() && trace == old(trace) && calls == old(calls) + [DigCall(PosOf(x, y, z))] &&
          NewSettle(SReport("dig", [Ack("dig", BlockAt(name, x, y, z)), DigDone(name, x, y, z)]),
                    Some(Deadline("dig", 30000)), epoch) &&
          owner == Some(OSettle(old(nextId))))
    {
      var x, y, z := Field(cmd, "x"), Field(cmd, "y"), Field(cmd, "z");
      if !CoordsOk(x, y, z) {
        Finish([Error(Some("dig"), InvalidCoordinates(x, y, z))], epoch, w);
        return;
      }
      var pos := PosOf(x, y, z);
      var block := w.BlockAt(pos);
      if NothingToDig(block) {
        Finish([Error(Some("dig"), NoBlockAt(x, y, z))], epoch, w);
      } else {
        StartSettle([DigCall(pos)], SReport("dig", [Ack("dig", BlockAt(block.name, x, y, z)), DigDone(block.name, x, y, z)]),
                    Some(Deadline("dig", 30000)), epoch);
      }
    }

    /** `digLookingAt`: nothing (or air) under the cursor gives an error and done; otherwise a 30 s dig. */
    method DigLookingAt(w: World)
      requires Ready(epoch) && halted.None?
      modifies this
      decreases |pending|, 4
      ensures Chained() && corrupted == old(corrupted)
      ensures NothingToDig(w.cursor) ==>
        Released() && old(trace) + [Error(Some("dig_looking_at"), Text(NoBlockInSight))] <= trace
      ensures !NothingToDig(w.cursor) ==>
        var p := w.cursorPos;
        Holds() && trace == old(trace) && calls == old(calls) + [DigCall(p)] &&
        NewSettle(SReport("dig_looking_at",
                    [Ack("dig_looking_at", BlockAt(w.cursor.name, Num(Finite(p.x)), Num(Finite(p.y)), Num(Finite(p.z))))]),
                  Some(Deadline("dig_looking_at", 30000)), epoch) &&
        owner == Some(OSettle(old(nextId)))
    {
      var target := w.cursor;
      if NothingToDig(target) {
        Finish([Error(Some("dig_looking_at"), Text(NoBlockInSight))], epoch, w);
      } else {
        var p := w.cursorPos;
        StartSettle([DigCall(p)], SReport("dig_looking_at",
                      [Ack("dig_looking_at", BlockAt(target.name, Num(Finite(p.x)), Num(Finite(p.y)), Num(Finite(p.z))))]),
                    Some(Deadline("dig_looking_at", 30000)), epoch);
      }
    }

    /**
     * `place`: invalid coordinates or no reference block give an error and
     * done; otherwise the block is placed against the face the lookup
     * selects, raced against 10 s.
     */
    method Place(cmd: JsValue, w: World)
      requires Ready(epoch) && halted.None?
      modifies this
      decreases |pending|, 4
      ensures Chained() && corrupted == old(corrupted)
      ensures var x, y, z, face := Field(cmd, "x"), Field(cmd, "y"), Field(cmd, "z"), Field(cmd, "face");
        (!CoordsOk(x, y, z) ==> Released() && old(trace) + [Error(Some("place"), InvalidCoordinates(x, y, z))] <= trace) &&
        (CoordsOk(x, y, z) && w.BlockAt(PosOf(x, y, z)).NoBlock? ==>
          Released() && old(trace) + [Error(Some("place"), NoReferenceBlockAt(x, y, z))] <= trace) &&
        (CoordsOk(x, y, z) && w.BlockAt(PosOf(x, y, z)).Block? ==>
          Holds() && trace == old(trace) && calls == old(calls) + [PlaceCall(PosOf(x, y, z), FaceVector(face))] &&
          NewSettle(SReport("place", [Ack("place", Placed(x, y, z, OrElse(face, Str("top"))))]),
                    Some(Deadline("place", 10000)), epoch) &&
          owner == Some(OSettle(old(nextId))))
    {
      var x, y, z, face := Field(cmd, "x"), Field(cmd, "y"), Field(cmd, "z"), Field(cmd, "face");
      if !CoordsOk(x, y, z) {
        Finish([Error(Some("place"), InvalidCoordinates(x, y, z))], epoch, w);
        return;
      }
      var faceVec := FaceVector(face);
      var pos := PosOf(x, y, z);
      if w.BlockAt(pos).NoBlock? {
        Finish([Error(Some("place"), NoReferenceBlockAt(x, y, z))], epoch, w);
      } else {
        StartSettle([PlaceCall(pos, faceVec)], SReport("place", [Ack("place", Placed(x, y, z, OrElse(face, Str("top"))))]),
                    Some(Deadline("place", 10000)), epoch);
      }
    }

    /** `activateBlock`: invalid coordinates or no block give an error and done; otherwise a 10 s activation. */
    method ActivateBlock(cmd: JsValue, w: World)
      requires Ready(epoch) && halted.None?
      modifies this
      decreases |pending|, 4
      ensures Chained() && corrupted == old(corrupted)
      ensures var x, y, z := Field(cmd, "x"), Field(cmd, "y"), Field(cmd, "z");
        (!CoordsOk(x, y, z) ==>
          Released() && old(trace) + [Error(Some("activate_block"), InvalidCoordinates(x, y, z))] <= trace) &&
        (CoordsOk(x, y, z) && w.BlockAt(PosOf(x, y, z)).NoBlock? ==>
          Released() && old(trace) + [Error(Some("activate_block"), NoBlockAt(x, y, z))] <= trace) &&
        (CoordsOk(x, y, z) && w.BlockAt(PosOf(x, y, z)).Block? ==>
          Holds() && trace == old(trace) &&
          NewSettle(SReport("activate_block", [Ack("activate_block", BlockAt(w.BlockAt(PosOf(x, y, z)).name, x, y, z))]),
                    Some(Deadline("activate_block", 10000)), epoch) &&
          owner == Some(OSettle(old(nextId))))
    {
      var x, y, z := Field(cmd, "x"), Field(cmd, "y"), Field(cmd, "z");
      if !CoordsOk(x, y, z) {
        Finish([Error(Some("activate_block"), InvalidCoordinates(x, y, z))], epoch, w);
        return;
      }
      var block := w.BlockAt(PosOf(x, y, z));
      if block.NoBlock? {
        Finish([Error(Some("activate_block"), NoBlockAt(x, y, z))], epoch, w);
      } else {
        StartSettle([], SReport("activate_block", [Ack("activate_block", BlockAt(block.name, x, y, z))]),
                    Some(Deadline("activate_block", 10000)), epoch);
      }
    }

    /**
     * `findAndDig`: an unknown block type, nothing found within 32 blocks or
     * a vanished block give an error and done. With a pathfinder a 15 s
     * `GoalNear` handle takes the lane; without one the block is dug when in
     * reach, and otherwise two errors are sent and done is called.
     */
    method FindAndDig(cmd: JsValue, w: World)
      requires Ready(epoch) && halted.None?
      modifies this
      decreases |pending|, 4
      ensures Chained() && corrupted == old(corrupted)
      ensures var bt := Field(cmd, "block_type");
        (bt !in w.blockNames ==>
          Released() && old(trace) + [Error(Some("find_and_dig"), UnknownBlockType(bt))] <= trace) &&
        (bt in w.blockNames && w.FindBlock(bt).None? ==>
          Released() && old(trace) + [Error(Some("find_and_dig"), NoneWithinRange(bt))] <= trace) &&
        (bt in w.blockNames && w.FindBlock(bt).Some? ==>
          var p := w.FindBlock(bt).value;
          (w.BlockAt(p).NoBlock? ==>
            Released() && old(trace) + [Error(Some("find_and_dig"), Disappeared(p))] <= trace) &&
          (w.BlockAt(p).Block? && w.pathfinder ==>
            Holds() && trace == old(trace) && NewGoal(KFindDig(bt, p), 15000, epoch) &&
            owner == Some(OGoal(old(nextId)))) &&
          (w.BlockAt(p).Block? && !w.pathfinder && p !in w.findReach ==>
            Released() &&
            old(trace) + [Error(Some("find_and_dig"), TooFar(bt, p)), FindAndDigError(TooFarNoPathfinder(bt))] <= trace) &&
          (w.BlockAt(p).Block? && !w.pathfinder && p in w.findReach && (legacy || !NothingToDig(w.BlockAt(p))) ==>
            Holds() && trace == old(trace) && calls == old(calls) + [DigCall(p)] &&
            NewSettle(SFindDig(bt, p), Some(Deadline("find_and_dig:dig", 30000)), epoch)) &&
          (w.BlockAt(p).Block? && !w.pathfinder && p in w.findReach && !legacy && NothingToDig(w.BlockAt(p)) ==>
            Released() &&
            old(trace) + [Ack("find_and_dig", AlreadyGone(bt)), FindAndDigDone(bt, p)] <= trace))
    {
      var bt := Field(cmd, "block_type");
      if bt !in w.blockNames {
        Finish([Error(Some("find_and_dig"), UnknownBlockType(bt))], epoch, w);
        return;
      }
      var found := w.FindBlock(bt);
      if found.None? {
        Finish([Error(Some("find_and_dig"), NoneWithinRange(bt))], epoch, w);
        return;
      }
      var p := found.value;
      if w.BlockAt(p).NoBlock? {
        Finish([Error(Some("find_and_dig"), Disappeared(p))], epoch, w);
        return;
      }
      ReachFound(bt, p, w);
    }

    /**
     * The tail of `find_and_dig` once a block has been found: walk to it with
     * the pathfinder (15 s), dig it when it is within 5 blocks, or report it
     * as too far.
     */
    method ReachFound(bt: JsValue, p: Pos, w: World)
      requires Ready(epoch) && halted.None? && w.BlockAt(p).Block?
      modifies this
      decreases |pending|, 3
      ensures Chained() && corrupted == old(corrupted)
      ensures w.pathfinder ==>
        Holds() && trace == old(trace) && NewGoal(KFindDig(bt, p), 15000, epoch) &&
        owner == Some(OGoal(old(nextId)))
      ensures !w.pathfinder && p !in w.findReach ==>
        Released() &&
        old(trace) + [Error(Some("find_and_dig"), TooFar(bt, p)), FindAndDigError(TooFarNoPathfinder(bt))] <= trace
      ensures !w.pathfinder && p in w.findReach && (legacy || !NothingToDig(w.BlockAt(p))) ==>
        Holds() && trace == old(trace) && calls == old(calls) + [DigCall(p)] &&
        NewSettle(SFindDig(bt, p), Some(Deadline("find_and_dig:dig", 30000)), epoch)
      ensures !w.pathfinder && p in w.findReach && !legacy && NothingToDig(w.BlockAt(p)) ==>
        Released() &&
        old(trace) + [Ack("find_and_dig", AlreadyGone(bt)), FindAndDigDone(bt, p)] <= trace
    {
      if w.pathfinder {
        StartGoal(KFindDig(bt, p), 15000, epoch);
      } else if p in w.findReach {
        if legacy {
          // the monolithic bridge digs the block found, without re-reading it
          StartSettle([DigCall(p)], SFindDig(bt, p), Some(Deadline("find_and_dig:dig", 30000)), epoch);
        } else {
          DigTarget(bt, p, epoch, w);
        }
      } else {
        Finish([Error(Some("find_and_dig"), TooFar(bt, p)), FindAndDigError(TooFarNoPathfinder(bt))], epoch, w);
      }
    }

    /**
     * `digTarget`: the block is read again; if it is still there it is dug
     * (30 s), otherwise "block already gone" is acked with a
     * `find_and_dig_done`, and done is called.
     */
    method DigTarget(bt: JsValue, p: Pos, ghost e: nat, w: World)
      requires Ready(e) && halted.None?
      modifies this
      decreases |pending|, 2
      ensures Chained() && (e == epoch ==> corrupted == old(corrupted))
      ensures !NothingToDig(w.BlockAt(p)) ==>
        Holds() && trace == old(trace) && calls == old(calls) + [DigCall(p)] &&
        NewSettle(SFindDig(bt, p), Some(Deadline("find_and_dig:dig", 30000)), e)
      ensures NothingToDig(w.BlockAt(p)) ==>
        Released() && old(trace) + [Ack("find_and_dig", AlreadyGone(bt)), FindAndDigDone(bt, p)] <= trace
    {
      var block := w.BlockAt(p);
      if !NothingToDig(block) {
        StartSettle([DigCall(p)], SFindDig(bt, p), Some(Deadline("find_and_dig:dig", 30000)), e);
      } else {
        Finish([Ack("find_and_dig", AlreadyGone(bt)), FindAndDigDone(bt, p)], e, w);
      }
    }

    /**
     * `digArea`: after validating the anchor, the target list is built, the
     * cancel flag reset, the start acked, and the walk begins at cursor 0.
     */
    method DigArea(cmd: JsValue, w: World)
      requires Ready(epoch) && halted.None?
      modifies this
      decreases |pending|, 4
      ensures Chained() && corrupted == old(corrupted)
      ensures var x, y, z := Field(cmd, "x"), Field(cmd, "y"), Field(cmd, "z");
        (!CoordsOk(x, y, z) ==>
          Released() && old(trace) + [Error(Some("dig_area"), InvalidCoordinates(x, y, z))] <= trace) &&
        (CoordsOk(x, y, z) ==>
          var blocks := AreaTargets(PosOf(x, y, z), Width(cmd), Height(cmd), Depth(cmd));
          var ack := Ack("dig_area", AreaStart(Width(cmd), Height(cmd), Depth(cmd), |blocks|));
          var s := WalkStep(blocks, 0, false, w.loaded);
          old(trace) + [ack] <= trace && !s.ScanCancelled? &&
          (s.ScanFinished? ==> Released() && old(trace) + [ack, DigAreaDone(|blocks|)] <= trace))
    {
      var x, y, z := Field(cmd, "x"), Field(cmd, "y"), Field(cmd, "z");
      if !CoordsOk(x, y, z) {
        Finish([Error(Some("dig_area"), InvalidCoordinates(x, y, z))], epoch, w);
        return;
      }
      var wd, ht, dp := Width(cmd), Height(cmd), Depth(cmd);
      var blocks := BuildTargets(PosOf(x, y, z), wd, ht, dp);
      StartWalk(blocks, Ack("dig_area", AreaStart(wd, ht, dp, |blocks|)), w);
    }

    /**
     * The start of the walk: the cancel flag is cleared, the ack sent, and
     * `digNext(0)` runs, so a walk started after a `stop` is never cancelled
     * at its first step.
     */
    method StartWalk(blocks: seq<Pos>, ack: Event, w: World)
      requires Ready(epoch) && halted.None?
      modifies this
      decreases |pending|, 3, |blocks|, 4
      ensures Chained() && corrupted == old(corrupted)
      ensures old(trace) + [ack] <= trace
      ensures var s := WalkStep(blocks, 0, false, w.loaded);
        !s.ScanCancelled? &&
        (s.ScanFinished? ==> Released() && old(trace) + [ack, DigAreaDone(|blocks|)] <= trace)
    {
      digCancelled := false;
      trace := trace + [ack];
      DigNext(blocks, 0, epoch, w);
    }

    /**
     * `digNext(idx)`: a set cancel flag ends the walk with
     * `dig_area_cancelled{idx}` and done; past the end of the list it ends
     * with `dig_area_done{|blocks|}` and done; cleared positions are
     * skipped; the first uncleared one is approached (10 s handle) when out
     * of reach and a pathfinder exists, or dug at once.
     */
    method DigNext(blocks: seq<Pos>, idx: nat, ghost e: nat, w: World)
      requires idx <= |blocks| && Ready(e) && halted.None?
      modifies this
      decreases |pending|, 3, |blocks| - idx, 3
      ensures Chained() && (e == epoch ==> corrupted == old(corrupted))
      ensures NoProgressUpTo(idx)
      ensures var s := WalkStep(blocks, idx, old(digCancelled), w.loaded);
        (s.ScanCancelled? ==> Released() && old(trace) + [DigAreaCancelled(idx)] <= trace) &&
        (s.ScanFinished? ==> Released() && old(trace) + [DigAreaDone(|blocks|)] <= trace) &&
        (s.ScanFound? && blocks[s.at] !in w.digReach && w.pathfinder ==>
          Holds() && trace == old(trace) && NewGoal(KWalkApproach(blocks, s.at), 10000, e)) &&
        (s.ScanFound? && (blocks[s.at] in w.digReach || !w.pathfinder) &&
          !AlreadyClear(w.BlockAt(blocks[s.at])) ==>
          Holds() && trace == old(trace) && calls == old(calls) + [DigCall(blocks[s.at])] &&
          NewSettle(SWalkDig(blocks, s.at), Some(Deadline("dig_area:dig", 30000)), e))
    {
      var s := WalkStep(blocks, idx, digCancelled, w.loaded);
      match s
      case ScanCancelled(at) =>
        Finish([DigAreaCancelled(at)], e, w);
      case ScanFinished =>
        Finish([DigAreaDone(|blocks|)], e, w);
      case ScanFound(i) =>
        Visit(blocks, i, e, w);
    }

    /**
     * The first uncleared position of the walk: approached (10 s handle)
     * when out of reach and a pathfinder exists, or dug at once.
     */
    method Visit(blocks: seq<Pos>, i: nat, ghost e: nat, w: World)
      requires i < |blocks| && Ready(e) && halted.None?
      modifies this
      decreases |pending|, 3, |blocks| - i, 2
      ensures Chained() && (e == epoch ==> corrupted == old(corrupted))
      ensures NoProgressUpTo(i)
      ensures blocks[i] !in w.digReach && w.pathfinder ==>
        Holds() && trace == old(trace) && NewGoal(KWalkApproach(blocks, i), 10000, e)
      ensures (blocks[i] in w.digReach || !w.pathfinder) && !AlreadyClear(w.BlockAt(blocks[i])) ==>
        Holds() && trace == old(trace) && calls == old(calls) + [DigCall(blocks[i])] &&
        NewSettle(SWalkDig(blocks, i), Some(Deadline("dig_area:dig", 30000)), e)
    {
      var pos := blocks[i];
      if pos !in w.digReach && w.pathfinder {
        StartGoal(KWalkApproach(blocks, i), 10000, e);
      } else {
        DigStep(blocks, i, e, w);
      }
    }

    /**
     * The dig step of `digNext` at cursor `i`: the block is read again and,
     * if still uncleared, dug (30 s); otherwise the walk goes on at once.
     */
    method DigStep(blocks: seq<Pos>, i: nat, ghost e: nat, w: World)
      requires i < |blocks| && Ready(e) && halted.None?
      modifies this
      decreases |pending|, 3, |blocks| - i, 1
      ensures Chained() && (e == epoch ==> corrupted == old(corrupted))
      ensures NoProgressUpTo(i)
      ensures !AlreadyClear(w.BlockAt(blocks[i])) ==>
        Holds() && trace == old(trace) && calls == old(calls) + [DigCall(blocks[i])] &&
        NewSettle(SWalkDig(blocks, i), Some(Deadline("dig_area:dig", 30000)), e)
    {
      var pos := blocks[i];
      var current := w.BlockAt(pos);
      if !AlreadyClear(current) {
        StartSettle([DigCall(pos)], SWalkDig(blocks, i), Some(Deadline("dig_area:dig", 30000)), e);
      } else {
        AfterDig(blocks, i, e, w);
      }
    }

    /**
     * After the dig at cursor `i`: a progress ack exactly when
     * `(i + 1) % 10 == 0`, then `digNext(i + 1)`.
     */
    method AfterDig(blocks: seq<Pos>, i: nat, ghost e: nat, w: World)
      requires i < |blocks| && Ready(e) && halted.None?
      modifies this
      decreases |pending|, 3, |blocks| - i, 0
      ensures Chained() && (e == epoch ==> corrupted == old(corrupted))
      ensures NoProgressUpTo(i)
      ensures ProgressDue(i) <==>
        |trace| > |old(trace)| && trace[|old(trace)|] == Ack("dig_area", AreaProgress(i + 1, |blocks|))
      ensures ProgressDue(i) ==> old(trace) + [Ack("dig_area", AreaProgress(i + 1, |blocks|))] <= trace
      ensures !ProgressDue(i) && WalkStep(blocks, i + 1, old(digCancelled), w.loaded).ScanCancelled? ==>
        old(trace) + [DigAreaCancelled(i + 1)] <= trace
    {
      if ProgressDue(i) {
        trace := trace + [Ack("dig_area", AreaProgress(i + 1, |blocks|))];
      }
      DigNext(blocks, i + 1, e, w);
    }

    // -------------------------------------------------------------------
    // inventory.js
    // -------------------------------------------------------------------

    /**
     * `equip`: an item not in the inventory gives an error and done;
     * otherwise a 10 s equip to `destination || 'hand'`.
     */
    method Equip(cmd: JsValue, w: World)
      requires Ready(epoch) && halted.None?
      modifies this
      decreases |pending|, 4
      ensures Chained() && corrupted == old(corrupted)
      ensures var name := Field(cmd, "item_name");
        var dest := OrElse(Field(cmd, "destination"), Str("hand"));
        (FindItem(w.items, name) < 0 ==>
          Released() && old(trace) + [Error(Some("equip"), NotInInventory(name))] <= trace) &&
        (FindItem(w.items, name) >= 0 ==>
          Holds() && trace == old(trace) &&
          NewSettle(SReport("equip", [Ack("equip", Equipped(name, dest))]), Some(Deadline("equip", 10000)), epoch) &&
          owner == Some(OSettle(old(nextId))))
    {
      var name := Field(cmd, "item_name");
      var dest := OrElse(Field(cmd, "destination"), Str("hand"));
      var k := FindItem(w.items, name);
      if k < 0 {
        Finish([Error(Some("equip"), NotInInventory(name))], epoch, w);
      } else {
        StartSettle([], SReport("equip", [Ack("equip", Equipped(name, dest))]), Some(Deadline("equip", 10000)), epoch);
      }
    }

    /**
     * `craft`: an unknown item or no recipe give an error and done;
     * otherwise a 15 s craft of `count || 1`.
     */
    method Craft(cmd: JsValue, w: World)
      requires Ready(epoch) && halted.None?
      modifies this
      decreases |pending|, 4
      ensures Chained() && corrupted == old(corrupted)
      ensures var name := Field(cmd, "item_name");
        var count := OrElse(Field(cmd, "count"), Int(1));
        (name !in w.itemNames ==> Released() && old(trace) + [Error(Some("craft"), UnknownItem(name))] <= trace) &&
        (name in w.itemNames && name !in w.craftable ==>
          Released() && old(trace) + [Error(Some("craft"), NoRecipe(name))] <= trace) &&
        (name in w.itemNames && name in w.craftable ==>
          Holds() && trace == old(trace) &&
          NewSettle(SReport("craft", [Ack("craft", Crafted(name, count))]), Some(Deadline("craft", 15000)), epoch))
    {
      var name := Field(cmd, "item_name");
      var count := OrElse(Field(cmd, "count"), Int(1));
      if name !in w.itemNames {
        Finish([Error(Some("craft"), UnknownItem(name))], epoch, w);
        return;
      }
      if name !in w.craftable {
        Finish([Error(Some("craft"), NoRecipe(name))], epoch, w);
      } else {
        StartSettle([], SReport("craft", [Ack("craft", Crafted(name, count))]), Some(Deadline("craft", 15000)), epoch);
      }
    }

    /** `drop`: nothing held gives an error and done; otherwise the held stack is tossed (10 s). */
    method Drop(w: World)
      requires Ready(epoch) && halted.None?
      modifies this
      decreases |pending|, 4
      ensures Chained() && corrupted == old(corrupted)
      ensures w.held.None? ==> Released() && old(trace) + [Error(Some("drop"), Text(NotHolding))] <= trace
      ensures w.held.Some? ==>
        var it := w.held.value;
        Holds() && trace == old(trace) && calls == old(calls) + [TossStackCall(it.name)] &&
        NewSettle(SReport("drop", [Ack("drop", Tossed(it.name, it.count))]), Some(Deadline("drop", 10000)), epoch)
    {
      if w.held.None? {
        Finish([Error(Some("drop"), Text(NotHolding))], epoch, w);
      } else {
        var held := w.held.value;
        StartSettle([TossStackCall(held.name)], SReport("drop", [Ack("drop", Tossed(held.name, held.count))]), Some(Deadline("drop", 10000)), epoch);
      }
    }

    /**
     * `dropItem`: an item not in the inventory gives an error and done;
     * otherwise `min(count, stack)` (or the whole stack) is tossed (10 s).
     */
    method DropItem(cmd: JsValue, w: World)
      requires Ready(epoch) && halted.None?
      modifies this
      decreases |pending|, 4
      ensures Chained() && corrupted == old(corrupted)
      ensures var name := Field(cmd, "item_name");
        var k := FindItem(w.items, name);
        (k < 0 ==> Released() && old(trace) + [Error(Some("drop_item"), NotInInventory(name))] <= trace) &&
        (k >= 0 ==>
          var n := DropAmount(Field(cmd, "count"), w.items[k].count);
          Holds() && trace == old(trace) && calls == old(calls) + [TossCall(w.items[k].name, n)] &&
          NewSettle(SReport("drop_item", [Ack("drop_item", TossedSome(name, n))]), Some(Deadline("drop_item", 10000)), epoch))
    {
      var name := Field(cmd, "item_name");
      var k := FindItem(w.items, name);
      if k < 0 {
        Finish([Error(Some("drop_item"), NotInInventory(name))], epoch, w);
      } else {
        var item := w.items[k];
        var toDrop := DropAmount(Field(cmd, "count"), item.count);
        StartSettle([TossCall(item.name, toDrop)], SReport("drop_item", [Ack("drop_item", TossedSome(name, toDrop))]),
                    Some(Deadline("drop_item", 10000)), epoch);
      }
    }

    /** `dropAll`: an empty inventory acks a count of 0 and calls done; otherwise the toss loop starts. */
    method DropAll(w: World)
      requires Ready(epoch) && halted.None?
      modifies this
      decreases |pending|, 4
      ensures Chained() && corrupted == old(corrupted)
      ensures w.items == [] ==> Released() && old(trace) + [Ack("drop_all", TossedAll(0))] <= trace
      ensures w.items != [] ==>
        Holds() && trace == old(trace) && calls == old(calls) + [TossStackCall(w.items[0].name)] &&
        NewSettle(SDropAll(0), None, epoch)
    {
      if |w.items| == 0 {
        Finish([Ack("drop_all", TossedAll(0))], epoch, w);
      } else {
        DropNext(0, epoch, w);
      }
    }

    /**
     * `dropNext` with `dropped` toss attempts made: an empty inventory acks
     * the count and calls done; otherwise the first stack is tossed.
     */
    method DropNext(dropped: nat, ghost e: nat, w: World)
      requires Ready(e) && halted.None?
      modifies this
      decreases |pending|, 2
      ensures Chained() && (e == epoch ==> corrupted == old(corrupted))
      ensures w.items == [] ==> Released() && old(trace) + [Ack("drop_all", TossedAll(dropped))] <= trace
      ensures w.items != [] ==>
        Holds() && trace == old(trace) && calls == old(calls) + [TossStackCall(w.items[0].name)] &&
        NewSettle(SDropAll(dropped), None, e)
    {
      var remaining := w.items;
      if |remaining| == 0 {
        Finish([Ack("drop_all", TossedAll(dropped))], e, w);
      } else {
        StartSettle([TossStackCall(remaining[0].name)], SDropAll(dropped), None, e);
      }
    }

    /**
     * `useItem`, `deactivateItem`, `wake`: one direct library call; an ack
     * or, when it throws, an error; done exactly once either way.
     */
    method DirectCall(action: string, w: World)
      requires Ready(epoch) && halted.None?
      modifies this
      decreases |pending|, 4
      ensures Chained() && Released() && corrupted == old(corrupted)
      ensures w.throws.None? ==> old(trace) + [Ack(action, NoDetail)] <= trace
      ensures w.throws.Some? ==> old(trace) + [Error(Some(action), Text(w.throws.value))] <= trace
    {
      match w.throws
      case None => Finish([Ack(action, NoDetail)], epoch, w);
      case Some(m) => Finish([Error(Some(action), Text(m))], epoch, w);
    }

    /** `sleep`: no bed within 4 blocks gives an error and done; otherwise a 10 s sleep. */
    method Sleep(w: World)
      requires Ready(epoch) && halted.None?
      modifies this
      decreases |pending|, 4
      ensures Chained() && corrupted == old(corrupted)
      ensures !w.bedNearby ==> Released() && old(trace) + [Error(Some("sleep"), Text(NoBedNearby))] <= trace
      ensures w.bedNearby ==>
        Holds() && trace == old(trace) &&
        NewSettle(SReport("sleep", [Ack("sleep", NoDetail)]), Some(Deadline("sleep", 10000)), epoch)
    {
      if !w.bedNearby {
        Finish([Error(Some("sleep"), Text(NoBedNearby))], epoch, w);
      } else {
        StartSettle([], SReport("sleep", [Ack("sleep", NoDetail)]), Some(Deadline("sleep", 10000)), epoch);
      }
    }

    // -------------------------------------------------------------------
    // External happenings
    // -------------------------------------------------------------------

    /**
     * `goal_reached` reaches handle `h`: a resolved handle does nothing;
     * otherwise the handle is cleaned up and its callback runs.
     */
    method GoalReached(h: nat, w: World)
      requires Valid() && halted.None? && h in goals
      modifies this
      ensures ReconnectKept()
      ensures Valid() && halted == old(halted) && ResolvedStay()
      ensures old(goals[h].resolved) ==>
        goals == old(goals) && trace == old(trace) && busy == old(busy) && pending == old(pending) && corrupted == old(corrupted)
      ensures !old(goals[h].resolved) ==> h in goals && goals[h].resolved && h !in registry
      ensures !old(goals[h].resolved) && old(goals[h].epoch) == old(epoch) ==> corrupted == old(corrupted)
      ensures !old(goals[h].resolved) && old(goals[h].cont).KMoveDone? ==>
        var c := old(goals[h].cont);
        Released() && old(trace) + [MoveDone(c.x, c.y, c.z)] <= trace
      ensures !old(goals[h].resolved) && old(goals[h].cont).KGotoDone? ==>
        var c := old(goals[h].cont);
        Released() && old(trace) + [GotoDone(c.x, c.y, c.z)] <= trace
    {
      var g := goals[h];
      if g.resolved {
        return;
      }
      TakeGoal(h);
      Reached(g, w);
    }

    /** The `onReached` continuation of a goal taken off the lane's books. */
    method Reached(g: Goal, w: World)
      requires Ready(g.epoch) && halted.None? && ContOk(g.cont)
      modifies this
      decreases |pending|, 4
      ensures Chained() && (g.epoch == epoch ==> corrupted == old(corrupted))
      ensures g.cont.KMoveDone? ==> Released() && old(trace) + [MoveDone(g.cont.x, g.cont.y, g.cont.z)] <= trace
      ensures g.cont.KGotoDone? ==> Released() && old(trace) + [GotoDone(g.cont.x, g.cont.y, g.cont.z)] <= trace
    {
      match g.cont
      case KMoveDone(x, y, z) => Finish([MoveDone(x, y, z)], g.epoch, w);
      case KGotoDone(x, y, z) => Finish([GotoDone(x, y, z)], g.epoch, w);
      case KFindDig(bt, p) => DigTarget(bt, p, g.epoch, w);
      case KWalkApproach(blocks, i) => DigStep(blocks, i, g.epoch, w);
    }

    /**
     * The deadline of handle `h` elapses: a resolved handle does nothing;
     * otherwise it is cleaned up, the pathfinding timeout is reported and
     * `onTimeout` runs: done, except that the modular walk resumes at its
     * dig step. The monolithic bridge always calls `actionDone`, so its walk
     * is abandoned.
     */
    method GoalDeadline(h: nat, w: World)
      requires Valid() && halted.None? && h in goals
      modifies this
      ensures ReconnectKept()
      ensures Valid() && halted == old(halted) && ResolvedStay()
      ensures old(goals[h].resolved) ==>
        goals == old(goals) && trace == old(trace) && busy == old(busy) && pending == old(pending) && corrupted == old(corrupted)
      ensures !old(goals[h].resolved) ==>
        h in goals && goals[h].resolved && h !in registry &&
        old(trace) + [Error(None, Text(PathTimeoutText(old(goals[h].ms))))] <= trace
      ensures !old(goals[h].resolved) && old(goals[h].epoch) == old(epoch) ==> corrupted == old(corrupted)
      ensures !old(goals[h].resolved) && (legacy || !old(goals[h].cont).KWalkApproach?) ==> Released()
    {
      var g := goals[h];
      if g.resolved {
        return;
      }
      TakeGoal(h);
      // bot.pathfinder.setGoal(null)
      Expired(g, w);
    }

    /** The timeout report and `onTimeout` continuation of a goal taken off the lane's books. */
    method Expired(g: Goal, w: World)
      requires Ready(g.epoch) && halted.None? && ContOk(g.cont)
      modifies this
      decreases |pending|, 4
      ensures Chained() && (g.epoch == epoch ==> corrupted == old(corrupted))
      ensures old(trace) + [Error(None, Text(PathTimeoutText(g.ms)))] <= trace
      ensures legacy || !g.cont.KWalkApproach? ==> Released()
    {
      trace := trace + [Error(None, Text(PathTimeoutText(g.ms)))];
      if !legacy && g.cont.KWalkApproach? {
        DigStep(g.cont.blocks, g.cont.idx, g.epoch, w);
      } else {
        Done(g.epoch, w);
      }
    }

    /**
     * Outstanding promise `id` settles, `first` telling which side of its
     * race came first. Its continuation runs with the race's outcome.
     */
    method Settle(id: nat, first: TimeoutRace.First<()>, w: World)
      requires Valid() && halted.None? && id in settles
      requires settles[id].deadline.None? ==> first.InnerFirst?
      modifies this
      ensures ReconnectKept()
      ensures Valid() && halted == old(halted) && ResolvedStay()
      ensures old(settles[id].epoch) == old(epoch) ==> corrupted == old(corrupted)
      ensures var s := old(settles[id]);
        var outcome := if s.deadline.Some? then TimeoutRace.Settle(first, s.deadline.value.opLabel, s.deadline.value.ms)
                       else first.inner;
        (s.cont.SReport? && outcome.Resolved? ==> Released() && old(trace) + s.cont.onOk <= trace) &&
        (s.cont.SReport? && outcome.Rejected? ==>
          Released() && old(trace) + [Error(Some(s.cont.action), Text(outcome.message))] <= trace) &&
        (s.cont.SFindDig? && outcome.Resolved? ==>
          Released() &&
          old(trace) + [Ack("find_and_dig", FoundBlock(s.cont.blockType, s.cont.pos)),
                        FindAndDigDone(s.cont.blockType, s.cont.pos)] <= trace) &&
        (s.cont.SFindDig? && outcome.Rejected? ==>
          Released() &&
          old(trace) + [Error(Some("find_and_dig"), Text(outcome.message)), FindAndDigError(Text(outcome.message))] <= trace) &&
        (s.cont.SDropAll? && w.items == [] ==>
          Released() && old(trace) + [Ack("drop_all", TossedAll(s.cont.dropped + 1))] <= trace)
    {
      var s := settles[id];
      TakeSettle(id);
      var outcome := if s.deadline.Some? then TimeoutRace.Settle(first, s.deadline.value.opLabel, s.deadline.value.ms)
                     else first.inner;
      Resume(s, outcome, w);
    }

    /** The continuation of a promise taken off the lane's books, run with the race's outcome. */
    method Resume(s: Settling, outcome: TimeoutRace.Outcome<()>, w: World)
      requires Ready(s.epoch) && halted.None? && SettleContOk(s.cont)
      modifies this
      decreases |pending|, 4
      ensures Chained() && (s.epoch == epoch ==> corrupted == old(corrupted))
      ensures s.cont.SReport? && outcome.Resolved? ==> Released() && old(trace) + s.cont.onOk <= trace
      ensures s.cont.SReport? && outcome.Rejected? ==>
        Released() && old(trace) + [Error(Some(s.cont.action), Text(outcome.message))] <= trace
      ensures s.cont.SFindDig? && outcome.Resolved? ==>
        Released() &&
        old(trace) + [Ack("find_and_dig", FoundBlock(s.cont.blockType, s.cont.pos)),
                      FindAndDigDone(s.cont.blockType, s.cont.pos)] <= trace
      ensures s.cont.SFindDig? && outcome.Rejected? ==>
        Released() &&
        old(trace) + [Error(Some("find_and_dig"), Text(outcome.message)), FindAndDigError(Text(outcome.message))] <= trace
      ensures s.cont.SDropAll? && w.items == [] ==>
        Released() && old(trace) + [Ack("drop_all", TossedAll(s.cont.dropped + 1))] <= trace
    {
      match s.cont
      case SReport(action, onOk) =>
        Finish(if outcome.Resolved? then onOk else [Error(Some(action), Text(outcome.message))], s.epoch, w);
      case SFindDig(bt, p) =>
        if outcome.Resolved? {
          Finish([Ack("find_and_dig", FoundBlock(bt, p)), FindAndDigDone(bt, p)], s.epoch, w);
        } else {
          Finish([Error(Some("find_and_dig"), Text(outcome.message)), FindAndDigError(Text(outcome.message))], s.epoch, w);
        }
      case SWalkDig(blocks, i) =>
        // a failed dig is only logged
        AfterDig(blocks, i, s.epoch, w);
      case SDropAll(dropped) =>
        // success or failure, the attempt counts
        DropNext(dropped + 1, s.epoch, w);
    }

    /**
     * The fallback movement timer fires: controls are cleared, the timer
     * slot emptied and, for move and goto, done is called.
     */
    method MovementTimerFires(w: World)
      requires Valid() && halted.None? && movementTimer.Some?
      modifies this
      ensures ReconnectKept()
      ensures Valid() && halted == old(halted)
      ensures !old(movementTimer.value.callsDone) ==>
        movementTimer == None && trace == old(trace) && busy == old(busy) && pending == old(pending) && corrupted == old(corrupted)
      ensures old(movementTimer.value.callsDone) ==> Released()
      ensures old(movementTimer.value.epoch) == old(epoch) ==> corrupted == old(corrupted)
    {
      var t := movementTimer.value;
      movementTimer := None;
      if t.callsDone {
        if t.epoch == epoch {
          owner := None;
        }
        Done(t.epoch, w);
      }
    }

    /**
     * A line on standard input: malformed JSON and a line before the bot
     * exists are answered with an error and go no further; a parsed `null`
     * makes reading `cmd.action` throw, which ends the process; anything
     * else goes to `processCommand`.
     */
    method Line(input: Input, w: World)
      requires Valid() && halted.None?
      modifies this
      ensures ReconnectKept()
      ensures Valid()
      ensures input.Malformed? ==>
        trace == old(trace) + [Error(None, Text(InvalidJsonText(input.text)))] &&
        started == old(started) && pending == old(pending) && busy == old(busy) && halted == old(halted)
      ensures input.Parsed? && !old(hasBot) ==>
        trace == old(trace) + [Error(None, Text(BotNotConnected))] &&
        started == old(started) && pending == old(pending) && busy == old(busy) && halted == old(halted)
      ensures input.Parsed? && old(hasBot) && (input.value == Null || input.value == Undefined) ==>
        halted == Some(Crashed) && trace == old(trace) && started == old(started)
      ensures input.Parsed? && old(hasBot) && input.value != Null && input.value != Undefined ==>
        var cmd := input.value;
        (IsSync(cmd) ==> started == old(started) + [cmd]) &&
        (!IsSync(cmd) && old(busy) ==>
          pending == old(pending) + [cmd] && busy && started == old(started) &&
          trace == old(trace) + [Queued(ActionOf(cmd), |pending|)]) &&
        (!IsSync(cmd) && !old(busy) ==> started == old(started) + [cmd] && pending == [])
    {
      match input
      case Malformed(text) =>
        trace := trace + [Error(None, Text(InvalidJsonText(text)))];
      case Parsed(cmd) =>
        if !hasBot {
          trace := trace + [Error(None, Text(BotNotConnected))];
          return;
        }
        if cmd == Null || cmd == Undefined {
          // `cmd.action` throws a TypeError; nothing catches it
          halted := Some(Crashed);
          return;
        }
        ProcessCommand(cmd, w);
    }

    /** Standard input closes: the bot is told to quit and the process exits with code 0. */
    method StdinClose()
      requires halted.None?
      modifies this`halted
      ensures halted == Some(Exited(0))
    {
      halted := Some(Exited(0));
    }

    // -------------------------------------------------------------------
    // Reconnection (bridge.js, events.js)
    // -------------------------------------------------------------------

    /**
     * `scheduleReconnect`: a no-op while `reconnecting`; otherwise it sets
     * the guard and counts the attempt, then either gives up past 10
     * attempts (error, exit 1, no timer) or announces the backoff and arms
     * the reconnect timer.
     */
    method ScheduleReconnect()
      requires halted.None?
      modifies this`reconnecting, this`attempts, this`reconnectTimers, this`trace, this`halted
      ensures Rescheduled([])
    {
      if reconnecting {
        return;
      }
      reconnecting := true;
      attempts := attempts + 1;
      if attempts > Reconnect.MaxReconnectAttempts {
        trace := trace + [Error(None, Text(ReconnectExhausted))];
        halted := Some(Exited(1));
        return;
      }
      var backoffMs := Reconnect.Backoff(attempts);
      trace := trace + [Reconnecting(attempts, backoffMs)];
      reconnectTimers := reconnectTimers + 1;
    }

    /**
     * A reconnect timer fires and calls `createBot`. When it succeeds
     * nothing else changes (`reconnecting` stays set until a spawn); when it
     * throws, the guard is cleared and `scheduleReconnect` entered again.
     */
    method ReconnectTimerFires(createOk: bool)
      requires halted.None? && reconnectTimers > 0
      modifies this`reconnecting, this`attempts, this`reconnectTimers, this`trace, this`halted, this`hasBot
      ensures createOk ==>
        hasBot &&
        reconnecting == old(reconnecting) && attempts == old(attempts) && trace == old(trace) &&
        reconnectTimers == old(reconnectTimers) - 1 && halted == None
      ensures !createOk ==> reconnecting && attempts == old(attempts) + 1
      ensures !createOk && attempts <= Reconnect.MaxReconnectAttempts ==>
        trace == old(trace) + [Reconnecting(attempts, Reconnect.Backoff(attempts))] &&
        reconnectTimers == old(reconnectTimers)
      ensures !createOk && attempts > Reconnect.MaxReconnectAttempts ==> halted == Some(Exited(1))
    {
      reconnectTimers := reconnectTimers - 1;
      if createOk {
        hasBot := true;
      } else {
        reconnecting := false;
        ScheduleReconnect();
      }
    }

    /**
     * `spawn`: the reconnection state is reset, then `spawn` is sent with
     * the position and dimension the library reports.
     */
    method Spawn(position: Pos, dimension: JsValue)
      modifies this`attempts, this`reconnecting, this`trace
      ensures attempts == 0 && !reconnecting && trace == old(trace) + [Spawned(position, dimension)]
    {
      attempts := 0;
      reconnecting := false;
      trace := trace + [Spawned(position, dimension)];
    }

    /**
     * `kicked`: the kick is always reported first. In the modular bridge a
     * reason mentioning "not whitelisted" or "banned" (any letter case) ends
     * the process with code 1; any other kick, and every kick in the
     * monolithic bridge, schedules a reconnect.
     */
    method Kick(reason: string)
      requires halted.None?
      modifies this`reconnecting, this`attempts, this`reconnectTimers, this`trace, this`halted
      ensures |trace| > |old(trace)| && trace[|old(trace)|] == Kicked(reason)
      ensures !legacy && Reconnect.IsFatalKick(reason) ==>
        halted == Some(Exited(1)) && trace == old(trace) + [Kicked(reason)] &&
        attempts == old(attempts) && reconnecting == old(reconnecting) && reconnectTimers == old(reconnectTimers)
      ensures legacy || !Reconnect.IsFatalKick(reason) ==> Rescheduled([Kicked(reason)])
    {
      trace := trace + [Kicked(reason)];
      if !legacy && Reconnect.IsFatalKick(reason) {
        halted := Some(Exited(1));
        return;
      }
      ScheduleReconnect();
    }

    /**
     * `end`: `disconnected` is sent (reason or "unknown"), then the
     * disconnect cleanup runs (goal handles, queue, cancel flag, movement
     * timer), then `scheduleReconnect`.
     */
    method End(reason: Option<string>)
      requires Valid() && halted.None?
      modifies this`goals, this`registry, this`pending, this`busy, this`epoch, this`owner, this`corrupted,
        this`digCancelled, this`movementTimer, this`reconnecting, this`attempts, this`reconnectTimers,
        this`trace, this`halted
      ensures Valid()
      ensures registry == [] && goals.Keys == old(goals).Keys && (forall h :: h in goals ==> goals[h].resolved)
      ensures pending == [] && !busy && digCancelled && movementTimer == None && !corrupted
      ensures settles == old(settles) && epoch == old(epoch) + 1
      ensures var shown := if reason.Some? && reason.value != "" then reason.value else "unknown";
        Rescheduled([Disconnected(shown)])
    {
      var shown := if reason.Some? && reason.value != "" then reason.value else "unknown";
      // `cleanupOnDisconnect` runs between the two in the handler; it writes nothing and
      // shares no state with `scheduleReconnect`, so the order is not observable
      ReportEnd(shown);
      CleanupOnDisconnect();
    }

    /**
     * What `scheduleReconnect` did after `sent` was written: an attempt in
     * progress leaves everything as it was; otherwise the attempt count goes
     * up and either the next attempt is scheduled with its backoff or, past
     * the last attempt, the process exits with status 1.
     */
    twostate predicate Rescheduled(sent: seq<Event>)
      reads this`reconnecting, this`attempts, this`reconnectTimers, this`trace, this`halted
    {
      (old(reconnecting) ==>
        reconnecting && attempts == old(attempts) && reconnectTimers == old(reconnectTimers) &&
        trace == old(trace) + sent && halted == old(halted)) &&
      (!old(reconnecting) ==> reconnecting && attempts == old(attempts) + 1) &&
      (!old(reconnecting) && attempts <= Reconnect.MaxReconnectAttempts ==>
        trace == old(trace) + sent + [Reconnecting(attempts, Reconnect.Backoff(attempts))] &&
        halted == old(halted) && reconnectTimers == old(reconnectTimers) + 1) &&
      (!old(reconnecting) && attempts > Reconnect.MaxReconnectAttempts ==>
        trace == old(trace) + sent + [Error(None, Text(ReconnectExhausted))] &&
        halted == Some(Exited(1)) && reconnectTimers == old(reconnectTimers))
    }

    /** The `end` handler's `disconnected` event, then `scheduleReconnect`. */
    method ReportEnd(shown: string)
      requires halted.None?
      modifies this`reconnecting, this`attempts, this`reconnectTimers, this`trace, this`halted
      ensures Rescheduled([Disconnected(shown)])
    {
      trace := trace + [Disconnected(shown)];
      ScheduleReconnect();
    }

    /**
     * `cleanupOnDisconnect`: goal handles, then the queue, then the walk's
     * cancel flag, then the movement timer.
     */
    method CleanupOnDisconnect()
      requires Base()
      modifies this`goals, this`registry, this`pending, this`busy, this`epoch, this`owner, this`corrupted,
        this`digCancelled, this`movementTimer
      ensures Valid()
      ensures registry == [] && goals.Keys == old(goals).Keys && (forall h :: h in goals ==> goals[h].resolved)
      ensures pending == [] && !busy && digCancelled && movementTimer == None
      ensures epoch == old(epoch) + 1 && !corrupted
    {
      CleanupAllGoals();
      ClearQueue();
      SetDigAreaCancelled(true);
      CleanupMovement();
    }

    /** Chat and whisper from other players are forwarded; the modular bridge drops the bot's own whispers too. */
    method IncomingChat(username: string, message: string)
      modifies this`trace
      ensures username != selfName ==> trace == old(trace) + [Chat(username, message)]
      ensures username == selfName ==> trace == old(trace)
    {
      if username == selfName {
        return;
      }
      trace := trace + [Chat(username, message)];
    }

    /** A whisper; only the modular bridge filters the bot's own. */
    method IncomingWhisper(username: string, message: string)
      modifies this`trace
      ensures username != selfName || legacy ==> trace == old(trace) + [Whisper(username, message)]
      ensures username == selfName && !legacy ==> trace == old(trace)
    {
      if !legacy && username == selfName {
        return;
      }
      trace := trace + [Whisper(username, message)];
    }

    /** `death` is only reported: no cleanup and no reconnect. */
    method Died()
      modifies this`trace
      ensures trace == old(trace) + [Death]
    {
      trace := trace + [Death];
    }

    /** A library `error` event is only reported. */
    method LibraryError(message: string)
      modifies this`trace
      ensures trace == old(trace) + [BotError(message)]
    {
      trace := trace + [BotError(message)];
    }

    // -------------------------------------------------------------------
    // Properties of the state
    // -------------------------------------------------------------------

    /**
     * Between two `clearQueue` calls, unless a stale continuation called
     * done, at most one continuation of the current epoch is outstanding,
     * and it is exactly the lane's holder.
     */
    lemma SingleFlight()
      requires Valid() && !corrupted
      ensures !busy ==> pending == [] && NoCurrentWork()
      ensures forall h1, h2 ::
        (h1 in goals && h2 in goals && !goals[h1].resolved && !goals[h2].resolved &&
         goals[h1].epoch == epoch && goals[h2].epoch == epoch) ==> h1 == h2
      ensures forall h, s :: h in goals && s in settles && !goals[h].resolved && goals[h].epoch == epoch ==>
        settles[s].epoch < epoch
      ensures CurrentTimer() ==> forall s :: s in settles ==> settles[s].epoch < epoch
    {
    }
  }
}
