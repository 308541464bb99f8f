/**
 * Commands as the bridge receives them, their static split into sync and
 * exclusive actions, the dispatch table, and the pure parts of the action
 * handlers: the `place` face lookup, the `dig_area` dimension clamps and
 * target list, the synchronous scan of the `dig_area` walk, and the
 * `drop_item` amount.
 */
module Commands {
  import opened JsValues

  // ---------------------------------------------------------------------
  // Classification and dispatch
  // ---------------------------------------------------------------------

  /** `SYNC_ACTIONS`: run at once, whether or not an exclusive action is in flight. */
  const SyncActions: seq<string> :=
    ["chat", "whisper", "position", "inventory", "players",
     "look", "jump", "sneak", "status", "survey", "stop", "quit"]

  /** `s` is one of the strings of `l`. */
  predicate Listed(l: seq<string>, s: string)
    decreases |l|
  {
    l != [] && (l[0] == s || Listed(l[1..], s))
  }

  /** `cmd.action` of a parsed command. */
  function ActionOf(cmd: JsValue): JsValue {
    Field(cmd, "action")
  }

  lemma {:induction false} ListedMeansIn(l: seq<string>, s: string)
    ensures Listed(l, s) <==> s in l
    decreases |l|
  {
    if l != [] {
      ListedMeansIn(l[1..], s);
      assert l == [l[0]] + l[1..];
    }
  }

  /** `SYNC_ACTIONS.has(cmd.action)`: only a string can be a member of the set. */
  predicate IsSync(cmd: JsValue) {
    ActionOf(cmd).Str? && Listed(SyncActions, ActionOf(cmd).s)
  }

  /** The cases of `executeCommand`'s switch. */
  datatype Handler =
    | HChat | HWhisper
    | HMove | HGoto | HFollow | HLook | HJump | HSneak | HStop
    | HAttack
    | HInventory | HPosition | HPlayers | HStatus | HSurvey
    | HDig | HDigLookingAt | HDigArea | HFindAndDig | HPlace | HActivateBlock
    | HEquip | HCraft | HDrop | HDropItem | HDropAll
    | HUseItem | HDeactivateItem | HSleep | HWake
    | HQuit
    | HUnknown

  /** The string cases of the modular bridge's `switch (cmd.action)`. */
  function SwitchCase(action: string): Handler {
    match action
    case "chat" => HChat
    case "whisper" => HWhisper
    case "move" => HMove
    case "goto" => HGoto
    case "follow" => HFollow
    case "look" => HLook
    case "jump" => HJump
    case "sneak" => HSneak
    case "stop" => HStop
    case "attack" => HAttack
    case "inventory" => HInventory
    case "position" => HPosition
    case "players" => HPlayers
    case "status" => HStatus
    case "survey" => HSurvey
    case "dig" => HDig
    case "dig_looking_at" => HDigLookingAt
    case "dig_area" => HDigArea
    case "find_and_dig" => HFindAndDig
    case "place" => HPlace
    case "activate_block" => HActivateBlock
    case "equip" => HEquip
    case "craft" => HCraft
    case "drop" => HDrop
    case "drop_item" => HDropItem
    case "drop_all" => HDropAll
    case "use_item" => HUseItem
    case "deactivate_item" => HDeactivateItem
    case "sleep" => HSleep
    case "wake" => HWake
    case "quit" => HQuit
    case _ => HUnknown
  }

  /**
   * The case `switch (cmd.action)` selects (strict equality, so only strings
   * match). The monolithic bridge has no `drop_item` and `drop_all` cases.
   */
  function HandlerFor(action: JsValue, legacy: bool): (h: Handler)
    ensures h != HUnknown ==> action == Str(CaseLabel(h)) && HasCase(h, legacy)
  {
    if !action.Str? then HUnknown
    else if legacy && (action.s == "drop_item" || action.s == "drop_all") then HUnknown
    else SwitchCase(action.s)
  }

  /** The `case` label under which each handler stands in the switch. */
  function CaseLabel(h: Handler): string {
    match h
    case HChat => "chat"
    case HWhisper => "whisper"
    case HMove => "move"
    case HGoto => "goto"
    case HFollow => "follow"
    case HLook => "look"
    case HJump => "jump"
    case HSneak => "sneak"
    case HStop => "stop"
    case HAttack => "attack"
    case HInventory => "inventory"
    case HPosition => "position"
    case HPlayers => "players"
    case HStatus => "status"
    case HSurvey => "survey"
    case HDig => "dig"
    case HDigLookingAt => "dig_looking_at"
    case HDigArea => "dig_area"
    case HFindAndDig => "find_and_dig"
    case HPlace => "place"
    case HActivateBlock => "activate_block"
    case HEquip => "equip"
    case HCraft => "craft"
    case HDrop => "drop"
    case HDropItem => "drop_item"
    case HDropAll => "drop_all"
    case HUseItem => "use_item"
    case HDeactivateItem => "deactivate_item"
    case HSleep => "sleep"
    case HWake => "wake"
    case HQuit => "quit"
    case HUnknown => "default"
  }

  /** The switch of the given bridge has a labelled case for `h`. */
  predicate HasCase(h: Handler, legacy: bool) {
    h != HUnknown && !(legacy && (h == HDropItem || h == HDropAll))
  }

  /**
   * Every labelled case is reached, and only reached, by its own label:
   * together with `HandlerFor`'s contract, an action selects a case exactly
   * when it is that case's label, and every other value falls to `default`.
   */
  lemma {:induction false} CaseReachedByItsLabel(g: Handler, action: JsValue, legacy: bool)
    requires HasCase(g, legacy)
    ensures HandlerFor(action, legacy) == g <==> action == Str(CaseLabel(g))
  {
    if action == Str(CaseLabel(g)) {
      LabelSelectsCase(g);
    }
  }

  lemma LabelSelectsCase(g: Handler)
    requires g != HUnknown
    ensures SwitchCase(CaseLabel(g)) == g
  {
    match g
    case HChat =>
    case HWhisper =>
    case HMove =>
    case HGoto =>
    case HFollow =>
    case HLook =>
    case HJump =>
    case HSneak =>
    case HStop =>
    case HAttack =>
    case HInventory =>
    case HPosition =>
    case HPlayers =>
    case HStatus =>
    case HSurvey =>
    case HDig =>
    case HDigLookingAt =>
    case HDigArea =>
    case HFindAndDig =>
    case HPlace =>
    case HActivateBlock =>
    case HEquip =>
    case HCraft =>
    case HDrop =>
    case HDropItem =>
    case HDropAll =>
    case HUseItem =>
    case HDeactivateItem =>
    case HSleep =>
    case HWake =>
    case HQuit =>
  }

  /** The two bridges dispatch alike except that `drop_item` and `drop_all` are unknown to the monolithic one. */
  lemma VariantsDispatchAlike(action: JsValue)
    ensures HandlerFor(action, true) != HandlerFor(action, false) <==>
      action == Str("drop_item") || action == Str("drop_all")
  {
  }

  /** The handlers that run outside the exclusive lane and never call `done`. */
  predicate SyncHandler(h: Handler) {
    match h
    case HChat | HWhisper | HPosition | HInventory | HPlayers | HLook | HJump | HSneak | HStatus | HSurvey | HStop | HQuit => true
    case _ => false
  }

  /**
   * The sync set and the table agree: an action is sync exactly when its
   * handler is one of the sync handlers. In particular an unknown action is
   * never sync, so the default case always calls `done`.
   */
  lemma SyncSetMatchesTable(cmd: JsValue, legacy: bool)
    ensures IsSync(cmd) <==> SyncHandler(HandlerFor(ActionOf(cmd), legacy))
    ensures HandlerFor(ActionOf(cmd), legacy) == HUnknown ==> !IsSync(cmd)
  {
    if ActionOf(cmd).Str? {
      var s := ActionOf(cmd).s;
      ListedMeansIn(SyncActions, s);
      if s in SyncActions {
        SyncActionsHaveSyncCases(s);
      }
      if SyncHandler(SwitchCase(s)) {
        SyncCasesAreSyncActions(s);
      }
    }
  }

  lemma SyncActionsHaveSyncCases(s: string)
    requires s in SyncActions
    ensures SyncHandler(SwitchCase(s)) && s != "drop_item" && s != "drop_all"
  {
    var i :| 0 <= i < |SyncActions| && SyncActions[i] == s;
  }

  lemma SyncCasesAreSyncActions(s: string)
    requires SyncHandler(SwitchCase(s))
    ensures s in SyncActions
  {
  }

  // ---------------------------------------------------------------------
  // Positions and blocks
  // ---------------------------------------------------------------------

  /** A block position after `new Vec3(...)` has coerced the coordinates. */
  datatype Pos = Pos(x: real, y: real, z: real)

  /** `bot.blockAt(pos)`: no block (chunk not loaded), or a block with its name. */
  datatype Block = NoBlock | Block(name: string)

  /** `bot.blockAt(pos)` over the loaded blocks, by name: a position outside them is no block. */
  function BlockIn(loaded: map<Pos, string>, p: Pos): Block {
    if p in loaded then Block(loaded[p]) else NoBlock
  }

  /** `!block || block.name === 'air'`: the test of `dig`, `dig_looking_at` and `find_and_dig`. */
  predicate NothingToDig(b: Block) {
    b.NoBlock? || b.name == "air"
  }

  /** The stricter test of the `dig_area` walk, which also skips `cave_air`. */
  predicate AlreadyClear(b: Block) {
    b.NoBlock? || b.name == "air" || b.name == "cave_air"
  }

  // ---------------------------------------------------------------------
  // place: face selection
  // ---------------------------------------------------------------------

  /** A face vector handed to `placeBlock`. */
  datatype Vec = Vec(x: JsValue, y: JsValue, z: JsValue)

  const Top: Vec := Vec(Int(0), Int(1), Int(0))

  const FaceVectors: map<string, Vec> := map[
    "top" := Top,
    "bottom" := Vec(Int(0), Int(-1), Int(0)),
    "north" := Vec(Int(0), Int(0), Int(-1)),
    "south" := Vec(Int(0), Int(0), Int(1)),
    "east" := Vec(Int(1), Int(0), Int(0)),
    "west" := Vec(Int(-1), Int(0), Int(0))]

  /** Property names every plain object inherits from `Object.prototype`; each reads as a truthy value. */
  const PrototypeMembers: set<string> :=
    {"constructor", "__proto__", "toString", "toLocaleString", "valueOf", "hasOwnProperty",
     "isPrototypeOf", "propertyIsEnumerable", "__defineGetter__", "__defineSetter__",
     "__lookupGetter__", "__lookupSetter__"}

  /** What `faceVectors[face] || ...` can produce: a vector, or an inherited prototype member. */
  datatype FaceChoice = Vector(v: Vec) | Inherited(member: string)

  /**
   * The face lookup as written: a string indexes the plain object
   * `faceVectors`, so a prototype member name finds the inherited member
   * (truthy) instead of falling back to `top`.
   */
  function FaceLookupAsWritten(face: JsValue): (c: FaceChoice)
    ensures face.Str? && face.s in FaceVectors ==> c == Vector(FaceVectors[face.s])
    ensures face.Str? && face.s in PrototypeMembers ==> c == Inherited(face.s)
    ensures c.Inherited? ==> face.Str? && face.s in PrototypeMembers
  {
    if face.Str? then
      if face.s in FaceVectors then Vector(FaceVectors[face.s])
      else if face.s in PrototypeMembers then Inherited(face.s)
      else Vector(Top)
    else if Truthy(face) && Field(face, "fx") != Undefined then
      Vector(Vec(Field(face, "fx"), Field(face, "fy"), Field(face, "fz")))
    else Vector(Top)
  }

  /**
   * The face vector `place` evidently intends: a known face name gives its
   * vector, any other string or a missing face gives `top`, and an object
   * with an `fx` property gives `(fx, fy, fz)`.
   */
  function FaceVector(face: JsValue): (v: Vec)
    ensures face.Str? ==> v == if face.s in FaceVectors then FaceVectors[face.s] else Top
    ensures face.Obj? && Field(face, "fx") != Undefined ==>
      v == Vec(Field(face, "fx"), Field(face, "fy"), Field(face, "fz"))
    ensures !face.Str? && Field(face, "fx") == Undefined ==> v == Top
  {
    if face.Str? then
      if face.s in FaceVectors then FaceVectors[face.s] else Top
    else if Truthy(face) && Field(face, "fx") != Undefined then
      Vec(Field(face, "fx"), Field(face, "fy"), Field(face, "fz"))
    else Top
  }

  /** The two lookups agree on every face except the prototype member names. */
  lemma FaceLookupAgreesOffPrototype(face: JsValue)
    requires !(face.Str? && face.s in PrototypeMembers)
    ensures FaceLookupAsWritten(face) == Vector(FaceVector(face))
  {
  }

  /** The discrepancy: `face: "toString"` reaches `placeBlock` as a function, not the top vector. */
  lemma FaceLookupPrototypeLeak()
    ensures FaceLookupAsWritten(Str("toString")) == Inherited("toString")
    ensures FaceVector(Str("toString")) == Top
  {
  }

  // ---------------------------------------------------------------------
  // dig_area: dimensions and the ordered target list
  // ---------------------------------------------------------------------

  /** `Math.min(v || dflt, cap)`. */
  function ClampDim(v: JsValue, dflt: int, cap: int): (n: JsNum)
    requires dflt <= cap
    ensures n != PosInf
    ensures !Truthy(v) ==> n == Finite(dflt as real)
    ensures v.Num? && v.n.Finite? && v.n.r != 0.0 ==>
      n == Finite(if v.n.r <= cap as real then v.n.r else cap as real)
    ensures n.Finite? ==> n.r <= cap as real
  {
    JsMin(ToNumber(OrElse(v, Int(dflt))), Finite(cap as real))
  }

  /** `w = Math.min(width || 5, 20)` and its two siblings. */
  function Width(cmd: JsValue): JsNum { ClampDim(Field(cmd, "width"), 5, 20) }
  function Height(cmd: JsValue): JsNum { ClampDim(Field(cmd, "height"), 3, 10) }
  function Depth(cmd: JsValue): JsNum { ClampDim(Field(cmd, "depth"), 5, 20) }

  /** The JavaScript comparison `k < n` for a loop counter `k`. */
  predicate Below(k: nat, n: JsNum) {
    match n
    case Finite(r) => (k as real) < r
    case NaN => false
    case PosInf => true
    case NegInf => false
  }

  /** The number of rounds of `for (let k = 0; k < n; k++)`. */
  function UpCount(n: JsNum): nat
    requires n != PosInf
  {
    if n.Finite? && n.r > 0.0 then -((-n.r).Floor) else 0
  }

  /** The number of rounds of `for (let k = n - 1; k >= 0; k--)`. */
  function DownCount(n: JsNum): nat {
    if n.Finite? && n.r >= 1.0 then n.r.Floor else 0
  }

  /** The counting loop runs exactly `UpCount(n)` rounds: its test holds just below that bound. */
  lemma UpCountBound(k: nat, n: JsNum)
    requires n != PosInf
    ensures Below(k, n) <==> k < UpCount(n)
  {
    if n.Finite? && n.r > 0.0 {
      var c := -((-n.r).Floor);
      assert (c - 1) as real < n.r <= c as real;
    }
  }

  /** The descending loop runs exactly `DownCount(n)` rounds. */
  lemma DownCountBound(k: nat, n: JsNum)
    requires n.Finite?
    ensures n.r - 1.0 - (k as real) >= 0.0 <==> k < DownCount(n)
  {
  }

  /** For an integer dimension both loops run `max(0, n)` rounds. */
  lemma IntegerDimCounts(n: int)
    ensures UpCount(Finite(n as real)) == if n > 0 then n else 0
    ensures DownCount(Finite(n as real)) == if n > 0 then n else 0
  {
  }

  /** One `dz` row: fixed `dx` and `dy`, `dz` counting up from 0. */
  function Row(a: Pos, dy: real, dx: nat, nd: nat): seq<Pos> {
    seq(nd, dz requires 0 <= dz => Pos(a.x + dx as real, a.y + dy, a.z + dz as real))
  }

  /** The `dx` rows of one layer, `dx` counting up from 0. */
  function Rows(a: Pos, dy: real, nw: nat, nd: nat): seq<Pos> {
    if nw == 0 then [] else Rows(a, dy, nw - 1, nd) + Row(a, dy, nw - 1, nd)
  }

  /** The first `nh` layers, top first: layer `k` has `dy = h - 1 - k`. */
  function Layers(a: Pos, h: real, nh: nat, nw: nat, nd: nat): seq<Pos> {
    if nh == 0 then [] else Layers(a, h, nh - 1, nw, nd) + Rows(a, h - 1.0 - (nh - 1) as real, nw, nd)
  }

  /** The target list `digArea` pushes for anchor `a` and dimensions `w`, `h`, `d`. */
  function AreaTargets(a: Pos, w: JsNum, h: JsNum, d: JsNum): seq<Pos>
    requires w != PosInf && d != PosInf
  {
    Layers(a, if h.Finite? then h.r else 0.0, DownCount(h), UpCount(w), UpCount(d))
  }

  /**
   * The nested loops of `digArea` that build `blocks`: `dy` from `h - 1`
   * down to 0, then `dx` from 0 below `w`, then `dz` from 0 below `d`.
   */
  method BuildTargets(a: Pos, w: JsNum, h: JsNum, d: JsNum) returns (blocks: seq<Pos>)
    requires w != PosInf && h != PosInf && d != PosInf
    ensures blocks == AreaTargets(a, w, h, d)
  {
    blocks := [];
    if !h.Finite? {
      // NaN - 1 >= 0 and -Infinity >= 0 are both false: no round at all
      return;
    }
    var nw, nd := UpCount(w), UpCount(d);
    var dy := h.r - 1.0;
    ghost var ky: nat := 0;
    DownCountBound(0, h);
    while dy >= 0.0
      invariant dy == h.r - 1.0 - ky as real
      invariant ky <= DownCount(h)
      invariant blocks == Layers(a, h.r, ky, nw, nd)
      decreases DownCount(h) - ky
    {
      DownCountBound(ky, h);
      var dx: nat := 0;
      UpCountBound(0, w);
      while Below(dx, w)
        invariant dx <= nw
        invariant blocks == Layers(a, h.r, ky, nw, nd) + Rows(a, dy, dx, nd)
        decreases nw - dx
      {
        UpCountBound(dx, w);
        var dz: nat := 0;
        UpCountBound(0, d);
        while Below(dz, d)
          invariant dz <= nd
          invariant blocks == Layers(a, h.r, ky, nw, nd) + Rows(a, dy, dx, nd) + Row(a, dy, dx, nd)[..dz]
          decreases nd - dz
        {
          UpCountBound(dz, d);
          blocks := blocks + [Pos(a.x + dx as real, a.y + dy, a.z + dz as real)];
          dz := dz + 1;
          UpCountBound(dz, d);
        }
        assert Row(a, dy, dx, nd)[..dz] == Row(a, dy, dx, nd);
        dx := dx + 1;
        UpCountBound(dx, w);
      }
      dy := dy - 1.0;
      ky := ky + 1;
      DownCountBound(ky, h);
    }
  }

  lemma {:induction false} RowsLength(a: Pos, dy: real, nw: nat, nd: nat)
    ensures |Rows(a, dy, nw, nd)| == nw * nd
  {
    if nw > 0 {
      RowsLength(a, dy, nw - 1, nd);
    }
  }

  lemma {:induction false} LayersLength(a: Pos, h: real, nh: nat, nw: nat, nd: nat)
    ensures |Layers(a, h, nh, nw, nd)| == nh * (nw * nd)
  {
    if nh > 0 {
      LayersLength(a, h, nh - 1, nw, nd);
      RowsLength(a, h - 1.0 - (nh - 1) as real, nw, nd);
      var m := nw * nd;
      assert nh * m == (nh - 1) * m + m;
    }
  }

  /** `k * m + j` with `j < m` lies below `n * m` whenever `k < n`. */
  lemma MulIndexBelow(k: nat, n: nat, m: nat, j: nat)
    requires k < n && j < m
    ensures k * m + j < n * m
  {
    assert (k + 1) * m <= n * m by {
      var q := n - (k + 1);
      assert n * m == (k + 1) * m + q * m;
    }
  }

  lemma {:induction false} RowsAt(a: Pos, dy: real, nw: nat, nd: nat, dx: nat, dz: nat)
    requires dx < nw && dz < nd
    ensures dx * nd + dz < |Rows(a, dy, nw, nd)|
    ensures Rows(a, dy, nw, nd)[dx * nd + dz] == Pos(a.x + dx as real, a.y + dy, a.z + dz as real)
  {
    RowsLength(a, dy, nw, nd);
    MulIndexBelow(dx, nw, nd, dz);
    RowsLength(a, dy, nw - 1, nd);
    if dx < nw - 1 {
      RowsAt(a, dy, nw - 1, nd, dx, dz);
    } else {
      assert dx * nd + dz == (nw - 1) * nd + dz;
    }
  }

  lemma {:induction false} LayersAt(a: Pos, h: real, nh: nat, nw: nat, nd: nat, ky: nat, dx: nat, dz: nat)
    requires ky < nh && dx < nw && dz < nd
    ensures ky * (nw * nd) + (dx * nd + dz) < |Layers(a, h, nh, nw, nd)|
    ensures Layers(a, h, nh, nw, nd)[ky * (nw * nd) + (dx * nd + dz)]
         == Pos(a.x + dx as real, a.y + (h - 1.0 - ky as real), a.z + dz as real)
  {
    var m := nw * nd;
    var j := dx * nd + dz;
    MulIndexBelow(dx, nw, nd, dz);
    LayersLength(a, h, nh, nw, nd);
    MulIndexBelow(ky, nh, m, j);
    LayersLength(a, h, nh - 1, nw, nd);
    if ky < nh - 1 {
      LayersAt(a, h, nh - 1, nw, nd, ky, dx, dz);
    } else {
      assert ky * m + j == (nh - 1) * m + j;
      RowsAt(a, h - 1.0 - (nh - 1) as real, nw, nd, dx, dz);
    }
  }

  /** The index of offset `(dx, ky, dz)` in a list of `nw * nd` entries per layer. */
  function LayerIndex(nw: nat, nd: nat, ky: nat, dx: nat, dz: nat): nat {
    ky * (nw * nd) + (dx * nd + dz)
  }

  /** The list `ts` has an entry at index `k`, and it is `p`. */
  ghost predicate TargetAt(ts: seq<Pos>, k: nat, p: Pos) {
    k < |ts| && ts[k] == p
  }

  /**
   * The shape of the `dig_area` target list: its length is the product of
   * the three loop counts, and the entry at index `(ky * nw + dx) * nd + dz`
   * is the anchor offset by `(dx, h - 1 - ky, dz)`: top layer first, then by
   * `dx`, then by `dz`.
   */
  lemma {:induction false} AreaTargetsShape(a: Pos, w: JsNum, h: JsNum, d: JsNum, ky: nat, dx: nat, dz: nat)
    requires w != PosInf && d != PosInf
    ensures |AreaTargets(a, w, h, d)| == DownCount(h) * (UpCount(w) * UpCount(d))
    ensures ky < DownCount(h) && dx < UpCount(w) && dz < UpCount(d) ==>
      h.Finite? &&
      TargetAt(AreaTargets(a, w, h, d), LayerIndex(UpCount(w), UpCount(d), ky, dx, dz),
        Pos(a.x + dx as real, a.y + (h.r - 1.0 - ky as real), a.z + dz as real))
  {
    var hr := if h.Finite? then h.r else 0.0;
    var nh, nw, nd := DownCount(h), UpCount(w), UpCount(d);
    assert AreaTargets(a, w, h, d) == Layers(a, hr, nh, nw, nd);
    LayersShape(a, hr, nh, nw, nd, ky, dx, dz);
    if ky < nh && dx < nw && dz < nd {
      assert h.Finite? && hr == h.r;
    }
  }

  lemma {:induction false} LayersShape(a: Pos, hr: real, nh: nat, nw: nat, nd: nat, ky: nat, dx: nat, dz: nat)
    ensures |Layers(a, hr, nh, nw, nd)| == nh * (nw * nd)
    ensures ky < nh && dx < nw && dz < nd ==>
      TargetAt(Layers(a, hr, nh, nw, nd), LayerIndex(nw, nd, ky, dx, dz),
        Pos(a.x + dx as real, a.y + (hr - 1.0 - ky as real), a.z + dz as real))
  {
    LayersLength(a, hr, nh, nw, nd);
    if ky < nh && dx < nw && dz < nd {
      LayersAt(a, hr, nh, nw, nd, ky, dx, dz);
    }
  }

  /**
   * With integer dimensions the list holds `max(0,w) * max(0,h) * max(0,d)`
   * positions; without any dimension given the defaults give 5 x 3 x 5.
   */
  lemma AreaTargetsCount(a: Pos, w: int, h: int, d: int)
    ensures |AreaTargets(a, Finite(w as real), Finite(h as real), Finite(d as real))|
         == (if h > 0 then h else 0) * ((if w > 0 then w else 0) * (if d > 0 then d else 0))
  {
    IntegerDimCounts(w);
    IntegerDimCounts(h);
    IntegerDimCounts(d);
    AreaTargetsShape(a, Finite(w as real), Finite(h as real), Finite(d as real), 0, 0, 0);
  }

  /**
   * The monolithic bridge pushes `{x: ax + dx, ...}` after a `validCoords`
   * that admits digit strings, so the anchor `x: "5"` gives the target
   * coordinate "51" at `dx = 1`, which reads back as 51, where the target
   * list `AreaTargets` has 5 + 1 = 6.
   */
  lemma LegacyStringAnchorJoinsText(a: Pos)
    ensures LegacyValidCoords(Str("5"), Int(64), Int(0))
    ensures PlusOffset(Str("5"), 1) == Str("51")
    ensures ToNumber(PlusOffset(Str("5"), 1)) == Finite(51.0)
    ensures |AreaTargets(a, Finite(5.0), Finite(3.0), Finite(5.0))| == 75
    ensures a.x == CoordValue(Str("5")) ==> AreaTargets(a, Finite(5.0), Finite(3.0), Finite(5.0))[5].x == 6.0
  {
    assert NatText(1) == "1";
    assert "5" + "1" == "51";
    assert DigitsValue("51") == 51 by {
      assert "51"[..1] == "5";
      assert DigitsValue("5") == 5 by { assert "5"[..0] == ""; }
    }
    IntegerDimCounts(5);
    IntegerDimCounts(3);
    AreaTargetsCount(a, 5, 3, 5);
    SecondRowX(a, Finite(5.0), Finite(3.0), Finite(5.0));
  }

  /** The entry after the first `dz` row is the first one with `dx = 1`. */
  lemma {:induction false} SecondRowX(a: Pos, w: JsNum, h: JsNum, d: JsNum)
    requires w != PosInf && d != PosInf
    requires UpCount(w) >= 2 && DownCount(h) >= 1 && UpCount(d) >= 1
    ensures UpCount(d) < |AreaTargets(a, w, h, d)|
    ensures AreaTargets(a, w, h, d)[UpCount(d)].x == a.x + 1.0
  {
    AreaTargetsShape(a, w, h, d, 0, 1, 0);
    assert LayerIndex(UpCount(w), UpCount(d), 0, 1, 0) == UpCount(d);
  }

  /** Without width, height and depth the clamps give the default 5 x 3 x 5 area. */
  lemma DefaultArea(cmd: JsValue, a: Pos)
    requires Field(cmd, "width") == Undefined && Field(cmd, "height") == Undefined && Field(cmd, "depth") == Undefined
    ensures Width(cmd) == Finite(5.0) && Height(cmd) == Finite(3.0) && Depth(cmd) == Finite(5.0)
    ensures |AreaTargets(a, Width(cmd), Height(cmd), Depth(cmd))| == 75
  {
    AreaTargetsCount(a, 5, 3, 5);
  }

  // ---------------------------------------------------------------------
  // dig_area: the synchronous part of one `digNext` call
  // ---------------------------------------------------------------------

  /** Where one synchronous run of `digNext` stops. */
  datatype Scan =
    | ScanCancelled(at: nat)   // the cancel flag was seen at this cursor
    | ScanFinished             // the cursor ran off the end of the list
    | ScanFound(at: nat)       // the first position at or after the cursor that is not already clear

  /**
   * `digNext(idx)` up to its first `await`: check the cancel flag, stop at
   * the end of the list, and skip (by calling itself at once) every position
   * whose block is missing, air or cave air. The flag cannot change during
   * this synchronous run, so it is only ever seen at the first cursor.
   */
  function WalkStep(blocks: seq<Pos>, idx: nat, cancelled: bool, loaded: map<Pos, string>): (s: Scan)
    requires idx <= |blocks|
    ensures cancelled <==> s == ScanCancelled(idx)
    ensures s.ScanCancelled? ==> s.at == idx
    ensures s == ScanFinished <==> !cancelled && forall j :: idx <= j < |blocks| ==> AlreadyClear(BlockIn(loaded, blocks[j]))
    ensures s.ScanFound? ==>
      idx <= s.at < |blocks| && !AlreadyClear(BlockIn(loaded, blocks[s.at])) &&
      forall j :: idx <= j < s.at ==> AlreadyClear(BlockIn(loaded, blocks[j]))
    decreases |blocks| - idx
  {
    if cancelled then ScanCancelled(idx)
    else if idx == |blocks| then ScanFinished
    else if !AlreadyClear(BlockIn(loaded, blocks[idx])) then ScanFound(idx)
    else WalkStep(blocks, idx + 1, cancelled, loaded)
  }

  /** `(idx + 1) % 10 === 0`: a progress ack follows the dig step at this cursor. */
  predicate ProgressDue(idx: nat) {
    (idx + 1) % 10 == 0
  }

  /**
   * The `reached` counts of the progress acks a walk sends from cursor
   * `idx` on, while nothing cancels it, over a world that does not change
   * during the walk (every block stays as `loaded` shows it): each dig step
   * at a cursor where `ProgressDue` holds sends one, and a skipped position
   * sends none. A block that is cleared while the bot approaches it is
   * skipped by the second read in the dig step and still gets its progress
   * ack; this function does not describe that case.
   */
  function ProgressReports(blocks: seq<Pos>, idx: nat, loaded: map<Pos, string>): seq<nat>
    requires idx <= |blocks|
    decreases |blocks| - idx
  {
    match WalkStep(blocks, idx, false, loaded)
    case ScanFound(k) => (if ProgressDue(k) then [k + 1] else []) + ProgressReports(blocks, k + 1, loaded)
    case _ => []
  }

  /**
   * `r` could be the progress reports of a walk from cursor `idx`: each
   * names a multiple of 10 within the list, one past a position that was
   * dug rather than skipped, and the counts increase.
   */
  ghost predicate DugReports(r: seq<nat>, blocks: seq<Pos>, idx: nat, loaded: map<Pos, string>) {
    (forall j :: 0 <= j < |r| ==>
      idx < r[j] <= |blocks| && r[j] % 10 == 0 && !AlreadyClear(BlockIn(loaded, blocks[r[j] - 1]))) &&
    (forall j :: 0 < j < |r| ==> r[j - 1] < r[j])
  }

  /**
   * Over a world that does not change during the walk, skipped positions
   * never get a progress ack, and the acks come in increasing order.
   */
  lemma {:induction false} ProgressReportsDug(blocks: seq<Pos>, idx: nat, loaded: map<Pos, string>)
    requires idx <= |blocks|
    ensures DugReports(ProgressReports(blocks, idx, loaded), blocks, idx, loaded)
    decreases |blocks| - idx
  {
    var s := WalkStep(blocks, idx, false, loaded);
    if s.ScanFound? {
      var k := s.at;
      ProgressReportsDug(blocks, k + 1, loaded);
      var rest := ProgressReports(blocks, k + 1, loaded);
      if ProgressDue(k) {
        assert ProgressReports(blocks, idx, loaded) == [k + 1] + rest;
        DugReportsCons(k + 1, rest, blocks, idx, loaded);
      } else {
        assert ProgressReports(blocks, idx, loaded) == rest;
        DugReportsFrom(rest, blocks, idx, k + 1, loaded);
      }
    } else {
      assert ProgressReports(blocks, idx, loaded) == [];
    }
  }

  /** Reports dug after cursor `m` are dug after any earlier cursor. */
  lemma DugReportsFrom(r: seq<nat>, blocks: seq<Pos>, idx: nat, m: nat, loaded: map<Pos, string>)
    requires idx <= m && DugReports(r, blocks, m, loaded)
    ensures DugReports(r, blocks, idx, loaded)
  {
  }

  /** Putting the report `m` in front of later reports keeps them dug and increasing. */
  lemma DugReportsCons(m: nat, rest: seq<nat>, blocks: seq<Pos>, idx: nat, loaded: map<Pos, string>)
    requires idx < m <= |blocks| && m % 10 == 0 && !AlreadyClear(BlockIn(loaded, blocks[m - 1]))
    requires DugReports(rest, blocks, m, loaded)
    ensures DugReports([m] + rest, blocks, idx, loaded)
  {
    var r := [m] + rest;
    assert forall j :: 0 < j < |r| ==> r[j] == rest[j - 1];
  }

  /**
   * A walk over positions none of which is already clear sends a progress
   * ack at every tenth position: from cursor `idx` on, the acks report
   * 10 * (idx / 10 + 1), 10 * (idx / 10 + 2), ... up to the last multiple
   * of 10 within the list. From cursor 0 that is `|blocks| / 10` acks
   * reporting 10, 20, 30, ...
   */
  lemma {:induction false} ProgressReportsUncleared(blocks: seq<Pos>, idx: nat, loaded: map<Pos, string>)
    requires idx <= |blocks|
    ensures (forall j :: idx <= j < |blocks| ==> !AlreadyClear(BlockIn(loaded, blocks[j]))) ==>
      var r := ProgressReports(blocks, idx, loaded);
      |r| == |blocks| / 10 - idx / 10 &&
      forall j :: 0 <= j < |r| ==> r[j] == 10 * (idx / 10 + j + 1)
    decreases |blocks| - idx
  {
    if (forall j :: idx <= j < |blocks| ==> !AlreadyClear(BlockIn(loaded, blocks[j]))) && idx < |blocks| {
      var s := WalkStep(blocks, idx, false, loaded);
      assert s == ScanFound(idx);
      ProgressReportsUncleared(blocks, idx + 1, loaded);
      var rest := ProgressReports(blocks, idx + 1, loaded);
      var r := ProgressReports(blocks, idx, loaded);
      if ProgressDue(idx) {
        assert (idx + 1) / 10 == idx / 10 + 1 && idx + 1 == 10 * (idx / 10 + 1);
        assert r == [idx + 1] + rest;
      } else {
        assert (idx + 1) / 10 == idx / 10;
        assert r == rest;
      }
    }
  }

  // ---------------------------------------------------------------------
  // drop_item: how many to toss
  // ---------------------------------------------------------------------

  /**
   * `count ? Math.min(count, item.count) : item.count`: a given count is
   * capped at the stack size; no count drops the whole stack.
   */
  function DropAmount(count: JsValue, stack: nat): (n: JsNum)
    ensures !Truthy(count) ==> n == Finite(stack as real)
    ensures count.Num? && count.n.Finite? && count.n.r != 0.0 ==>
      n == Finite(if count.n.r <= stack as real then count.n.r else stack as real)
    ensures n.Finite? ==> n.r <= stack as real
  {
    if Truthy(count) then JsMin(ToNumber(count), Finite(stack as real)) else Finite(stack as real)
  }
}
