/** The layer records of Galv's Layer Graphics and the meaning of its two
    plugin commands, `LAYER` (tiling layers, `REMOVE`, `REFRESH`) and
    `LAYER_S` (static layers), as functions from the old registry to the new
    one. The registry, `$gameMap.layerSettings`, maps a map id to a table
    from layer id to record. */
module LayerCommands {
  import opened Wrappers
  import opened JsNumber

  // ---------------------------------------------------------------------------
  // Tokens and the variable store
  // ---------------------------------------------------------------------------

  /** `$gameVariables`: the variables that are set, by id. */
  type VarStore = map<nat, real>

  /** `$gameVariables.value(id)`, which is `_data[id] || 0`: an id that is not
      a whole non-negative number never names a set variable. */
  function VarValue(vars: VarStore, id: Num): real {
    if id.Val? && id.v >= 0.0 && id.v.Floor as real == id.v && id.v.Floor as nat in vars
    then vars[id.v.Floor as nat]
    else 0.0
  }

  /** `Galv.LG.num(txt)`: a token starting with `v` names a variable (the
      text after the `v` is its id), any other token is a number. The value is
      read when the command runs; records keep values, never token text. */
  function Resolve(txt: string, vars: VarStore): (r: Num)
    ensures |txt| > 0 && txt[0] == 'v' ==> r.Val?
  {
    if |txt| > 0 && txt[0] == 'v' then Val(VarValue(vars, ToNumber(txt[1..])))
    else ToNumber(txt)
  }

  /** `v<k>` resolves to the current value of variable `k` (0 when unset). */
  lemma ResolveVariableToken(k: nat, vars: VarStore)
    ensures Resolve("v" + NatToString(k), vars) == Val(if k in vars then vars[k] else 0.0)
  {
    var t := "v" + NatToString(k);
    assert t[1..] == NatToString(k) == IntToString(k);
    ToNumberOfIntToString(k);
  }

  /** The decimal text of an integer resolves to that integer, whatever the
      variables hold. */
  lemma ResolveLiteralToken(n: int, vars: VarStore)
    ensures Resolve(IntToString(n), vars) == Val(n as real)
  {
    ToNumberOfIntToString(n);
  }

  /** Decimal text with a fraction, such as the anchor `0.5`, resolves to
      its value, whatever the variables hold. */
  lemma ResolveDecimalToken(a: string, b: string, vars: VarStore)
    requires |a| > 0 && AllDigits(a) && AllDigits(b)
    ensures Resolve(a + "." + b, vars) == Val(DecimalValue(a, b))
  {
    ToNumberOfDecimal(a, b);
    assert (a + "." + b)[0] == a[0];
  }

  /** `config[k]`, which is `undefined` past the end of the token list. */
  function Token(config: seq<string>, k: nat): Option<string> {
    if k < |config| then Some(config[k]) else None
  }

  /** `config[k] ? Galv.LG.num(config[k]) : 0`: a missing or empty optional
      token is 0. */
  function OptionalField(config: seq<string>, k: nat, vars: VarStore): Num {
    if k < |config| && config[k] != "" then Resolve(config[k], vars) else Val(0.0)
  }

  // ---------------------------------------------------------------------------
  // Records
  // ---------------------------------------------------------------------------

  /** The numeric properties a record may have. */
  datatype Field =
    | XSpeed | YSpeed | Opacity | Z | XShift | YShift | Blend | CurrentX | CurrentY
    | X | Y | XAnchor | YAnchor | Character | Rotate

  /** One layer record. `Removed` is the `{}` that `LAYER REMOVE` leaves (and
      `createLayer` reserves); `Residue` is a `{}` into which a tiling sprite
      has written `currentx = currenty = NaN`; `Tiling` is made by `LAYER`
      (and by `Galv.LG.bLayer` for battles); `Static`, which has
      `static: true`, by `LAYER_S`. */
  datatype Layer =
    | Removed
    | Residue
    | Tiling(graphic: string, xspeed: Num, yspeed: Num, opacity: Num, z: Num,
             xshift: Num, yshift: Num, blend: Num, currentx: Num, currenty: Num)
    | Static(graphic: string, x: Num, y: Num, opacity: Num, z: Num, blend: Num,
             xa: Num, ya: Num, character: Num, rotate: Num)
  {
    /** `Galv.LG.isEmpty(record)`: the record has no property at all, so
        every property reads as `undefined`. */
    predicate IsEmpty()
      ensures IsEmpty() ==> Graphic().None? && forall f :: Get(f) == NaN
    {
      Removed?
    }

    /** `record.graphic`, `undefined` where the record has none. */
    function Graphic(): Option<string> {
      if Tiling? || Static? then Some(graphic) else None
    }

    /** Reading a numeric property; a missing one reads as NaN. */
    function Get(f: Field): Num {
      match f
      case XSpeed => if Tiling? then xspeed else NaN
      case YSpeed => if Tiling? then yspeed else NaN
      case Opacity => if Tiling? || Static? then opacity else NaN
      case Z => if Tiling? || Static? then z else NaN
      case XShift => if Tiling? then xshift else NaN
      case YShift => if Tiling? then yshift else NaN
      case Blend => if Tiling? || Static? then blend else NaN
      case CurrentX => if Tiling? then currentx else NaN
      case CurrentY => if Tiling? then currenty else NaN
      case X => if Static? then x else NaN
      case Y => if Static? then y else NaN
      case XAnchor => if Static? then xa else NaN
      case YAnchor => if Static? then ya else NaN
      case Character => if Static? then character else NaN
      case Rotate => if Static? then rotate else NaN
    }
  }

  /** `$gameMap.layerSettings`: map id to layer id to record. */
  type Settings = map<Num, map<Num, Layer>>

  /** How a command ends: it changed the registry as it says, it asked the
      scene to rebuild its layer sprites, or it threw a TypeError (after
      whatever writes precede the throw). */
  datatype Outcome = Applied | Refreshed | Crashed

  predicate Present(s: Settings, m: Num, id: Num) {
    m in s && id in s[m]
  }

  /** `b` is `a` with at most the one record at `(m, id)` added or replaced:
      map `m` exists, every other map and every other layer of map `m` is as
      it was. */
  ghost predicate OnlyKeyChanged(a: Settings, b: Settings, m: Num, id: Num) {
    && b.Keys == a.Keys + {m}
    && (forall m' :: m' in a && m' != m ==> b[m'] == a[m'])
    && b[m].Keys == (if m in a then a[m].Keys else {}) + {id}
    && (forall k :: m in a && k in a[m] && k != id ==> b[m][k] == a[m][k])
  }

  /** `settings[m] = settings[m] || {}; settings[m][id] = settings[m][id] || {}`:
      a record is always truthy, so only a missing entry is filled, with `{}`. */
  function Reserve(s: Settings, m: Num, id: Num): (r: Settings)
    ensures Present(r, m, id)
    ensures r[m][id] == (if Present(s, m, id) then s[m][id] else Removed)
    ensures OnlyKeyChanged(s, r, m, id)
  {
    var s1 := if m in s then s else s[m := map[]];
    if id in s1[m] then s1 else s1[m := s1[m][id := Removed]]
  }

  // ---------------------------------------------------------------------------
  // LAYER <mapId> <id> <graphic> <xspeed> <yspeed> <opacity> <z> <xshift> <yshift> <blend>
  // ---------------------------------------------------------------------------

  /** The tiling-layer upsert of `Galv.LG.createLayer`. The map id and layer
      id must be present (`num(undefined)` throws before anything is written);
      after the key is reserved, each of the seven numeric tokens must be
      present too. The new record takes every field from the tokens except the
      scroll accumulators, which it takes from the record it replaces when that
      is a tiling record (NaN becoming 0); otherwise they start at 0. */
  function UpsertTiling(s: Settings, config: seq<string>, vars: VarStore): (r: (Outcome, Settings))
    ensures r.0 != Refreshed
    ensures r.0 == Applied <==> |config| >= 10
    ensures |config| < 2 ==> r.1 == s
    ensures |config| >= 2 ==>
      var m, id := Resolve(config[0], vars), Resolve(config[1], vars);
      && OnlyKeyChanged(s, r.1, m, id)
      && (|config| < 10 ==> r.1[m][id] == if Present(s, m, id) then s[m][id] else Removed)
    ensures |config| >= 10 ==>
      var m, id := Resolve(config[0], vars), Resolve(config[1], vars);
      var kept := Present(s, m, id) && s[m][id].Tiling?;
      var rec := r.1[m][id];
      && rec.Tiling?
      && rec.graphic == config[2]
      && rec.xspeed == Resolve(config[3], vars)
      && rec.yspeed == Resolve(config[4], vars)
      && rec.opacity == Resolve(config[5], vars)
      && rec.z == Resolve(config[6], vars)
      && rec.xshift == Resolve(config[7], vars)
      && rec.yshift == Resolve(config[8], vars)
      && rec.blend == Resolve(config[9], vars)
      && rec.currentx == (if kept then Val(OrZero(s[m][id].currentx)) else Val(0.0))
      && rec.currenty == (if kept then Val(OrZero(s[m][id].currenty)) else Val(0.0))
  {
    if |config| < 2 then (Crashed, s)
    else
      var m, id := Resolve(config[0], vars), Resolve(config[1], vars);
      var s2 := Reserve(s, m, id);
      if |config| < 10 then (Crashed, s2)
      else
        var prev := s2[m][id];
        var rec := Tiling(config[2], Resolve(config[3], vars), Resolve(config[4], vars),
                          Resolve(config[5], vars), Resolve(config[6], vars),
                          Resolve(config[7], vars), Resolve(config[8], vars),
                          Resolve(config[9], vars),
                          Val(OrZero(prev.Get(CurrentX))), Val(OrZero(prev.Get(CurrentY))));
        (Applied, s2[m := s2[m][id := rec]])
  }

  /** `LAYER REMOVE <mapId> <id>`: a truthy id tombstones that one layer
      (throwing when the map has no table yet); id 0 (or NaN) replaces the
      whole table of the map by `{}`. Both tokens must be present. */
  function RemoveLayer(s: Settings, config: seq<string>, vars: VarStore): (r: (Outcome, Settings))
    requires |config| >= 1 && config[0] == "REMOVE"
    ensures r.0 != Refreshed
    ensures r.0 == Crashed ==> r.1 == s
    ensures |config| < 3 ==> r.0 == Crashed
    ensures |config| >= 3 ==>
      var m, id := Resolve(config[1], vars), Resolve(config[2], vars);
      && (Truthy(id) && m !in s ==> r.0 == Crashed)
      && (Truthy(id) && m in s ==>
            r.0 == Applied && OnlyKeyChanged(s, r.1, m, id) && r.1[m][id] == Removed)
      && (!Truthy(id) ==>
            && r.0 == Applied
            && r.1.Keys == s.Keys + {m}
            && r.1[m] == map[]
            && (forall m' :: m' in s && m' != m ==> r.1[m'] == s[m']))
  {
    if |config| < 3 then (Crashed, s)
    else
      var m, id := Resolve(config[1], vars), Resolve(config[2], vars);
      if Truthy(id) then
        if m in s then (Applied, s[m := s[m][id := Removed]]) else (Crashed, s)
      else (Applied, s[m := map[]])
  }

  /** `Galv.LG.createLayer(config)`: the `LAYER` plugin command, dispatched on
      its first token. `REFRESH` only asks the scene to rebuild its sprites. */
  function LayerCommand(s: Settings, config: seq<string>, vars: VarStore): (r: (Outcome, Settings))
    ensures r.0 == Refreshed <==> |config| >= 1 && config[0] == "REFRESH"
    ensures r.0 == Refreshed ==> r.1 == s
    ensures r.0 == Crashed && |config| >= 1 && config[0] == "REMOVE" ==> r.1 == s
  {
    if |config| >= 1 && config[0] == "REFRESH" then (Refreshed, s)
    else if |config| >= 1 && config[0] == "REMOVE" then RemoveLayer(s, config, vars)
    else UpsertTiling(s, config, vars)
  }

  // ---------------------------------------------------------------------------
  // LAYER_S <mapId> <id> <graphic> <x> <y> <opacity> <z> <blend> [xa] [ya] [character] [rotate]
  // ---------------------------------------------------------------------------

  /** `Galv.LG.createLayerS(config)`: the static-layer upsert. Map id and layer
      id must be present, then (after the key is reserved) the five numeric
      tokens up to the blend mode. The record is built from the tokens alone:
      a missing or empty anchor, character or rotate token is 0. */
  function UpsertStatic(s: Settings, config: seq<string>, vars: VarStore): (r: (Outcome, Settings))
    ensures r.0 != Refreshed
    ensures r.0 == Applied <==> |config| >= 8
    ensures |config| < 2 ==> r.1 == s
    ensures |config| >= 2 ==>
      var m, id := Resolve(config[0], vars), Resolve(config[1], vars);
      && OnlyKeyChanged(s, r.1, m, id)
      && (|config| < 8 ==> r.1[m][id] == if Present(s, m, id) then s[m][id] else Removed)
    ensures |config| >= 8 ==>
      var rec := r.1[Resolve(config[0], vars)][Resolve(config[1], vars)];
      && rec.Static?
      && rec.graphic == config[2]
      && rec.x == Resolve(config[3], vars)
      && rec.y == Resolve(config[4], vars)
      && rec.opacity == Resolve(config[5], vars)
      && rec.z == Resolve(config[6], vars)
      && rec.blend == Resolve(config[7], vars)
      && rec.xa == (if |config| > 8 && config[8] != "" then Resolve(config[8], vars) else Val(0.0))
      && rec.ya == (if |config| > 9 && config[9] != "" then Resolve(config[9], vars) else Val(0.0))
      && rec.character == (if |config| > 10 && config[10] != "" then Resolve(config[10], vars) else Val(0.0))
      && rec.rotate == (if |config| > 11 && config[11] != "" then Resolve(config[11], vars) else Val(0.0))
  {
    if |config| < 2 then (Crashed, s)
    else
      var m, id := Resolve(config[0], vars), Resolve(config[1], vars);
      var s2 := Reserve(s, m, id);
      if |config| < 8 then (Crashed, s2)
      else
        var rec := Static(config[2], Resolve(config[3], vars), Resolve(config[4], vars),
                          Resolve(config[5], vars), Resolve(config[6], vars),
                          Resolve(config[7], vars),
                          OptionalField(config, 8, vars), OptionalField(config, 9, vars),
                          OptionalField(config, 10, vars), OptionalField(config, 11, vars));
        (Applied, s2[m := s2[m][id := rec]])
  }

  /** No field of the record a `LAYER_S` replaces survives: whatever the
      registry held, the same tokens give the same record. */
  lemma StaticUpsertForgetsPrevious(s1: Settings, s2: Settings, config: seq<string>, vars: VarStore)
    requires |config| >= 8
    ensures var m, id := Resolve(config[0], vars), Resolve(config[1], vars);
      UpsertStatic(s1, config, vars).1[m][id] == UpsertStatic(s2, config, vars).1[m][id]
  {
  }

  /** Re-issuing `LAYER` at a tiling layer changes every setting but keeps the
      scroll position it has reached, so re-tuning a layer does not make it
      jump. */
  lemma {:induction false} ReissueKeepsScroll(s: Settings, config: seq<string>, again: seq<string>, vars: VarStore, cx: real, cy: real)
    requires |config| >= 10 && |again| >= 10
    requires again[0] == config[0] && again[1] == config[1]
    ensures
      var m, id := Resolve(config[0], vars), Resolve(config[1], vars);
      var s1 := UpsertTiling(s, config, vars).1;
      var scrolled := s1[m := s1[m][id := s1[m][id].(currentx := Val(cx), currenty := Val(cy))]];
      var rec := UpsertTiling(scrolled, again, vars).1[m][id];
      rec.currentx == Val(cx) && rec.currenty == Val(cy) && rec.graphic == again[2]
  {
  }
}
