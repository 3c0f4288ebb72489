/** The per-frame work of the two layer sprites: `Sprite_LayerGraphic`, a
    tiling sprite that scrolls its graphic by the record's accumulators, and
    `Sprite_LayerGraphicS`, a plain sprite that holds a fixed position or
    follows a character. Each frame a sprite reads its record, reloads the
    bitmap when the graphic name changed, and copies the record onto itself;
    the tiling sprite also advances the scroll accumulators in the record. */
module LayerSprites {
  import opened Wrappers
  import opened JsNumber
  import opened LayerCommands
  import opened LayerRegistry
  import opened BattleLayers

  // ---------------------------------------------------------------------------
  // Reading the record
  // ---------------------------------------------------------------------------

  /** `lValue()`: the record of layer `id`, in the battle table for a battle
      sprite and in the current map's table otherwise; `None` is `undefined`. */
  function RecordOf(battle: bool, s: Settings, mapId: int, t: map<Num, Layer>, id: Num): (r: Option<Layer>)
    ensures battle ==> (r.Some? <==> id in t) && (r.Some? ==> r.value == t[id])
    ensures !battle ==> (r.Some? <==> Present(s, Val(mapId as real), id))
    ensures !battle && r.Some? ==> r.value == s[Val(mapId as real)][id]
  {
    if battle then (if id in t then Some(t[id]) else None)
    else
      var m := Val(mapId as real);
      if m in s && id in s[m] then Some(s[m][id]) else None
  }

  /** `createBitmap`: the name the bitmap is loaded from, `""` for a record
      without properties. It runs only when `currentGraphic` differs from the
      record's graphic, so a bitmap is reloaded exactly on a change of name. */
  function Reloaded(currentGraphic: Option<string>, bitmap: Option<string>, rec: Layer): (r: Option<string>)
    ensures currentGraphic == rec.Graphic() ==> r == bitmap
    ensures currentGraphic != rec.Graphic() && rec.IsEmpty() ==> r == Some("")
    ensures currentGraphic != rec.Graphic() && !rec.IsEmpty() ==> r == rec.Graphic()
  {
    if currentGraphic == rec.Graphic() then bitmap
    else if rec.IsEmpty() then Some("")
    else rec.Graphic()
  }

  /** The bitmap shows the graphic the sprite has caught up with: the same
      name, or the empty bitmap `""` while the name is missing. */
  predicate InSync(currentGraphic: Option<string>, bitmap: Option<string>)
  {
    bitmap == currentGraphic || (currentGraphic.None? && bitmap == Some(""))
  }

  /** A reload keeps the bitmap in step with the name: after it the bitmap
      is the record's own graphic whenever the record names one, whether or
      not a reload was needed. */
  lemma {:induction false} ReloadedShowsGraphic(currentGraphic: Option<string>, bitmap: Option<string>, rec: Layer)
    requires InSync(currentGraphic, bitmap)
    ensures InSync(rec.Graphic(), Reloaded(currentGraphic, bitmap, rec))
    ensures rec.Graphic().Some? ==> Reloaded(currentGraphic, bitmap, rec) == rec.Graphic()
  {
    if rec.IsEmpty() {
      assert rec.Graphic().None?;
    }
  }

  /** Once the sprite has caught up with a graphic name, later frames whose
      record has the same name never reload the bitmap. */
  lemma {:induction false} NoReloadWithoutChange(current: Option<string>, bitmap: Option<string>, rec: Layer, later: Layer)
    requires later.Graphic() == rec.Graphic()
    ensures Reloaded(rec.Graphic(), Reloaded(current, bitmap, rec), later) == Reloaded(current, bitmap, rec)
  {
  }

  // ---------------------------------------------------------------------------
  // The tiling sprite
  // ---------------------------------------------------------------------------

  /** `lValue().currentx += lValue().xspeed` and the same for `y`: on a
      tiling record each accumulator grows by its speed and nothing else
      changes. The addition also runs on a record of another kind; it then
      writes `NaN` (a static record shows no difference, since it has no
      accumulator to read), and a removed layer's `{}` becomes a record that
      is no longer empty. A well-formed battle record stays well formed. */
  function Advance(rec: Layer): (r: Layer)
    ensures r.Get(CurrentX) == Add(rec.Get(CurrentX), rec.Get(XSpeed))
    ensures r.Get(CurrentY) == Add(rec.Get(CurrentY), rec.Get(YSpeed))
    ensures forall f :: f != CurrentX && f != CurrentY ==> r.Get(f) == rec.Get(f)
    ensures r.Graphic() == rec.Graphic()
    ensures r.Tiling? == rec.Tiling? && r.Static? == rec.Static?
    ensures !r.IsEmpty()
    ensures WellFormedRecord(rec) ==> WellFormedRecord(r)
  {
    match rec
    case Tiling(_, _, _, _, _, _, _, _, _, _) =>
      rec.(currentx := Add(rec.currentx, rec.xspeed), currenty := Add(rec.currenty, rec.yspeed))
    case Static(_, _, _, _, _, _, _, _, _, _) => rec
    case _ => Residue
  }

  /** The record after `n` frames. */
  function AdvanceTimes(rec: Layer, n: nat): (r: Layer)
    ensures r.Graphic() == rec.Graphic()
    ensures r.Tiling? == rec.Tiling? && r.Static? == rec.Static?
    ensures forall f :: f != CurrentX && f != CurrentY ==> r.Get(f) == rec.Get(f)
    ensures n > 0 ==> !r.IsEmpty()
    decreases n
  {
    if n == 0 then rec else Advance(AdvanceTimes(rec, n - 1))
  }

  /** After `n` frames each scroll accumulator of a tiling record has grown
      by exactly `n` times its speed, and every other field is as it was. */
  lemma {:induction false} AdvanceTimesAccumulates(rec: Layer, n: nat)
    requires rec.Tiling? && rec.currentx.Val? && rec.currenty.Val? && rec.xspeed.Val? && rec.yspeed.Val?
    ensures var r := AdvanceTimes(rec, n);
      && r.Tiling?
      && r.currentx == Val(rec.currentx.v + n as real * rec.xspeed.v)
      && r.currenty == Val(rec.currenty.v + n as real * rec.yspeed.v)
      && r == rec.(currentx := r.currentx, currenty := r.currenty)
    decreases n
  {
    if n > 0 {
      AdvanceTimesAccumulates(rec, n - 1);
      var p := AdvanceTimes(rec, n - 1);
      assert p.currentx.v + rec.xspeed.v == rec.currentx.v + n as real * rec.xspeed.v;
      assert p.currenty.v + rec.yspeed.v == rec.currenty.v + n as real * rec.yspeed.v;
    }
  }

  /** An accumulator that has become NaN (a speed token that is not a number)
      stays NaN: the layer stops scrolling for good. */
  lemma {:induction false} AdvanceTimesKeepsNaN(rec: Layer, n: nat)
    requires rec.Tiling? && rec.currentx == NaN
    ensures AdvanceTimes(rec, n).Tiling? && AdvanceTimes(rec, n).currentx == NaN
    decreases n
  {
    if n > 0 {
      AdvanceTimesKeepsNaN(rec, n - 1);
    }
  }

  /** `origin.x = 0 + displayX * tileSize + currentx + displayX * xshift`. */
  function Origin(display: real, tileSize: real, current: Num, shift: Num): (r: Num)
    ensures r.Val? <==> current.Val? && shift.Val?
    ensures r.Val? ==> r.v == display * (tileSize + shift.v) + current.v
  {
    Add(Add(Val(display * tileSize), current), Mul(Val(display), shift))
  }

  /** The origin a tiling layer shows at frame `n` (counting from 0) when the
      view stands still: the record's starting accumulator plus `n` steps of
      its speed, all seen from the same display offset. */
  lemma OriginAtFrame(rec: Layer, n: nat, display: real, tileSize: real)
    requires rec.Tiling? && rec.currentx.Val? && rec.currenty.Val? && rec.xspeed.Val? && rec.yspeed.Val?
    requires rec.xshift.Val?
    ensures Origin(display, tileSize, AdvanceTimes(rec, n).Get(CurrentX), AdvanceTimes(rec, n).Get(XShift))
         == Val(display * (tileSize + rec.xshift.v) + rec.currentx.v + n as real * rec.xspeed.v)
  {
    AdvanceTimesAccumulates(rec, n);
  }

  /** `Sprite_LayerGraphic`: the sprite for layer `id` of the current map, or
      of the battle table when `battle` is set (its view offsets are then 0). */
  class TilingLayerSprite {
    const id: Num
    const battle: bool
    var currentGraphic: Option<string>
    var bitmap: Option<string>
    var z: real
    var opacity: real
    var blendMode: real
    var originX: Num
    var originY: Num

    /** The fields `initialize` sets before its first `update`; that update
        is a separate call to `Update`. */
    constructor (id: Num, battle: bool)
      ensures this.id == id && this.battle == battle
      ensures currentGraphic == Some("") && bitmap == Some("")
      ensures z == 0.0 && opacity == 0.0 && blendMode == 0.0
      ensures originX == Val(0.0) && originY == Val(0.0)
    {
      this.id := id;
      this.battle := battle;
      currentGraphic := Some("");
      bitmap := Some("");
      z, opacity, blendMode := 0.0, 0.0, 0.0;
      originX, originY := Val(0.0), Val(0.0);
    }

    /** `Sprite_LayerGraphic.update` with `updatePosition`. The map's table
        is created if it is missing (`layerConfig`); with no record the read
        of `.graphic` throws. Otherwise the bitmap is reloaded only on a
        change of name, `currentGraphic` then equals the record's graphic,
        depth, opacity and blend are copied (`|| 0`), the origin is computed
        from the accumulators before they advance, and the record in its
        table is replaced by its advanced form; nothing else changes. */
    method Update(gameMap: GameMapLayers, system: BattleLayerTable,
                  displayX: real, displayY: real, tileSize: real) returns (ok: bool)
      modifies this, gameMap`layerSettings, system`layers
      ensures var m := Val(gameMap.mapId as real);
        var s := if battle then old(gameMap.layerSettings) else EnsureTable(old(gameMap.layerSettings), m);
        var rec := RecordOf(battle, s, gameMap.mapId, old(system.layers), id);
        && (ok <==> rec.Some?)
        && (!ok ==> gameMap.layerSettings == s && system.layers == old(system.layers))
        && (!ok ==> currentGraphic == old(currentGraphic) && bitmap == old(bitmap))
        && (!ok ==> z == old(z) && opacity == old(opacity) && blendMode == old(blendMode))
        && (!ok ==> originX == old(originX) && originY == old(originY))
        && (ok ==> currentGraphic == rec.value.Graphic())
        && (ok ==> bitmap == Reloaded(old(currentGraphic), old(bitmap), rec.value))
        && (ok ==> z == OrZero(rec.value.Get(Z)) && opacity == OrZero(rec.value.Get(Opacity))
                   && blendMode == OrZero(rec.value.Get(Blend)))
        && (ok ==> var dx, dy := if battle then 0.0 else displayX, if battle then 0.0 else displayY;
                   && originX == Origin(dx, tileSize, rec.value.Get(CurrentX), rec.value.Get(XShift))
                   && originY == Origin(dy, tileSize, rec.value.Get(CurrentY), rec.value.Get(YShift)))
        && (ok && battle ==> gameMap.layerSettings == s
                             && system.layers == old(system.layers)[id := Advance(rec.value)])
        && (ok && !battle ==> system.layers == old(system.layers)
                              && gameMap.layerSettings == s[m := s[m][id := Advance(rec.value)]])
      ensures battle && old(system.Valid()) ==> system.Valid()
      ensures InSync(old(currentGraphic), old(bitmap)) ==> InSync(currentGraphic, bitmap)
    {
      var m := Val(gameMap.mapId as real);
      var rec: Layer;
      if battle {
        if id !in system.layers {
          return false;
        }
        rec := system.layers[id];
      } else {
        var layers := gameMap.LayerConfig();
        if id !in layers {
          return false;
        }
        rec := layers[id];
      }
      if currentGraphic != rec.Graphic() {
        bitmap := if rec.IsEmpty() then Some("") else rec.Graphic();
        currentGraphic := rec.Graphic();
      }
      z := OrZero(rec.Get(Z));
      opacity := OrZero(rec.Get(Opacity));
      blendMode := OrZero(rec.Get(Blend));
      var dx, dy := if battle then 0.0 else displayX, if battle then 0.0 else displayY;
      originX := Origin(dx, tileSize, rec.Get(CurrentX), rec.Get(XShift));
      originY := Origin(dy, tileSize, rec.Get(CurrentY), rec.Get(YShift));
      if battle {
        system.layers := system.layers[id := Advance(rec)];
      } else {
        gameMap.layerSettings := gameMap.layerSettings[m := gameMap.layerSettings[m][id := Advance(rec)]];
      }
      return true;
    }
  }

  // ---------------------------------------------------------------------------
  // The static sprite
  // ---------------------------------------------------------------------------

  /** What the sprite needs of a `Game_Character`: `_realX`, `_realY` and
      `_direction` (the numeric keypad: 2 down, 4 left, 6 right, 8 up). */
  datatype GameCharacter = GameCharacter(realX: real, realY: real, direction: int)

  /** The rotation, in degrees, that follow mode gives each heading; the
      other values of `_direction` are not in the table. */
  function RotationFor(direction: int): (r: Option<int>)
    ensures r.Some? <==> direction in {1, 2, 3, 4, 6, 7, 8, 9}
    ensures r.Some? ==> 0 <= r.value < 360 && r.value % 45 == 0
  {
    match direction
    case 1 => Some(45)
    case 2 => Some(0)
    case 3 => Some(315)
    case 4 => Some(90)
    case 6 => Some(270)
    case 7 => Some(135)
    case 8 => Some(180)
    case 9 => Some(225)
    case _ => None
  }

  /** The eight headings going round once, starting facing down and turning
      towards the left. */
  const Compass: seq<int> := [2, 1, 4, 7, 8, 9, 6, 3]

  /** The table turns the graphic by one eighth of a full turn per step
      round the compass: heading `Compass[k]` is `45 * k` degrees. */
  lemma RotationFollowsCompass(k: nat)
    requires k < |Compass|
    ensures RotationFor(Compass[k]) == Some(45 * k)
  {
  }

  /** Opposite headings (`d` and `10 - d` on the keypad) are half a turn
      apart. */
  lemma OppositeHeadingsHalfTurn(d: int)
    requires RotationFor(d).Some?
    ensures RotationFor(10 - d).Some?
    ensures (RotationFor(d).value + 180) % 360 == RotationFor(10 - d).value
  {
  }

  /** A rotation the sprite can have: a whole number of eighths of a turn,
      in `[0, 360)`. */
  predicate ValidRotation(rotation: int)
  {
    0 <= rotation < 360 && rotation % 45 == 0
  }

  /** The rotation after a frame in follow mode: 0 when `rotate` is off,
      the table's value for a listed heading, and otherwise what it was. */
  function NextRotation(rotation: int, rotate: Num, direction: int): (r: int)
    ensures !Truthy(rotate) ==> r == 0
    ensures Truthy(rotate) && RotationFor(direction).None? ==> r == rotation
    ensures Truthy(rotate) && RotationFor(direction).Some? ==> r == RotationFor(direction).value
  {
    if !Truthy(rotate) then 0
    else match RotationFor(direction)
      case Some(deg) => deg
      case None => rotation
  }

  /** Follow mode only ever turns the sprite by whole eighths: a valid
      rotation stays valid whatever the heading. */
  lemma {:induction false} NextRotationValid(rotation: int, rotate: Num, direction: int)
    requires ValidRotation(rotation)
    ensures ValidRotation(NextRotation(rotation, rotate, direction))
    ensures NextRotation(rotation, rotate, direction) != rotation ==> !Truthy(rotate) || RotationFor(direction).Some?
  {
    if Truthy(rotate) && RotationFor(direction).Some? {
      assert ValidRotation(RotationFor(direction).value);
    }
  }

  /** Whom a record with `character` follows: a positive value names an event
      (`$gameMap.event(n)`, undefined unless `n` is the id of an event); any
      other truthy value means the player. `None` is a missing event. */
  function Followed(character: Num, player: GameCharacter, events: map<nat, GameCharacter>): (r: Option<GameCharacter>)
    requires Truthy(character)
    ensures character.v < 0.0 ==> r == Some(player)
    ensures character.v > 0.0 ==> (r.Some? <==> character.v.Floor as real == character.v && character.v.Floor as nat in events)
    ensures r.Some? && character.v > 0.0 ==> r.value == events[character.v.Floor as nat]
    ensures r.Some? ==> r.value == player || r.value in events.Values
  {
    if character.v > 0.0 then
      (if character.v.Floor as real == character.v && character.v.Floor as nat in events
       then Some(events[character.v.Floor as nat]) else None)
    else Some(player)
  }

  /** The screen coordinate of the centre of a character's tile:
      `real * tileSize + tileSize / 2 - display * tileSize`. */
  function FollowPosition(real_: real, display: real, tileSize: real): (r: real)
    ensures r == (real_ - display) * tileSize + tileSize / 2.0
  {
    real_ * tileSize + tileSize / 2.0 - display * tileSize
  }

  /** A character standing still on screen keeps a following layer still:
      moving the character and the view by the same amount changes nothing. */
  lemma FollowPositionShift(real_: real, display: real, tileSize: real, delta: real)
    ensures FollowPosition(real_ + delta, display + delta, tileSize) == FollowPosition(real_, display, tileSize)
  {
  }

  /** `Sprite_LayerGraphicS`: the sprite for static layer `id` of the current
      map. `rotation` is in degrees. */
  class StaticLayerSprite {
    const id: Num
    var currentGraphic: Option<string>
    var bitmap: Option<string>
    var z: real
    var opacity: real
    var blendMode: real
    var x: Num
    var y: Num
    var rotation: int
    var anchorX: Num
    var anchorY: Num

    constructor (id: Num)
      ensures this.id == id && currentGraphic == Some("") && bitmap == Some("")
      ensures z == 0.0 && opacity == 0.0 && blendMode == 0.0
      ensures x == Val(0.0) && y == Val(0.0) && rotation == 0 && anchorX == Val(0.0) && anchorY == Val(0.0)
    {
      this.id := id;
      currentGraphic := Some("");
      bitmap := Some("");
      z, opacity, blendMode := 0.0, 0.0, 0.0;
      x, y, rotation := Val(0.0), Val(0.0), 0;
      anchorX, anchorY := Val(0.0), Val(0.0);
    }

    /** `Sprite_LayerGraphicS.updatePosition(val)`. Depth, opacity and blend
        are copied (`|| 0`). A record whose `character` is falsy is placed at
        its `x, y` less the view offset, unrotated; otherwise the sprite sits
        on the centre of the followed character's tile and, when `rotate` is
        on, turns to its heading; following an event the map does not have
        throws before the position is written. The anchors are copied from
        `xa, ya`. The bitmap is not touched. */
    method UpdatePosition(val: Layer, player: GameCharacter, events: map<nat, GameCharacter>,
                          displayX: real, displayY: real, tileSize: real) returns (ok: bool)
      modifies this`z, this`opacity, this`blendMode, this`x, this`y, this`rotation, this`anchorX, this`anchorY
      ensures z == OrZero(val.Get(Z)) && opacity == OrZero(val.Get(Opacity)) && blendMode == OrZero(val.Get(Blend))
      ensures !Truthy(val.Get(Character)) ==>
                && ok
                && x == Sub(val.Get(X), Val(displayX * tileSize))
                && y == Sub(val.Get(Y), Val(displayY * tileSize))
                && rotation == 0
      ensures Truthy(val.Get(Character)) ==>
                var who := Followed(val.Get(Character), player, events);
                && (ok <==> who.Some?)
                && (!ok ==> x == old(x) && y == old(y) && rotation == old(rotation))
                && (ok ==> x == Val(FollowPosition(who.value.realX, displayX, tileSize))
                           && y == Val(FollowPosition(who.value.realY, displayY, tileSize))
                           && rotation == NextRotation(old(rotation), val.Get(Rotate), who.value.direction))
      ensures ok ==> anchorX == val.Get(XAnchor) && anchorY == val.Get(YAnchor)
      ensures !ok ==> anchorX == old(anchorX) && anchorY == old(anchorY)
      ensures ValidRotation(old(rotation)) ==> ValidRotation(rotation)
    {
      z := OrZero(val.Get(Z));
      opacity := OrZero(val.Get(Opacity));
      blendMode := OrZero(val.Get(Blend));
      var character := val.Get(Character);
      if Truthy(character) {
        var who := Followed(character, player, events);
        if who.None? {
          return false;
        }
        x := Val(FollowPosition(who.value.realX, displayX, tileSize));
        y := Val(FollowPosition(who.value.realY, displayY, tileSize));
        if ValidRotation(rotation) {
          NextRotationValid(rotation, val.Get(Rotate), who.value.direction);
        }
        rotation := NextRotation(rotation, val.Get(Rotate), who.value.direction);
      } else {
        x := Sub(val.Get(X), Val(displayX * tileSize));
        y := Sub(val.Get(Y), Val(displayY * tileSize));
        rotation := 0;
      }
      anchorX := val.Get(XAnchor);
      anchorY := val.Get(YAnchor);
      return true;
    }

    /** `Sprite_LayerGraphicS.update`. With no record the read of `.graphic`
        throws and nothing changes; otherwise the bitmap is reloaded only on
        a change of name and `updatePosition` runs on the record, which is
        only read. */
    method Update(gameMap: GameMapLayers, player: GameCharacter, events: map<nat, GameCharacter>,
                  displayX: real, displayY: real, tileSize: real) returns (ok: bool)
      modifies this, gameMap`layerSettings
      ensures var m := Val(gameMap.mapId as real);
        var s := EnsureTable(old(gameMap.layerSettings), m);
        var rec := RecordOf(false, s, gameMap.mapId, map[], id);
        && gameMap.layerSettings == s
        && (rec.None? ==> !ok && currentGraphic == old(currentGraphic) && bitmap == old(bitmap)
                          && z == old(z) && opacity == old(opacity) && blendMode == old(blendMode)
                          && x == old(x) && y == old(y) && rotation == old(rotation)
                          && anchorX == old(anchorX) && anchorY == old(anchorY))
        && (rec.Some? ==> currentGraphic == rec.value.Graphic()
                          && bitmap == Reloaded(old(currentGraphic), old(bitmap), rec.value)
                          && z == OrZero(rec.value.Get(Z)) && opacity == OrZero(rec.value.Get(Opacity))
                          && blendMode == OrZero(rec.value.Get(Blend)))
        && (rec.Some? && !Truthy(rec.value.Get(Character)) ==>
              && ok
              && x == Sub(rec.value.Get(X), Val(displayX * tileSize))
              && y == Sub(rec.value.Get(Y), Val(displayY * tileSize))
              && rotation == 0)
        && (rec.Some? && Truthy(rec.value.Get(Character)) ==>
              var who := Followed(rec.value.Get(Character), player, events);
              && (ok <==> who.Some?)
              && (!ok ==> x == old(x) && y == old(y) && rotation == old(rotation))
              && (ok ==> x == Val(FollowPosition(who.value.realX, displayX, tileSize))
                         && y == Val(FollowPosition(who.value.realY, displayY, tileSize))
                         && rotation == NextRotation(old(rotation), rec.value.Get(Rotate), who.value.direction)))
        && (ok ==> anchorX == rec.value.Get(XAnchor) && anchorY == rec.value.Get(YAnchor))
        && (!ok ==> anchorX == old(anchorX) && anchorY == old(anchorY))
      ensures InSync(old(currentGraphic), old(bitmap)) ==> InSync(currentGraphic, bitmap)
      ensures ValidRotation(old(rotation)) ==> ValidRotation(rotation)
    {
      var layers := gameMap.LayerConfig();
      if id !in layers {
        return false;
      }
      var val := layers[id];
      ghost var graphic0, bitmap0 := currentGraphic, bitmap;
      if currentGraphic != val.Graphic() {
        bitmap := if val.IsEmpty() then Some("") else val.Graphic();
        currentGraphic := val.Graphic();
      }
      assert bitmap == Reloaded(graphic0, bitmap0, val);
      if InSync(graphic0, bitmap0) {
        ReloadedShowsGraphic(graphic0, bitmap0, val);
      }
      ok := UpdatePosition(val, player, events, displayX, displayY, tileSize);
    }
  }
}
