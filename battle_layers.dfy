/** Battle layers: `$gameSystem._bLayers`, which `Galv.LG.bLayer` fills from
    script calls, and the placement of their sprites among the children of
    the battle field that `Spriteset_Battle.createLayerGraphics` performs. */
module BattleLayers {
  import opened Wrappers
  import opened JsNumber
  import opened LayerCommands

  // ---------------------------------------------------------------------------
  // The battle-layer table
  // ---------------------------------------------------------------------------

  /** `arg || 0` for an argument of `bLayer` that may be left out. */
  function ArgOrZero(a: Option<Num>): (r: real)
    ensures a.Some? && Truthy(a.value) ==> r == a.value.v
    ensures (a.None? || !Truthy(a.value)) ==> r == 0.0
  {
    if a.None? then 0.0 else OrZero(a.value)
  }

  /** `!graphic`: no graphic argument, or the empty name. */
  predicate NoGraphic(graphic: Option<string>) {
    graphic.None? || graphic.value == ""
  }

  /** A record as `bLayer` writes it: a tiling record with a graphic whose
      numeric fields are all numbers. */
  predicate WellFormedRecord(l: Layer) {
    && l.Tiling? && l.graphic != ""
    && l.xspeed.Val? && l.yspeed.Val? && l.opacity.Val? && l.z.Val?
    && l.xshift.Val? && l.yshift.Val? && l.blend.Val?
    && l.currentx.Val? && l.currenty.Val?
  }

  predicate WellFormedTable(t: map<Num, Layer>) {
    forall id :: id in t ==> WellFormedRecord(t[id])
  }

  /** `Galv.LG.bLayer(id, graphic, xspeed, yspeed, opacity, z, blend)`. With
      no graphic the entry is deleted (nothing happens when there is none);
      otherwise the entry is overwritten by a fresh record: every numeric
      argument defaults to 0 and the shifts and scroll accumulators are 0
      whatever the previous record held. Every other entry is unchanged, and a
      well-formed table stays well formed. */
  function BLayerSpec(t: map<Num, Layer>, id: Num, graphic: Option<string>,
                      xspeed: Option<Num>, yspeed: Option<Num>, opacity: Option<Num>,
                      z: Option<Num>, blend: Option<Num>): (r: map<Num, Layer>)
    ensures forall k :: k != id ==> (k in r <==> k in t)
    ensures forall k :: k in r && k != id ==> r[k] == t[k]
    ensures NoGraphic(graphic) <==> id !in r
    ensures !NoGraphic(graphic) ==>
      && r[id].Tiling? && r[id].graphic == graphic.value
      && r[id].xspeed == Val(ArgOrZero(xspeed)) && r[id].yspeed == Val(ArgOrZero(yspeed))
      && r[id].opacity == Val(ArgOrZero(opacity)) && r[id].z == Val(ArgOrZero(z))
      && r[id].blend == Val(ArgOrZero(blend))
      && r[id].xshift == Val(0.0) && r[id].yshift == Val(0.0)
      && r[id].currentx == Val(0.0) && r[id].currenty == Val(0.0)
    ensures WellFormedTable(t) ==> WellFormedTable(r)
  {
    if NoGraphic(graphic) then t - {id}
    else
      t[id := Tiling(graphic.value, Val(ArgOrZero(xspeed)), Val(ArgOrZero(yspeed)),
                     Val(ArgOrZero(opacity)), Val(ArgOrZero(z)), Val(0.0), Val(0.0),
                     Val(ArgOrZero(blend)), Val(0.0), Val(0.0))]
  }

  /** `$gameSystem._bLayers`. */
  class BattleLayerTable {
    var layers: map<Num, Layer>

    predicate Valid()
      reads this
    {
      WellFormedTable(layers)
    }

    /** `Game_System.initialize`: no battle layers. */
    constructor ()
      ensures layers == map[] && Valid()
    {
      layers := map[];
    }

    /** `Galv.LG.bLayer(...)`, in place. */
    method BLayer(id: Num, graphic: Option<string>, xspeed: Option<Num>, yspeed: Option<Num>,
                  opacity: Option<Num>, z: Option<Num>, blend: Option<Num>)
      modifies this
      ensures layers == BLayerSpec(old(layers), id, graphic, xspeed, yspeed, opacity, z, blend)
      ensures old(Valid()) ==> Valid()
    {
      if graphic.None? || graphic.value == "" {
        if id in layers {
          layers := layers - {id};
        }
        return;
      }
      layers := layers[id := Tiling(graphic.value, Val(ArgOrZero(xspeed)), Val(ArgOrZero(yspeed)),
                                    Val(ArgOrZero(opacity)), Val(ArgOrZero(z)), Val(0.0), Val(0.0),
                                    Val(ArgOrZero(blend)), Val(0.0), Val(0.0))];
    }
  }

  // ---------------------------------------------------------------------------
  // Placement among the battle field's children
  // ---------------------------------------------------------------------------

  /** A child of the battle field, as far as placement can tell it apart:
      the battlebacks are `TilingSprite`s; a layer sprite's constructor is
      `Sprite_LayerGraphic`, so it never counts as one. */
  datatype Child = TilingSpriteChild | LayerChild(id: Num) | OtherChild

  /** The indices of the `TilingSprite` children, in increasing order
      (`TilingPositionsMeaning`). */
  function TilingPositions(c: seq<Child>): (r: seq<nat>)
    ensures forall i :: 0 <= i < |r| ==> r[i] < |c|
    decreases |c|
  {
    if c == [] then []
    else
      var p := TilingPositions(c[..|c| - 1]);
      if c[|c| - 1].TilingSpriteChild? then p + [|c| - 1] else p
  }

  /** Every listed index holds a `TilingSprite`, the list increases, and no
      `TilingSprite` is left out. */
  lemma {:induction false} TilingPositionsMeaning(c: seq<Child>)
    ensures var r := TilingPositions(c);
      && (forall i :: 0 <= i < |r| ==> r[i] < |c| && c[r[i]].TilingSpriteChild?)
      && (forall i, j :: 0 <= i < j < |r| ==> r[i] < r[j])
      && (forall k :: 0 <= k < |c| && c[k].TilingSpriteChild? ==> k in r)
    decreases |c|
  {
    if c != [] {
      var c' := c[..|c| - 1];
      TilingPositionsMeaning(c');
      assert forall k :: 0 <= k < |c'| ==> c'[k] == c[k];
    }
  }

  /** Where `createLayerGraphics` inserts a layer sprite whose record has
      depth `z`, among the battle field's children `c`; what the index means
      is stated by `PlacementIndexMeaning`. */
  function PlacementIndex(c: seq<Child>, z: Num): (idx: nat)
    ensures idx <= |c|
  {
    var t := TilingPositions(c);
    if z == Val(0.0) then 0
    else if z == Val(1.0) then
      (if |t| >= 1 then t[0] + 1 else Min(1, |c|))
    else if z == Val(2.0) then
      (if |t| >= 2 then t[1] + 1 else if |t| == 1 then t[0] + 1 else Min(2, |c|))
    else |c|
  }

  function Min(a: nat, b: nat): nat {
    if a < b then a else b
  }

  /** Depth 0 goes to the front of the list; 1 just past the first
      `TilingSprite` (the first battleback); 2 just past the second one, or
      past the only one; any other depth at the end. Without a `TilingSprite`
      the index is the depth itself, clamped to the length of the list.
      `|TilingPositions(c)|` is the number of `TilingSprite` children. */
  lemma PlacementIndexMeaning(c: seq<Child>, z: Num)
    ensures var idx := PlacementIndex(c, z);
      && (z == Val(0.0) ==> idx == 0)
      && (z == Val(1.0) && |TilingPositions(c)| >= 1 ==>
            && 0 < idx && c[idx - 1].TilingSpriteChild?
            && forall k :: 0 <= k < idx - 1 ==> !c[k].TilingSpriteChild?)
      && (z == Val(2.0) && |TilingPositions(c)| >= 2 ==>
            && 0 < idx && c[idx - 1].TilingSpriteChild?
            && exists j :: 0 <= j < idx - 1 && c[j].TilingSpriteChild? &&
                 forall k :: 0 <= k < idx - 1 && k != j ==> !c[k].TilingSpriteChild?)
      && (z == Val(2.0) && |TilingPositions(c)| == 1 ==>
            && 0 < idx && c[idx - 1].TilingSpriteChild?
            && forall k :: 0 <= k < |c| && k != idx - 1 ==> !c[k].TilingSpriteChild?)
      && ((z == Val(1.0) || z == Val(2.0)) && |TilingPositions(c)| == 0 ==>
            && (forall k :: 0 <= k < |c| ==> !c[k].TilingSpriteChild?)
            && idx == (if z == Val(1.0) then Min(1, |c|) else Min(2, |c|)))
      && (z != Val(0.0) && z != Val(1.0) && z != Val(2.0) ==> idx == |c|)
  {
    var t := TilingPositions(c);
    TilingPositionsMeaning(c);
    assert |t| >= 1 ==> c[t[0]].TilingSpriteChild?;
    assert |t| >= 2 ==> c[t[1]].TilingSpriteChild?;
    forall k | 0 <= k < |c| && c[k].TilingSpriteChild?
      ensures |t| >= 1 && k >= t[0]
      ensures k != t[0] ==> |t| >= 2 && k >= t[1]
    {
      assert k in t;
      var m :| 0 <= m < |t| && t[m] == k;
      if m >= 2 {
        assert t[1] < t[m];
      }
    }
  }

  /** Positions found in a prefix are the first positions of the whole list. */
  lemma {:induction false} TilingPositionsPrefix(c: seq<Child>, j: nat)
    requires j <= |c|
    ensures var p, t := TilingPositions(c[..j]), TilingPositions(c);
      |p| <= |t| && p == t[..|p|]
    decreases |c| - j
  {
    if j < |c| {
      var c' := c[..|c| - 1];
      assert c'[..j] == c[..j];
      TilingPositionsPrefix(c', j);
    } else {
      assert c[..j] == c;
    }
  }

  /** Extending a prefix by one child adds its index when it is a
      `TilingSprite`. */
  lemma TilingPositionsStep(c: seq<Child>, i: nat)
    requires i < |c|
    ensures TilingPositions(c[..i + 1])
         == TilingPositions(c[..i]) + (if c[i].TilingSpriteChild? then [i] else [])
  {
    assert c[..i + 1][..i] == c[..i];
  }

  /** The index computation of `createLayerGraphics`: `z` starts at the depth
      (or at the end of the list for a depth other than 0, 1 and 2), the scan
      for `TilingSprite` children moves it past each one it meets until the
      skip counter is used up, and the result is clamped to the list. */
  method InsertionIndex(children: seq<Child>, depth: Num) returns (z: nat)
    ensures z == PlacementIndex(children, depth)
  {
    var n := |children|;
    var test := false;
    var skip := 0;
    if depth == Val(0.0) {
      z := 0;
    } else if depth == Val(1.0) {
      z, test := 1, true;
    } else if depth == Val(2.0) {
      z, test, skip := 2, true, 1;
    } else {
      z := n;
    }
    if test {
      var i := 0;
      while i < n
        invariant 0 <= i <= n
        invariant var p := TilingPositions(children[..i]);
          && (depth == Val(1.0) ==> skip == 0 && z == 1 && |p| == 0)
          && (depth == Val(2.0) ==>
                || (skip == 1 && z == 2 && |p| == 0)
                || (skip == 0 && |p| == 1 && z == p[0] + 1))
      {
        TilingPositionsStep(children, i);
        if children[i].TilingSpriteChild? {
          z := i + 1;
          if skip > 0 {
            skip := skip - 1;
          } else {
            TilingPositionsPrefix(children, i + 1);
            break;
          }
        }
        i := i + 1;
      }
      assert children[..n] == children;
    }
    z := Min(z, n);
  }

  // ---------------------------------------------------------------------------
  // The battle spriteset
  // ---------------------------------------------------------------------------

  /** `c` with `x` inserted at index `idx`, as `addChildAt` does it. */
  function InsertAt(c: seq<Child>, idx: nat, x: Child): (r: seq<Child>)
    requires idx <= |c|
    ensures |r| == |c| + 1 && r[idx] == x
    ensures r[..idx] == c[..idx] && r[idx + 1..] == c[idx..]
  {
    c[..idx] + [x] + c[idx..]
  }

  /** The children after the layers of `order` have been placed, one after
      the other, each at the index found among the children placed so far. */
  function Placed(c: seq<Child>, t: map<Num, Layer>, order: seq<Num>): (r: seq<Child>)
    requires forall i :: 0 <= i < |order| ==> order[i] in t
    ensures |r| == |c| + |order|
    decreases |order|
  {
    if order == [] then c
    else
      var idx := PlacementIndex(c, t[order[0]].Get(Z));
      Placed(InsertAt(c, idx, LayerChild(order[0])), t, order[1..])
  }

  /** The children that are not layer sprites, in order. */
  function Others(c: seq<Child>): seq<Child> {
    if c == [] then []
    else (if c[0].LayerChild? then [] else [c[0]]) + Others(c[1..])
  }

  /** The ids of the layer sprites among the children, in order. */
  function LayerIds(c: seq<Child>): seq<Num> {
    if c == [] then []
    else (if c[0].LayerChild? then [c[0].id] else []) + LayerIds(c[1..])
  }

  lemma {:induction false} OthersConcat(a: seq<Child>, b: seq<Child>)
    ensures Others(a + b) == Others(a) + Others(b)
  {
    if a == [] {
      assert a + b == b;
    } else {
      assert (a + b)[0] == a[0] && (a + b)[1..] == a[1..] + b;
      OthersConcat(a[1..], b);
    }
  }

  lemma {:induction false} LayerIdsConcat(a: seq<Child>, b: seq<Child>)
    ensures LayerIds(a + b) == LayerIds(a) + LayerIds(b)
  {
    if a == [] {
      assert a + b == b;
    } else {
      assert (a + b)[0] == a[0] && (a + b)[1..] == a[1..] + b;
      LayerIdsConcat(a[1..], b);
    }
  }

  /** Inserting a layer sprite leaves the other children where they were
      relative to each other, and adds its id to the layer sprites. */
  lemma {:induction false} InsertLayerKeepsOthers(c: seq<Child>, idx: nat, id: Num)
    requires idx <= |c|
    ensures Others(InsertAt(c, idx, LayerChild(id))) == Others(c)
  {
    var a, b, x := c[..idx], c[idx..], LayerChild(id);
    assert c == a + b;
    assert InsertAt(c, idx, x) == (a + [x]) + b;
    OthersConcat(a, b);
    OthersConcat(a + [x], b);
    OthersConcat(a, [x]);
    assert Others([x]) == [];
  }

  lemma {:induction false} InsertLayerAddsId(c: seq<Child>, idx: nat, id: Num)
    requires idx <= |c|
    ensures LayerIds(InsertAt(c, idx, LayerChild(id))) == LayerIds(c[..idx]) + [id] + LayerIds(c[idx..])
    ensures multiset(LayerIds(InsertAt(c, idx, LayerChild(id)))) == multiset(LayerIds(c)) + multiset{id}
  {
    var a, b, x := c[..idx], c[idx..], LayerChild(id);
    assert c == a + b;
    assert InsertAt(c, idx, x) == (a + [x]) + b;
    LayerIdsConcat(a, b);
    LayerIdsConcat(a + [x], b);
    LayerIdsConcat(a, [x]);
    assert LayerIds([x]) == [id];
  }

  /** Placing layer sprites never reorders the battlebacks and battler
      sprites, and adds exactly one sprite per layer. */
  lemma {:induction false} PlacedKeepsOthers(c: seq<Child>, t: map<Num, Layer>, order: seq<Num>)
    requires forall i :: 0 <= i < |order| ==> order[i] in t
    ensures Others(Placed(c, t, order)) == Others(c)
    ensures multiset(LayerIds(Placed(c, t, order))) == multiset(LayerIds(c)) + multiset(order)
    decreases |order|
  {
    if order != [] {
      var idx := PlacementIndex(c, t[order[0]].Get(Z));
      InsertLayerKeepsOthers(c, idx, order[0]);
      InsertLayerAddsId(c, idx, order[0]);
      PlacedKeepsOthers(InsertAt(c, idx, LayerChild(order[0])), t, order[1..]);
      assert order == [order[0]] + order[1..];
    }
  }

  /** Children of which none is a layer sprite have no layer ids (and are
      their own `Others`). */
  lemma {:induction false} NoLayerChildren(c: seq<Child>)
    requires forall i :: 0 <= i < |c| ==> !c[i].LayerChild?
    ensures LayerIds(c) == [] && Others(c) == c
  {
    if c != [] {
      NoLayerChildren(c[1..]);
      assert c == [c[0]] + c[1..];
    }
  }

  predicate Distinct(order: seq<Num>) {
    forall i, j :: 0 <= i < j < |order| ==> order[i] != order[j]
  }

  /** Each id occurs once in a list without repeats. */
  lemma {:induction false} DistinctCount(order: seq<Num>, id: Num)
    requires Distinct(order)
    ensures multiset(order)[id] == if id in order then 1 else 0
  {
    if order != [] {
      assert order == [order[0]] + order[1..];
      assert Distinct(order[1..]) by {
        assert forall i :: 0 <= i < |order[1..]| ==> order[1..][i] == order[i + 1];
      }
      assert order[0] !in order[1..];
      DistinctCount(order[1..], id);
    }
  }

  /** When every id of the table is visited exactly once, as `for ... in`
      does, on a battle field without layer sprites: the battlebacks and
      battler sprites keep their order and every battle layer gets exactly
      one sprite, and no other id gets one. */
  lemma PlacedOnePerLayer(c: seq<Child>, t: map<Num, Layer>, order: seq<Num>, id: Num)
    requires forall i :: 0 <= i < |c| ==> !c[i].LayerChild?
    requires Distinct(order) && (set i | 0 <= i < |order| :: order[i]) == t.Keys
    ensures Others(Placed(c, t, order)) == c
    ensures multiset(LayerIds(Placed(c, t, order)))[id] == if id in t then 1 else 0
  {
    assert forall i :: 0 <= i < |order| ==> order[i] in t;
    PlacedKeepsOthers(c, t, order);
    NoLayerChildren(c);
    DistinctCount(order, id);
    assert id in order <==> id in t by {
      if id in t {
        assert id in (set i | 0 <= i < |order| :: order[i]);
      }
    }
  }

  /** The battle field of `Spriteset_Battle` and its `layerGraphics`, the ids
      for which a layer sprite has been made. */
  class BattleSpriteset {
    var children: seq<Child>
    var layerGraphics: set<Num>

    constructor (field: seq<Child>)
      ensures children == field && layerGraphics == {}
    {
      children := field;
      layerGraphics := {};
    }

    /** `Spriteset_Battle.createLayerGraphics`, for the ids of the table in
        the order the `for ... in` loop visits them: a sprite is made for each
        id that has none and inserted at the index found for its depth. The
        battle field holds no layer sprite yet, as when `createLowerLayer`
        builds the spriteset. */
    method CreateLayerGraphics(table: BattleLayerTable, order: seq<Num>)
      requires table.Valid()
      requires forall i :: 0 <= i < |children| ==> !children[i].LayerChild?
      requires Distinct(order) && (set i | 0 <= i < |order| :: order[i]) == table.layers.Keys
      modifies this
      ensures children == Placed(old(children), table.layers, order)
      ensures Others(children) == old(children)
      ensures forall id :: multiset(LayerIds(children))[id] == if id in table.layers then 1 else 0
      ensures layerGraphics == old(layerGraphics) + table.layers.Keys
    {
      assert forall i :: 0 <= i < |order| ==> order[i] in table.layers;
      var k := 0;
      while k < |order|
        invariant 0 <= k <= |order|
        invariant Placed(old(children), table.layers, order) == Placed(children, table.layers, order[k..])
        invariant layerGraphics == old(layerGraphics) + set i | 0 <= i < k :: order[i]
      {
        var id := order[k];
        assert order[k..][0] == id && order[k..][1..] == order[k + 1..];
        if id !in layerGraphics {
          layerGraphics := layerGraphics + {id};
        }
        var idx := InsertionIndex(children, table.layers[id].Get(Z));
        children := InsertAt(children, idx, LayerChild(id));
        k := k + 1;
      }
      forall id
        ensures multiset(LayerIds(children))[id] == if id in table.layers then 1 else 0
      {
        PlacedOnePerLayer(old(children), table.layers, order, id);
      }
      PlacedOnePerLayer(old(children), table.layers, order, Val(0.0));
    }
  }
}
