/** The tile map: the loader that turns a Tiled JSON document into a
    row-major main layer plus solid and hazard tile-id sets, the point
    queries the physics asks, and the visible-tile range the render loops
    walk. The render scale is fixed at 1, as a new game sets it, so a world
    coordinate is already an unscaled map coordinate. */
module TiledMap {
  import opened Json
  import opened CppMath
  import opened SdlTypes

  datatype Result<T, E> = Ok(value: T) | Err(error: E)

  /** Why construction throws (file and JSON-syntax errors are not modelled). */
  datatype LoadError =
    | MissingHeader                     // tilewidth/tileheight/width/height absent or not integers
    | LayerSizeNegative(layer: string)  // std::vector refuses a negative size (std::length_error)

  /** The fields of class TiledMap that the game logic reads. */
  datatype TileMap = TileMap(
    tileWidth: int, tileHeight: int,
    mapWidth: int, mapHeight: int,
    contentPixelWidth: int, contentPixelHeight: int,
    solidTiles: set<int>, hazardTiles: set<int>,
    backLayer: seq<seq<int>>, mainLayer: seq<seq<int>>,
    coinFirstGid: int, coinTileCount: int)

  /** The in-class initialisers: 16x16 tiles, empty map and content, no
      coin tileset. */
  function Defaults(): (m: TileMap)
    ensures m.tileWidth == 16 && m.tileHeight == 16
    ensures MapPixelWidth(m) == 0 && MapPixelHeight(m) == 0
    ensures m.contentPixelWidth == 0 && m.contentPixelHeight == 0
    ensures forall gid :: !IsCoinTile(m, gid)
  {
    TileMap(16, 16, 0, 0, 0, 0, {}, {}, [], [], -1, 0)
  }

  // ---------------------------------------------------------------------
  // Inline getters and membership tests

  function MapPixelWidth(m: TileMap): int { m.mapWidth * m.tileWidth }

  function MapPixelHeight(m: TileMap): int { m.mapHeight * m.tileHeight }

  predicate IsSolidTile(m: TileMap, tileId: int) { tileId in m.solidTiles }

  predicate IsHazardTile(m: TileMap, tileId: int) { tileId in m.hazardTiles }

  predicate IsCoinTile(m: TileMap, gid: int) {
    m.coinFirstGid >= 0 && gid >= m.coinFirstGid && gid < m.coinFirstGid + m.coinTileCount
  }

  /** A coin gid range that starts below zero or is empty marks no tile. */
  lemma NoCoinTilesWithoutCoinRange(m: TileMap, gid: int)
    requires m.coinFirstGid < 0 || m.coinTileCount <= 0
    ensures !IsCoinTile(m, gid)
  {
  }

  // ---------------------------------------------------------------------
  // Loader specification: header

  predicate HeaderOk(doc: Json) {
    HasInt(doc, "tilewidth") && HasInt(doc, "tileheight") && HasInt(doc, "width") && HasInt(doc, "height")
  }

  // ---------------------------------------------------------------------
  // Loader specification: tile classification

  const SolidFlag: string := "Flat_Terrain"
  const HazardFlag: string := "Spike"

  /** A tileset entry the loader accepts: a string name and an integer firstgid. */
  predicate ValidTileset(ts: Json) { HasString(ts, "name") && HasInt(ts, "firstgid") }

  /** A tile entry the loader accepts: an object with an integer id. */
  predicate ValidTile(tile: Json) { HasInt(tile, "id") }

  /** A property object named `flag` whose value is the boolean true. */
  predicate FlagSet(prop: Json, flag: string) {
    HasString(prop, "name") && StringAt(prop, "name") == flag
    && "value" in prop.fields && prop.fields["value"] == JBool(true)
  }

  /** The ids the property loop of one tile inserts for `flag`. */
  function PropIds(props: seq<Json>, gid: int, flag: string): set<int>
  {
    if |props| == 0 then {}
    else PropIds(props[..|props| - 1], gid, flag) + (if FlagSet(props[|props| - 1], flag) then {gid} else {})
  }

  /** The ids the tile loop of one tileset inserts for `flag`. */
  function TileIds(tiles: seq<Json>, firstGid: int, flag: string): set<int>
  {
    if |tiles| == 0 then {}
    else
      var tile := tiles[|tiles| - 1];
      TileIds(tiles[..|tiles| - 1], firstGid, flag)
      + (if ValidTile(tile) then PropIds(ArrayAt(tile, "properties"), firstGid + IntAt(tile, "id"), flag) else {})
  }

  /** The ids the tileset loop inserts for `flag`. */
  function TilesetIds(tilesets: seq<Json>, flag: string): set<int>
  {
    if |tilesets| == 0 then {}
    else
      var ts := tilesets[|tilesets| - 1];
      TilesetIds(tilesets[..|tilesets| - 1], flag)
      + (if ValidTileset(ts) then TileIds(ArrayAt(ts, "tiles"), IntAt(ts, "firstgid"), flag) else {})
  }

  /** Tile `j` of tileset `i` carries property `k` set to true under `flag`,
      and `gid` is that tile's global id. */
  ghost predicate Marks(tilesets: seq<Json>, flag: string, gid: int, i: int, j: int, k: int) {
    && 0 <= i < |tilesets| && ValidTileset(tilesets[i])
    && TileMarks(ArrayAt(tilesets[i], "tiles"), IntAt(tilesets[i], "firstgid"), flag, gid, j, k)
  }

  ghost predicate TileMarks(tiles: seq<Json>, firstGid: int, flag: string, gid: int, j: int, k: int) {
    && 0 <= j < |tiles| && ValidTile(tiles[j])
    && gid == firstGid + IntAt(tiles[j], "id")
    && 0 <= k < |ArrayAt(tiles[j], "properties")|
    && FlagSet(ArrayAt(tiles[j], "properties")[k], flag)
  }

  lemma {:induction false} PropIdsMembers(props: seq<Json>, gid: int, flag: string, g: int)
    ensures g in PropIds(props, gid, flag) <==> g == gid && exists k :: 0 <= k < |props| && FlagSet(props[k], flag)
  {
    if |props| > 0 {
      var init := props[..|props| - 1];
      PropIdsMembers(init, gid, flag, g);
      if exists k :: 0 <= k < |props| && FlagSet(props[k], flag) {
        var k :| 0 <= k < |props| && FlagSet(props[k], flag);
        if k < |props| - 1 { assert init[k] == props[k]; }
      }
    }
  }

  lemma {:induction false} TileIdsMembers(tiles: seq<Json>, firstGid: int, flag: string, g: int)
    ensures g in TileIds(tiles, firstGid, flag) <==> exists j, k :: TileMarks(tiles, firstGid, flag, g, j, k)
  {
    if |tiles| > 0 {
      var init := tiles[..|tiles| - 1];
      var last := |tiles| - 1;
      TileIdsMembers(init, firstGid, flag, g);
      if ValidTile(tiles[last]) {
        PropIdsMembers(ArrayAt(tiles[last], "properties"), firstGid + IntAt(tiles[last], "id"), flag, g);
      }
      if g in TileIds(tiles, firstGid, flag) {
        if g in TileIds(init, firstGid, flag) {
          var j, k :| TileMarks(init, firstGid, flag, g, j, k);
          assert TileMarks(tiles, firstGid, flag, g, j, k);
        } else {
          var k :| 0 <= k < |ArrayAt(tiles[last], "properties")| && FlagSet(ArrayAt(tiles[last], "properties")[k], flag);
          assert TileMarks(tiles, firstGid, flag, g, last, k);
        }
      }
      if exists j, k :: TileMarks(tiles, firstGid, flag, g, j, k) {
        var j, k :| TileMarks(tiles, firstGid, flag, g, j, k);
        if j < last {
          assert TileMarks(init, firstGid, flag, g, j, k);
        }
      }
    }
  }

  /** Reference definition of the classification: an id is solid (hazardous)
      exactly when some well-formed tileset has a well-formed tile whose
      global id `firstgid + id` it is and which carries a `Flat_Terrain`
      (`Spike`) property whose value is true. A false or non-boolean value,
      a tileset without a string name or integer firstgid, and a tile
      without an integer id contribute nothing, and the entries after them
      are still read. */
  lemma TilesetIdsMembers(tilesets: seq<Json>, flag: string, g: int)
    ensures g in TilesetIds(tilesets, flag) <==> exists i, j, k :: Marks(tilesets, flag, g, i, j, k)
  {
    if g in TilesetIds(tilesets, flag) {
      TilesetIdsSound(tilesets, flag, g);
    }
    if exists i, j, k :: Marks(tilesets, flag, g, i, j, k) {
      var i, j, k :| Marks(tilesets, flag, g, i, j, k);
      TilesetIdsComplete(tilesets, flag, g, i, j, k);
    }
  }

  /** Every collected id is marked by some tile property... */
  lemma {:induction false} TilesetIdsSound(tilesets: seq<Json>, flag: string, g: int)
    requires g in TilesetIds(tilesets, flag)
    ensures exists i, j, k :: Marks(tilesets, flag, g, i, j, k)
  {
    var init := tilesets[..|tilesets| - 1];
    var last := |tilesets| - 1;
    if g in TilesetIds(init, flag) {
      TilesetIdsSound(init, flag, g);
      var i, j, k :| Marks(init, flag, g, i, j, k);
      assert Marks(tilesets, flag, g, i, j, k);
    } else {
      TileIdsMembers(ArrayAt(tilesets[last], "tiles"), IntAt(tilesets[last], "firstgid"), flag, g);
      var j, k :| TileMarks(ArrayAt(tilesets[last], "tiles"), IntAt(tilesets[last], "firstgid"), flag, g, j, k);
      assert Marks(tilesets, flag, g, last, j, k);
    }
  }

  /** ...and every marked id is collected. */
  lemma {:induction false} TilesetIdsComplete(tilesets: seq<Json>, flag: string, g: int, i: int, j: int, k: int)
    requires Marks(tilesets, flag, g, i, j, k)
    ensures g in TilesetIds(tilesets, flag)
  {
    var init := tilesets[..|tilesets| - 1];
    var last := |tilesets| - 1;
    if i < last {
      assert Marks(init, flag, g, i, j, k);
      TilesetIdsComplete(init, flag, g, i, j, k);
    } else {
      TileIdsMembers(ArrayAt(tilesets[last], "tiles"), IntAt(tilesets[last], "firstgid"), flag, g);
    }
  }

  // ---------------------------------------------------------------------
  // Loader specification: tile layers

  /** The back and main grids read so far. */
  datatype Layers = Layers(back: seq<seq<int>>, main: seq<seq<int>>)

  /** Cell value of a flat layer array: the integer at `index`, or 0 when
      the array is too short or holds something else there. */
  function CellValue(data: seq<Json>, index: int): int {
    if 0 <= index < |data| && data[index].JInt? then data[index].i else 0
  }

  /** `layerHeight` rows of `layerWidth` cells, read row-major. */
  function Grid(data: seq<Json>, layerWidth: nat, layerHeight: nat): seq<seq<int>> {
    seq(layerHeight, y => Row(data, layerWidth, y))
  }

  /** Row `y` of a layer `layerWidth` cells wide. */
  function Row(data: seq<Json>, layerWidth: nat, y: int): seq<int> {
    seq(layerWidth, x => CellValue(data, y * layerWidth + x))
  }

  /** Cell (x, y) of a flattened layer is the data entry at `y * width + x`
      when that entry exists and is an integer, and 0 otherwise; the grid
      has `layerHeight` rows of `layerWidth` cells. */
  lemma GridCells(data: seq<Json>, layerWidth: nat, layerHeight: nat, x: int, y: int)
    requires 0 <= y < layerHeight && 0 <= x < layerWidth
    ensures |Grid(data, layerWidth, layerHeight)| == layerHeight
    ensures |Grid(data, layerWidth, layerHeight)[y]| == layerWidth
    ensures var i := y * layerWidth + x;
      Grid(data, layerWidth, layerHeight)[y][x] == (if i < |data| && data[i].JInt? then data[i].i else 0)
  {
    NonNegativeProduct(y, layerWidth);
    assert Grid(data, layerWidth, layerHeight)[y] == Row(data, layerWidth, y);
    assert Row(data, layerWidth, y)[x] == CellValue(data, y * layerWidth + x);
  }

  lemma NonNegativeProduct(a: int, b: int)
    requires 0 <= a && 0 <= b
    ensures 0 <= a * b
  {
  }

  predicate Rectangular(g: seq<seq<int>>) {
    forall y :: 0 <= y < |g| ==> |g[y]| == |g[0]|
  }

  /** A layer named "back" or "main" of type "tilelayer". */
  predicate IsGridLayer(layer: Json) {
    HasString(layer, "name") && HasString(layer, "type")
    && (StringAt(layer, "name") == "back" || StringAt(layer, "name") == "main")
    && StringAt(layer, "type") == "tilelayer"
  }

  /** Such a layer also has a data array and integer width and height. */
  predicate GridFieldsOk(layer: Json) {
    HasArray(layer, "data") && HasInt(layer, "width") && HasInt(layer, "height")
  }

  /** What one entry of the layer loop does to the grids read so far. */
  function LayerStep(acc: Layers, layer: Json): Result<Layers, LoadError> {
    if !IsGridLayer(layer) || !GridFieldsOk(layer) then Ok(acc)
    else
      var w, h := IntAt(layer, "width"), IntAt(layer, "height");
      if w < 0 || h < 0 then Err(LayerSizeNegative(StringAt(layer, "name")))
      else
        var g := Grid(layer.fields["data"].elems, w, h);
        if StringAt(layer, "name") == "back" then Ok(acc.(back := g)) else Ok(acc.(main := g))
  }

  /** The layer loop: later back/main layers replace earlier ones, and a
      negative size aborts the whole load. */
  function LayersOf(layers: seq<Json>): Result<Layers, LoadError> {
    if |layers| == 0 then Ok(Layers([], []))
    else
      match LayersOf(layers[..|layers| - 1])
      case Err(e) => Err(e)
      case Ok(acc) => LayerStep(acc, layers[|layers| - 1])
  }

  /** Every grid the layer loop yields is rectangular, and the loop fails
      only on a negative layer size. */
  lemma {:induction false} LayersOfShape(layers: seq<Json>)
    ensures LayersOf(layers).Ok? ==> Rectangular(LayersOf(layers).value.back) && Rectangular(LayersOf(layers).value.main)
    ensures LayersOf(layers).Err? ==> LayersOf(layers).error.LayerSizeNegative?
  {
    if |layers| > 0 {
      LayersOfShape(layers[..|layers| - 1]);
    }
  }

  // ---------------------------------------------------------------------
  // Loader specification: the whole constructor

  /** Columns and rows of the main layer, falling back to the map size when
      no main layer was read. */
  function LayerWidth(m: TileMap): int {
    if |m.mainLayer| == 0 then m.mapWidth else |m.mainLayer[0]|
  }

  function LayerHeight(m: TileMap): int {
    if |m.mainLayer| == 0 then m.mapHeight else |m.mainLayer|
  }

  function Loaded(doc: Json): Result<TileMap, LoadError> {
    if !HeaderOk(doc) then Err(MissingHeader)
    else
      match LayersOf(ArrayAt(doc, "layers"))
      case Err(e) => Err(e)
      case Ok(ls) =>
        var tilesets := ArrayAt(doc, "tilesets");
        var m := Defaults().(
          tileWidth := IntAt(doc, "tilewidth"), tileHeight := IntAt(doc, "tileheight"),
          mapWidth := IntAt(doc, "width"), mapHeight := IntAt(doc, "height"),
          solidTiles := TilesetIds(tilesets, SolidFlag), hazardTiles := TilesetIds(tilesets, HazardFlag),
          backLayer := ls.back, mainLayer := ls.main);
        Ok(m.(contentPixelWidth := LayerWidth(m) * m.tileWidth,
              contentPixelHeight := LayerHeight(m) * m.tileHeight))
  }

  /** The shape every loaded map has: content size is the main layer's size
      in pixels, and both layers are rectangular. */
  predicate WellFormed(m: TileMap) {
    && m.contentPixelWidth == LayerWidth(m) * m.tileWidth
    && m.contentPixelHeight == LayerHeight(m) * m.tileHeight
    && Rectangular(m.mainLayer) && Rectangular(m.backLayer)
  }

  /** Construction fails with MissingHeader exactly when one of the four
      header fields is missing or not an integer. */
  lemma LoadFailsOnlyOnBadHeader(doc: Json)
    ensures Loaded(doc) == Err(MissingHeader) <==> !HeaderOk(doc)
  {
    LayersOfShape(ArrayAt(doc, "layers"));
  }

  /** A loaded map keeps the header's sizes, is well formed, falls back to
      the nominal map size when no main layer was read, and has no coin
      tiles (the constructor never sets the coin gid range). */
  lemma LoadedMapShape(doc: Json)
    requires Loaded(doc).Ok?
    ensures var m := Loaded(doc).value;
      && m.tileWidth == IntAt(doc, "tilewidth") && m.tileHeight == IntAt(doc, "tileheight")
      && m.mapWidth == IntAt(doc, "width") && m.mapHeight == IntAt(doc, "height")
      && WellFormed(m)
      && (|m.mainLayer| > 0 ==>
            m.contentPixelWidth == |m.mainLayer[0]| * m.tileWidth && m.contentPixelHeight == |m.mainLayer| * m.tileHeight)
      && (|m.mainLayer| == 0 ==>
            m.contentPixelWidth == MapPixelWidth(m) && m.contentPixelHeight == MapPixelHeight(m))
      && forall gid :: !IsCoinTile(m, gid)
  {
    LayersOfShape(ArrayAt(doc, "layers"));
  }

  /** The solid and hazard sets of a loaded map follow the reference
      classification of TilesetIdsMembers. */
  lemma LoadedClassification(doc: Json, g: int)
    requires Loaded(doc).Ok?
    ensures IsSolidTile(Loaded(doc).value, g) <==> exists i, j, k :: Marks(ArrayAt(doc, "tilesets"), SolidFlag, g, i, j, k)
    ensures IsHazardTile(Loaded(doc).value, g) <==> exists i, j, k :: Marks(ArrayAt(doc, "tilesets"), HazardFlag, g, i, j, k)
  {
    TilesetIdsMembers(ArrayAt(doc, "tilesets"), SolidFlag, g);
    TilesetIdsMembers(ArrayAt(doc, "tilesets"), HazardFlag, g);
  }

  // ---------------------------------------------------------------------
  // The constructor's loops

  /** The property loop of one tile: adds `globalId` to the solid (hazard)
      set for every `Flat_Terrain` (`Spike`) property whose value is true. */
  method ClassifyProps(props: seq<Json>, globalId: int, solid0: set<int>, hazard0: set<int>)
    returns (solid: set<int>, hazard: set<int>)
    ensures solid == solid0 + PropIds(props, globalId, SolidFlag)
    ensures hazard == hazard0 + PropIds(props, globalId, HazardFlag)
  {
    solid, hazard := solid0, hazard0;
    var k := 0;
    while k < |props|
      invariant 0 <= k <= |props|
      invariant solid == solid0 + PropIds(props[..k], globalId, SolidFlag)
      invariant hazard == hazard0 + PropIds(props[..k], globalId, HazardFlag)
    {
      var prop := props[k];
      assert props[..k + 1][..k] == props[..k];
      if HasString(prop, "name") {
        var name := StringAt(prop, "name");
        if name == SolidFlag && "value" in prop.fields && prop.fields["value"].JBool? {
          if prop.fields["value"].b {
            solid := solid + {globalId};
          }
        } else if name == HazardFlag && "value" in prop.fields && prop.fields["value"].JBool? {
          if prop.fields["value"].b {
            hazard := hazard + {globalId};
          }
        }
      }
      k := k + 1;
    }
    assert props[..|props|] == props;
  }

  /** The tile loop of one tileset; tiles without an integer id are skipped. */
  method ClassifyTiles(tiles: seq<Json>, firstGid: int, solid0: set<int>, hazard0: set<int>)
    returns (solid: set<int>, hazard: set<int>)
    ensures solid == solid0 + TileIds(tiles, firstGid, SolidFlag)
    ensures hazard == hazard0 + TileIds(tiles, firstGid, HazardFlag)
  {
    solid, hazard := solid0, hazard0;
    var j := 0;
    while j < |tiles|
      invariant 0 <= j <= |tiles|
      invariant solid == solid0 + TileIds(tiles[..j], firstGid, SolidFlag)
      invariant hazard == hazard0 + TileIds(tiles[..j], firstGid, HazardFlag)
    {
      var tile := tiles[j];
      assert tiles[..j + 1][..j] == tiles[..j];
      if ValidTile(tile) {
        solid, hazard := ClassifyProps(ArrayAt(tile, "properties"), firstGid + IntAt(tile, "id"), solid, hazard);
      }
      j := j + 1;
    }
    assert tiles[..|tiles|] == tiles;
  }

  /** The tileset loop; tilesets without a string name or integer firstgid
      are skipped. */
  method ClassifyTilesets(tilesets: seq<Json>) returns (solid: set<int>, hazard: set<int>)
    ensures solid == TilesetIds(tilesets, SolidFlag)
    ensures hazard == TilesetIds(tilesets, HazardFlag)
  {
    solid, hazard := {}, {};
    var i := 0;
    while i < |tilesets|
      invariant 0 <= i <= |tilesets|
      invariant solid == TilesetIds(tilesets[..i], SolidFlag)
      invariant hazard == TilesetIds(tilesets[..i], HazardFlag)
    {
      var ts := tilesets[i];
      assert tilesets[..i + 1][..i] == tilesets[..i];
      if ValidTileset(ts) {
        solid, hazard := ClassifyTiles(ArrayAt(ts, "tiles"), IntAt(ts, "firstgid"), solid, hazard);
      }
      i := i + 1;
    }
    assert tilesets[..|tilesets|] == tilesets;
  }

  /** The nested y/x loop that fills a `layerHeight` x `layerWidth` grid of
      zeros cell by cell from the flat data array. */
  method FlattenLayer(data: seq<Json>, layerWidth: nat, layerHeight: nat) returns (tileLayer: seq<seq<int>>)
    ensures tileLayer == Grid(data, layerWidth, layerHeight)
  {
    tileLayer := seq(layerHeight, _ => seq(layerWidth, _ => 0));
    var y := 0;
    while y < layerHeight
      invariant 0 <= y <= layerHeight
      invariant |tileLayer| == layerHeight
      invariant forall r :: y <= r < layerHeight ==> |tileLayer[r]| == layerWidth
      invariant tileLayer[..y] == Grid(data, layerWidth, layerHeight)[..y]
    {
      var x := 0;
      while x < layerWidth
        invariant 0 <= x <= layerWidth
        invariant |tileLayer| == layerHeight
        invariant forall r :: y <= r < layerHeight ==> |tileLayer[r]| == layerWidth
        invariant tileLayer[..y] == Grid(data, layerWidth, layerHeight)[..y]
        invariant tileLayer[y][..x] == Row(data, layerWidth, y)[..x]
      {
        var index := y * layerWidth + x;
        NonNegativeProduct(y, layerWidth);
        var cell := if index >= |data| || !data[index].JInt? then 0 else data[index].i;
        assert Row(data, layerWidth, y)[x] == CellValue(data, index);
        tileLayer := tileLayer[y := tileLayer[y][x := cell]];
        assert tileLayer[y][..x + 1] == Row(data, layerWidth, y)[..x + 1];
        x := x + 1;
      }
      assert tileLayer[y] == Row(data, layerWidth, y);
      assert tileLayer[..y + 1] == Grid(data, layerWidth, layerHeight)[..y + 1];
      y := y + 1;
    }
  }

  /** The layer loop of the constructor. */
  method LoadLayers(layers: seq<Json>) returns (r: Result<Layers, LoadError>)
    ensures r == LayersOf(layers)
  {
    var acc := Layers([], []);
    var i := 0;
    while i < |layers|
      invariant 0 <= i <= |layers|
      invariant LayersOf(layers[..i]) == Ok(acc)
    {
      var layer := layers[i];
      assert layers[..i + 1][..i] == layers[..i];
      if IsGridLayer(layer) && GridFieldsOk(layer) {
        var w, h := IntAt(layer, "width"), IntAt(layer, "height");
        if w < 0 || h < 0 {
          r := Err(LayerSizeNegative(StringAt(layer, "name")));
          LayersErrPropagates(layers, i + 1);
          return;
        }
        var tileLayer := FlattenLayer(layer.fields["data"].elems, w, h);
        if StringAt(layer, "name") == "back" {
          acc := acc.(back := tileLayer);
        } else {
          acc := acc.(main := tileLayer);
        }
      }
      i := i + 1;
    }
    assert layers[..|layers|] == layers;
    r := Ok(acc);
  }

  /** Once the layer loop has failed, reading more layers does not change the error. */
  lemma {:induction false} LayersErrPropagates(layers: seq<Json>, n: nat)
    requires n <= |layers| && LayersOf(layers[..n]).Err?
    ensures LayersOf(layers) == LayersOf(layers[..n])
    decreases |layers| - n
  {
    if n < |layers| {
      assert layers[..n + 1][..n] == layers[..n];
      LayersErrPropagates(layers, n + 1);
    } else {
      assert layers[..n] == layers;
    }
  }

  /** TiledMap(mapPath, renderer) once the file is parsed: the header check,
      the tileset loop, the layer loop and the content size. */
  method Load(doc: Json) returns (r: Result<TileMap, LoadError>)
    ensures r == Loaded(doc)
  {
    if !HeaderOk(doc) {
      return Err(MissingHeader);
    }
    var m := Defaults();
    m := m.(tileWidth := IntAt(doc, "tilewidth"), tileHeight := IntAt(doc, "tileheight"),
            mapWidth := IntAt(doc, "width"), mapHeight := IntAt(doc, "height"));
    var solid, hazard := ClassifyTilesets(ArrayAt(doc, "tilesets"));
    m := m.(solidTiles := solid, hazardTiles := hazard);
    var layers := LoadLayers(ArrayAt(doc, "layers"));
    if layers.Err? {
      return Err(layers.error);
    }
    m := m.(backLayer := layers.value.back, mainLayer := layers.value.main);
    var layerWidth := if |m.mainLayer| == 0 then m.mapWidth else |m.mainLayer[0]|;
    var layerHeight := if |m.mainLayer| == 0 then m.mapHeight else |m.mainLayer|;
    m := m.(contentPixelWidth := layerWidth * m.tileWidth, contentPixelHeight := layerHeight * m.tileHeight);
    r := Ok(m);
  }

  // ---------------------------------------------------------------------
  // Point queries (world coordinates; render scale 1)

  /** Column of the tile under world x: the float cast is exact, so the
      index is the C++ integer quotient, which truncates toward zero. */
  function TileColumn(m: TileMap, worldX: int): int
    requires m.tileWidth != 0
  {
    CDiv(worldX, m.tileWidth)
  }

  function TileRow(m: TileMap, worldY: int): int
    requires m.tileHeight != 0
  {
    CDiv(worldY, m.tileHeight)
  }

  /** The bounds check both queries make before indexing the main layer. */
  predicate InLayer(m: TileMap, tileX: int, tileY: int) {
    0 <= tileX < LayerWidth(m) && 0 <= tileY < LayerHeight(m)
  }

  /** The cell the queries read, 0 where the main layer has no such cell. */
  function CellAt(m: TileMap, tileX: int, tileY: int): (c: int)
    ensures c != 0 ==> 0 <= tileY < |m.mainLayer| && 0 <= tileX < |m.mainLayer[tileY]| && c == m.mainLayer[tileY][tileX]
  {
    if 0 <= tileY < |m.mainLayer| && 0 <= tileX < |m.mainLayer[tileY]| then m.mainLayer[tileY][tileX] else 0
  }

  /** isColliding: out-of-range tiles count as solid. */
  predicate IsColliding(m: TileMap, worldX: int, worldY: int)
    requires m.tileWidth != 0 && m.tileHeight != 0
  {
    var tileX, tileY := TileColumn(m, worldX), TileRow(m, worldY);
    !InLayer(m, tileX, tileY) || CellAt(m, tileX, tileY) in m.solidTiles
  }

  /** isHazard: out-of-range tiles are never hazardous. */
  predicate IsHazard(m: TileMap, worldX: int, worldY: int)
    requires m.tileWidth != 0 && m.tileHeight != 0
  {
    var tileX, tileY := TileColumn(m, worldX), TileRow(m, worldY);
    InLayer(m, tileX, tileY) && CellAt(m, tileX, tileY) in m.hazardTiles
  }

  /** On a well-formed map with a main layer, every position that passes
      the bounds check is a real cell, so CellAt is exactly the vector read
      `mainLayer[tileY][tileX]`; the queries then answer whether that tile
      id is solid or hazardous. */
  lemma QueriesReadTheMainLayer(m: TileMap, worldX: int, worldY: int)
    requires m.tileWidth != 0 && m.tileHeight != 0
    requires WellFormed(m) && |m.mainLayer| > 0
    requires InLayer(m, TileColumn(m, worldX), TileRow(m, worldY))
    ensures var tileX, tileY := TileColumn(m, worldX), TileRow(m, worldY);
      && 0 <= tileY < |m.mainLayer| && 0 <= tileX < |m.mainLayer[tileY]|
      && (IsColliding(m, worldX, worldY) <==> IsSolidTile(m, m.mainLayer[tileY][tileX]))
      && (IsHazard(m, worldX, worldY) <==> IsHazardTile(m, m.mainLayer[tileY][tileX]))
  {
  }

  lemma MulCancelStrict(a: int, b: int, c: int)
    requires c > 0 && a * c < b * c
    ensures a < b
  {
  }

  /** Because the C++ quotient truncates toward zero, the tile column of
      any x strictly between -tileWidth and 0 is 0: a point just left of the
      map reads column 0 instead of being out of range. */
  lemma NearOriginReadsColumnZero(m: TileMap, worldX: int, worldY: int)
    requires m.tileWidth > 0 && m.tileHeight != 0
    requires -m.tileWidth < worldX < 0
    ensures TileColumn(m, worldX) == 0
    ensures IsColliding(m, worldX, worldY) == IsColliding(m, 0, worldY)
    ensures IsHazard(m, worldX, worldY) == IsHazard(m, 0, worldY)
  {
    CDivOfNegative(worldX, m.tileWidth);
    CDivOfNonNegative(0, m.tileWidth);
  }

  /** On a well-formed map with positive tile sizes, every point at or
      beyond the right or bottom content edge, or at least a tile beyond
      the left or top edge, is solid and not hazardous. */
  lemma OutsideContentIsSolid(m: TileMap, worldX: int, worldY: int)
    requires m.tileWidth > 0 && m.tileHeight > 0 && WellFormed(m)
    requires worldX >= m.contentPixelWidth || worldX <= -m.tileWidth
          || worldY >= m.contentPixelHeight || worldY <= -m.tileHeight
    ensures IsColliding(m, worldX, worldY) && !IsHazard(m, worldX, worldY)
  {
    var tileX, tileY := TileColumn(m, worldX), TileRow(m, worldY);
    OutsideAxis(worldX, m.tileWidth, LayerWidth(m));
    OutsideAxis(worldY, m.tileHeight, LayerHeight(m));
  }

  /** One axis of OutsideContentIsSolid. */
  lemma OutsideAxis(w: int, size: int, cells: int)
    requires size > 0
    ensures w >= cells * size ==> !(0 <= CDiv(w, size) < cells)
    ensures w <= -size ==> CDiv(w, size) < 0
  {
    if w >= 0 {
      CDivOfNonNegative(w, size);
      if w >= cells * size && 0 <= CDiv(w, size) < cells {
        MulCancelStrict(cells, CDiv(w, size) + 1, size);
      }
    } else {
      CDivOfNegative(w, size);
    }
  }

  // ---------------------------------------------------------------------
  // Finding: the bounds check trusts mapWidth/mapHeight when no main layer
  // was read, then indexes the empty vector.

  /** A header-only document: 10x10 map, 16-pixel tiles, no layers. */
  function HeaderOnlyDocument(): Json {
    JObject(map["tilewidth" := JInt(16), "tileheight" := JInt(16), "width" := JInt(10), "height" := JInt(10)])
  }

  /** As written: the document loads, world point (0, 0) passes the bounds
      check (tile (0, 0) lies inside the 10x10 fallback), and the main
      layer has no row 0, so `mainLayer[0][0]` reads outside the vector. */
  lemma EmptyMainLayerPassesBoundsCheck()
    ensures Loaded(HeaderOnlyDocument()).Ok?
    ensures var m := Loaded(HeaderOnlyDocument()).value;
      && m.tileWidth == 16 && m.tileHeight == 16
      && InLayer(m, TileColumn(m, 0), TileRow(m, 0))
      && |m.mainLayer| == 0
  {
    var doc := HeaderOnlyDocument();
    assert HeaderOk(doc);
    assert ArrayAt(doc, "layers") == [];
    var m := Loaded(doc).value;
    CDivOfNonNegative(0, 16);
  }

  /** Corrected: a tile that passes the bounds check but that the main
      layer does not have reads as the empty tile 0, so the queries answer
      whether 0 is a solid or a hazard id instead of reading outside the
      vector. */
  lemma MissingCellsReadAsEmpty(m: TileMap, worldX: int, worldY: int)
    requires m.tileWidth != 0 && m.tileHeight != 0
    requires var tileX, tileY := TileColumn(m, worldX), TileRow(m, worldY);
      && InLayer(m, tileX, tileY)
      && !(0 <= tileY < |m.mainLayer| && 0 <= tileX < |m.mainLayer[tileY]|)
    ensures IsColliding(m, worldX, worldY) <==> 0 in m.solidTiles
    ensures IsHazard(m, worldX, worldY) <==> 0 in m.hazardTiles
  {
  }

  /** Corrected, on the level of the finding: the header-only map has no
      solid or hazard ids, so point (0, 0), which passes the bounds check
      with no cell behind it, is open and harmless. */
  lemma HeaderOnlyOriginIsOpen()
    ensures Loaded(HeaderOnlyDocument()).Ok?
    ensures var m := Loaded(HeaderOnlyDocument()).value;
      && !IsColliding(m, 0, 0) && !IsHazard(m, 0, 0)
  {
    EmptyMainLayerPassesBoundsCheck();
    var doc := HeaderOnlyDocument();
    assert ArrayAt(doc, "tilesets") == [];
    var m := Loaded(doc).value;
    assert m.solidTiles == {} && m.hazardTiles == {};
    MissingCellsReadAsEmpty(m, 0, 0);
  }

  // ---------------------------------------------------------------------
  // Render culling

  /** Tiles [startX, endX) x [startY, endY) the render loops visit. */
  datatype TileRange = TileRange(startX: int, endX: int, startY: int, endY: int)

  /** The visible tile range for the camera view; tile sizes are the
      unscaled ones since the render scale is 1. */
  function VisibleRange(view: Rect, tileWidth: int, tileHeight: int, layerWidth: int, layerHeight: int): (r: TileRange)
    requires tileWidth != 0 && tileHeight != 0
    ensures 0 <= r.startX && r.endX <= layerWidth
    ensures 0 <= r.startY && r.endY <= layerHeight
  {
    TileRange(
      Max(0, CDiv(view.x, tileWidth)), Min(layerWidth, CDiv(view.x + view.w, tileWidth) + 1),
      Max(0, CDiv(view.y, tileHeight)), Min(layerHeight, CDiv(view.y + view.h, tileHeight) + 1))
  }

  function Max(a: int, b: int): int { if a < b then b else a }

  function Min(a: int, b: int): int { if a < b then a else b }

  /** The culling never drops a tile that shows: any tile of the layer
      whose pixel square overlaps the view lies in the visible range. */
  lemma VisibleRangeCoversView(view: Rect, tileWidth: int, tileHeight: int, layerWidth: int, layerHeight: int, x: int, y: int)
    requires tileWidth > 0 && tileHeight > 0
    requires 0 <= x < layerWidth && 0 <= y < layerHeight
    requires x * tileWidth < view.x + view.w && view.x < (x + 1) * tileWidth
    requires y * tileHeight < view.y + view.h && view.y < (y + 1) * tileHeight
    ensures var r := VisibleRange(view, tileWidth, tileHeight, layerWidth, layerHeight);
      r.startX <= x < r.endX && r.startY <= y < r.endY
  {
    CoversAxis(view.x, view.w, tileWidth, x);
    CoversAxis(view.y, view.h, tileHeight, y);
  }

  /** One axis of VisibleRangeCoversView: the range starts at or before
      a tile that ends after the view's start... */
  lemma CoversAxis(v: int, extent: int, size: int, i: int)
    requires size > 0 && 0 <= i
    requires i * size < v + extent && v < (i + 1) * size
    ensures Max(0, CDiv(v, size)) <= i < CDiv(v + extent, size) + 1
  {
    StartsAtOrBefore(v, size, i);
    EndsAfter(v + extent, size, i);
  }

  /** ...because the cell of the view's first pixel is not past it... */
  lemma StartsAtOrBefore(v: int, size: int, i: int)
    requires size > 0 && 0 <= i && v < (i + 1) * size
    ensures Max(0, CDiv(v, size)) <= i
  {
    if v >= 0 {
      CDivOfNonNegative(v, size);
      MulCancelStrict(CDiv(v, size), i + 1, size);
    } else {
      CDivOfNegative(v, size);
    }
  }

  /** ...and the cell of the view's end is not before it. */
  lemma EndsAfter(e: int, size: int, i: int)
    requires size > 0 && 0 <= i && i * size < e
    ensures i < CDiv(e, size) + 1
  {
    NonNegativeProduct(i, size);
    CDivOfNonNegative(e, size);
    MulCancelStrict(i, CDiv(e, size) + 1, size);
  }

  /** A tile the render loop hands on to drawing: its cell and id. */
  datatype DrawnTile = DrawnTile(x: int, y: int, id: int)

  /** The culled y/x loop of renderBackLayer and renderMainLayer: nothing
      when the layer is empty or no texture was loaded, otherwise exactly
      the non-empty cells inside the visible range. */
  method VisibleTiles(layer: seq<seq<int>>, hasTextures: bool, view: Rect, tileWidth: int, tileHeight: int)
    returns (drawn: seq<DrawnTile>)
    requires tileWidth != 0 && tileHeight != 0
    requires Rectangular(layer)
    ensures |layer| == 0 || !hasTextures ==> drawn == []
    ensures |layer| > 0 ==>
      var r := VisibleRange(view, tileWidth, tileHeight, |layer[0]|, |layer|);
      && (forall d :: d in drawn ==>
            r.startX <= d.x < r.endX && r.startY <= d.y < r.endY && d.id == layer[d.y][d.x] && d.id != 0)
      && (hasTextures ==> forall y, x :: r.startY <= y < r.endY && r.startX <= x < r.endX && layer[y][x] != 0 ==>
            DrawnTile(x, y, layer[y][x]) in drawn)
  {
    drawn := [];
    if |layer| == 0 || !hasTextures {
      return;
    }
    var r := VisibleRange(view, tileWidth, tileHeight, |layer[0]|, |layer|);
    var y := r.startY;
    while y < r.endY
      invariant r.startY <= y <= Max(r.startY, r.endY)
      invariant forall d :: d in drawn ==>
        r.startX <= d.x < r.endX && r.startY <= d.y < r.endY && d.id == layer[d.y][d.x] && d.id != 0
      invariant forall yy, xx :: r.startY <= yy < y && r.startX <= xx < r.endX && layer[yy][xx] != 0 ==>
        DrawnTile(xx, yy, layer[yy][xx]) in drawn
    {
      var x := r.startX;
      while x < r.endX
        invariant r.startX <= x <= Max(r.startX, r.endX)
        invariant forall d :: d in drawn ==>
          r.startX <= d.x < r.endX && r.startY <= d.y < r.endY && d.id == layer[d.y][d.x] && d.id != 0
        invariant forall yy, xx :: r.startY <= yy < y && r.startX <= xx < r.endX && layer[yy][xx] != 0 ==>
          DrawnTile(xx, yy, layer[yy][xx]) in drawn
        invariant forall xx :: r.startX <= xx < x && layer[y][xx] != 0 ==> DrawnTile(xx, y, layer[y][xx]) in drawn
      {
        var tileId := layer[y][x];
        if tileId != 0 {
          drawn := drawn + [DrawnTile(x, y, tileId)];
        }
        x := x + 1;
      }
      y := y + 1;
    }
  }
}
