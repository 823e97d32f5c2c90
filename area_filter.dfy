/**
 * The area-of-interest filter behind `fetch_image_info_by_bbox` and `fetch_image_info_by_aoi`:
 * walk the tiles covering the region, and in each tile the decoded features, and keep the
 * features that lie in the region, in encounter order and without deduplication.
 */
module AreaFilter {
  import opened Wrappers
  import opened Features
  import opened Envelope

  /** Both fetch functions ask for the tiles at this zoom level. */
  const TILE_ZOOM: nat := 14

  /**
   * The tile covering of a WGS84 box at a zoom level, each tile with the outcome of fetching
   * and decoding its "image" layer (mercantile, the tile requests and vt2geojson).
   */
  type TileSource = (BBox, nat) -> seq<Tile>

  /** A transformer from WGS84: takes (latitude, longitude), returns (easting, northing). */
  type FromWgs84 = (real, real) -> (real, real)

  /** A polygon area of interest: its containment test on (x = longitude, y = latitude) and its bounds. */
  datatype Aoi = Aoi(contains: (real, real) -> bool, bounds: BBox)

  /** The region a fetch keeps features from. */
  datatype Region =
    | ProjectedBox(bbox: BBox, fromWgs84: FromWgs84)  // a bbox in a projected CRS
    | Polygon(aoi: Aoi)                                // a WGS84 polygon

  /** The open-interval test on the reprojected point: a point on the boundary is outside. */
  predicate StrictlyInside(bbox: BBox, easting: real, northing: real)
  {
    easting > bbox.west && easting < bbox.east && northing > bbox.south && northing < bbox.north
  }

  /** The region keeps feature `f`. */
  predicate Admits(region: Region, f: Feature)
  {
    match region
    case ProjectedBox(bbox, fromWgs84) =>
      var p := fromWgs84(f.lat, f.lng);
      StrictlyInside(bbox, p.0, p.1)
    case Polygon(aoi) => aoi.contains(f.lng, f.lat)
  }

  /** The features of `fs` the region keeps, in order, duplicates included. */
  function Kept(fs: seq<Feature>, region: Region): (r: seq<Feature>)
    ensures |r| <= |fs|
    ensures forall f :: f in r <==> f in fs && Admits(region, f)
  {
    if fs == [] then []
    else
      var last := fs[|fs| - 1];
      Kept(fs[..|fs| - 1], region) + (if Admits(region, last) then [last] else [])
  }

  /** The decoded features of all tiles, tile after tile; a tile that failed contributes nothing. */
  function AllFeatures(tiles: seq<Tile>): seq<Feature>
  {
    if tiles == [] then []
    else
      var last := tiles[|tiles| - 1];
      AllFeatures(tiles[..|tiles| - 1]) + (if last.decoded.Some? then last.decoded.value else [])
  }

  /** The index of the first tile whose request or decoding failed, if any. */
  function FirstUnavailable(tiles: seq<Tile>): (r: Option<nat>)
    ensures r.None? <==> forall i :: 0 <= i < |tiles| ==> tiles[i].decoded.Some?
    ensures r.Some? ==> r.value < |tiles| && tiles[r.value].decoded.None?
    ensures r.Some? ==> forall j :: 0 <= j < r.value ==> tiles[j].decoded.Some?
  {
    if tiles == [] then None
    else if tiles[0].decoded.None? then Some(0)
    else
      match FirstUnavailable(tiles[1..])
      case None => None
      case Some(i) => Some(i + 1)
  }

  /**
   * What a fetch over `tiles` returns: the first failing tile aborts it with nothing kept;
   * otherwise the kept features of all tiles.
   */
  function Collected(tiles: seq<Tile>, region: Region): Result<seq<Feature>, Error>
  {
    match FirstUnavailable(tiles)
    case Some(i) => Failure(TileUnavailable(tiles[i].x, tiles[i].y, tiles[i].z))
    case None => Success(Kept(AllFeatures(tiles), region))
  }

  /** Filtering distributes over concatenation: the per-tile loop equals one filter over all features. */
  lemma {:induction false} KeptAppend(a: seq<Feature>, b: seq<Feature>, region: Region)
    ensures Kept(a + b, region) == Kept(a, region) + Kept(b, region)
    decreases |b|
  {
    if b == [] {
      assert a + b == a;
    } else {
      var b', last := b[..|b| - 1], b[|b| - 1];
      var tail := if Admits(region, last) then [last] else [];
      assert (a + b)[..|a + b| - 1] == a + b' && (a + b)[|a + b| - 1] == last;
      assert Kept(a + b, region) == Kept(a + b', region) + tail;
      KeptAppend(a, b', region);
      assert Kept(b, region) == Kept(b', region) + tail;
    }
  }

  /** The number of copies of `f` in the output is its number of copies in the input, or zero. */
  lemma {:induction false} KeptCount(fs: seq<Feature>, region: Region, f: Feature)
    ensures multiset(Kept(fs, region))[f] == if Admits(region, f) then multiset(fs)[f] else 0
  {
    if fs != [] {
      var init := fs[..|fs| - 1];
      KeptCount(init, region, f);
      assert fs == init + [fs[|fs| - 1]];
    }
  }

  /** `a` is `b` with some elements left out (greedy match from the end). */
  ghost predicate IsSubsequence(a: seq<Feature>, b: seq<Feature>)
    decreases |b|
  {
    if a == [] then true
    else if b == [] then false
    else if a[|a| - 1] == b[|b| - 1] then IsSubsequence(a[..|a| - 1], b[..|b| - 1])
    else IsSubsequence(a, b[..|b| - 1])
  }

  /** The kept features keep their relative order. */
  lemma {:induction false} KeptIsSubsequence(fs: seq<Feature>, region: Region)
    ensures IsSubsequence(Kept(fs, region), fs)
  {
    if fs != [] {
      var init := fs[..|fs| - 1];
      var last := fs[|fs| - 1];
      KeptIsSubsequence(init, region);
      if Admits(region, last) {
        var k := Kept(fs, region);
        assert k[..|k| - 1] == Kept(init, region);
      } else {
        var k := Kept(init, region);
        assert Kept(fs, region) == k;
        if k != [] {
          assert k[|k| - 1] in k;
        }
      }
    }
  }

  /** A fetch fails exactly when some tile failed, and then names the first such tile. */
  lemma CollectedFails(tiles: seq<Tile>, region: Region, i: nat)
    requires i < |tiles| && tiles[i].decoded.None?
    requires forall j :: 0 <= j < i ==> tiles[j].decoded.Some?
    ensures Collected(tiles, region) == Failure(TileUnavailable(tiles[i].x, tiles[i].y, tiles[i].z))
  {
  }

  /** One more tile, decoded, adds its kept features at the end. */
  lemma KeptStep(tiles: seq<Tile>, t: nat, region: Region)
    requires t < |tiles| && tiles[t].decoded.Some?
    ensures Kept(AllFeatures(tiles[..t + 1]), region)
      == Kept(AllFeatures(tiles[..t]), region) + Kept(tiles[t].decoded.value, region)
  {
    assert tiles[..t + 1][..t] == tiles[..t];
    assert AllFeatures(tiles[..t + 1]) == AllFeatures(tiles[..t]) + tiles[t].decoded.value;
    KeptAppend(AllFeatures(tiles[..t]), tiles[t].decoded.value, region);
  }

  /** The inner loop: append to `output` the features of one tile that the region admits. */
  method AppendKept(output: seq<Feature>, features: seq<Feature>, region: Region) returns (r: seq<Feature>)
    ensures r == output + Kept(features, region)
  {
    r := output;
    for k := 0 to |features|
      invariant r == output + Kept(features[..k], region)
    {
      var feature := features[k];
      assert features[..k + 1][..k] == features[..k];
      if Admits(region, feature) {
        r := r + [feature];
      }
    }
    assert features[..|features|] == features;
  }

  /**
   * The nested loops over tiles and their features: the tiles in order, the features of each
   * tile in order, appending every feature the region admits.
   */
  method CollectKept(tiles: seq<Tile>, region: Region) returns (r: Result<seq<Feature>, Error>)
    ensures r == Collected(tiles, region)
  {
    var output: seq<Feature> := [];
    var t := 0;
    while t < |tiles|
      invariant 0 <= t <= |tiles|
      invariant forall j :: 0 <= j < t ==> tiles[j].decoded.Some?
      invariant output == Kept(AllFeatures(tiles[..t]), region)
    {
      var tile := tiles[t];
      if tile.decoded.None? {
        CollectedFails(tiles, region, t);
        return Failure(TileUnavailable(tile.x, tile.y, tile.z));
      }
      var features := tile.decoded.value;
      output := AppendKept(output, features, region);
      KeptStep(tiles, t, region);
      t := t + 1;
    }
    assert tiles[..t] == tiles;
    r := Success(output);
  }

  /**
   * `fetch_image_info_by_bbox`: take the tiles covering the WGS84 envelope of `bbox`, and keep
   * the features whose point, reprojected into the query CRS, lies strictly inside `bbox`.
   */
  method FetchImageInfoByBbox(bbox: BBox, toWgs84: ToWgs84, fromWgs84: FromWgs84, source: TileSource)
    returns (r: Result<FeatureCollection, Error>)
    ensures var tiles := source(BboxToWgs84(toWgs84, bbox), TILE_ZOOM);
      match Collected(tiles, ProjectedBox(bbox, fromWgs84))
      case Success(fs) => r == Success(FeatureCollection(fs))
      case Failure(e) => r == Failure(e)
    ensures r.Success? ==> forall f :: f in r.value.features ==>
      var p := fromWgs84(f.lat, f.lng); StrictlyInside(bbox, p.0, p.1)
  {
    var envelope := BboxToWgs84(toWgs84, bbox);
    var tiles := source(envelope, TILE_ZOOM);
    var kept := CollectKept(tiles, ProjectedBox(bbox, fromWgs84));
    match kept
    case Success(fs) => r := Success(FeatureCollection(fs));
    case Failure(e) => r := Failure(e);
  }

  /**
   * `fetch_image_info_by_aoi`: take the tiles covering the polygon's bounds, and keep the
   * features whose point the polygon contains.
   */
  method FetchImageInfoByAoi(aoi: Aoi, source: TileSource) returns (r: Result<FeatureCollection, Error>)
    ensures var tiles := source(aoi.bounds, TILE_ZOOM);
      match Collected(tiles, Polygon(aoi))
      case Success(fs) => r == Success(FeatureCollection(fs))
      case Failure(e) => r == Failure(e)
    ensures r.Success? ==> forall f :: f in r.value.features ==> aoi.contains(f.lng, f.lat)
  {
    var tiles := source(aoi.bounds, TILE_ZOOM);
    var kept := CollectKept(tiles, Polygon(aoi));
    match kept
    case Success(fs) => r := Success(FeatureCollection(fs));
    case Failure(e) => r := Failure(e);
  }

  /**
   * A bbox [0, 0, 1, 1] in a longitude/latitude CRS (x = longitude), one tile holding two points inside,
   * one at x = 2 and one on the western edge: exactly the two inside points are kept.
   */
  lemma IdentityCrsScenario()
    ensures var inside1 := Feature(0.5, 0.5, map[]);
      var inside2 := Feature(0.25, 0.75, map[]);
      var outside := Feature(2.0, 0.5, map[]);
      var onEdge := Feature(0.0, 0.5, map[]);
      var region := ProjectedBox(BBox(0.0, 0.0, 1.0, 1.0), (lat: real, lng: real) => (lng, lat));
      var tile := Tile(8192, 8191, TILE_ZOOM, Some([inside1, outside, inside2, onEdge]));
      Collected([tile], region) == Success([inside1, inside2])
  {
    var inside1 := Feature(0.5, 0.5, map[]);
    var inside2 := Feature(0.25, 0.75, map[]);
    var outside := Feature(2.0, 0.5, map[]);
    var onEdge := Feature(0.0, 0.5, map[]);
    var fs := [inside1, outside, inside2, onEdge];
    var region := ProjectedBox(BBox(0.0, 0.0, 1.0, 1.0), (lat: real, lng: real) => (lng, lat));
    var tile := Tile(8192, 8191, TILE_ZOOM, Some(fs));
    assert [tile][..0] == [];
    assert AllFeatures([tile]) == fs;
    assert fs[..1][..0] == [] && fs[..2][..1] == fs[..1] && fs[..3][..2] == fs[..2];
    assert fs[..4][..3] == fs[..3] && fs[..4] == fs;
    assert Kept(fs[..1], region) == [inside1];
    assert Kept(fs[..2], region) == [inside1];
    assert Kept(fs[..3], region) == [inside1, inside2];
    assert Kept(fs, region) == [inside1, inside2];
  }
}
