/** The values the fetch pipeline passes around: decoded point features, tiles and errors. */
module Features {
  import opened Wrappers

  /**
   * A point feature decoded from the "image" layer of a vector tile: its WGS84 position
   * (GeoJSON coordinate order, longitude first) and its property bag. Property values are
   * kept as strings; only `sequence_id` is ever read.
   */
  datatype Feature = Feature(lng: real, lat: real, properties: map<string, string>)

  /** The `{"type": "FeatureCollection", "features": [...]}` value the fetch functions return. */
  datatype FeatureCollection = FeatureCollection(features: seq<Feature>)

  /**
   * One tile of the covering, with the outcome of requesting and decoding its payload:
   * `None` when the request or the decoding raised.
   */
  datatype Tile = Tile(x: int, y: int, z: int, decoded: Option<seq<Feature>>)

  /** The exceptions that escape the fetch functions. */
  datatype Error =
    | TileUnavailable(x: int, y: int, z: int)  // the tile request or its decoding failed
    | MissingSequenceId(index: nat)            // the feature at this index has no `sequence_id`
}
