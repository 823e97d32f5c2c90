/** The WGS84 envelope of a projected bounding box (`bbox_to_wgs84`). */
module Envelope {

  /** An axis-aligned box in the order the repository passes it around: [west, south, east, north]. */
  datatype BBox = BBox(west: real, south: real, east: real, north: real)

  /** A transformer to WGS84: takes (easting, northing), returns (latitude, longitude). */
  type ToWgs84 = (real, real) -> (real, real)

  function Lat(p: (real, real)): real { p.0 }
  function Lng(p: (real, real)): real { p.1 }

  function Min4(a: real, b: real, c: real, d: real): (m: real)
    ensures m <= a && m <= b && m <= c && m <= d
    ensures m == a || m == b || m == c || m == d
  {
    var ab := if a <= b then a else b;
    var cd := if c <= d then c else d;
    if ab <= cd then ab else cd
  }

  function Max4(a: real, b: real, c: real, d: real): (m: real)
    ensures a <= m && b <= m && c <= m && d <= m
    ensures m == a || m == b || m == c || m == d
  {
    var ab := if a >= b then a else b;
    var cd := if c >= d then c else d;
    if ab >= cd then ab else cd
  }

  /** The four corners of `b`, transformed, in the order the source visits them: SW, SE, NW, NE. */
  function Corners(t: ToWgs84, b: BBox): seq<(real, real)>
  {
    [t(b.west, b.south), t(b.east, b.south), t(b.west, b.north), t(b.east, b.north)]
  }

  /** `box` contains the (latitude, longitude) point `p`, boundary included. */
  predicate Encloses(box: BBox, p: (real, real))
  {
    box.west <= Lng(p) <= box.east && box.south <= Lat(p) <= box.north
  }

  /**
   * The axis-aligned WGS84 envelope of the four transformed corners: longitudes give
   * west and east, latitudes give south and north.
   */
  function BboxToWgs84(t: ToWgs84, b: BBox): (r: BBox)
    ensures r.west <= r.east && r.south <= r.north
    ensures forall p :: p in Corners(t, b) ==> Encloses(r, p)
    ensures exists p :: p in Corners(t, b) && r.west == Lng(p)
    ensures exists p :: p in Corners(t, b) && r.east == Lng(p)
    ensures exists p :: p in Corners(t, b) && r.south == Lat(p)
    ensures exists p :: p in Corners(t, b) && r.north == Lat(p)
  {
    var c1 := t(b.west, b.south);
    var c2 := t(b.east, b.south);
    var c3 := t(b.west, b.north);
    var c4 := t(b.east, b.north);
    assert Corners(t, b) == [c1, c2, c3, c4];
    assert c1 in Corners(t, b) && c2 in Corners(t, b) && c3 in Corners(t, b) && c4 in Corners(t, b);
    BBox(Min4(Lng(c1), Lng(c2), Lng(c3), Lng(c4)),
         Min4(Lat(c1), Lat(c2), Lat(c3), Lat(c4)),
         Max4(Lng(c1), Lng(c2), Lng(c3), Lng(c4)),
         Max4(Lat(c1), Lat(c2), Lat(c3), Lat(c4)))
  }

  /** The envelope is the smallest box that contains every transformed corner. */
  lemma EnvelopeIsSmallest(t: ToWgs84, b: BBox, box: BBox)
    requires forall p :: p in Corners(t, b) ==> Encloses(box, p)
    ensures var r := BboxToWgs84(t, b);
      box.west <= r.west && r.east <= box.east && box.south <= r.south && r.north <= box.north
  {
    var r := BboxToWgs84(t, b);
    var w :| w in Corners(t, b) && r.west == Lng(w);
    var e :| e in Corners(t, b) && r.east == Lng(e);
    var s :| s in Corners(t, b) && r.south == Lat(s);
    var n :| n in Corners(t, b) && r.north == Lat(n);
    assert Encloses(box, w) && Encloses(box, e) && Encloses(box, s) && Encloses(box, n);
  }

  /**
   * Axis order: under a transformer that returns (northing, easting) unchanged, which is what
   * a longitude/latitude CRS (x = longitude, such as OGC:CRS84) gives, a well-formed box
   * comes back as itself.
   */
  lemma IdentityEnvelope(b: BBox)
    requires b.west <= b.east && b.south <= b.north
    ensures BboxToWgs84((e: real, n: real) => (n, e), b) == b
  {
  }
}
