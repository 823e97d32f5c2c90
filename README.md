# Street-level imagery fetch pipeline: a Dafny model

This project models the logic of `notebook/mapillary_utils.py`, the helper module that
fetches Mapillary image metadata for a region and downloads image sequences. The model
has four parts:

- **WGS84 envelope** (`bbox_to_wgs84`, module `Envelope`). All four corners of a projected
  `[west, south, east, north]` box go through a transformer that returns
  `(latitude, longitude)`. The envelope is the min/max of the corner longitudes (west, east)
  and of the corner latitudes (south, north).
- **Area-of-interest filter** (`fetch_image_info_by_bbox`, `fetch_image_info_by_aoi`, module
  `AreaFilter`). The tiles covering the region are visited in order, and within each tile its
  decoded point features. A feature is kept when the region admits it:
  - the bbox variant reprojects the point into the query CRS and tests the open interval
    `west < easting < east`, `south < northing < north`;
  - the polygon variant asks the polygon whether it contains `(lng, lat)`.
  
  Kept features are appended in encounter order, and duplicates are kept. A tile whose
  request or decoding raises aborts the whole fetch.
- **Sequence aggregation** (`fetch_sequences`, module `Sequences`). The distinct `sequence_id`
  values are collected; a feature without one raises before anything is downloaded. Then the
  set is walked in an unspecified order. Unless `do_not_download` is set, each sequence is
  downloaded. The counter `num_seq` starts at 1 and grows by one after each download. The
  loop stops once the counter exceeds `max_seqs`.
- **Sequence download** (`download_sequence`, class `Sequences.OutputDirectory`). The
  sequence's images are listed and downloaded one by one. A failure in the listing or in an
  image download appends the sequence id to `bad-sequences.list`, and the call returns
  normally (see "## Left out" for the append itself failing).

The foreign pieces are parameters:
- pyproj transformers are total functions on `real` pairs;
- the tile covering, the tile requests and vector-tile decoding together form a `TileSource`
  mapping a WGS84 box and a zoom level to tiles with their decoding outcome;
- shapely containment is the `contains` function of an `Aoi`;
- the imagery service is an `Env`, with `listImages` (listing plus directory creation) and
  `fetchImage` (one `download_image` call).

The output directory is a class. Its fields are the lines of `bad-sequences.list` and the
image files written. It also has a ghost log of every download started.

`fetch_sequences` keeps its defaults `do_not_download=True` and `max_seqs=None`, so by
default nothing is downloaded. For `max_seqs <= 0` the code still downloads one sequence,
because the cap is tested only after a download; `FetchSequences` promises exactly one
download in that case when there is at least one sequence.

## Model

| member | source | states |
|---|---|---|
| `Envelope.Min4` | notebook/mapillary_utils.py:60-62 | the result is at most each of the four values and equals one of them |
| `Envelope.Max4` | notebook/mapillary_utils.py:61-63 | the result is at least each of the four values and equals one of them |
| `Envelope.BboxToWgs84` | notebook/mapillary_utils.py:47-64 | west <= east and south <= north; every transformed corner lies in the envelope, with longitude for west/east and latitude for south/north; each bound is the coordinate of some corner |
| `Envelope.EnvelopeIsSmallest` | notebook/mapillary_utils.py:56-63 | any box containing the four transformed corners contains the envelope |
| `Envelope.IdentityEnvelope` | notebook/mapillary_utils.py:56-64 | a transformer returning (northing, easting) gives back the input box, so the axis order is [west, south, east, north] |
| `AreaFilter.Kept` | notebook/mapillary_utils.py:92-98 | a feature is in the output iff it is in the input and the region admits it; the output is no longer than the input |
| `AreaFilter.FirstUnavailable` | notebook/mapillary_utils.py:87-90 | None iff every tile decoded; otherwise the index of a failed tile with every earlier tile decoded |
| `AreaFilter.KeptAppend` | notebook/mapillary_utils.py:87-98 | filtering the features tile by tile equals filtering their concatenation |
| `AreaFilter.KeptCount` | notebook/mapillary_utils.py:97-98 | each admitted feature occurs in the output as often as in the input, others never: no deduplication |
| `AreaFilter.KeptIsSubsequence` | notebook/mapillary_utils.py:92-98 | the output is a subsequence of the input, so encounter order is kept |
| `AreaFilter.CollectedFails` | notebook/mapillary_utils.py:87-90 | when tile i is the first that failed, the fetch fails naming tile i and nothing is returned |
| `AreaFilter.AppendKept` | notebook/mapillary_utils.py:92-98 | the inner loop appends exactly the admitted features of one tile, in order |
| `AreaFilter.CollectKept` | notebook/mapillary_utils.py:87-98 | the nested loops return the first tile failure, or the admitted features of all tiles in tile order, then feature order |
| `AreaFilter.FetchImageInfoByBbox` | notebook/mapillary_utils.py:66-99 | tiles are those covering the WGS84 envelope at zoom 14; the result is the collection of kept features or the tile error; every returned feature's reprojected point is strictly inside the bbox |
| `AreaFilter.FetchImageInfoByAoi` | notebook/mapillary_utils.py:101-136 | tiles are those covering the polygon's bounds at zoom 14; the result is the collection of kept features or the tile error; the polygon contains every returned feature |
| `AreaFilter.IdentityCrsScenario` | notebook/mapillary_utils.py:93-98 | with an identity CRS and bbox [0, 0, 1, 1], two inside points are kept and the point at x = 2 and the point on the western edge are dropped |
| `Sequences.SequenceIds` | notebook/mapillary_utils.py:140-143 | succeeds iff every feature has a sequence id, with exactly the set of those ids; otherwise fails naming the first feature without one |
| `Sequences.FirstMissing` | notebook/mapillary_utils.py:141-142 | the first feature lacking a sequence id decides the error, whatever follows it |
| `Sequences.CollectSequenceIds` | notebook/mapillary_utils.py:140-143 | the first loop returns the sequence-id set, or the error for the first feature without an id |
| `Sequences.Enumerate` | notebook/mapillary_utils.py:146 | iterating the set meets each element exactly once, in some order |
| `Sequences.WrittenAll` | notebook/mapillary_utils.py:166-168 | when every image downloads, every listed image is written, in listing order |
| `Sequences.WrittenUpTo` | notebook/mapillary_utils.py:166-172 | when image k is the first to fail, exactly the images before k are written |
| `Sequences.WrittenAllExactly` | notebook/mapillary_utils.py:166-168 | every listed image is written iff every image download succeeds |
| `Sequences.BadLogMembers` | notebook/mapillary_utils.py:170-172 | a sequence is in the bad-sequences log iff it was downloaded and its download failed |
| `Sequences.OutputDirectory.DownloadSequence` | notebook/mapillary_utils.py:154-172 | records one attempt; appends the images written before any failure; appends the id to the bad-sequences log exactly when listing or some image failed; never raises |
| `Sequences.OutputDirectory.DownloadInOrder` | notebook/mapillary_utils.py:145-151 | over a fixed order: downloads a prefix of it, of length all (no cap) or min(length, cap) where the cap is max_seqs if at least 1 and 1 otherwise; none with do_not_download; the logs grow by exactly those downloads |
| `Sequences.OutputDirectory.DownloadEach` | notebook/mapillary_utils.py:145-151 | downloads distinct members of the set; none with do_not_download; all of them when max_seqs is None; min(size, cap) of them otherwise; the logs grow by exactly those downloads |
| `Sequences.OutputDirectory.FetchSequences` | notebook/mapillary_utils.py:139-152 | returns the sequence-id set (or the missing-id error, with no download) whatever do_not_download and max_seqs are; zero attempts with do_not_download; one per sequence with max_seqs None; min(k, size) with k >= 1; exactly one with k <= 0 and a non-empty set; attempts are distinct members of the set; the logs grow by exactly those downloads |

## Left out

- pyproj transformers (`to_wgs84`, `from_wgs84`, `proj_transform`): floating-point geodesy in a foreign library. They are function parameters on `real` pairs, and no rounding is modelled.
- Tile enumeration (`mercantile.tiles`), the tile HTTP requests and `vt_bytes_to_geojson` decoding: foreign libraries and network. They are one `TileSource` parameter whose tiles carry `None` when the request or the decoding raised. The tile coverage name and layer name are not modelled; only the zoom level 14 is.
- shapely `Point`, `aoi.contains` and `aoi.bounds`: a foreign geometry library. They are the `contains` function and the `bounds` box of an `Aoi`, so boundary inclusion is whatever that function says.
- `download_image` and `get_image_info`: network and file I/O. A single image download is one fallible step (`Env.fetchImage`). Not modelled: the `already-exists.list` entry written before an existing file is overwritten, and the empty file left when the image request fails after the file was opened.
- The listing request, its JSON decoding and `os.makedirs` in `download_sequence` are one fallible step (`Env.listImages`). The service is a pure function, so it answers the same way every time it is asked.
- `OutputDirectory.DownloadSequence`: the append to `bad-sequences.list` is modelled as never failing. In the source, when the listing of the first sequence fails before `os.makedirs` has created `odir`, that `open` raises and the exception aborts `fetch_sequences`; the model does not capture this abort.
- A listing item without an `id` key is treated as a failed image download at its position, because `Env.listImages` yields image ids only. The images before it stay written and the sequence is logged as bad, as in the source.
- URL formatting, access tokens, `print` and `tqdm` progress output: no logic of their own.
- Property values of a feature are strings: only `sequence_id` is read, and as a set element.
- GeoJSON geometry access (`feature['geometry']['coordinates']`) is assumed well formed: every decoded feature holds a longitude and a latitude.
- Set iteration in `fetch_sequences`: the set is first laid out as a sequence (`Enumerate`) and then walked by index. This is one loop in the source; the order is unconstrained in both.
