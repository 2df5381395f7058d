# nearest-place-service, modelled in Dafny

The nearest-place service is a small HTTP transform. It receives a JSON array of entities. To each entity that carries `lat` and `lon`, it adds a `nearest_place` object describing the nearest known Norwegian postal place:

- its postcode and name;
- its coordinates;
- the bearing from the place to the entity, in degrees;
- the 16-point compass label of that bearing;
- the distance in metres.

At start-up the service reads a gazetteer of places. It skips reserved postcodes (those starting with "00") and decommissioned places, whose lower-cased name contains "ikkje i bruk". It keeps the remaining places in a list and indexes their coordinates in a 2-D tree.

The model covers `nearest-place-service/service/transform-service.py`:

| module (file) | models |
|---|---|
| `Wrappers` (wrappers.dfy) | `Option` and `Result` |
| `Strings` (strings.dfy) | `str.startswith`, `str.find`, and `str.lower` on ASCII letters |
| `Json` (json.dfy) | decoded JSON values |
| `Compass` (compass.dfy) | `compute_compass_direction`, including Python's negative list indexing; the bearing normalisation of `compute_bearing` |
| `Coordinates` (coordinates.dfy) | `float()` on JSON values; the transit-tag decoding of `get_entity_lat_lon` |
| `Places` (places.dfy) | gazetteer records and the load filter |
| `SpatialIndex` (spatial_index.dfy) | the tree as a class: `create`, `add`, `search_nn` |
| `Loader` (loader.dfy) | the load loop of the `__main__` block. It is a specification fold `Load` plus the imperative loop `ServiceState.LoadPlaces`, proved equal to it. |
| `Enrichment` (enrichment.dfy) | `transform_entity` as a method that updates an entity object in place, specified by the relation `Enriches` |
| `Endpoint` (endpoint.dfy) | the `generate` generator of `/transform` as a loop that returns the pieces it yields |

Floating-point routines the service borrows are parameters of the model. `Enrichment.Numerics` holds three of them:

- `float()` of a string;
- `degrees(atan2(...))` of the bearing formula, constrained to [-180, 180];
- geopy's Vincenty distance.

`json.dumps` is a fourth parameter, of `Endpoint.Generate`.

A failure (an exception in the source) becomes an `Error` value or an `Option` result:

- in the decoders, as `Result` values;
- in `TransformEntity` and `LoadPlaces`, as an `Option<Error>` result;
- in `Generate`, as `Failed(index, error)`, naming the entity at which the stream stops.

`compute_compass_direction` floors `bearing / 22.5` with no guard. So 359.9 is NNW, and 360 would raise IndexError (`Compass.CompassExamples`). `Compass.ComputeBearing` shows that the normalised bearing never reaches 360.

## Model

| member | source | states |
|---|---|---|
| Compass.PyIndex | nearest-place-service/service/transform-service.py:19 | list indexing succeeds exactly for indices in [-len, len), negative ones counting from the end |
| Compass.SectorArc | nearest-place-service/service/transform-service.py:19 | `floor(b/22.5) == k` exactly when b lies in the half-open arc [22.5k, 22.5k+22.5) |
| Compass.SectorInRange | nearest-place-service/service/transform-service.py:19 | every bearing in [0, 360) indexes the 16-entry table within bounds |
| Compass.CompassDirection | nearest-place-service/service/transform-service.py:16-19 | a label is returned exactly for bearings in [-360, 360); any other bearing raises IndexError |
| Compass.CompassSector | nearest-place-service/service/transform-service.py:16-19 | a bearing in [0, 360) inside arc k gets the k-th label, clockwise from N |
| Compass.CompassWrapsNegative | nearest-place-service/service/transform-service.py:19 | a bearing in [-360, 0) gets the same label as that bearing plus 360, through negative indexing |
| Compass.CompassExamples | nearest-place-service/service/transform-service.py:16-19 | 0 gives N, 22.5 gives NNE, 180 gives S, 359.9 gives NNW, and 360 raises |
| Compass.NormaliseBearing | nearest-place-service/service/transform-service.py:28 | Python's float `(x + 360) % 360` always lies in [0, 360) |
| Compass.NormaliseBearingValue | nearest-place-service/service/transform-service.py:28 | for an angle in [-360, 360), the normalised value is the angle, or the angle plus 360 when it is negative |
| Compass.ComputeBearing | nearest-place-service/service/transform-service.py:22-28 | the bearing lies in [0, 360), always has a compass label, and equals the atan2 angle moved into [0, 360) |
| Strings.Find | nearest-place-service/service/transform-service.py:120 | `find` returns the first index where the substring occurs, or -1 when it occurs nowhere |
| Strings.FindFindsAnyOccurrence | nearest-place-service/service/transform-service.py:120 | `find(...) > -1` holds exactly when the substring occurs somewhere |
| Strings.ToLowerSlice | nearest-place-service/service/transform-service.py:120 | lower-casing a slice of the name gives the same slice of the lower-cased name |
| Strings.FindIgnoresCase | nearest-place-service/service/transform-service.py:120 | if some slice of the text lower-cases to the needle, `text.lower().find(needle)` succeeds at or before that slice |
| Coordinates.PyFloat | nearest-place-service/service/transform-service.py:44 | `float()` gives the number back, 1.0 or 0.0 for booleans, and the parsed value of a string, raising ValueError when the string does not parse; it raises TypeError for null, lists and objects |
| Coordinates.DecodeCoordinate | nearest-place-service/service/transform-service.py:38-44 | an untagged string raises AssertionError; a `~f`/`~d` string is parsed after its tag; any other value goes through `float()` |
| Coordinates.DecodeTagged | nearest-place-service/service/transform-service.py:39-40 | a tagged string decodes to the parse of its text, and both tags decode alike |
| Coordinates.DecodeSucceeds | nearest-place-service/service/transform-service.py:38-44 | decoding succeeds exactly on numbers, booleans, and tagged strings whose text parses |
| Coordinates.DecodeNumber | nearest-place-service/service/transform-service.py:43-44 | a plain number decodes to itself |
| Coordinates.DecodeField | nearest-place-service/service/transform-service.py:38-44 | a missing key raises KeyError; otherwise the value under the key is decoded |
| Coordinates.GetEntityLatLon | nearest-place-service/service/transform-service.py:36-54 | the pair decodes exactly when both fields decode, and equals both decoded values; `lat` is decoded first, so its error wins |
| Coordinates.LatLonSymmetric | nearest-place-service/service/transform-service.py:38-52 | `lat` and `lon` follow the same rule: swapping the two fields swaps the pair |
| Places.Excluded | nearest-place-service/service/transform-service.py:120 | a place is skipped exactly when its postcode starts with "00" or its lower-cased name contains "ikkje i bruk" somewhere |
| Places.DecommissionedInAnyCase | nearest-place-service/service/transform-service.py:120 | a place whose name holds the marker in any letter case is skipped |
| Places.DecommissionedUpperCase | nearest-place-service/service/transform-service.py:120 | the name "FOO IKKJE I BRUK", in capitals, is skipped |
| Places.Admitted | nearest-place-service/service/transform-service.py:119-123 | the admitted places are never more than the input |
| Places.AdmittedMembership | nearest-place-service/service/transform-service.py:119-123 | a place is admitted exactly when it is in the input and passes the filter |
| Places.AdmittedAppend | nearest-place-service/service/transform-service.py:119-123 | the filter distributes over concatenation, so input order is kept |
| Places.AdmittedIdempotent | nearest-place-service/service/transform-service.py:120 | filtering twice admits nothing more |
| Places.PlaceCoordinates | nearest-place-service/service/transform-service.py:124 | the pair succeeds exactly when `float()` accepts both `LAT` and `LON`; `LAT` is converted first |
| SpatialIndex.PlaceIndex.constructor | nearest-place-service/service/transform-service.py:115 | the new tree is empty |
| SpatialIndex.PlaceIndex.Add | nearest-place-service/service/transform-service.py:124-125 | the tree gains exactly one node, holding the point and its place |
| SpatialIndex.PlaceIndex.SearchNearest | nearest-place-service/service/transform-service.py:63 | the node returned is in the tree, and no node is strictly closer to the query |
| Loader.LoadStopsAtFailure | nearest-place-service/service/transform-service.py:118-125 | once a conversion raises, nothing later in the gazetteer is looked at |
| Loader.LoadIndexesOnlyAdmitted | nearest-place-service/service/transform-service.py:119-125 | every tree node's place comes from the gazetteer and passes the filter |
| Loader.LoadSucceeded | nearest-place-service/service/transform-service.py:119-125 | after a full load, `places` is exactly the admitted places in order, and node i holds place i at its converted point |
| Loader.LoadFails | nearest-place-service/service/transform-service.py:124 | the load fails exactly when some admitted place has a coordinate `float()` refuses |
| Loader.ServiceState.constructor | nearest-place-service/service/transform-service.py:115 | `places` and the tree start empty |
| Loader.ServiceState.LoadPlaces | nearest-place-service/service/transform-service.py:118-125 | the loop's failure, `places` and tree nodes equal the fold `Load` over the gazetteer, appended to the old state |
| Enrichment.NearestPlaceBlock | nearest-place-service/service/transform-service.py:64-81 | the block has exactly the seven keys; its bearing lies in [0, 360) and its direction is the label of the arc that holds the bearing |
| Enrichment.Entity.constructor | nearest-place-service/service/transform-service.py:100 | an entity object holds the decoded JSON fields |
| Enrichment.TransformEntity | nearest-place-service/service/transform-service.py:57-83 | on success the entity is enriched against the tree (see `Enriches`); an entity without both keys needs no non-empty tree and is left unchanged. The only error in the model is a decoding error: the entity has both keys, the error is the one `get_entity_lat_lon` raises, and the entity is unchanged |
| Enrichment.NoCoordinatesUnchanged | nearest-place-service/service/transform-service.py:58 | an entity lacking `lat` or `lon` is left exactly as it was |
| Enrichment.EnrichmentSetsOnlyNearestPlace | nearest-place-service/service/transform-service.py:73-81 | only `nearest_place` is added or replaced; it names a nearest node's postcode, name and point, with the bearing and distance from that place to the entity and the compass label of that bearing |
| Enrichment.EnrichedPlaceIsAdmitted | nearest-place-service/service/transform-service.py:63-75 | against a tree built by the load loop, the reported place is a gazetteer place that passes the filter |
| Endpoint.PiecesLayout | nearest-place-service/service/transform-service.py:91-95 | element k is piece 2k, and a "," sits between neighbours and nowhere else |
| Endpoint.PiecesText | nearest-place-service/service/transform-service.py:91-95 | the pieces concatenate to the elements joined by "," |
| Endpoint.FrameText | nearest-place-service/service/transform-service.py:89-96 | a completed stream's text is "[", the elements joined by ",", then "]": a JSON array |
| Endpoint.EmptyBatch | nearest-place-service/service/transform-service.py:90-96 | an empty batch streams as "[]" |
| Endpoint.StreamStep | nearest-place-service/service/transform-service.py:92-95 | a loop turn extends the pieces by "," (except for the first) and the new element |
| Endpoint.Emit | nearest-place-service/service/transform-service.py:92-95 | on success, one more element is yielded and the entity is enriched; if it raises, only the separator was yielded and the entity is unchanged |
| Endpoint.Generate | nearest-place-service/service/transform-service.py:89-96 | a completed stream is the framed, comma-separated dumps of every enriched entity, each transformed in place. With an empty tree, a batch of entities without coordinates streams through unchanged. A stream stopped at entity i holds the dumps of entities before i, and entity i is the one whose coordinates fail to decode. |

## Left out

- The ais-service and everything in the repository outside `transform-service.py` are not part of this model.
- These parts of the service are not modelled:
  - the Flask application and routing;
  - `request.get_json()`;
  - the `print` calls;
  - the command-line argument check;
  - opening and parsing the gazetteer file;
  - `app.run`;
  - the unused `Point` named tuple.
  The gazetteer arrives as a sequence of `Place` records and the request body as a sequence of entity objects.
- Coordinates.PyFloat: `float()` of a JSON integer too large for a float raises OverflowError. The model returns the number.
- Floating point is not modelled. Reals are exact. The trigonometry, `degrees`, Vincenty's distance, `float()` on strings and `json.dumps` are parameters of the model. The parser yields a real, so the model has no NaN and no infinities.
- Enrichment.TransformEntity: its only modelled error is a decoding error. These raising paths are not modelled:
  - `float()` accepts "nan" and "inf", and the JSON reader accepts `NaN` and `Infinity`. A NaN coordinate makes `floor(nan / 22.5)` raise ValueError. An infinite one makes `sin` or `cos` raise ValueError first.
  - geopy's Vincenty routine can raise when it fails to converge. The distance parameter is total.
- Endpoint.Generate: the text the model yields is the text of `json.dumps` only up to two losses in `Json.Value`:
  - An object is a map, so the key order of the Python dict is lost. The caller's keys come out in input order, with `nearest_place` last, unless the input already had that key, which keeps its place.
  - A number is a real, so `1` and `1.0` become the same value, though `json.dumps` prints them differently.
- Compass.NormaliseBearing: rounding of the float addition and `%` is not modelled, so a raw angle within rounding distance of a boundary is not covered.
- Enrichment.NearestPlaceBlock: does not fix the key order of the serialised block, because `json.dumps` is a parameter of the model.
- SpatialIndex.PlaceIndex.SearchNearest: a linear scan stands in for the k-d tree. The contract is the tree query's: a node at least distance, by the tree's squared Euclidean metric on (lat, lon). When several nodes tie, which one the k-d tree picks is not modelled. Neither is the tree's internal layout.
- SpatialIndex.PlaceIndex.SearchNearest: searching an empty tree is not modelled. `TransformEntity` and `Emit` require a non-empty tree only for an entity with both `lat` and `lon`, and `Generate` only when some entity has both.
- Places: a gazetteer record is assumed to have string `POSTNR` and `POSTSTAD` and both `LAT` and `LON`. The KeyError or AttributeError a malformed record would raise is not modelled.
- Strings.ToLowerAscii: lower-cases ASCII letters only. Python's Unicode `lower()` also maps characters such as the Kelvin sign to ASCII letters; names made of ASCII characters are not affected.
- Entities that are not JSON objects, and request bodies that are not arrays, are not modelled.
- Endpoint.Generate: an exception raised while streaming ends the response in a way the web framework decides. The model returns the pieces yielded before the exception, marked `Failed` with the entity's index and the error.
