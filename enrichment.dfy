/** `transform_entity`: adds a `nearest_place` block to an entity that has
    both `lat` and `lon`, in place. */
module Enrichment {
  import opened Wrappers
  import opened Json
  import opened Compass
  import opened Coordinates
  import opened Places
  import opened SpatialIndex
  import opened Loader

  /** The floating-point routines the service borrows: `float()` on strings,
      `degrees(atan2(...))` of the bearing formula and geopy's Vincenty
      distance in metres, each from (lat1, lon1) to (lat2, lon2). */
  datatype Numerics = Numerics(
    parse: FloatParser,
    rawBearing: (real, real, real, real) -> RawAngle,
    distance: (real, real, real, real) -> real)

  const NearestPlaceKey: string := "nearest_place"

  /** The keys of a `nearest_place` block. */
  const BlockKeys: set<string> := {"postal_code", "name", "bearing", "direction", "distance", "lat", "lon"}

  /** The guard of `transform_entity`. */
  predicate HasCoordinates(entity: map<string, Value>)
  {
    "lat" in entity && "lon" in entity
  }

  /** The `nearest_place` block for an entity at (lat, lon) matched to node `n`:
      bearing and distance run from the place to the entity. */
  function NearestPlaceBlock(n: Node, lat: real, lon: real, num: Numerics): (r: Value)
    ensures r.Obj? && r.fields.Keys == BlockKeys
    ensures r.fields["bearing"].Num? && 0.0 <= r.fields["bearing"].n < 360.0
    ensures var b := r.fields["bearing"].n;
            exists k :: 0 <= k < |Directions| && 22.5 * k as real <= b < 22.5 * k as real + 22.5 &&
                        r.fields["direction"] == Str(Directions[k])
  {
    var bearing := ComputeBearing(n.data.lat, n.data.lon, lat, lon, num.rawBearing);
    var k := Sector(bearing);
    SectorInRange(bearing);
    SectorArc(bearing, k);
    CompassSector(bearing, k);
    Obj(map[
      "postal_code" := Str(n.place.postnr),
      "name" := Str(n.place.poststad),
      "bearing" := Num(bearing),
      "direction" := Str(CompassDirection(bearing).value),
      "distance" := Num(num.distance(n.data.lat, n.data.lon, lat, lon)),
      "lat" := Num(n.data.lat),
      "lon" := Num(n.data.lon)])
  }

  /** `after` is a correct enrichment of `before` against the index `nodes`:
      unchanged when a coordinate key is missing, otherwise `before` with
      `nearest_place` set to the block of a nearest node. */
  ghost predicate Enriches(before: map<string, Value>, after: map<string, Value>,
                           nodes: seq<Node>, num: Numerics)
  {
    if !HasCoordinates(before) then after == before
    else
      match GetEntityLatLon(before, num.parse)
      case Err(_) => false
      case Ok((lat, lon)) =>
        exists n :: IsNearest(n, Point(lat, lon), nodes) &&
                    after == before[NearestPlaceKey := NearestPlaceBlock(n, lat, lon, num)]
  }

  /** An entity is a mutable JSON object. */
  class Entity {
    var fields: map<string, Value>

    constructor (fields: map<string, Value>)
      ensures this.fields == fields
    {
      this.fields := fields;
    }
  }

  /** `transform_entity`: returns the error it raises, if any; on an error
      the entity is left as it was. */
  method TransformEntity(entity: Entity, tree: PlaceIndex, num: Numerics) returns (err: Option<Error>)
    requires HasCoordinates(entity.fields) ==> tree.nodes != []
    modifies entity
    ensures err.None? ==> Enriches(old(entity.fields), entity.fields, tree.nodes, num)
    ensures err.Some? ==> HasCoordinates(old(entity.fields)) &&
                          GetEntityLatLon(old(entity.fields), num.parse) == Err(err.value) &&
                          entity.fields == old(entity.fields)
  {
    if "lat" in entity.fields && "lon" in entity.fields {
      var coords := GetEntityLatLon(entity.fields, num.parse);
      if coords.Err? {
        return Some(coords.error);
      }
      var (lat, lon) := coords.value;
      var node := tree.SearchNearest(Point(lat, lon));
      entity.fields := entity.fields[NearestPlaceKey := NearestPlaceBlock(node, lat, lon, num)];
    }
    return None;
  }

  /** An entity without both `lat` and `lon` is enriched only to itself. */
  lemma NoCoordinatesUnchanged(before: map<string, Value>, after: map<string, Value>,
                               nodes: seq<Node>, num: Numerics)
    requires !HasCoordinates(before)
    ensures Enriches(before, after, nodes, num) <==> after == before
  {
  }

  /** Enrichment only sets `nearest_place`: every other key keeps its value,
      and the block names a nearest indexed place, its postcode, name and
      point, with the compass label of the bearing. */
  lemma EnrichmentSetsOnlyNearestPlace(before: map<string, Value>, after: map<string, Value>,
                                       nodes: seq<Node>, num: Numerics)
    requires HasCoordinates(before) && Enriches(before, after, nodes, num)
    ensures GetEntityLatLon(before, num.parse).Ok?
    ensures after.Keys == before.Keys + {NearestPlaceKey}
    ensures forall k :: k in before && k != NearestPlaceKey ==> after[k] == before[k]
    ensures var (lat, lon) := GetEntityLatLon(before, num.parse).value;
            var block := after[NearestPlaceKey];
            exists n :: IsNearest(n, Point(lat, lon), nodes) &&
                        block.Obj? && block.fields.Keys == BlockKeys &&
                        block.fields["postal_code"] == Str(n.place.postnr) &&
                        block.fields["name"] == Str(n.place.poststad) &&
                        block.fields["lat"] == Num(n.data.lat) &&
                        block.fields["lon"] == Num(n.data.lon) &&
                        block.fields["bearing"] ==
                          Num(ComputeBearing(n.data.lat, n.data.lon, lat, lon, num.rawBearing)) &&
                        block.fields["distance"] == Num(num.distance(n.data.lat, n.data.lon, lat, lon)) &&
                        block.fields["direction"] ==
                          Str(CompassDirection(ComputeBearing(n.data.lat, n.data.lon, lat, lon, num.rawBearing)).value)
  {
    var (lat, lon) := GetEntityLatLon(before, num.parse).value;
    var n :| IsNearest(n, Point(lat, lon), nodes) &&
             after == before[NearestPlaceKey := NearestPlaceBlock(n, lat, lon, num)];
    var block := NearestPlaceBlock(n, lat, lon, num);
    assert after[NearestPlaceKey] == block;
  }

  /** Against an index built by the load loop, the place named in an
      entity's `nearest_place` block is an admitted place of the gazetteer:
      one the filter excludes is never reported, however near it is. */
  lemma EnrichedPlaceIsAdmitted(gazetteer: seq<Place>, before: map<string, Value>,
                                after: map<string, Value>, num: Numerics)
    requires HasCoordinates(before)
    requires Enriches(before, after, Load(gazetteer, num.parse).nodes, num)
    ensures exists p :: p in gazetteer && !Excluded(p) &&
                        after[NearestPlaceKey].fields["postal_code"] == Str(p.postnr) &&
                        after[NearestPlaceKey].fields["name"] == Str(p.poststad)
  {
    var nodes := Load(gazetteer, num.parse).nodes;
    var (lat, lon) := GetEntityLatLon(before, num.parse).value;
    var n :| IsNearest(n, Point(lat, lon), nodes) &&
             after == before[NearestPlaceKey := NearestPlaceBlock(n, lat, lon, num)];
    LoadIndexesOnlyAdmitted(gazetteer, num.parse);
    assert n.place in gazetteer && !Excluded(n.place);
    assert after[NearestPlaceKey] == NearestPlaceBlock(n, lat, lon, num);
  }
}
