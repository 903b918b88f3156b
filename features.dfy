/**
 * The in-memory GeoJSON feature list of Trial/trial.go: the package-level
 * slice `features` and the five handlers that read and change it, as a
 * class whose `features` field is that slice. Request ids and bodies arrive
 * already parsed; a failed parse is the `Failure` case.
 */
module FeatureStore {

  import opened Results

  /** A point's `[2]float64` coordinates; only stored and copied, so reals. */
  datatype Position = Position(x: real, y: real)
  datatype Geometry = Geometry(kind: string, coordinates: Position)
  datatype Properties = Properties(station: string, airTemperature: real)
  datatype Feature = Feature(kind: string, geometry: Geometry, properties: Properties)
  datatype FeatureCollection = FeatureCollection(kind: string, features: seq<Feature>)

  /** The geometry `createFeature` forces on every new feature. */
  const CreatedGeometry: Geometry := Geometry("Point", Position(113.0, 22.0))

  /** The feature the list starts with in `main`. */
  const ChekLapKok: Feature :=
    Feature("Feature", Geometry("Point", Position(113.9219444, 22.3094444)), Properties("Chek Lap Kok", 27.3))

  /** The HTTP outcome of a handler: a JSON feature, 400 with the error text, 404, or 204. */
  datatype Reply = Json(feature: Feature) | BadRequest(message: string) | NotFound | NoContent

  class FeatureList {
    /** The package-level slice `features`. */
    var features: seq<Feature>

    /**
     * No request can set a geometry: every feature keeps the initial one or
     * the one creation forces.
     */
    ghost predicate Valid()
      reads this
    {
      forall i | 0 <= i < |features| ::
        features[i].geometry == ChekLapKok.geometry || features[i].geometry == CreatedGeometry
    }

    /** The list `main` installs. */
    constructor ()
      ensures features == [ChekLapKok]
      ensures Valid()
    {
      features := [ChekLapKok];
    }

    /** `getFeatures`: a "FeatureCollection" of the current list, in order. */
    method GetFeatures() returns (collection: FeatureCollection)
      ensures collection.kind == "FeatureCollection"
      ensures collection.features == features
    {
      collection := FeatureCollection("FeatureCollection", features);
    }

    /** `getFeature`: the feature at a valid index, 400 for an unparsable id, 404 out of range. */
    method GetFeature(id: Result<int, string>) returns (reply: Reply)
      ensures id.Failure? ==> reply == BadRequest(id.error)
      ensures id.Success? && 0 <= id.value < |features| ==> reply == Json(features[id.value])
      ensures id.Success? && !(0 <= id.value < |features|) ==> reply == NotFound
    {
      if id.Failure? {
        return BadRequest(id.error);
      }
      var i := id.value;
      if i < 0 || i >= |features| {
        return NotFound;
      }
      reply := Json(features[i]);
    }

    /** `createFeature`: appends the decoded feature with its geometry replaced by Point (113, 22). */
    method CreateFeature(body: Result<Feature, string>) returns (reply: Reply)
      requires Valid()
      modifies this
      ensures Valid()
      ensures body.Failure? ==> reply == BadRequest(body.error) && features == old(features)
      ensures body.Success? ==>
        var created := body.value.(geometry := CreatedGeometry);
        && reply == Json(created)
        && features == old(features) + [created]
    {
      if body.Failure? {
        return BadRequest(body.error);
      }
      var feature := body.value.(geometry := CreatedGeometry);
      features := features + [feature];
      reply := Json(feature);
    }

    /**
     * `updateFeature`: replaces the feature at a valid index by the decoded one
     * but keeps the old geometry; 400, 404 or 400 (in that order of checks)
     * leave the list alone.
     */
    method UpdateFeature(id: Result<int, string>, body: Result<Feature, string>) returns (reply: Reply)
      requires Valid()
      modifies this
      ensures Valid()
      ensures id.Failure? ==> reply == BadRequest(id.error) && features == old(features)
      ensures id.Success? && !(0 <= id.value < |old(features)|) ==> reply == NotFound && features == old(features)
      ensures id.Success? && 0 <= id.value < |old(features)| && body.Failure? ==>
        reply == BadRequest(body.error) && features == old(features)
      ensures id.Success? && 0 <= id.value < |old(features)| && body.Success? ==>
        var updated := body.value.(geometry := old(features)[id.value].geometry);
        && reply == Json(updated)
        && |features| == |old(features)|
        && features[id.value] == updated
        && forall k | 0 <= k < |features| && k != id.value :: features[k] == old(features)[k]
    {
      if id.Failure? {
        return BadRequest(id.error);
      }
      var i := id.value;
      if i < 0 || i >= |features| {
        return NotFound;
      }
      if body.Failure? {
        return BadRequest(body.error);
      }
      var updatedFeature := body.value.(geometry := features[i].geometry);
      features := features[i := updatedFeature];
      reply := Json(updatedFeature);
    }

    /** `deleteFeature`: splices out a valid index, shifting later features down by one. */
    method DeleteFeature(id: Result<int, string>) returns (reply: Reply)
      requires Valid()
      modifies this
      ensures Valid()
      ensures id.Failure? ==> reply == BadRequest(id.error) && features == old(features)
      ensures id.Success? && !(0 <= id.value < |old(features)|) ==> reply == NotFound && features == old(features)
      ensures id.Success? && 0 <= id.value < |old(features)| ==>
        && reply == NoContent
        && |features| == |old(features)| - 1
        && (forall k | 0 <= k < id.value :: features[k] == old(features)[k])
        && (forall k | id.value <= k < |features| :: features[k] == old(features)[k + 1])
    {
      if id.Failure? {
        return BadRequest(id.error);
      }
      var i := id.value;
      if i < 0 || i >= |features| {
        return NotFound;
      }
      features := features[..i] + features[i + 1..];
      reply := NoContent;
    }
  }
}
