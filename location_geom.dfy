/** The location geometry rules. `update_location_geom` (core/views.py and,
    word for word, core/generics/utils.py) sets the point only when both
    coordinates are truthy, so a coordinate of zero counts as missing;
    `LocationForm.save` (core/forms.py) sets it whenever both are present.
    Coordinates are the form's cleaned floats, `None` when not given. */
module LocationGeom {
  import opened Wrappers

  /** A GEOS point: x is the longitude, y the latitude. */
  datatype Point = Point(x: real, y: real, srid: int)

  const Wgs84: int := 4326

  /** Python truthiness of an optional float. */
  predicate Truthy(v: Option<real>) {
    v.Some? && v.value != 0.0
  }

  /** The geometry after `update_location_geom`: the new point when both
      coordinates are truthy, the old geometry otherwise. */
  function GeomIfTruthy(geom: Option<Point>, lat: Option<real>, lon: Option<real>): (r: Option<Point>)
    ensures r != geom ==> Truthy(lat) && Truthy(lon)
    ensures Truthy(lat) && Truthy(lon) ==> r.Some? && r.value.x == lon.value && r.value.y == lat.value && r.value.srid == Wgs84
  {
    if Truthy(lat) && Truthy(lon) then Some(Point(lon.value, lat.value, Wgs84)) else geom
  }

  /** The geometry after `LocationForm.save`: the new point when both
      coordinates are given, zero included. */
  function GeomIfPresent(geom: Option<Point>, lat: Option<real>, lon: Option<real>): (r: Option<Point>)
    ensures r != geom ==> lat.Some? && lon.Some?
    ensures lat.Some? && lon.Some? ==> r.Some? && r.value.x == lon.value && r.value.y == lat.value && r.value.srid == Wgs84
  {
    if lat.Some? && lon.Some? then Some(Point(lon.value, lat.value, Wgs84)) else geom
  }

  /** Both rules store the point with x the longitude and y the latitude in
      WGS 84, and agree whenever neither coordinate is zero. */
  lemma RulesAgreeAwayFromZero(geom: Option<Point>, lat: Option<real>, lon: Option<real>)
    requires (lat.Some? ==> lat.value != 0.0) && (lon.Some? ==> lon.value != 0.0)
    ensures GeomIfTruthy(geom, lat, lon) == GeomIfPresent(geom, lat, lon)
    ensures lat.Some? && lon.Some? ==> GeomIfTruthy(geom, lat, lon) == Some(Point(lon.value, lat.value, 4326))
  {
  }

  /** A point on the equator is dropped by `update_location_geom`: the old
      geometry stays, while `LocationForm.save` stores it. */
  lemma EquatorIgnored(geom: Option<Point>, lon: real)
    requires lon != 0.0
    ensures GeomIfTruthy(geom, Some(0.0), Some(lon)) == geom
    ensures GeomIfPresent(geom, Some(0.0), Some(lon)) == Some(Point(lon, 0.0, 4326))
  {
  }

  /** `LocationForm.save`'s rule: any pair of given coordinates becomes the
      geometry, and the geometry is replaced only then. */
  lemma GivenCoordinatesStored(geom: Option<Point>, lat: Option<real>, lon: Option<real>)
    ensures var g := GeomIfPresent(geom, lat, lon);
      (lat.Some? && lon.Some? ==> g.Some? && g.value.x == lon.value && g.value.y == lat.value && g.value.srid == Wgs84)
      && (lat.None? || lon.None? ==> g == geom)
  {
  }

  /** The location a form edits. */
  class Location {
    var geom: Option<Point>
    var saves: nat

    constructor (geom: Option<Point>)
      ensures this.geom == geom && saves == 0
    {
      this.geom := geom;
      saves := 0;
    }
  }

  /** `update_location_geom`: only the geometry changes, and only when both
      coordinates are truthy. */
  method UpdateLocationGeom(instance: Location, lat: Option<real>, lon: Option<real>)
    modifies instance
    ensures instance.geom == GeomIfTruthy(old(instance.geom), lat, lon)
    ensures instance.saves == old(instance.saves)
  {
    if lat.Some? && lat.value != 0.0 && lon.Some? && lon.value != 0.0 {
      instance.geom := Some(Point(lon.value, lat.value, Wgs84));
    }
  }

  /** `LocationForm.save`: the geometry follows the given coordinates, the
      instance is written only with `commit`, and it is returned either
      way. */
  method LocationFormSave(instance: Location, lat: Option<real>, lon: Option<real>, commit: bool) returns (r: Location)
    modifies instance
    ensures r == instance
    ensures instance.geom == GeomIfPresent(old(instance.geom), lat, lon)
    ensures instance.saves == old(instance.saves) + (if commit then 1 else 0)
  {
    if lat.Some? && lon.Some? {
      instance.geom := Some(Point(lon.value, lat.value, Wgs84));
    }
    if commit {
      instance.saves := instance.saves + 1;
    }
    return instance;
  }

  /** Whatever the hook did, `LocationForm.save` overwrites it whenever both
      coordinates are given, and keeps it otherwise: the hook then the save
      is the save alone. */
  lemma HookThenSave(geom: Option<Point>, lat: Option<real>, lon: Option<real>)
    ensures GeomIfPresent(GeomIfTruthy(geom, lat, lon), lat, lon) == GeomIfPresent(geom, lat, lon)
  {
  }

  /** The location create and update views: `update_form_instance` calls
      `update_location_geom`, then `form_valid` calls `LocationForm.save`.
      A zero coordinate skipped by the hook is stored by the save. */
  method LocationViewSave(instance: Location, lat: Option<real>, lon: Option<real>)
    modifies instance
    ensures instance.geom == GeomIfPresent(old(instance.geom), lat, lon)
    ensures instance.saves == old(instance.saves) + 1
  {
    UpdateLocationGeom(instance, lat, lon);
    var saved := LocationFormSave(instance, lat, lon, true);
    HookThenSave(old(instance.geom), lat, lon);
  }
}
