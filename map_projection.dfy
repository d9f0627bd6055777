/**
 * `getCoords` of `InteractiveMap`: the equirectangular map from latitude and
 * longitude into the fixed 800 x 400 logical canvas, and the heatmap points
 * placed with it.
 */
module MapProjection {
  import opened Types

  const CanvasWidth: real := 800.0
  const CanvasHeight: real := 400.0

  /** A point of the logical canvas (or of the SVG view box). */
  datatype Point = Point(x: real, y: real)

  /** A heatmap point after projection, with its weight. */
  datatype HeatSpot = HeatSpot(at: Point, weight: real)

  /** `getCoords`. */
  function Project(lat: real, lng: real): Point {
    Point((lng + 180.0) * (800.0 / 360.0), (90.0 - lat) * (400.0 / 180.0))
  }

  /** The centre of the map and its two extreme corners. */
  lemma ProjectAnchors()
    ensures Project(0.0, 0.0) == Point(CanvasWidth / 2.0, CanvasHeight / 2.0)
    ensures Project(90.0, -180.0) == Point(0.0, 0.0)
    ensures Project(-90.0, 180.0) == Point(CanvasWidth, CanvasHeight)
  {
  }

  /** Every valid geographic point lands on the canvas. */
  lemma ProjectRange(lat: real, lng: real)
    requires -90.0 <= lat <= 90.0 && -180.0 <= lng <= 180.0
    ensures 0.0 <= Project(lat, lng).x <= CanvasWidth
    ensures 0.0 <= Project(lat, lng).y <= CanvasHeight
  {
  }

  /** East is right and north is up: longitude orders x, latitude reverses y. */
  lemma ProjectOrientation(lat1: real, lng1: real, lat2: real, lng2: real)
    ensures lng1 < lng2 <==> Project(lat1, lng1).x < Project(lat2, lng2).x
    ensures lat1 < lat2 <==> Project(lat1, lng1).y > Project(lat2, lng2).y
  {
  }

  /** Distinct locations get distinct canvas points. */
  lemma ProjectInjective(lat1: real, lng1: real, lat2: real, lng2: real)
    requires Project(lat1, lng1) == Project(lat2, lng2)
    ensures lat1 == lat2 && lng1 == lng2
  {
  }

  /** `convertedHeatmapPoints`: every point projected, its weight kept, order kept. */
  function ConvertHeatmap(points: seq<HeatmapPoint>): (spots: seq<HeatSpot>)
    ensures |spots| == |points|
    ensures forall i :: 0 <= i < |points| ==>
              spots[i].at == Project(points[i].lat, points[i].lng)
              && spots[i].weight == points[i].weight
  {
    if points == [] then []
    else [HeatSpot(Project(points[0].lat, points[0].lng), points[0].weight)]
         + ConvertHeatmap(points[1..])
  }

  /** An example location, (1.29, 103.85) (Singapore), lands at (5677/9, 2957/15). */
  lemma SingaporeProjection()
    ensures Project(1.29, 103.85) == Point(5677.0 / 9.0, 2957.0 / 15.0)
  {
  }
}
