/**
 The values the wayname controller works with: the inputs its collaborators
 hand it (screen points, road features, locations, route points), the state
 it keeps, and the effects it has on the map (layer writes, padding changes,
 icon registration).
 */
module WaynameTypes {

  /** Some/None, standing in for a Java reference that may be null. */
  datatype Option<+T> = None | Some(value: T)

  /** A screen coordinate (`PointF`); only passed on to the road query. */
  type ScreenPoint(==)

  /** A route geometry point (`com.mapbox.geojson.Point`), compared by value. */
  type Point(==)

  /** A device location (`android.location.Location`), compared with `equals`. */
  type Location(==)

  /** A rendered road-label feature; only its `name` property is inspected. */
  datatype Feature = Feature(name: Option<string>)

  /** One observable action of the controller on the map or its collaborators. */
  datatype Effect =
    | QueryRoads(point: ScreenPoint)
      // rendered features queried at a screen point in the streets layer
    | FilterRoads(roads: seq<Feature>, location: Option<Location>, stepPoints: seq<Point>)
      // the feature filter built from the roads, current location and step points
    | SetLayerVisible(visible: bool)
      // the wayname layer's visibility property set to VISIBLE or NONE
    | PaddingWayname
      // top padding enlarged to leave room for the label
    | PaddingDefault
      // top padding reset to its default
    | AddIcon(name: string)
      // a label bitmap for `name` registered and set as the layer's icon image

  /** The fields of a `MapWayname`, as a value. */
  datatype WaynameState = WaynameState(
    isAutoQueryEnabled: bool,
    isVisible: bool,
    wayname: string,
    currentStepPoints: seq<Point>,
    currentLocation: Option<Location>)

  /**
   The result of one operation: the controller's new state, the wayname layer's
   new visibility (None for a null layer, Some(true) for VISIBLE, Some(false)
   for NONE) and the effects performed, in order.
   */
  datatype Outcome = Outcome(state: WaynameState, layer: Option<bool>, effects: seq<Effect>)
}
