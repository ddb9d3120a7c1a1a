/**
 The wayname controller as an object: its fields are updated in place by each
 entry point, and the wayname symbol layer it is handed (possibly null) has
 its visibility written through `setProperties`. Each state-changing method
 is proved to leave the fields, the layer and the ghost effect log exactly as
 its reference function in `WaynameSpec` says (`Padding` for
 `AdjustMapPadding`, `AdjustedLayer`/`AdjustWrites` for
 `AdjustWaynameVisibility`, otherwise the function of the same name).
 */
module MapWaynameController {
  import opened WaynameTypes
  import WaynameSpec

  /** The wayname symbol layer of the map style; its visibility is VISIBLE (true) or NONE (false). */
  class SymbolLayer {
    var visible: bool

    constructor (visible: bool)
      ensures this.visible == visible
    {
      this.visible := visible;
    }
  }

  /** The layer's visibility as the reference functions see it: None for a null layer. */
  function View(layer: SymbolLayer?): Option<bool>
    reads layer
  {
    if layer == null then None else Some(layer.visible)
  }

  class MapWayname {
    var isAutoQueryEnabled: bool
    var isVisible: bool
    var wayname: string
    var currentStepPoints: seq<Point>
    var currentLocation: Option<Location>
    /** Everything the controller has done to the map and its collaborators, in order. */
    ghost var effects: seq<Effect>

    /** The fields as a value. */
    ghost function State(): WaynameState
      reads this
    {
      WaynameState(isAutoQueryEnabled, isVisible, wayname, currentStepPoints, currentLocation)
    }

    /** A new controller: auto-query and visibility off, empty name, no route points, no location. */
    constructor ()
      ensures State() == WaynameSpec.Initial && effects == []
    {
      isAutoQueryEnabled := false;
      isVisible := false;
      wayname := "";
      currentStepPoints := [];
      currentLocation := None;
      effects := [];
    }

    /**
     Runs a road-label query at `point` and updates the label. The query's
     answer is `roads`, the feature filter's choice is `filtered` and
     `bitmapOk` says whether the label bitmap could be generated.
     */
    method UpdateWaynameWithPoint(
      point: ScreenPoint, layer: SymbolLayer?, roads: seq<Feature>, filtered: Option<Feature>, bitmapOk: bool)
      modifies this, layer
      ensures var o := WaynameSpec.UpdateWaynameWithPoint(old(State()), old(View(layer)), point, roads, filtered, bitmapOk);
        State() == o.state && View(layer) == o.layer && effects == old(effects) + o.effects
      ensures !(old(isAutoQueryEnabled) && old(isVisible)) ==>
        State() == old(State()) && View(layer) == old(View(layer)) && effects == old(effects)
    {
      if !isAutoQueryEnabled || !isVisible {
        return;
      }
      ghost var s0, layer0, log0 := State(), View(layer), effects;
      effects := effects + [QueryRoads(point)];
      var shouldBeVisible := roads != [];
      AdjustWaynameVisibility(shouldBeVisible, layer);
      AdjustMapPadding(shouldBeVisible);
      ghost var before := [QueryRoads(point)] + WaynameSpec.AdjustWrites(layer0, shouldBeVisible)
        + [WaynameSpec.Padding(shouldBeVisible)];
      assert State() == s0 && effects == log0 + before;
      if !shouldBeVisible {
        return;
      }
      UpdateLayerWithRoadLabelFeatures(roads, filtered, layer, bitmapOk);
      ghost var r := WaynameSpec.UpdateLayerWithRoadLabelFeatures(
        s0, WaynameSpec.AdjustedLayer(layer0, true), roads, filtered, bitmapOk);
      assert effects == log0 + (before + r.effects);
      assert WaynameSpec.ShowRoadLabel(s0, layer0, point, roads, filtered, bitmapOk) ==
        Outcome(r.state, r.layer, before + r.effects);
    }

    /** Regenerates the label icon for `name` on a non-null layer; the cached name is not touched. */
    method UpdateWaynameLayer(name: string, layer: SymbolLayer?, bitmapOk: bool)
      modifies this`effects
      ensures effects == old(effects) + WaynameSpec.UpdateWaynameLayer(name, View(layer), bitmapOk)
    {
      if layer != null {
        CreateWaynameIcon(name, layer, bitmapOk);
      }
    }

    /** Turns the label on or off: padding always, the layer only when it differs. */
    method UpdateWaynameVisibility(visible: bool, layer: SymbolLayer?)
      modifies this, layer
      ensures var o := WaynameSpec.UpdateWaynameVisibility(old(State()), old(View(layer)), visible);
        State() == o.state && View(layer) == o.layer && effects == old(effects) + o.effects
      ensures isVisible == visible && (layer != null ==> layer.visible == visible)
    {
      this.isVisible := visible;
      AdjustMapPadding(visible);
      if WaynameSpec.CheckWaynameVisibility(visible, View(layer)) {
        return;
      }
      AdjustWaynameVisibility(visible, layer);
    }

    /** Records the latest location and the current step's route points. */
    method UpdateProgress(location: Option<Location>, stepPoints: seq<Point>)
      modifies this
      ensures State() == WaynameSpec.UpdateProgress(old(State()), location, stepPoints)
      ensures currentLocation == location && currentStepPoints == stepPoints
      ensures effects == old(effects)
    {
      if this.currentStepPoints != stepPoints {
        this.currentStepPoints := stepPoints;
      }
      if this.currentLocation == None || this.currentLocation != location {
        this.currentLocation := location;
      }
    }

    /** Turns automatic road queries on or off. */
    method UpdateWaynameQueryMap(enabled: bool)
      modifies this
      ensures State() == WaynameSpec.UpdateWaynameQueryMap(old(State()), enabled)
      ensures effects == old(effects)
    {
      isAutoQueryEnabled := enabled;
    }

    /** Whether the label is switched on. */
    method IsVisible() returns (r: bool)
      ensures r == isVisible
    {
      r := isVisible;
    }

    /** Follows the filter's choice among non-empty `roads`; hides the label otherwise. */
    method UpdateLayerWithRoadLabelFeatures(
      roads: seq<Feature>, filtered: Option<Feature>, layer: SymbolLayer?, bitmapOk: bool)
      modifies this, layer
      ensures var o := WaynameSpec.UpdateLayerWithRoadLabelFeatures(old(State()), old(View(layer)), roads, filtered, bitmapOk);
        State() == o.state && View(layer) == o.layer && effects == old(effects) + o.effects
    {
      ghost var s0, layer0, log0 := State(), View(layer), effects;
      var isValidFeatureList := roads != [];
      if isValidFeatureList {
        ghost var filter := [FilterRoads(roads, currentLocation, currentStepPoints)];
        effects := effects + [FilterRoads(roads, currentLocation, currentStepPoints)];
        if filtered.Some? {
          UpdateWaynameLayerWithNameProperty(layer, filtered.value, bitmapOk);
          ghost var r := WaynameSpec.UpdateWaynameLayerWithNameProperty(s0, layer0, filtered.value, bitmapOk);
          assert effects == log0 + (filter + r.effects);
        } else {
          UpdateWaynameVisibility(false, layer);
          ghost var r := WaynameSpec.UpdateWaynameVisibility(s0, layer0, false);
          assert effects == log0 + (filter + r.effects);
        }
      } else {
        UpdateWaynameVisibility(false, layer);
      }
    }

    /** Registers the label bitmap for `name` if the layer is visible and the bitmap was made. */
    method CreateWaynameIcon(name: string, layer: SymbolLayer, bitmapOk: bool)
      modifies this`effects
      ensures effects == old(effects) + WaynameSpec.CreateWaynameIcon(name, layer.visible, bitmapOk)
    {
      var layerVisible := layer.visible;
      if layerVisible {
        if bitmapOk {
          effects := effects + [AddIcon(name)];
        }
      }
    }

    /** Sets a non-null layer's visibility; a null layer is left alone. */
    method AdjustWaynameVisibility(visible: bool, layer: SymbolLayer?)
      modifies this`effects, layer
      ensures View(layer) == WaynameSpec.AdjustedLayer(old(View(layer)), visible)
      ensures effects == old(effects) + WaynameSpec.AdjustWrites(old(View(layer)), visible)
    {
      if layer != null {
        layer.visible := visible;
        effects := effects + [SetLayerVisible(visible)];
      }
    }

    /** Caches a new road name from the feature and shows it; a missing or unchanged name does nothing. */
    method UpdateWaynameLayerWithNameProperty(layer: SymbolLayer?, feature: Feature, bitmapOk: bool)
      modifies this, layer
      ensures var o := WaynameSpec.UpdateWaynameLayerWithNameProperty(old(State()), old(View(layer)), feature, bitmapOk);
        State() == o.state && View(layer) == o.layer && effects == old(effects) + o.effects
    {
      var hasValidNameProperty := feature.name.Some?;
      if hasValidNameProperty {
        var currentWayname := feature.name.value;
        var newWayname := wayname != currentWayname;
        if newWayname {
          wayname := currentWayname;
          UpdateWaynameVisibility(true, layer);
          UpdateWaynameLayer(wayname, layer, bitmapOk);
        }
      }
    }

    /** Applies the padding that matches a shown or hidden label. */
    method AdjustMapPadding(visible: bool)
      modifies this`effects
      ensures effects == old(effects) + [WaynameSpec.Padding(visible)]
    {
      if visible {
        effects := effects + [PaddingWayname];
      } else {
        effects := effects + [PaddingDefault];
      }
    }
  }
}
