# Wayname label controller

A Dafny model of `MapWayname`, the navigation UI's controller for the
"wayname" label. This is the current road's name, drawn as an icon on a map
symbol layer near the user's position. When auto-query and visibility are
both on, a point update works as follows (otherwise it does nothing):
1. It queries the rendered road-label features at a screen point.
2. It hides or shows the label layer and the matching top padding.
3. If roads were found, it lets a feature filter pick one road.
4. When that road's name is new, it caches the name and registers a fresh
   label bitmap as the layer's icon.

Other entry points do the following:
- turn the label on or off;
- regenerate the icon for a given name;
- record the navigation progress (location and current step points), which
  the filter uses;
- turn automatic querying on or off.

The model has three modules:

- `WaynameTypes` (wayname_types.dfy): the values. A road feature is
  reduced to its optional `name` property. Screen points, route points and
  locations are opaque values that can be compared for equality. An
  `Effect` is one action on the map or a collaborator:
  - the road query;
  - the filter being built;
  - a layer visibility write;
  - the wayname or default padding;
  - an icon registration.
- `WaynameSpec` (wayname_spec.dfy): one reference function per operation,
  over the controller's fields as a value and the layer's visibility
  (`None` for a null layer). Each returns the new state, the new layer
  visibility and the effects in order. The collaborators' answers are
  parameters: the query result (`roads`), the filter's choice (`filtered`)
  and whether the bitmap was produced (`bitmapOk`). The small functions
  `Padding`, `AdjustedLayer`/`AdjustWrites` and `CreateWaynameIcon` are the
  reference definitions of the private helpers `adjustMapPadding`,
  `adjustWaynameVisibility` and `createWaynameIcon`; the class's methods
  `AdjustMapPadding`, `AdjustWaynameVisibility` and `CreateWaynameIcon` are
  proved against them. `Run` chains calls so
  that properties of call sequences can be stated.
- `MapWaynameController` (map_wayname.dfy): the controller as a class. Its
  fields are updated in place. The wayname layer is passed to each call as a
  possibly null `SymbolLayer` object whose visibility the methods write. A
  ghost `effects` log records every effect. Each method is proved to leave
  the fields, the layer and the log exactly as the reference function says.

Two behaviours of the code worth noting:
- A selected feature with no `name` does not hide the label. The layer
  stays visible from the write made before the feature is examined.
- `updateWaynameVisibility` applies the padding before its "already in
  that state" check. So the padding is re-applied even when the layer write
  is skipped.

## Model

| member | source | states |
|---|---|---|
| `WaynameSpec.IsWaynameVisible` | libandroid-navigation-ui/src/main/java/com/mapbox/services/android/navigation/ui/v5/map/MapWayname.java:131-133 | a null layer counts as not visible; a non-null layer is visible exactly when its visibility is VISIBLE |
| `WaynameSpec.CheckWaynameVisibility` | libandroid-navigation-ui/src/main/java/com/mapbox/services/android/navigation/ui/v5/map/MapWayname.java:127-129 | true exactly when the requested visibility equals the layer's actual visibility |
| `WaynameSpec.UpdateWaynameVisibility` | libandroid-navigation-ui/src/main/java/com/mapbox/services/android/navigation/ui/v5/map/MapWayname.java:64-71 | isVisible becomes the argument and nothing else in the state changes; the matching padding is always applied first; the layer is written only when its visibility differs; a non-null layer ends at the requested visibility and a null layer is never written |
| `WaynameSpec.UpdateWaynameLayer` | libandroid-navigation-ui/src/main/java/com/mapbox/services/android/navigation/ui/v5/map/MapWayname.java:58-62 | at most one effect, an icon for the given name; it happens exactly when the layer is non-null and visible and the bitmap was produced |
| `WaynameSpec.UpdateWaynameLayerWithNameProperty` | libandroid-navigation-ui/src/main/java/com/mapbox/services/android/navigation/ui/v5/map/MapWayname.java:141-152 | no name or the cached name: nothing changes and no effect; a new name: it is cached, isVisible becomes true and the layer is made visible if non-null. The effects are exactly the wayname padding, then a showing write only when the layer was hidden, then an icon exactly when the layer is non-null and the bitmap was produced |
| `WaynameSpec.UpdateLayerWithRoadLabelFeatures` | libandroid-navigation-ui/src/main/java/com/mapbox/services/android/navigation/ui/v5/map/MapWayname.java:99-114 | no roads or no selected feature: the label is turned off, the effects are exactly the filter (when there are roads), the default padding, then a hiding write only when the layer was visible; no icon, no wayname padding; with roads, the filter is built first from the roads, current location and step points, and a selected feature leads to the name handling |
| `WaynameSpec.UpdateWaynameWithPoint` | libandroid-navigation-ui/src/main/java/com/mapbox/services/android/navigation/ui/v5/map/MapWayname.java:44-56 | no effect and no state change unless auto-query and visibility are both on; otherwise the query comes first. No roads: the effects are exactly the query, a hiding write on a non-null layer, then the default padding; fields unchanged, no icon. Roads: the layer is shown and wayname padding applied before the filter is built. No selection: isVisible false; after that prefix come exactly the default padding and a hiding write on a non-null layer; no icon. Nameless or same name: nothing after that prefix. New name: it is cached. After that prefix come exactly the wayname padding (again) and an icon, which is present exactly when the layer is non-null and the bitmap was produced. There is no second layer write |
| `WaynameSpec.ShowRoadLabel` | libandroid-navigation-ui/src/main/java/com/mapbox/services/android/navigation/ui/v5/map/MapWayname.java:48-55 | the roads-found part of a point update. The effects start with the query, a showing write on a non-null layer, the wayname padding and the filter. No selection: the label is off and exactly the default padding and a hiding write on a non-null layer follow, with no icon. Nameless or same name: nothing follows. New name: it is cached, and exactly the wayname padding and an icon follow; the icon is present exactly when the layer is non-null and the bitmap was produced |
| `WaynameSpec.FilterMissEffects` | libandroid-navigation-ui/src/main/java/com/mapbox/services/android/navigation/ui/v5/map/MapWayname.java:106-110 | when roads were found but the filter selects nothing, the label is off, the layer is hidden if non-null, and the effects are the shown prefix, then the default padding, then a hiding write on a non-null layer; no icon |
| `WaynameSpec.KeptNameEffects` | libandroid-navigation-ui/src/main/java/com/mapbox/services/android/navigation/ui/v5/map/MapWayname.java:141-151 | when the selected feature has no name or the cached name, the effects are exactly the shown prefix; no icon |
| `WaynameSpec.NewNameEffects` | libandroid-navigation-ui/src/main/java/com/mapbox/services/android/navigation/ui/v5/map/MapWayname.java:141-151 | when the selected feature has a new name, it is cached, the label stays on, and the effects are the shown prefix, then the wayname padding, then an icon exactly when the layer is non-null and the bitmap was produced |
| `WaynameSpec.UpdateProgress` | libandroid-navigation-ui/src/main/java/com/mapbox/services/android/navigation/ui/v5/map/MapWayname.java:73-80 | the step points and location equal the arguments afterwards; all other fields are unchanged |
| `WaynameSpec.UpdateWaynameQueryMap` | libandroid-navigation-ui/src/main/java/com/mapbox/services/android/navigation/ui/v5/map/MapWayname.java:82-84 | the auto-query flag equals the argument; all other fields are unchanged |
| `WaynameSpec.QuietWhileHidden` | libandroid-navigation-ui/src/main/java/com/mapbox/services/android/navigation/ui/v5/map/MapWayname.java:44-47 | while the label is off and no call turns it on, any sequence of calls keeps it off and keeps the cached name. No road is queried, no wayname padding is applied, the layer is never made visible, and its null-ness is kept |
| `WaynameSpec.FilterMissSilencesQueries` | libandroid-navigation-ui/src/main/java/com/mapbox/services/android/navigation/ui/v5/map/MapWayname.java:106-110 | after a point update whose filter selects nothing, the label is off and the default padding was applied, and no later call sequence without a visibility-on call queries roads, shows the layer or applies wayname padding |
| `WaynameSpec.VisibilityIdempotent` | libandroid-navigation-ui/src/main/java/com/mapbox/services/android/navigation/ui/v5/map/MapWayname.java:64-71 | a second identical visibility update leaves state and layer as they are; its only effect is the padding |
| `WaynameSpec.SameNameNoRegeneration` | libandroid-navigation-ui/src/main/java/com/mapbox/services/android/navigation/ui/v5/map/MapWayname.java:141-151 | a second point update selecting the same named feature changes neither state nor layer and registers no icon |
| `MapWaynameController.MapWayname.constructor` | libandroid-navigation-ui/src/main/java/com/mapbox/services/android/navigation/ui/v5/map/MapWayname.java:29-42 | a new controller has auto-query and visibility off, an empty name, no step points, no location and an empty effect log |
| `MapWaynameController.MapWayname.UpdateWaynameWithPoint` | libandroid-navigation-ui/src/main/java/com/mapbox/services/android/navigation/ui/v5/map/MapWayname.java:44-56 | fields, layer and effect log end as `WaynameSpec.UpdateWaynameWithPoint` says; when inactive, nothing at all changes |
| `MapWaynameController.MapWayname.UpdateWaynameLayer` | libandroid-navigation-ui/src/main/java/com/mapbox/services/android/navigation/ui/v5/map/MapWayname.java:58-62 | only the effect log changes, by the icon effect `WaynameSpec.UpdateWaynameLayer` gives |
| `MapWaynameController.MapWayname.UpdateWaynameVisibility` | libandroid-navigation-ui/src/main/java/com/mapbox/services/android/navigation/ui/v5/map/MapWayname.java:64-71 | fields, layer and log end as `WaynameSpec.UpdateWaynameVisibility` says; isVisible equals the argument, and so does a non-null layer's visibility |
| `MapWaynameController.MapWayname.UpdateProgress` | libandroid-navigation-ui/src/main/java/com/mapbox/services/android/navigation/ui/v5/map/MapWayname.java:73-80 | location and step points equal the arguments; the other fields and the log are unchanged |
| `MapWaynameController.MapWayname.UpdateWaynameQueryMap` | libandroid-navigation-ui/src/main/java/com/mapbox/services/android/navigation/ui/v5/map/MapWayname.java:82-84 | only the auto-query flag changes, to the argument |
| `MapWaynameController.MapWayname.IsVisible` | libandroid-navigation-ui/src/main/java/com/mapbox/services/android/navigation/ui/v5/map/MapWayname.java:86-88 | returns the visibility flag |
| `MapWaynameController.MapWayname.UpdateLayerWithRoadLabelFeatures` | libandroid-navigation-ui/src/main/java/com/mapbox/services/android/navigation/ui/v5/map/MapWayname.java:99-114 | fields, layer and log end as `WaynameSpec.UpdateLayerWithRoadLabelFeatures` says |
| `MapWaynameController.MapWayname.CreateWaynameIcon` | libandroid-navigation-ui/src/main/java/com/mapbox/services/android/navigation/ui/v5/map/MapWayname.java:116-125 | an icon for the name is logged exactly when the layer is visible and the bitmap was produced |
| `MapWaynameController.MapWayname.AdjustWaynameVisibility` | libandroid-navigation-ui/src/main/java/com/mapbox/services/android/navigation/ui/v5/map/MapWayname.java:135-139 | a non-null layer's visibility is set and the write is logged; a null layer is neither written nor logged |
| `MapWaynameController.MapWayname.UpdateWaynameLayerWithNameProperty` | libandroid-navigation-ui/src/main/java/com/mapbox/services/android/navigation/ui/v5/map/MapWayname.java:141-152 | fields, layer and log end as `WaynameSpec.UpdateWaynameLayerWithNameProperty` says |
| `MapWaynameController.MapWayname.AdjustMapPadding` | libandroid-navigation-ui/src/main/java/com/mapbox/services/android/navigation/ui/v5/map/MapWayname.java:154-160 | logs the wayname padding for a shown label and the default padding for a hidden one |

## Left out

- `AltLocationEngine` (the test app's adapter over the Google Play Services location APIs) is not part of this model. Most of its flags are set in vendor callbacks (app/src/main/java/com/mapbox/services/android/navigation/testapp/activity/navigationui/AltLocationEngine.java:94-101 and 136-170). `deactivate` also clears `connected` directly (line 70). The location and settings requests are built directly before the settings check (lines 115-127). A failed settings check sets `connected` to false and logs.
- The road query (`findRoadLabelFeatures`, lines 94-97) is logged as a `QueryRoads` effect. Its answer is a parameter, and the screen point and the streets layer id it uses are not interpreted.
- The feature filter (`WaynameFeatureFilter`) is not part of this model. Its choice is an arbitrary optional feature given as a parameter. The model logs the roads, location and step points it is built from.
- Bitmap generation (`WaynameLayoutProvider`) is reduced to a success flag.
- Icon registration (`WaynameLayerInteractor.addLayerImage`) and the icon-image property write are recorded together as one `AddIcon(name)` effect. The layer's icon-image property is not a field of the model.
- The padding values (`MapPaddingAdjustor`) are reduced to the two effects `PaddingWayname` and `PaddingDefault`.
- `addProgressChangeListener` (listener registration with the navigation service) is left out because it is plain callback wiring.
- A feature's other properties and geometry are not modelled. A `name` property that is present but not a string is not modelled either: the vendor library's conversion of non-string values is outside this model.
- `MapWaynameController.MapWayname.UpdateProgress`: step points are a value sequence. The model therefore does not capture that the source keeps a reference to the caller's list, so a later mutation of that list would show through. It also does not capture that a null list makes the next call fail.
- `WaynameSpec.Run` keeps one layer for a whole call sequence. In the source each call may be handed a different layer object.
- Threading is not modelled: every call runs on the UI thread in the source.
