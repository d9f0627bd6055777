# ShieldChain-AI: the incident map viewport and its surrounding logic, in Dafny

ShieldChain-AI shows a supply-chain risk analysis. It has an input form that
takes pasted text and an optional image. A service sends that input to a Gemini
model and cleans the JSON reply. A dashboard classifies the result, and an
interactive SVG world map marks the incident location.

This project models the core of that application:

- **The map viewport** (`components/InteractiveMap.tsx`), modelled in most detail:
  - the equirectangular projection onto the 800 x 400 logical canvas;
  - the zoom/pan transform and the offset clamp;
  - the wheel, double-click, drag, keyboard and button handlers;
  - the recentre effect and the reset button;
  - the three hoverable, clickable macro-regions.
- **The request shaping and reply cleaning** of `analyzeSupplyChainData`
  (`services/geminiService.ts`).
- **The dashboard's classifications** (`components/Dashboard.tsx`).
- **The input form's state and submit guard** (`components/InputForm.tsx`).

Layout, one module per file:

| file | module | models |
|---|---|---|
| `wrappers.dfy` | `Wrappers` | `Option` and `Result` |
| `js_string.dfy` | `JsString` | the JavaScript string built-ins the core uses: `trim`, `startsWith`, `endsWith`, `split(sep)[0]` and `[1]`, and `${n}` for a natural number |
| `types.dfy` | `Types` | `GeminiInput`, `HeatmapPoint` and JavaScript truthiness of an optional string |
| `map_projection.dfy` | `MapProjection` | `getCoords` and the heatmap conversion |
| `map_transform.dfy` | `MapTransform` | the transform (zoom and offset) as a value; every handler's effect as a pure function, with its properties |
| `map_regions.dfy` | `MapRegions` | the `regions` table, its outlines and rectangles |
| `map_viewport.dfy` | `MapViewport` | the component's state as the class `Viewport`; each handler is a method specified by the matching `MapTransform` function |
| `gemini_service.dfy` | `GeminiService` | model choice, request parts, reply cleaning and `analyzeSupplyChainData` |
| `dashboard.dfy` | `Dashboard` | the colour and label mappings of the dashboard |
| `input_form.dfy` | `InputForm` | the form's state as the class `Form`, with its handlers |

A logical point `p` is drawn at `p * zoom + offset`. This is the group
transform `translate(offset) scale(zoom)`. Coordinates are `real`: the model
is exact where the browser rounds.

The viewport's invariant is `Viewport.Valid()`, which is
`MapTransform.Reachable`: the zoom is in [0.5, 12] and the offset lies in the
clamp box of zoom 12. Every handler keeps it. The stronger invariant "the
offset lies in the clamp box of the *current* zoom" is not kept:
`KeyZoomOutLeavesBox` gives an input that breaks it.

Behaviour of the code that the model keeps as written:

- **Only mouse-up ends a pan.** Nothing handles the pointer leaving the window
  or the window losing focus; only the window's `mouseup` ends a pan.
- **No zero-size guard.** A zero-sized container rectangle is not guarded
  against: the code divides by its width and height. The model therefore
  requires a laid-out rectangle (`LaidOut`).
- **Clicks after a drag.** A click on a region after a drag is not suppressed.
- **Clicks outside the regions.** Such a click does not clear the hovered region.
- **No clamp on zoom keys.** The keyboard and button zooms change only the
  zoom and do not re-clamp the offset.

The lemmas `SingaporeProjection` and `SingaporeWheelScenario` work through an
example location, (1.29, 103.85), which projects to (5677/9, 2957/15).

## Model

| member | source | states |
|---|---|---|
| `MapProjection.Project` | components/InteractiveMap.tsx:37-41 | computes `getCoords`; its properties are `ProjectAnchors`, `ProjectRange`, `ProjectOrientation` and `ProjectInjective` |
| `MapProjection.ProjectAnchors` | components/InteractiveMap.tsx:37-41 | (0, 0) maps to the canvas centre; the north-west corner maps to (0, 0); the south-east corner maps to (800, 400) |
| `MapProjection.ProjectRange` | components/InteractiveMap.tsx:37-41 | every latitude in [-90, 90] and longitude in [-180, 180] lands inside the 800 x 400 canvas |
| `MapProjection.ProjectOrientation` | components/InteractiveMap.tsx:37-41 | longitude orders x increasingly and latitude orders y decreasingly, both as if-and-only-if |
| `MapProjection.ProjectInjective` | components/InteractiveMap.tsx:37-41 | distinct locations get distinct canvas points |
| `MapProjection.ConvertHeatmap` | components/InteractiveMap.tsx:45-50 | same length as the input; the i-th spot is the projection of the i-th point and keeps its weight |
| `MapProjection.SingaporeProjection` | components/InteractiveMap.tsx:37-43 | the example location projects to (5677/9, 2957/15) |
| `MapTransform.Clamp` | components/InteractiveMap.tsx:52-62 | for zoom at least 0.5 the result lies in the clamp box; an offset already in the box is unchanged |
| `MapTransform.ClampIdentityIff` | components/InteractiveMap.tsx:52-62 | at a reachable zoom the clamp leaves an offset alone exactly when it is in the box |
| `MapTransform.ClampIdempotent` | components/InteractiveMap.tsx:52-62 | clamping twice equals clamping once, at every zoom |
| `MapTransform.ClampIsNearest` | components/InteractiveMap.tsx:52-62 | on each axis the clamp moves an offset no farther than any point of the box is from it |
| `MapTransform.ClampBoxesNested` | components/InteractiveMap.tsx:53-60 | a larger zoom only widens the box |
| `MapTransform.MountedStateReachable` | components/InteractiveMap.tsx:19-20 | the mount state (zoom 1.5, offset 0) satisfies the viewport invariant |
| `MapTransform.LogicalUnder` | components/InteractiveMap.tsx:230 | at non-zero zoom the returned logical point is drawn exactly at the given screen point |
| `MapTransform.LogicalUnderUnique` | components/InteractiveMap.tsx:230 | only one logical point is drawn at a given screen point |
| `MapTransform.SaturateZoom` | components/InteractiveMap.tsx:73 | the result is in [0.5, 12]; an in-range zoom is kept; below and above the range it saturates to 0.5 and 12 |
| `MapTransform.ZoomAboutFixesPoint` | components/InteractiveMap.tsx:75-78 | multiplying the zoom by f and moving the offset by (s - offset)(1 - f) keeps the logical point under s under s |
| `MapTransform.WheelFactor` | components/InteractiveMap.tsx:71-72 | scrolling down gives the reciprocal of 1.15; scrolling up or not at all gives 1.15 |
| `MapTransform.Wheel` | components/InteractiveMap.tsx:64-81 | the new zoom is the old zoom times the wheel factor, saturated to [0.5, 12]; the new offset is the zoom-about-cursor offset clamped at the new zoom; from any transform the result satisfies the invariant |
| `MapTransform.WheelFixedPoint` | components/InteractiveMap.tsx:64-81 | when neither the zoom nor the offset is clamped, the point under the cursor stays under the cursor |
| `MapTransform.WheelSaturatedDrift` | components/InteractiveMap.tsx:73-78 | zooming in at zoom 12 keeps the zoom but still moves the offset, so the point under the cursor drifts |
| `MapTransform.DoubleClick` | components/InteractiveMap.tsx:88-100 | the zoom doubles up to 12; the invariant is preserved |
| `MapTransform.DoubleClickOffset` | components/InteractiveMap.tsx:95-99 | the new offset is the clamp of 2 * offset - s at the new zoom |
| `MapTransform.DoubleClickFixedPoint` | components/InteractiveMap.tsx:88-100 | when doubling stays under 12 and the clamp does not bite, the point under the cursor stays put |
| `MapTransform.DoubleClickAtMaxShifts` | components/InteractiveMap.tsx:94-99 | a double click at zoom 12 keeps the zoom but moves the offset |
| `MapTransform.Pan` | components/InteractiveMap.tsx:111-114 | the zoom is unchanged; the new offset is offset + d clamped at the current zoom; the invariant is preserved |
| `MapTransform.PanMovesDrawing` | components/InteractiveMap.tsx:114 | when the clamp does not bite, every logical point is drawn shifted by exactly the pan vector |
| `MapTransform.ZoomInBy` | components/InteractiveMap.tsx:122 | the offset is unchanged; the new zoom is min(z * f, 12); the invariant is preserved |
| `MapTransform.ZoomInByGrows` | components/InteractiveMap.tsx:122 | a zoom-in step never lowers the zoom |
| `MapTransform.ZoomOutBy` | components/InteractiveMap.tsx:123 | the offset is unchanged; the new zoom is max(z / f, 0.5), so at least 0.5 and never higher than before; the invariant is preserved |
| `MapTransform.ZoomInOutRoundTrip` | components/InteractiveMap.tsx:122-123 | zooming out by a factor undoes zooming in by it when the zoom-in did not saturate |
| `MapTransform.KeyDown` | components/InteractiveMap.tsx:120-128 | every key preserves the invariant |
| `MapTransform.KeyZoomKeepsOffset` | components/InteractiveMap.tsx:122-123 | `+` and `-` change only the zoom, to min(1.2 z, 12) and max(z / 1.2, 0.5) |
| `MapTransform.ArrowKeyStep` | components/InteractiveMap.tsx:121-127 | an arrow key keeps the zoom; unless the clamp bites, it moves the offset by exactly 40 in the key's direction |
| `MapTransform.OtherKeysIgnored` | components/InteractiveMap.tsx:120-128 | any other key leaves the transform unchanged |
| `MapTransform.KeyZoomOutLeavesBox` | components/InteractiveMap.tsx:123 | from zoom 12 at offset (-9000, 200), `-` leaves the offset outside the box of the new zoom |
| `MapTransform.Recentred` | components/InteractiveMap.tsx:140-152 | the recentred transform has zoom 1.5 and the offset that puts the target at (400, 200), clamped at zoom 1.5; it satisfies the invariant |
| `MapTransform.RecentredTargetAtCentre` | components/InteractiveMap.tsx:140-146 | when the clamp does not bite, the target is drawn at the view-box centre (400, 200) |
| `MapTransform.SingaporeWheelScenario` | components/InteractiveMap.tsx:140-146 | recentred on the example location, the marker is at the centre, and one wheel notch of zoom-in at the centre keeps it there |
| `MapRegions.AmericasOutline` | components/InteractiveMap.tsx:30 | the Americas path is the closed outline of its (50, 50, 200, 300) rectangle |
| `MapRegions.EmeaOutline` | components/InteractiveMap.tsx:31 | the EMEA path is the closed outline of its (300, 50, 250, 300) rectangle |
| `MapRegions.ApacOutline` | components/InteractiveMap.tsx:32 | the APAC path is the closed outline of its (570, 50, 210, 300) rectangle |
| `MapRegions.PathsTraceRectangles` | components/InteractiveMap.tsx:29-33 | every region's path traces exactly that region's own rectangle |
| `MapRegions.RegionsDisjoint` | components/InteractiveMap.tsx:29-33 | no logical point lies in two regions |
| `MapRegions.RegionIdsDistinct` | components/InteractiveMap.tsx:29-33 | the identifiers tell the regions apart |
| `MapRegions.RegionsOnCanvas` | components/InteractiveMap.tsx:29-33 | every region lies inside the 800 x 400 canvas |
| `MapViewport.ViewBoxPoint` | components/InteractiveMap.tsx:67-69 | computes the view-box point from a screen point; `ViewBoxPointInverse` and `ViewBoxCorners` are its properties |
| `MapViewport.PointerTravel` | components/InteractiveMap.tsx:111-112 | computes the pan step; `PointerTravelIsViewBoxChange` and `DragKeepsGrabbedPoint` are its properties |
| `MapViewport.ViewBoxPointInverse` | components/InteractiveMap.tsx:67-69 | scaling the computed view-box point back to the container rectangle recovers the screen point |
| `MapViewport.ViewBoxCorners` | components/InteractiveMap.tsx:68-69 | the rectangle's corners map to the view box (0, 0) and (800, 400) |
| `MapViewport.PointerTravelIsViewBoxChange` | components/InteractiveMap.tsx:111-112 | the pan step is exactly the change of the view-box point computed from the pointer |
| `MapViewport.DragKeepsGrabbedPoint` | components/InteractiveMap.tsx:102-116 | while the clamp does not bite, a drag keeps the grabbed logical point under the pointer |
| `MapViewport.Viewport.constructor` | components/InteractiveMap.tsx:19-24 | the mount state followed by the first recentre: the transform is `Recentred` on the location, with no pan, hover or pointer |
| `MapViewport.Viewport.HandleWheel` | components/InteractiveMap.tsx:64-81 | with no container nothing changes; otherwise the new transform is `Wheel` at the view-box point computed from the cursor |
| `MapViewport.Viewport.HandleMouseDown` | components/InteractiveMap.tsx:83-86 | panning starts and the pointer position is remembered |
| `MapViewport.Viewport.HandleDoubleClick` | components/InteractiveMap.tsx:88-100 | with no container nothing changes; otherwise the new transform is `DoubleClick` at the view-box point computed from the cursor |
| `MapViewport.Viewport.HandleMouseMove` | components/InteractiveMap.tsx:102-116 | the view-box point computed from the pointer is tracked; while panning the transform becomes `Pan` by the pointer travel and the pointer is remembered; otherwise nothing else changes |
| `MapViewport.Viewport.HandleMouseUp` | components/InteractiveMap.tsx:119 | panning stops |
| `MapViewport.Viewport.HandleKeyDown` | components/InteractiveMap.tsx:120-128 | the new transform is `KeyDown` of the old one |
| `MapViewport.Viewport.ZoomInButton` | components/InteractiveMap.tsx:165 | the new transform is `ZoomInBy` 1.5 |
| `MapViewport.Viewport.ZoomOutButton` | components/InteractiveMap.tsx:166 | the new transform is `ZoomOutBy` 1.5 |
| `MapViewport.Viewport.HandleReset` | components/InteractiveMap.tsx:148-152 | the transform becomes `Recentred` on the current location, whatever it was |
| `MapViewport.Viewport.TargetChanged` | components/InteractiveMap.tsx:140-146 | a new location recentres the view exactly when its projected point differs from the old one |
| `MapViewport.Viewport.RegionEnter` | components/InteractiveMap.tsx:259 | the hovered region becomes that region's identifier |
| `MapViewport.Viewport.RegionLeave` | components/InteractiveMap.tsx:260 | no region is hovered |
| `MapViewport.Viewport.RegionClick` | components/InteractiveMap.tsx:261 | the clicked region's identifier is emitted exactly when a callback is given; no state changes |
| `MapViewport.PressAndRelease` | components/InteractiveMap.tsx:83-86 | a press and a release with no move between them leave the transform unchanged and end idle |
| `MapViewport.ResetTwice` | components/InteractiveMap.tsx:148-152 | two resets leave the location alone and give the view one reset gives from the same start |
| `GeminiService.ModelName` | services/geminiService.ts:164-166 | the image model exactly when the image is present and non-empty, otherwise the text model |
| `GeminiService.BuildParts` | services/geminiService.ts:168-179 | the prompt-prefixed text is the last part; a JPEG inline-data part holding the image comes first exactly when there is an image |
| `GeminiService.FencedLength` | services/geminiService.ts:198 | a text that starts with the json fence and ends with the closing fence is at least 10 characters long, since the two fences cannot overlap |
| `GeminiService.StripFence` | services/geminiService.ts:198-200 | a fenced text loses at least its 10 fence characters; an unfenced text is unchanged |
| `GeminiService.StripFenceRoundTrip` | services/geminiService.ts:198-200 | wrapping a body in the fences and stripping them gives back the trimmed body |
| `GeminiService.StripFenceUnfenced` | services/geminiService.ts:198-200 | a text without the opening fence reaches `JSON.parse` unchanged |
| `GeminiService.ReplyJson` | services/geminiService.ts:192-200 | an absent or blank reply is the "no response text" error, in both directions; otherwise the result is the fence-stripped trimmed text |
| `GeminiService.Analyze` | services/geminiService.ts:155-211 | a missing key fails with its own message before any request; otherwise the request has the right model and parts; every later failure is the generic failure; success holds exactly when the call replied, the text is non-blank and the cleaned text parses, and then returns that text |
| `Dashboard.RiskScoreColor` | components/Dashboard.tsx:20-24 | computes `getRiskScoreColor`; its bands are `RiskScoreColorBands`, its monotonicity `BandMonotone` |
| `Dashboard.BarColor` | components/Dashboard.tsx:66 | computes the bar colour; `BarMatchesText` ties it to the text class band by band |
| `Dashboard.RiskScoreColorBands` | components/Dashboard.tsx:20-24 | red exactly from 70, yellow exactly from 40 below 70, green exactly below 40 |
| `Dashboard.BarMatchesText` | components/Dashboard.tsx:66 | the bar colour and the figure's text class always show the same band |
| `Dashboard.BandMonotone` | components/Dashboard.tsx:19-24 | raising a score never lowers its band |
| `Dashboard.ChartDisplayData` | components/Dashboard.tsx:12-15 | one bar per value, in order, with the i-th bar labelled `Metric i+1` and holding the i-th value |
| `Dashboard.MetricNameInjective` | components/Dashboard.tsx:13 | different positions get different labels |
| `Dashboard.ChartNamesDistinct` | components/Dashboard.tsx:12-15 | no two bars of a chart share a label |
| `Dashboard.GlowClass` | components/Dashboard.tsx:17 | the pulsing red class exactly for `pulse-red`, blue otherwise |
| `Dashboard.BorderClass` | components/Dashboard.tsx:29 | computes the header border class; `HeaderTonesAgree` says which colour it names |
| `Dashboard.SubtitleClass` | components/Dashboard.tsx:31 | computes the subtitle class; `HeaderTonesAgree` says it names the border's colour |
| `Dashboard.HeaderTonesAgree` | components/Dashboard.tsx:29-31 | the header's border and subtitle classes always name the same colour for a risk level |
| `Dashboard.DeliveryClass` | components/Dashboard.tsx:54 | red exactly for `Delayed`, green otherwise |
| `Dashboard.ZoneLabel` | components/Dashboard.tsx:96 | the zone is a space-free prefix of the title that ends at its first space, or the whole title when it has none |
| `InputForm.DataUrlPayload` | components/InputForm.tsx:27-29 | undefined exactly when the data URL has no comma; otherwise the comma-free field that starts right after the first comma and runs to the second comma or the end |
| `InputForm.DataUrlPrefixDropped` | components/InputForm.tsx:28-29 | for a `header,payload` data URL the stored image is exactly the payload |
| `InputForm.Form.constructor` | components/InputForm.tsx:11-13 | empty text, no image, no chosen file |
| `InputForm.Form.SetText` | components/InputForm.tsx:60 | the text becomes the typed value |
| `InputForm.Form.HandleFileChange` | components/InputForm.tsx:15-35 | a read starts exactly for a file whose type starts with `image/`; a non-image file or no file clears the image and the chosen file |
| `InputForm.Form.HandleReadEnd` | components/InputForm.tsx:26-30 | the stored image is the data URL's payload field |
| `InputForm.Form.HandleSubmit` | components/InputForm.tsx:37-44 | nothing is submitted exactly when the text is blank (all white space); otherwise the untrimmed text and the image, with a null or empty image sent as undefined |
| `JsString.Trim` | components/InputForm.tsx:39 | no longer than the input; no white space at either end; empty exactly when the input is all white space |
| `JsString.TrimOfPadded` | services/geminiService.ts:192 | trim removes exactly the surrounding white space: padding a string that has none at its ends gives it back |
| `JsString.TrimFixedPoint` | services/geminiService.ts:199 | a string without white space at its ends is its own trim |
| `JsString.TrimIdempotent` | services/geminiService.ts:192-199 | trimming twice equals trimming once |
| `JsString.Before` | components/Dashboard.tsx:96 | a separator-free prefix of the input, followed in the input by the separator unless it is the whole input |
| `JsString.SecondField` | components/InputForm.tsx:29 | absent exactly when there is no separator; otherwise the separator-free field right after the first separator |
| `JsString.NatToString` | components/Dashboard.tsx:13 | a non-empty string of decimal digits without a leading zero |
| `JsString.NatToStringRoundTrip` | components/Dashboard.tsx:13 | reading the digits back gives the number |
| `JsString.NatToStringInjective` | components/Dashboard.tsx:13 | different numbers render differently |

## Left out

- Rendering: the SVG markup, the world outline, the radar and grid, the
  LAT/LNG readout and the minimap arrows are drawing only. The heatmap toggle
  `showHeatmap` only switches that drawing.
- Floating point: coordinates, zooms and scores are exact reals. `toFixed`
  rounding and the `Infinity`/`NaN` that a zero-sized container would produce
  are not modelled. That is why the pointer handlers require a laid-out rectangle.
- Letterboxing: the pointer handlers stretch the container rectangle onto the
  800 x 400 view box. The `<svg>` keeps the default `preserveAspectRatio`, so a
  container that is not 2:1 letterboxes the drawing. The model computes the
  point the code computes. `WheelFixedPoint`, `DoubleClickFixedPoint` and
  `DragKeepsGrabbedPoint` are about that computed point. It is the point under
  the cursor only for a 2:1 container.
- Listener plumbing: React state batching, effect scheduling and
  `useCallback` closure refreshes are not modelled. Each handler is modelled
  as acting on the current state; the stale-closure read of `zoom` in the key
  handler is assumed to see the current zoom.
- `e.preventDefault` and `e.stopPropagation` are not modelled. They affect
  only the browser.
- GeminiService.Analyze: the network call to `generateContent` and
  `JSON.parse` are parameters (`generate` and `parses`), not models. Also
  outside the model are:
  - the system instruction;
  - the response schema;
  - the `ExecutivePulse` shape of the parsed value;
  - the `console.error` logging.
  The API key is a parameter in place of `process.env`. The method returns
  the cleaned text that parsed, not the parsed object.
- InputForm: `alert` is not modelled. The `FileReader` asynchrony is split
  into `HandleFileChange` (the read starts) and `HandleReadEnd` (the read
  finished). The `disabled` state while loading is not modelled.
- Trim's white space is the set that `String.prototype.trim` strips: TAB,
  VT, FF, SP, NBSP and U+FEFF, the other Unicode Zs characters, and the line
  terminators LF, CR, U+2028 and U+2029. No other character counts as white space.
- `types.ts` does not declare `HeatmapPoint`. `Types.HeatmapPoint` takes its
  fields from how components/InteractiveMap.tsx:46-48 reads them.
- App.tsx and RawDataView.tsx are not part of this model. They only wire the
  components together and show the raw reply.
