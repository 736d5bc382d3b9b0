# Pothole map: severity colour ramp and map component

A model of the `MinimalMap` component of the pothole map
(`components/ui/minimalmap.tsx`). The page fetches a list of pothole reports
and draws each one as a circle marker on a map. Each marker is filled with a
colour that depends on the pothole's severity.

- `HotColor.dfy`: the colour ramp. It holds the five-stop table `hotColors`
  (black, red, orange, yellow, white) and `getHotColor`. `getHotColor` clamps a
  severity to [0, 10] and divides it by 10. It picks the stop
  `floor(ratio * 4)`, with no blending. It scales each channel with
  `Math.round(c * 255)` and prints the result as `rgb(R, G, B)`.
- `Decimal.dfy`: the base-ten numerals that the template literal prints for the
  channels. It also has a parser that reads them back, so the printed colour
  can be proved to lose nothing.
- `Potholes.dfy`: the backend's `{latitude, longitude, severity}` records. It
  also models their reshaping into `{coordinates: [lat, lon], severity}`.
- `MinimalMap.dfy`: the component's state as a class.
  - `mapRef` is a nullable handle to a map object, created only when none is
    held. It is removed and reset only when one is held.
  - `potholes` is replaced when a fetch succeeds.
  - The marker effect adds one circle marker per pothole, in list order, with
    radius 8 and the ramp's colour.
  - The mapping library's map object is modelled as a class. It records the view,
    the tile layers, the markers added to it and whether it was removed.
- `Wrappers.dfy`: the `Option` type the parsers return.

Severities are Dafny `real`s. `Math.round` is `floor(x + 0.5)`, which is
JavaScript's rounding: halves go toward +infinity. So orange's
0.5 * 255 = 127.5 is drawn as 128.

Two details of the code that the model keeps:
- The code does not clamp the 8-bit channels. The model proves they are always
  in 0..255 instead.
- The cleanup removes the map only when `mapRef.current` is non-null. It does
  not run unconditionally.

## Model

| member | source | states |
|---|---|---|
| HotColor.Clamp | components/ui/minimalmap.tsx:22 | the clamped severity lies in [0, 10]; inputs at or below 0 become 0 and at or above 10 become 10; in-range inputs are unchanged |
| HotColor.Ratio | components/ui/minimalmap.tsx:22 | the ratio lies in [0, 1] and is 1 exactly when the clamped severity is 10 |
| HotColor.StopIndex | components/ui/minimalmap.tsx:22-23 | the table index is always in bounds (0..4), and it is 4 (white) exactly when the clamped severity is 10 |
| HotColor.Round | components/ui/minimalmap.tsx:25 | `Math.round` gives the integer within one half of x, with exact halves going up |
| HotColor.Channel | components/ui/minimalmap.tsx:25 | a normalised channel becomes an integer in 0..255; 0 gives 0 and 1 gives 255 |
| HotColor.Render | components/ui/minimalmap.tsx:24-25 | a stop with normalised channels is drawn with three 8-bit channels |
| HotColor.HotColorRgb | components/ui/minimalmap.tsx:21-25 | for every severity the drawn colour has 8-bit channels and is one of the five drawn stops |
| HotColor.RgbString | components/ui/minimalmap.tsx:25 | the template literal's text opens with `rgb(`, closes with `)` and holds only digits, commas and spaces in between |
| HotColor.GetHotColor | components/ui/minimalmap.tsx:21-26 | the returned text is exactly the `rgb(...)` text of the stop of the severity's band, and it parses back as the drawn colour |
| HotColor.RgbStringRoundTrip | components/ui/minimalmap.tsx:25 | `rgb(R, G, B)` reads back as (R, G, B), so distinct colours print differently |
| HotColor.ParseFieldNumeral | components/ui/minimalmap.tsx:25 | a printed channel followed by its separator is read back exactly |
| HotColor.PaletteIsRendered | components/ui/minimalmap.tsx:13-25 | drawing the table gives (0,0,0), (255,0,0), (255,128,0), (255,255,0), (255,255,255); 127.5 rounds to 128 |
| HotColor.StopIndexIsBand | components/ui/minimalmap.tsx:22-23 | the floor-of-ratio index equals the band of the clamped severity: [0, 2.5), [2.5, 5), [5, 7.5), [7.5, 10) or exactly 10 |
| HotColor.HotColorIsBandColour | components/ui/minimalmap.tsx:13-24 | the drawn colour is the palette entry of the severity's band |
| HotColor.ClampBelow | components/ui/minimalmap.tsx:22 | every severity at or below 0 prints the same colour as 0 |
| HotColor.ClampAbove | components/ui/minimalmap.tsx:22 | every severity at or above 10 prints the same colour as 10 |
| HotColor.StopIndexMonotone | components/ui/minimalmap.tsx:22-23 | a higher severity never selects a lower stop index |
| HotColor.HotterIsBrighter | components/ui/minimalmap.tsx:13-24 | a higher severity never lowers the red, green or blue channel |
| HotColor.PaletteNumerals | components/ui/minimalmap.tsx:25 | the channel values 0, 128 and 255 print as "0", "128" and "255" |
| HotColor.PaletteTextsArePrinted | components/ui/minimalmap.tsx:25 | the five drawn stops print as `rgb(0, 0, 0)` … `rgb(255, 255, 255)` |
| HotColor.GetHotColorIsStop | components/ui/minimalmap.tsx:13-25 | stepwise selection: every severity prints as one of the five stop texts, never a blend |
| HotColor.Examples | components/ui/minimalmap.tsx:21-26 | 0 and 2 give `rgb(0, 0, 0)`, 2.5 gives `rgb(255, 0, 0)`, 5 gives `rgb(255, 128, 0)`, 9 gives `rgb(255, 255, 0)`, 10 gives `rgb(255, 255, 255)` |
| Decimal.Numeral | components/ui/minimalmap.tsx:25 | an integer prints as a non-empty digit string with no leading zero, one digit exactly below 10 |
| Decimal.ValueOfNumeral | components/ui/minimalmap.tsx:25 | a printed integer reads back as itself |
| Decimal.ParseNumeral | components/ui/minimalmap.tsx:25 | a printed integer followed by a non-digit is parsed back exactly, leaving the rest |
| Potholes.Format | components/ui/minimalmap.tsx:37-40 | one record becomes coordinates `[latitude, longitude]` (latitude first) with the severity copied, and the record can be read back from it |
| Potholes.FormatAll | components/ui/minimalmap.tsx:37-40 | reshaping keeps length and order, puts latitude first and longitude second, and copies the severity |
| Potholes.FormatAllRoundTrip | components/ui/minimalmap.tsx:37-40 | the original records can be recovered from the reshaped potholes |
| Potholes.FormatAllAppend | components/ui/minimalmap.tsx:37-40 | reshaping a concatenation reshapes each part in place |
| MinimalMap.MarkerFor | components/ui/minimalmap.tsx:71-82 | a pothole's marker sits at its coordinates with radius 8, a black stroke of weight 2 and opacity 1, fill opacity 0.7, the ramp text of the severity's band as fill colour, and a popup carrying the severity |
| MinimalMap.Markers | components/ui/minimalmap.tsx:70-84 | one marker per pothole, in list order, each the marker of its pothole |
| MinimalMap.MarkersAppend | components/ui/minimalmap.tsx:70-84 | the markers of a concatenated list are the markers of each part in order, so markers follow the list order |
| MinimalMap.MarkerDescribesPothole | components/ui/minimalmap.tsx:70-84 | each marker is at its pothole's coordinates, has radius 8 and a popup with the pothole's severity, and is filled with the pothole's ramp colour, one of the five stops |
| MinimalMap.MarkersOfFetched | components/ui/minimalmap.tsx:37-84 | each fetched record yields a marker at (latitude, longitude) whose fill is `getHotColor(severity)` |
| MinimalMap.AddMarkers | components/ui/minimalmap.tsx:70-84 | the `forEach` loop appends exactly the markers of the potholes, in list order, and changes nothing else about the map |
| MinimalMap.LeafletMap.constructor | components/ui/minimalmap.tsx:53 | a new map shows the given centre and zoom, with no layers or markers |
| MinimalMap.LeafletMap.AddTileLayer | components/ui/minimalmap.tsx:55-57 | adds one tile layer and changes nothing else |
| MinimalMap.LeafletMap.AddMarker | components/ui/minimalmap.tsx:74-83 | appends one marker and changes nothing else |
| MinimalMap.LeafletMap.Remove | components/ui/minimalmap.tsx:62 | marks the map removed and changes nothing else |
| MinimalMap.MinimalMapComponent.constructor | components/ui/minimalmap.tsx:8-11 | the component starts with no map, no potholes, and the initial position and zoom |
| MinimalMap.MinimalMapComponent.ReceivePotholes | components/ui/minimalmap.tsx:35-47 | a successful response replaces the potholes with the reshaped records; a failed response or an error leaves them unchanged; the map handle invariant is kept |
| MinimalMap.MinimalMapComponent.MountMap | components/ui/minimalmap.tsx:52-58 | a map is created, centred and given the OpenStreetMap tile layer only when none is held; otherwise the held handle is kept |
| MinimalMap.MinimalMapComponent.Teardown | components/ui/minimalmap.tsx:60-65 | a held map is removed (the model's record of the markers and tile layers the component added, and its view, are kept), and the handle is reset to null; with no map held, nothing happens |
| MinimalMap.MinimalMapComponent.ShowPotholes | components/ui/minimalmap.tsx:68-86 | with a map held, exactly the markers of the potholes are appended to it in order and nothing else about it changes; with none held nothing happens; the handle held is never a removed map |

## Left out

- `app/page.tsx`: page layout, the dark-mode toggle and the Layers/Zoom/Reset buttons. These buttons have no handlers. None of it is part of the colour ramp or the map component.
- The network request, `response.json()` and the `console` logging in `fetchPotholes`. They are I/O. Their settled result is the `FetchOutcome` parameter of `ReceivePotholes`.
- Records whose fields are missing or not numbers. The untyped JSON allows them. The model takes records that are already parsed into numbers.
- React's scheduling: the order in which effects and cleanups run and when the asynchronous fetch settles. Each effect is its own method. `StrictModeTrace` runs them in the order of React's development mode (mount, markers, unmount, remount, markers, unmount). `GuardTrace` is not an order React produces: it calls mount twice and cleanup twice only to exercise both guards, whose "map already held" and "no map held" branches React never reaches.
- The unused `setPosition` and `setZoom` state setters. Only the initial `position` and `zoom` reach the map.
- Rendering by the mapping library: tiles, pixels and popups opening, and the `attribution` option of the tile layer. The map object is modelled by its view, a record of the tile layers and markers the component added, and a removal flag. The library detaching layers on `remove()` is not modelled.
- MinimalMap.MarkerFor: the popup keeps the severity number, not the text `Pothole Severity: <severity>`. JavaScript's decimal printing of a floating-point number is not modelled.
- MinimalMap.MarkerDescribesPothole: states the popup severity as a number, for the same reason.
- IEEE-754 arithmetic and NaN. Severity is an exact real, so NaN cannot occur. `ratio * 4` is computed exactly, so floating-point rounding of `severity / 10` just below a band edge is not modelled.
