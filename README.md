# novicell-map in Dafny

A model of the Novicell Map plugin (`js/novicell.map.js`), a singleton that
lazy-loads the Google Maps JavaScript API once its target element scrolls into
view and then builds a map with markers from a configuration object.

The model covers the plugin's own logic and leaves the Google Maps object model
and the DOM outside, as inputs and recorded effects:

- `JsValue`: the JSON-like values the options object is made of, with the
  JavaScript rules the plugin relies on (property reads, truthiness,
  `instanceof Object`, string concatenation). A number is held as the text
  `String(n)` gives for it.
- `OptionsMerge`: `merge_options` as a specification function `Merge` and as
  the key-by-key loop with recursion `MergeOptions`, with lemmas on right bias,
  kept defaults and the defaults used by `initialize`.
- `Viewport`: `isScrolledIntoView`.
- `LazyLoad`: the lazy-load gate as a state (`isLoaded`, `options`,
  `document.onscroll`, appended scripts, console errors) with one function per
  event (`init`, a scroll, `load`) and a run over any sequence of events. The
  central result is that at most one script is ever appended.
- `Assembly`: what `initialize` decides apart from its Google Maps calls: the
  icon record, the markers made from `options.markers`, the idle zoom rule.
- `NovicellMap`: the singleton as a class `Plugin` whose fields are the closure
  variables and the page state it writes. Its methods update them in place and
  are proved equal to the functions above.

## Model

| member | source | states |
|---|---|---|
| `OptionsMerge.Merge` | js/novicell.map.js:146-155 | the merged object has exactly the own keys of the defaults and of the caller's options (keys naming `Object.prototype` members excepted, see Left out) |
| `OptionsMerge.MergeOptions` | js/novicell.map.js:146-155 | the key-by-key loop, recursing into nested default objects, returns exactly `Merge(obj, src)` |
| `OptionsMerge.MergeIsRightBiased` | js/novicell.map.js:146-153 | every non-object value the caller sets, at any depth, is the value the merged options hold at that path |
| `OptionsMerge.MergeKeepsDefaults` | js/novicell.map.js:146-153 | every default value at a path the caller does not set is still there after the merge |
| `OptionsMerge.MergeOnlyCombines` | js/novicell.map.js:146-153 | every non-object value of the merged options comes from the caller's options or from the defaults |
| `OptionsMerge.Defaults` | js/novicell.map.js:48-59 | the defaults literal: zoom 10, disableDefaultUI, draggable and scrollwheel false, center at lat 55.56265, lng 9.760596 |
| `OptionsMerge.DefaultsWithZoomOverride` | js/novicell.map.js:48-62 | merging `{mapOptions:{zoom:15}}` onto the defaults gives zoom 15 and keeps disableDefaultUI, draggable, scrollwheel and center at their defaults |
| `Viewport.IsScrolledIntoView` | js/novicell.map.js:139-144 | in view when the box's bottom is at or below the window's top edge and its top at or above the window's bottom edge; only top and bottom are read |
| `Viewport.VisibleIffRowsMeet` | js/novicell.map.js:139-144 | for a real box and window, the element counts as in view exactly when the closed intervals [top, bottom] and [0, innerHeight] share a point; left and right play no part |
| `LazyLoad.MapsScript` | js/novicell.map.js:133-135 | the script is of type text/javascript and its src is the fixed Google Maps prefix followed by the string form of `options.apiKey` |
| `LazyLoad.Load` | js/novicell.map.js:130-137 | load sets the flag and appends exactly one script, built from the current options, changing nothing else |
| `LazyLoad.Opens` | js/novicell.map.js:32-37 | the condition shared by init and the scroll handler: nothing loaded yet, the element exists and it is in view |
| `LazyLoad.InitStep` | js/novicell.map.js:17-42 | init always replaces the options; a falsy selector, or else a falsy apiKey, logs its error and changes nothing more; with both truthy, the script is loaded exactly when the gate opens (nothing loaded, element found and in view), and otherwise the scroll handler is replaced by one closing over the element found, with nothing else changed |
| `LazyLoad.ScrollStep` | js/novicell.map.js:36-40 | a scroll loads exactly when a handler is installed and the gate opens for its element, and then exactly as load does; otherwise it changes nothing |
| `LazyLoad.StepKeepsLoadedOnce` | js/novicell.map.js:32-40 | every init or scroll keeps the number of scripts equal to 1 when loaded and 0 otherwise, and leaves the scripts alone once loaded |
| `LazyLoad.RunLoadsAtMostOnce` | js/novicell.map.js:30-41 | over any sequence of init calls and scroll events at most one script is ever appended, and once appended it stays the only one |
| `LazyLoad.FromPageLoadAtMostOneScript` | js/novicell.map.js:13-41 | from the page's initial state any sequence of events appends at most one script |
| `LazyLoad.MissingElementNeverLoads` | js/novicell.map.js:30-40 | when no init finds its element, nothing is ever loaded and any handler installed stays unable to load |
| `LazyLoad.ScrollsAfterLoadAreIdle` | js/novicell.map.js:36-40 | once loaded, any number of scroll events leave the page unchanged |
| `LazyLoad.ManyScrollsLoadOnce` | js/novicell.map.js:36-40 | n >= 1 qualifying scroll events on an armed gate append exactly one script, built from the options in force |
| `LazyLoad.ArmThenScrollLoads` | js/novicell.map.js:30-40 | a valid init on a fresh page with its element below the window installs the handler and loads nothing; a scroll that brings the element into view then appends exactly the script for those options |
| `LazyLoad.RejectedInitLeavesStaleHandler` | js/novicell.map.js:17-40 | an init rejected for a missing selector keeps the earlier handler but replaces the options, so a later qualifying scroll loads a script whose URL ends in "undefined" |
| `Assembly.SizeOf` | js/novicell.map.js:87-89 | the size record for `icon.size`: reading `width` of null throws, otherwise it carries the width and height (stated through `BuildIcon`) |
| `Assembly.BuildIcon` | js/novicell.map.js:81-90 | the icon has `url` exactly when `options.icon` has an own `url`, and `scaledSize` exactly when it has an own `size`; a null icon or null size throws; without `icon` the icon is empty |
| `Assembly.MarkerEntries` | js/novicell.map.js:93-94 | missing or null `options.markers` throws on reading `length`; an array yields its elements in order; a string yields, in order, the one-character string at each of its positions (see Left out); a number, boolean or plain object has no `length`, so the loop visits nothing |
| `Assembly.MarkerFor` | js/novicell.map.js:94-101 | a null entry throws on reading `lat`; any other entry gives a marker with its title, lat and lng and the shared icon |
| `Assembly.Place` | js/novicell.map.js:93-103 | one marker per entry, in input order, each with its entry's title, lat, lng and the shared icon, up to the first null entry; the loop fails exactly when it stops early, and with no null entry it makes exactly as many markers as entries |
| `Assembly.IdleZoom` | js/novicell.map.js:123-125 | the zoom after the idle rule is never above 16 nor above the zoom before; a zoom above 16 becomes 15 and any zoom up to 16, 16 included, is kept |
| `NovicellMap.FillIcon` | js/novicell.map.js:67-90 | filling the icon field by field gives exactly `BuildIcon` |
| `NovicellMap.Plugin.constructor` | js/novicell.map.js:12-15 | the singleton starts unloaded, with empty options, no markers, no handler, no script and no listener |
| `NovicellMap.Plugin.Load` | js/novicell.map.js:130-137 | the in-place load changes the state exactly as `LazyLoad.Load` |
| `NovicellMap.Plugin.Init` | js/novicell.map.js:17-42 | the in-place init changes the state exactly as `LazyLoad.InitStep` and touches neither markers nor the idle listener |
| `NovicellMap.Plugin.Scroll` | js/novicell.map.js:36-40 | the installed handler changes the state exactly as `LazyLoad.ScrollStep` |
| `NovicellMap.Plugin.PushMarkers` | js/novicell.map.js:93-103 | the module-level markers list keeps its old entries and grows by exactly the markers `Place` makes, in order; the result says whether the loop threw |
| `NovicellMap.Plugin.Initialize` | js/novicell.map.js:44-128 | when the lookup of `options.selector` throws, the SyntaxError ends it before anything changes; otherwise options become the merge of the caller's options onto the defaults; a throw while building the icon or reading `markers.length` leaves markers and listener alone; otherwise the markers grow as `Place` says and the idle listener is registered unless an entry threw |
| `NovicellMap.Plugin.Idle` | js/novicell.map.js:122-127 | the idle event applies the zoom rule only while the listener is registered and always leaves it removed, so the rule runs at most once |

## Left out

- The Google Maps object model: `Map`, `LatLng`, `LatLngBounds`, `InfoWindow`, `Size` and the event API are foreign calls. Markers are records of the inputs the plugin passes; the map zoom is an integer given to `Plugin.Idle`.
- The bounds loop and `fitBounds` (js/novicell.map.js:115-121): geometry inside Google Maps.
- The info window and the click handler (js/novicell.map.js:74-79, 105-112), including the literal content string `'options.infoWindow'`: user-interface side effects.
- The DOM and the network: `querySelector`, `getBoundingClientRect` and `innerHeight` are inputs of `Init` and `Scroll`; `createElement` and `appendChild` are recorded as the `scripts` sequence; the fetch and the asynchronous callback into `initialize` are not modelled, so nothing forces `Initialize` to run only after `Load`.
- The element `initialize` looks up for the map (js/novicell.map.js:45): the element found only feeds the `Map` constructor; the lookup itself can throw, which `Plugin.Initialize` models.
- `NovicellMap.Plugin.Initialize`: whether `querySelector` throws on `options.selector` is an input, not computed from the selector text; the model does not encode which strings are valid CSS selectors ("" and "0" are not, and a rejected `init` can leave such a selector in the options before a later scroll loads the script).
- `parseFloat` of lat and lng and all floating point: markers keep the raw values; the bounding box is in reals.
- Numbers are held as their JavaScript string form; falsy numbers are "0" and "NaN".
- `Plugin.Init`: the options argument is a plain object; `init(null)` and non-object options, which throw or read `undefined`, are not modelled.
- `OptionsMerge.MergeOptions`: returns the merged object as a value instead of mutating `obj` in place, so the identity of the returned object and the sharing of nested objects with the caller's options are not captured.
- `OptionsMerge.Merge`: `Mergeable` requires that wherever a default value is an object, it is a plain object and the caller's value is a plain object too; JavaScript's coercions when the caller's value there is null, a primitive or an array, and merging into a default array, are not modelled (the defaults hold no arrays).
- `Assembly.MarkerEntries`: an object with its own `length` property used as `options.markers` is treated as having no entries.
- `Assembly.MarkerEntries`: a string is split into Dafny characters (Unicode scalar values), while JavaScript indexes UTF-16 code units; for a string with characters outside the Basic Multilingual Plane the model gives fewer entries than the source (`"😀".length` is 2 in JavaScript).
- `JsValue.Value` has no `undefined`: an own property holding `undefined` cannot be written, so the throws it causes are not modelled (`{icon: undefined}` throws at js/novicell.map.js:83, a `size` of `undefined` at line 88, an `undefined` marker entry at line 97).
- `OptionsMerge.Merge`: property reads at js/novicell.map.js:148 go up the prototype chain, and the model does not. A caller key naming an `Object.prototype` member behaves differently in the source: `constructor` holds the `Object` function, which is `instanceof Object`, so the source merges into `Object` itself; `__proto__` runs the prototype setter. In both cases no own key is added, while `Merge` adds one holding the caller's value. `Get` has the same limit.
- `LazyLoad.InitStep`: `querySelector` throws a SyntaxError on an invalid selector (js/novicell.map.js:30). The source then keeps the earlier scroll handler with the new options; the model has no throwing case for `found`.
- `LazyLoad.Load`: the flag is set (js/novicell.map.js:131) before `appendChild` (line 136); if `appendChild` threw, the source would stay loaded with no script. The model's append never fails.
- `NovicellMap.Plugin.Idle`: tracks one idle listener; a second `initialize` on a new map would register a second one.
- The console message text: errors are recorded by kind.
- The `data-lat`, `data-lng` and `data-zoom` attributes shown in the header comment's example (js/novicell.map.js:5): the code never reads them, so they are not modelled.
