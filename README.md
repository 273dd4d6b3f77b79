# Inventory viewer: overlay state and asset entry animation

A model of the logic in the viewer's single React component, `src/App.jsx`. That component drives two Babylon.js scenes: a background scene and an item inspector.

Two parts of the component are modelled.

- **The overlay state machine.** The component keeps two pieces of state. `isInventoryOpen` shows the item grid. `selectedItem` shows the inspector when it is non-null. Four handlers change this state: `openInventory`, `closeInventory`, `openItem` and `closeItem`. Two guards sit beside them:
  - the mount effect creates the background engine only once;
  - the inspector effect builds a scene only for a selected item that has an asset URL and a mounted canvas.

  `Overlay` gives this state as a value, with `Apply` and `Run`. `AppComponent.App` is the component as a class whose fields the handlers and effects update.
- **Size normalisation of a loaded asset.** When the inspector loads an asset, it measures the largest extent of the asset's bounding box. From that extent it computes two scale factors from the fixed visual sizes 2.5 and 0.25, falling back to 1 when the extent is not positive. It flips the depth axis of both scale vectors. It then builds a two-key scaling animation whose length is `round(25 + log(ratio) * 8)`. `Normalise` models this over `real`.

Files:

- `catalog.dfy`: the item record and the three-item catalog.
- `overlay.dfy`: the overlay transitions and the lemmas about which overlays end up shown.
- `normalise.dfy`: the scale factors, scale vectors, ratio, duration and keyframes, with the scale-invariance lemmas.
- `app.dfy`: the `App` class, with the handlers, the engine guard and the inspector setup.

## Behaviour worth noting

- `openItem` has no guard. It selects the item from any state, whether or not the grid is open.
- `openInventory` keeps the selection. The grid and the inspector can therefore both be shown; `Overlay.BothOverlaysShown` says exactly when.
- The scale factors fall back to 1 for every extent that is not positive, not only for an extent of 0.
- The duration is rounded to whole frames. It is therefore non-decreasing in `log(ratio)` but not strictly increasing (`Normalise.DurationNotStrictlyMonotone`).

Inputs that become parameters:

- Whether a canvas element is mounted: `canvasMounted`.
- The asset loader's outcome: the bounding vectors, or `None` for a failed load.
- `Math.log`: the `log` argument, a function that is left uninterpreted. Only `Normalise.DegenerateDuration`, `Normalise.PositiveDuration` and `Normalise.DurationMonotone` assume anything about its values, and each says so in its `requires`. `Normalise.DurationMonotone` assumes the order of the two log-ratios it compares.

## Model

| member | source | states |
|---|---|---|
| `Catalog.CatalogWellFormed` | src/App.jsx:72-76 | every catalog item has a non-empty asset URL, and the item ids used as grid keys are distinct |
| `Catalog.InventoryItems` | src/App.jsx:72-76 | the three catalog items with their ids, names, descriptions and asset URLs; `Catalog.CatalogWellFormed` states their properties |
| `Catalog.HasAssetUrl` | src/App.jsx:100 | the truthiness test on `selectedItem.assetUrl`: present and not the empty string; no contract of its own, used by `AppComponent.InspectorCanBuild` |
| `AppComponent.InspectorCanBuild` | src/App.jsx:100 | the three-part guard of the inspector effect; no contract of its own, its behaviour after each handler is stated by `AppComponent.InspectorGuardAfterHandlers` and its effect by `AppComponent.App.SetupInventoryScene` |
| `Overlay.Apply` | src/App.jsx:79-96 | the grid is open after a handler exactly when it was `openInventory` or `closeItem`; `openInventory` keeps the selection; every other handler sets it from its own argument alone (the item for `openItem`, none otherwise), whatever the state before |
| `Overlay.Run` | src/App.jsx:79-96 | a run's final state is the state reached by its last handler alone from the initial state, unless that handler is `openInventory`; a run of only `openInventory` keeps the selection |
| `Normalise.FinalScaleFactor` | src/App.jsx:132 | for a positive extent the factor is positive and factor × extent = 2.5; otherwise it is 1 |
| `Normalise.InitialScaleFactor` | src/App.jsx:133 | for a positive extent the factor is positive and factor × extent = 0.25; otherwise it is 1 |
| `Normalise.FinalScale` | src/App.jsx:135-139 | y equals x and z equals −x; for a positive extent x × extent = 2.5, otherwise the vector is (1, 1, −1) |
| `Normalise.InitialScale` | src/App.jsx:135-139 | y equals x and z equals −x; for a positive extent x × extent = 0.25, otherwise the vector is (1, 1, −1) |
| `Normalise.Duration` | src/App.jsx:145-148 | the duration is round(25 + 8 · log 10) for a positive extent and round(25 + 8 · log 1) otherwise |
| `Normalise.Max3` | src/App.jsx:126 | `Math.max` of three numbers is at least each argument and equal to one of them |
| `Normalise.MaxDimension` | src/App.jsx:124-126 | the result is the largest of the x, y and z extents of `max - min`, and it is one of them |
| `Normalise.ScaleFactor` | src/App.jsx:128-133 | for a positive extent, factor × extent equals the target size; otherwise the factor is 1 |
| `Normalise.ScaleVectors` | src/App.jsx:135-139 | both scale vectors have the factor on x and y and its negation on z; for a positive extent each component's magnitude × extent is the target size (0.25 initial, 2.5 final), and the final factor is 10 × the initial one |
| `Normalise.ScaleRatio` | src/App.jsx:145 | the ratio of final to initial factor is 10 for a positive extent and 1 otherwise |
| `Normalise.Round` | src/App.jsx:148 | `Math.round` returns the integer n with n ≤ x + 0.5 < n + 1, so halves round upwards |
| `Normalise.Entry` | src/App.jsx:135-154 | the mesh goes to the origin with its scaling equal to the first key; there are exactly two keys, at frame 0 and at frame `Duration`; for a positive extent the first key's x × extent = 0.25 and the second's = 2.5, each with y = x and z = −x, so the second is 10 × the first; otherwise both keys are (1, 1, −1) |
| `Normalise.ScaleInvariance` | src/App.jsx:128-133 | any two assets of positive size start at visual size 0.25 and end at 2.5 |
| `Normalise.MaxDimensionScales` | src/App.jsx:124-126 | scaling the bounding box by k > 0 scales the largest extent by k |
| `Normalise.ScaleFactorScales` | src/App.jsx:132-133 | an extent k times larger gives a factor k times smaller |
| `Normalise.ScaleEquivariance` | src/App.jsx:124-148 | an asset authored k times larger gets factors k times smaller and the same duration, so it is shown at exactly the same sizes |
| `Normalise.TranslationInvariance` | src/App.jsx:124-126 | moving the bounding box changes neither the largest extent nor the pose and keys |
| `Normalise.DurationDependsOnlyOnSign` | src/App.jsx:145-148 | two extents that are both positive, or both not positive, give the same duration, whatever `log` is |
| `Normalise.DegenerateDuration` | src/App.jsx:145-148 | if log 1 = 0, an asset whose extent is not positive animates for 25 frames |
| `Normalise.PositiveDuration` | src/App.jsx:145-148 | if 2.30 ≤ log 10 ≤ 2.31, an asset of positive extent animates for 43 frames |
| `Normalise.DurationMonotone` | src/App.jsx:148 | a larger `log(ratio)` never gives a shorter duration |
| `Normalise.DurationNotStrictlyMonotone` | src/App.jsx:148 | two different values of `log(ratio)` (0 and 0.01) round to the same duration |
| `Overlay.TransitionsAndExclusion` | src/App.jsx:79-96 | from any state, `closeInventory`, `openItem` and `closeItem` leave the grid and the inspector not both shown; `openInventory` does so exactly when no item is selected |
| `Overlay.FirstStepExclusive` | src/App.jsx:79-96 | from the initial state (grid closed, nothing selected), every handler leaves the two overlays not both shown |
| `Overlay.OpenInventoryAfterItem` | src/App.jsx:79-91 | `openItem(item)` followed by `openInventory` shows the grid with `item` still selected |
| `Overlay.InventoryOpenAfterRun` | src/App.jsx:79-96 | after any non-empty sequence of handlers, the grid is open exactly when the last handler was `openInventory` or `closeItem` |
| `Overlay.SelectionAfterRun` | src/App.jsx:79-96 | starting with nothing selected, an item is selected at the end exactly when some `openItem` is followed only by `openInventory`, and the item selected is that `openItem`'s item |
| `Overlay.BothOverlaysShown` | src/App.jsx:79-96 | from the initial state, the grid and the inspector end up both shown exactly when an `openItem` is followed by at least one `openInventory` and by nothing else |
| `AppComponent.InspectorGuardAfterHandlers` | src/App.jsx:100 | after `openItem` of any catalog item, the inspector can be built exactly when its canvas is mounted; after `closeItem` or `closeInventory` it never can |
| `AppComponent.App.constructor` | src/App.jsx:7-16 | the component starts with the grid closed, nothing selected and no engines |
| `AppComponent.App.OpenInventory` | src/App.jsx:79-81 | the grid is open and the selection is unchanged; the new state is `Apply(old state, OpenInventory)` |
| `AppComponent.App.CloseInventory` | src/App.jsx:83-86 | the grid is closed and nothing is selected |
| `AppComponent.App.OpenItem` | src/App.jsx:88-91 | the grid is closed and `item` is selected |
| `AppComponent.App.CloseItem` | src/App.jsx:93-96 | the grid is open and nothing is selected |
| `AppComponent.App.CreateBackgroundEngine` | src/App.jsx:49-57 | an existing engine is never replaced; without one, a fresh engine is created exactly when the canvas is mounted |
| `AppComponent.App.SetupInventoryScene` | src/App.jsx:99-154 | without a selected item, a mounted canvas and a non-empty asset URL, nothing changes; otherwise a fresh engine is created and the root mesh gets `Entry(bounds)`, or no mesh when the load failed |

## Left out

- Babylon object construction: the scene, cameras, lights, the box and ground meshes, materials and control attachment. These are library calls with no logic of their own. Engines keep only their identity.
- The render loops and `window` resize listeners of both scenes. These are event plumbing. Every inspector setup adds one more listener, and that leak is not modelled.
- The `runScene` start button handler, which builds the background scene and starts its loop. It is library construction and I/O only.
- Asynchronous asset loading and its `try`/`catch`. The loader's outcome is a parameter, and logging the error to the console is not modelled.
- The React effect lifecycle: when effects run, and the cleanup that disposes the previous inspector engine. `AppComponent.App.SetupInventoryScene` is what one run of the effect does.
- Easing, the 30 frames-per-second rate and `beginDirectAnimation`. These belong to the library's animation runtime.
- The JSX markup. It shows the grid while `isInventoryOpen` is true and the inspector while `selectedItem` is non-null, and is presentation only.
- `Normalise.Round`, `Normalise.Duration`: JavaScript doubles are modelled as exact reals. Rounding error, NaN extents from `Math.max`, and infinities are not modelled. `Math.log` is left uninterpreted.
- `Normalise.DurationMonotone`: proves only that the duration never decreases, not that it strictly increases, because rounding to whole frames makes the strict form false.
