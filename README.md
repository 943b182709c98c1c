# Safe-area UI components: a verified model

This project models the runtime core of a Unity UI extension. The extension keeps UI rectangles inside the device's *safe area*: the part of the screen that notches, rounded corners and system bars do not cover. The model has three parts.

- **`SafeAreaRectTransform`** (`safe_area_rect_transform.dfy`, module `SafeAreaRect`).
  - It normalises the safe area against the screen size.
  - It resolves anchors in one of three modes:
    - *Automation*: the safe area itself.
    - *Simple*: edge flags choose the safe area or the full screen per edge, and configured anchors interpolate inside that range.
    - *Advanced*: a per-edge `EdgeAnchor` interpolates between ends, each taken from the full screen or the safe area.
  - It turns the anchors into pixel offsets (`SetAnchorAndOffset`).
  - It re-lays out in `Start` and in `Update` when the safe area changes.
  - The anchor arithmetic is a set of functions. The component is a class whose methods overwrite its `safeArea` field and its rectangle.
- **`SafeAreaContainer`** (`safe_area_container.dfy`, module `Container`).
  - `ApplySafeArea` pins each flagged edge's anchor component to the normalised safe area.
  - With `lockOffset` it also zeroes that edge's offset component.
  - It resets the scale to one and records the set of driven properties.
  - `LateUpdate` re-applies every frame in the editor, and otherwise only when the safe area changed.
- **`SafeAreaContainer.Manager`** (`safe_area_container_manager.dfy`, module `ContainerManager`).
  - The registry of containers: register appends and unregister removes the first occurrence.
  - A per-frame tick dispatches a changed safe area to every live, active and enabled entry.
  - The static singleton is an explicit `Manager` object. Its `present` flag says whether the static instance exists.

Shared values are in `geometry.dfy` (module `Geometry`): vectors, the engine's `Rect`, the screen size, `Mathf.Clamp01`/`Mathf.Lerp`, the `[Flags]` edge set as a `bv32`, and the rectangle fields the components touch.

Every `float` is a Dafny `real`. The screen size and the safe area are method parameters where the code reads `Screen.width`, `Screen.height` and `Screen.safeArea`. Screen dimensions must be positive (`Screen.Valid`), because the code divides by them with no guard.

### Behaviour of the code worth knowing

- For a 1000×2000 screen with safe area (0, 100, 1000, 1800), the normalised top edge is `yMax / height` = 1900 / 2000 = 0.95 (`BottomInsetScenario`), and Automation writes offsets (0, 100) and (0, −100) (`BottomInsetOffsets`).
- Registration does not filter duplicates (`Runtime/Scripts/SafeAreaContainer.Manager.cs:32`). One container registered twice is listed twice (`RegisterTwiceScenario`).
- The code has no guard against non-finite values: it divides by `Screen.width` and `Screen.height` directly. Screen dimensions are therefore required positive.
- `SafeAreaRectTransform.ApplySafeArea(Rect)` does not read its argument: the mode routines read the stored `safeArea` field. The model keeps this (the parameter is named `ignored`). The code's only callers pass that field, so behaviour is not affected.

## Model

| member | source | states |
|---|---|---|
| Geometry.Clamp01 | Runtime/Scripts/SafeAreaRectTransform.cs:249-252 | the clamped parameter is in [0, 1], equals the input inside [0, 1], and is 0 below and 1 above |
| Geometry.Lerp | Runtime/Scripts/SafeAreaRectTransform.cs:249-252 | the clamping interpolation lies between its two ends, returns the first end for t ≤ 0 and the second for t ≥ 1, and is constant when the ends agree |
| SafeAreaRect.GetSafeAreaAnchor | Runtime/Scripts/SafeAreaRectTransform.cs:178-182 | each normalised corner component times the screen dimension gives back the safe area's xMin, yMin, xMax, yMax; min ≤ max for a non-negative size; a safe area inside the screen normalises into the unit square |
| SafeAreaRect.Choose | Runtime/Scripts/SafeAreaRectTransform.cs:184-187 | returns the first value exactly when the condition holds, else the second |
| SafeAreaRect.GetAnchor | Runtime/Scripts/SafeAreaRectTransform.cs:317-323 | the result lies between the independently chosen min end (safe area or full screen) and max end; anchor ≤ 0 gives the min end and anchor ≥ 1 the max end |
| SafeAreaRect.SimpleRange | Runtime/Scripts/SafeAreaRectTransform.cs:241-244 | each range end is the safe-area value exactly when its edge flag is set (Left→minX, Bottom→minY, Right→maxX, Top→maxY), else 0 or 1 |
| SafeAreaRect.SimpleLayout | Runtime/Scripts/SafeAreaRectTransform.cs:221-261 | every final anchor component lies between its range ends; the default anchors (0,0)/(1,1) give exactly the range ends; the configured offsets pass through |
| SafeAreaRect.ModeLayout | Runtime/Scripts/SafeAreaRectTransform.cs:189-203 | the layout is that of exactly the configured mode's routine |
| SafeAreaRect.OffsetsFor | Runtime/Scripts/SafeAreaRectTransform.cs:300-315 | the computed offsets on a stretched rectangle place its corners where the layout's anchors and offsets would; anchors (0,0)/(1,1) keep the configured offsets |
| SafeAreaRect.WithLayout | Runtime/Scripts/SafeAreaRectTransform.cs:300-315 | the anchors and scale are unchanged; only the two offsets are replaced, by `OffsetsFor` of the canvas size |
| SafeAreaRect.EdgeAnchorAt | Runtime/Scripts/SafeAreaRectTransform.cs:83-95 | the `EdgeAnchor(float)` constructor keeps the anchor, and both ends default to the full screen, so the resolved anchor is the lerp of the full-screen range whatever the safe area |
| SafeAreaRect.AutomationLayout | Runtime/Scripts/SafeAreaRectTransform.cs:205-219 | the anchors are exactly the normalised safe area, the offsets handed on are zero, and a safe area inside the screen gives anchors in the unit square |
| SafeAreaRect.AdvancedLayout | Runtime/Scripts/SafeAreaRectTransform.cs:263-298 | each anchor component lies between the ends chosen for its own edge (Left and Right on x, Bottom and Top on y, each end from the safe area or the full screen); the configured offsets pass through |
| SafeAreaRect.CanvasSize | Runtime/Scripts/SafeAreaRectTransform.cs:336-344 | the canvas size is the screen size on both branches, and positive for a valid screen |
| SafeAreaRect.AutomationOffsetsAreInsets | Runtime/Scripts/SafeAreaRectTransform.cs:300-315 | for every safe area, the offsets Automation writes are the safe area's lower-left corner and the negated distance of its upper-right corner from the screen's, in pixels |
| SafeAreaRect.BottomInsetOffsets | Runtime/Scripts/SafeAreaRectTransform.cs:308-314 | 1000×2000 screen, safe area (0, 100, 1000, 1800): the offsets written are (0, 100) and (0, −100) |
| SafeAreaRect.SafeAreaRectTransform.constructor | Runtime/Scripts/SafeAreaRectTransform.cs:98-104 | the serialized defaults: Simple mode, default Simple and Advanced settings, an empty stored safe area |
| SafeAreaRect.SafeAreaRectTransform.SetAnchorAndOffset | Runtime/Scripts/SafeAreaRectTransform.cs:300-315 | the rectangle becomes `WithLayout` of the given anchors and offsets: new offsets, and anchors never written |
| SafeAreaRect.SafeAreaRectTransform.ApplySafeAreaAutomation | Runtime/Scripts/SafeAreaRectTransform.cs:205-219 | the rectangle takes the offsets of the Automation layout of the stored safe area |
| SafeAreaRect.SafeAreaRectTransform.ApplySafeAreaSimple | Runtime/Scripts/SafeAreaRectTransform.cs:221-261 | the rectangle takes the offsets of the Simple layout of the stored settings and safe area |
| SafeAreaRect.SafeAreaRectTransform.ApplySafeAreaAdvanced | Runtime/Scripts/SafeAreaRectTransform.cs:263-298 | the rectangle takes the offsets of the Advanced layout of the stored settings and safe area |
| SafeAreaRect.SafeAreaRectTransform.ApplySafeArea | Runtime/Scripts/SafeAreaRectTransform.cs:189-203 | the rectangle takes the layout of the configured mode, computed from the stored safe area and not from the argument |
| SafeAreaRect.SafeAreaRectTransform.Start | Runtime/Scripts/SafeAreaRectTransform.cs:152-158 | stores the current safe area and lays out with it once |
| SafeAreaRect.SafeAreaRectTransform.Update | Runtime/Scripts/SafeAreaRectTransform.cs:160-176 | re-lays out exactly when the editor is not playing or the safe area differs from the stored one; it stores the new value first; otherwise the rectangle is unchanged |
| SafeAreaRect.AutomationIsConfiguredAdvanced | Runtime/Scripts/SafeAreaRectTransform.cs:205-298 | Automation equals Advanced with every edge SafeArea/SafeArea, left/bottom anchors 0, right/top anchors 1 and zero offsets |
| SafeAreaRect.DefaultAdvancedIsFullScreen | Runtime/Scripts/SafeAreaRectTransform.cs:63-72 | the default Advanced settings give anchors (0,0)/(1,1) whatever the safe area |
| SafeAreaRect.DefaultSimpleIsAutomation | Runtime/Scripts/SafeAreaRectTransform.cs:35-51 | the default Simple settings give exactly the Automation layout |
| SafeAreaRect.FullScreenAnchorsKeepOffsets | Runtime/Scripts/SafeAreaRectTransform.cs:308-314 | with anchors (0,0)/(1,1), `SetAnchorAndOffset` writes the configured offsets unchanged and nothing else |
| SafeAreaRect.BottomInsetScenario | Runtime/Scripts/SafeAreaRectTransform.cs:178-182 | 1000×2000 screen, safe area (0, 100, 1000, 1800): anchors (0, 0.05)–(1, 0.95), the Automation layout, and Simple with only the bottom edge flagged |
| Container.ApplyRect | Runtime/Scripts/SafeAreaContainer.cs:64-104 | each flagged edge's anchor component becomes the normalised safe-area value and unflagged ones keep their value; offsets change only with `lockOffset`, and then are zeroed exactly on flagged edges; the scale becomes one |
| Container.Normalize | Runtime/Scripts/SafeAreaContainer.cs:55-61 | each normalised component times the screen dimension gives back the safe area's position, or its position plus its size |
| Container.DrivenFor | Runtime/Scripts/SafeAreaContainer.cs:107-112 | always holds AnchoredPositionZ and Scale, and each anchor-component flag exactly when its edge is enabled |
| Container.DrivenForSize | Runtime/Scripts/SafeAreaContainer.cs:107-112 | the driven set has two members plus one per enabled edge |
| Container.SafeAreaContainer.constructor | Runtime/Scripts/SafeAreaContainer.cs:21-26 | a live, enabled component with the given edge mask and `lockOffset` on the given rectangle |
| Container.SafeAreaContainer.ApplySafeArea | Runtime/Scripts/SafeAreaContainer.cs:50-117 | stores the safe area read, sets the rectangle to `ApplyRect` of the old one, and the driven set to `DrivenFor` of the edge mask |
| Container.SafeAreaContainer.LateUpdate | Runtime/Scripts/SafeAreaContainer.cs:38-48 | applies exactly when in the editor or when the safe area differs from the last one applied; otherwise nothing changes |
| Container.NormalizeAgrees | Runtime/Scripts/SafeAreaContainer.cs:55-61 | the container's position/size normalisation equals `GetSafeAreaAnchor`'s xMin/xMax normalisation |
| Container.ApplyRectIdempotent | Runtime/Scripts/SafeAreaContainer.cs:64-104 | applying the same safe area twice gives the rectangle of applying it once |
| Container.AllEdgesPinToSafeArea | Runtime/Scripts/SafeAreaContainer.cs:21 | with the default mask (all edges) the anchors are exactly the normalised safe area, and with `lockOffset` both offsets are zero |
| ContainerManager.IsLive | Runtime/Scripts/SafeAreaContainer.Manager.cs:22 | the engine's `!= null` test, which also fails for a destroyed object; a live container is a non-null reference |
| ContainerManager.Eligible | Runtime/Scripts/SafeAreaContainer.Manager.cs:64 | an entry the loop applies to is live and active and enabled |
| ContainerManager.RemoveFirst | Runtime/Scripts/SafeAreaContainer.Manager.cs:47 | `List.Remove`: an absent element leaves the list as it was; a present one shortens it by one |
| ContainerManager.RemoveFirstAt | Runtime/Scripts/SafeAreaContainer.Manager.cs:47 | removing the first occurrence at position i keeps the entries before i in place and moves the later ones up by one |
| ContainerManager.RemoveFirstMultiset | Runtime/Scripts/SafeAreaContainer.Manager.cs:47 | exactly one copy of the removed element disappears, and nothing else |
| ContainerManager.RemoveFirstAfterAppend | Runtime/Scripts/SafeAreaContainer.Manager.cs:20-48 | registering and then unregistering a container that was not listed restores the list |
| ContainerManager.Manager.constructor | Runtime/Scripts/SafeAreaContainer.Manager.cs:50-51 | an empty list and an empty last safe area |
| ContainerManager.Manager.RegisterSafeAreaContainer | Runtime/Scripts/SafeAreaContainer.Manager.cs:20-33 | a live container with an instance present is appended, duplicates included; a null or destroyed container, or no instance, changes nothing |
| ContainerManager.Manager.UnregisterSafeAreaContainer | Runtime/Scripts/SafeAreaContainer.Manager.cs:35-48 | a live container with an instance present has its first occurrence removed; otherwise nothing changes |
| ContainerManager.Manager.Update | Runtime/Scripts/SafeAreaContainer.Manager.cs:53-68 | dispatches exactly when the safe area differs from the last one; the list never changes; an unchanged safe area changes no container; a changed one is stored and applied to every live, active and enabled entry, with the others unchanged |
| ContainerManager.Manager.ApplyToEach | Runtime/Scripts/SafeAreaContainer.Manager.cs:62-68 | after the loop every eligible listed container holds the applied state and every other listed container is unchanged |
| ContainerManager.ConsecutiveTicks | Runtime/Scripts/SafeAreaContainer.Manager.cs:53-68 | of two ticks with the same safe area the second does not dispatch, and the list is unchanged |
| ContainerManager.RegisterTwiceScenario | Runtime/Scripts/SafeAreaContainer.Manager.cs:32 | registering one container twice gives two entries; a dispatch then leaves it as after one application |

## Left out

- Editor code (the inspector, the `EdgeAnchor` property drawer, menu items): inspector GUI and serialization plumbing, with no layout logic.
- `Runtime/Scripts/CanvasScalerWithSafeArea.cs` is not part of this model: it is logarithmic floating-point scaling over the engine's `CanvasScaler`.
- `Awake`, `GetRootCanvas`, `OnValidate` and `GetComponentInParent`: engine lookups. `GetCanvasSize` gives the screen size on both of its branches, so it is `CanvasSize(screen)`.
- `DrivenRectTransformTracker` is not modelled: its `Clear`/`Add` become the container's `driven` set.
- The singleton lifecycle (`RuntimeInitializeOnLoadMethod`, `DontDestroyOnLoad`) is left out. The static instance is an explicit `Manager` with a `present` flag.
- Float rounding, NaN and infinity are not modelled: every float is a `real`, and screen dimensions are required positive.
- The engine's internal coupling between anchors, offsets and the anchored position is not modelled. A rectangle is a plain record.
- The `#if UNITY_EDITOR` variants become a boolean parameter (`inEditor`, `editorNotPlaying`), and `Screen.*` reads become parameters.
- `Manager.Update` calls `container.ApplySafeArea(lastSafeArea)`. `SafeAreaContainer.ApplySafeArea` takes no argument and the class is not declared `partial`, so this call does not compile as written. The model applies the value the manager has just stored, which is what `Screen.safeArea` returns within the same frame.
- A container's `edge` and `lockOffset` are `const`: no code of the component writes them, so inspector edits are not modelled.
- `destroyed` and `isActiveAndEnabled` are set by the engine. No modelled operation changes them.
- Two components on one GameObject share a single `RectTransform` in the engine (neither class forbids multiple components), so a later one reads what an earlier one wrote. In the model each component owns its own `rect` record, so this sharing (aliasing) is not captured. `ApplyToEach`'s per-container `ApplyRect(old(c.rect), …)` assumes distinct rectangles.
- ContainerManager.Manager.ApplyToEach: the contract of the `foreach` loop states each listed container's final state. It does not state that each eligible entry is applied once per listing, in list order. A version that tracked the sequence of applications exceeded the verifier's resource limit.
- ContainerManager.Manager.Update: does not report which entries were applied, in which order or how often. It states each container's final state instead. By `ApplyRectIdempotent`, an entry listed twice ends as after one application.
