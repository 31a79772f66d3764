# Scrollable and custom tab bars — a Dafny model

This project models the logic of two React Native tab-bar components:

- **ScrollableTabBar** shows a horizontally scrollable row of tabs of different widths. Each tab reports its layout in any order, and the component keeps these reports in a sparse measurement cache. On every layout event and every progress change it runs `updateView`, which has three steps:
  - it ignores progress outside `[0, tabCount - 1]`;
  - it waits until the measurements it needs exist;
  - it scrolls the row so the tabs in transition are centred, clamped at 0 (and, off android, at the right end of the content), and puts a fixed-width underline centred under the linear blend of the current and next tab.
- **CustomTabBar** shows a fixed row of equal tabs. Its underline moves one tab width per page and pulses to `tabUnderlineScaleX` times its width half-way between tabs. That pulse is driven by an interpolation table with breakpoints 0, 0.5, 1, … and outputs 1, S, 1, S, …

Modules:

- `Wrappers`: `Option`.
- `ScrollGeometry`: the pure arithmetic of `updateView`. This is the range guard, the readiness check, the scroll target and the underline position, all as functions of a snapshot `ViewInputs` of the component and the progress value. It also holds the lemmas about them, including that on a row of non-overlapping tabs the scroll target never decreases as progress grows.
- `ScrollableTabBar`: the component as class `TabBar`. Its fields are the measurement cache (`map<int, Measurement>`, one key per laid-out tab), the two layout records, `containerWidth` (None is `null`) and the three outputs: the last `scrollTo` target and the underline's left and width.
  - The layout handlers and `UpdateView` are methods. Each of these four states its new outputs in terms of `ScrollGeometry.ViewUpdate`.
  - `UpdateTabPanel` and `UpdateTabUnderline` are proved equal to `ScrollGeometry.ScrollTarget` and `ScrollGeometry.UnderlineLeft`.
  - `ReceiveProps` states the container width after a label change, and that everything else is kept.
- `CustomTabBar`: `handleInterpolateObj`, written as the recursive fold its `reduce` is, and the arithmetic of `renderUnderline`.

Inputs that the source reads from the framework are parameters here:

- the current progress (`scrollValue.__getValue()`) is an argument of every handler;
- `Platform.OS === 'android'` is the constant `android`;
- `Dimensions.get('window').width` is the constant `windowWidth`.

`Animated.Value.setValue` and `ScrollView.scrollTo` become assignments to the output fields. Pixel values are `real`.

Two behaviours of the code differ from what a reader might expect, and the model keeps them as written:

- **Off-android scroll cap.** The cap is applied after the clamp at 0, so the target is `min(max(x, 0), tabRowWidth - viewportWidth)`. It is not `max(0, tabRowWidth - viewportWidth)`, and it is negative whenever the tab row is narrower than the container (`OtherPlatformScrollClamp`).
- **Tab label change.** A change of labels forgets only `state.containerWidth`, and only when that width is non-zero. The tab cache and both layout records survive, and `updateView` never consults `containerWidth`, so updates can go ahead on the old measurements (`TabBar.ReceiveProps`).

## Model

| member | source | states |
|---|---|---|
| `ScrollGeometry.JsRem1` | ScrollableTabBar.js:97-98 | for non-negative progress, `value % 1` is `value - floor(value)`, lies in [0, 1), and is 0 exactly at integer progress |
| `ScrollGeometry.MeasurementOf` | ScrollableTabBar.js:190-191 | a stored measurement has left = x, width and height from the layout, and right - left = width |
| `ScrollGeometry.Record` | ScrollableTabBar.js:191 | after recording page's layout, that entry is the new measurement and every other index is present and equal exactly as before |
| `ScrollGeometry.NextTabWidth` | ScrollableTabBar.js:122-123 | the next tab's width when it is measured, 0 when it is not |
| `ScrollGeometry.InRange` | ScrollableTabBar.js:99-104 | progress the guard lets through has a non-empty tab row and a floor that is a valid tab index |
| `ScrollGeometry.MeasurementsCompleted` | ScrollableTabBar.js:112-117 | ready exactly when the tab indices the update reads (the current one, and the next one unless it is the last) are all keys of the cache and both layout records exist |
| `ScrollGeometry.RawScrollX` | ScrollableTabBar.js:120-130 | with no fraction the current tab's centre is at the viewport's centre; with a whole fraction the centre of the next tab, placed where the current one ends, is |
| `ScrollGeometry.ScrollTarget` | ScrollableTabBar.js:119-141 | on android the target is max(raw, 0): 0 when the raw centring offset is negative, the raw offset otherwise. Off android it is min(max(raw, 0), tab row width - container width): never above that bound, non-negative when the bound is, and equal to the bound when the bound is negative |
| `ScrollGeometry.UnderlineLeft` | ScrollableTabBar.js:143-166 | at fraction 0 the underline is centred under the current tab, at fraction 1 under the next one, and in between its left edge lies between the two centred positions |
| `ScrollGeometry.ViewUpdate` | ScrollableTabBar.js:96-110 | an update that goes ahead had in-range progress and both layout records; it sets the underline width to the prop, a non-negative scroll on android, and a scroll at most the right bound elsewhere |
| `ScrollGeometry.PositionWithinTabs` | ScrollableTabBar.js:97-104 | for in-range progress, floor(progress) is a valid tab index and the page offset lies in [0, 1). On the last tab the progress is exactly the last index |
| `ScrollGeometry.OutOfRangeNoOp` | ScrollableTabBar.js:102-104 | with no tabs, or progress below 0 or above tabCount - 1, the update does nothing |
| `ScrollGeometry.ReadinessDeferral` | ScrollableTabBar.js:106-117 | an in-range update goes ahead if and only if tab floor(progress) is measured, the next tab is measured or the current one is the last, and both layout records exist |
| `ScrollGeometry.UnderlineWidthConstant` | ScrollableTabBar.js:160-164 | every update that goes ahead sets the underline width to the `underlineWidth` prop |
| `ScrollGeometry.UnderlineAtIntegerProgress` | ScrollableTabBar.js:148-165 | at integer progress k, the last tab included, the underline's left is centred under tab k alone: left + (width - underlineWidth)/2 for a stored measurement |
| `ScrollGeometry.UnderlineBlends` | ScrollableTabBar.js:148-160 | between tabs, the underline's left is (1 - p)·c(pos) + p·c(pos+1), where c(i) = (left(i) + right(i) - underlineWidth)/2 |
| `ScrollGeometry.AndroidScrollNonNegative` | ScrollableTabBar.js:131-134 | on android the scroll target of every update is max(raw, 0): at least 0, and exactly 0 when the raw offset is negative |
| `ScrollGeometry.OtherPlatformScrollClamp` | ScrollableTabBar.js:131-139 | off android the target is min(max(raw, 0), rightBound). It lies in [0, rightBound] when rightBound ≥ 0 and equals rightBound when rightBound < 0 |
| `ScrollGeometry.RecordCommutes` | ScrollableTabBar.js:189-191 | layouts of two different tabs give the same cache whichever arrives first |
| `ScrollGeometry.ReadinessPersists` | ScrollableTabBar.js:112-117 | once the measurements an update needs exist, recording further layouts never makes it wait again |
| `ScrollGeometry.RawScrollOnSegment` | ScrollableTabBar.js:120-130 | within tab k's segment, the raw offset is the anchor of k plus p·(width(k) + nextWidth)/2 |
| `ScrollGeometry.AnchorMonotone` | ScrollableTabBar.js:120-130 | on a row of non-overlapping, non-negative-width tabs, the raw offset at integer progress does not decrease from tab to tab |
| `ScrollGeometry.RawScrollMonotone` | ScrollableTabBar.js:120-130 | on such a row, the raw offset does not decrease as progress grows, across tab boundaries included |
| `ScrollGeometry.ScrollTargetMonotone` | ScrollableTabBar.js:119-141 | on such a row with both layouts known, every in-range update goes ahead and the clamped scroll target never decreases as progress grows |
| `ScrollGeometry.ThreeTabScenario` | ScrollableTabBar.js:96-166 | tabs of widths 40, 60, 50 in a 200-wide viewport: scroll 0 at progress 0, underline 35 at progress 0.5, underline 115 under the last tab at progress 2 with the raw offset 25 capped at 0 off android and kept on android |
| `ScrollableTabBar.Apply` | ScrollableTabBar.js:106-109 | an update that does not go ahead leaves all outputs unchanged; one that does replaces all three |
| `ScrollableTabBar.TabsChanged` | ScrollableTabBar.js:75 | the label arrays differ exactly when their lengths differ or some label differs |
| `ScrollableTabBar.TabBar.constructor` | ScrollableTabBar.js:50-57 | empty cache, no layouts, null container width, underline left and width 0, no scroll yet |
| `ScrollableTabBar.TabBar.ReceiveProps` | ScrollableTabBar.js:73-79 | a truthy container width becomes null exactly when the labels change. The cache and layout records are kept and the outputs are unchanged |
| `ScrollableTabBar.TabBar.OnTabContainerLayout` | ScrollableTabBar.js:81-89 | records the tab row's layout and sets containerWidth to max(layout width, window width). The outputs are then those of one update |
| `ScrollableTabBar.TabBar.OnContainerLayout` | ScrollableTabBar.js:91-94 | records the container's layout. The outputs are then those of one update |
| `ScrollableTabBar.TabBar.MeasureTab` | ScrollableTabBar.js:189-194 | stores {left: x, right: x + width, width, height} at the page and changes no other entry. The outputs are then those of one update |
| `ScrollableTabBar.TabBar.UpdateView` | ScrollableTabBar.js:96-110 | the outputs become `Apply(old outputs, ViewUpdate(state, progress))`: no change when out of range or not ready |
| `ScrollableTabBar.TabBar.UpdateTabPanel` | ScrollableTabBar.js:119-141 | the step-by-step computation with its two ternary clamps yields exactly `ScrollTarget` |
| `ScrollableTabBar.TabBar.UpdateTabUnderline` | ScrollableTabBar.js:143-166 | centring under the blended span yields the blend of the centred positions, and the width is the prop |
| `ScrollableTabBar.BlendOfCentres` | ScrollableTabBar.js:152-159 | centring an underline on the blended span equals blending the two centred positions |
| `CustomTabBar.ReduceFrom` | CustomTabBar.js:77-81 | the fold yields tables of length len that keep the reference shape if the accumulator had it |
| `CustomTabBar.HandleInterpolateObj` | CustomTabBar.js:74-82 | for N tabs both ranges have length 2N, breakpoint i is i/2, and output i is 1 for even i and S for odd i |
| `CustomTabBar.BreakpointsIncrease` | CustomTabBar.js:75-81 | both ranges are empty exactly when N = 0. Breakpoint 0 is 0, each breakpoint is the previous one plus 0.5, and the breakpoints strictly increase |
| `CustomTabBar.PulseAtBreakpoints` | CustomTabBar.js:78-79 | for every tab k, output 1 sits at breakpoint k and output S at breakpoint k + 0.5 |
| `CustomTabBar.UnderlineWidth` | CustomTabBar.js:116 | the configured width when it is non-zero. Otherwise half a tab (width·2N = containerWidth), which is undefined for N = 0 |
| `CustomTabBar.UnderlineCentredInFirstTab` | CustomTabBar.js:116-120 | inset + width + inset is one tab width, containerWidth/N. With the fallback width the inset is half the underline |
| `CustomTabBar.TranslationEndpoints` | CustomTabBar.js:133-140 | the translation table maps progress 0 to 0 and progress 1 to one tab width. The scale table is `handleInterpolateObj(tabUnderlineScaleX)` |
| `CustomTabBar.RenderUnderline` | CustomTabBar.js:111-140 | the width is the fallback of `UnderlineWidth`, the scale table is `handleInterpolateObj(tabUnderlineScaleX)`, and the inset and translation are defined exactly when there is at least one tab |
| `CustomTabBar.NoTabsUnderline` | CustomTabBar.js:114-136 | with no tabs the inset and the translation end divide by zero (None), a non-zero configured width is still drawn, and the scale table is empty |

## Left out

- Rendering: JSX, the `Button` and `Touchable*` wrappers, style sheets, and the colour and font-weight choice of `renderTab` and `render`. This is presentation through the UI framework.
- `Animated.Value` and `interpolate`, including extrapolation beyond the tables. This is framework code; `setValue` and `scrollTo` appear only as assignments to the output fields, and CustomTabBar's tables are modelled but not how the framework evaluates them.
- Subscribing `updateView` to the progress value in `componentDidMount`, and reading it with `__getValue`. This is event plumbing; the progress is a parameter of every handler.
- React's asynchronous `setState` batching. `containerWidth` is assigned at once; nothing in `updateView` reads it.
- IEEE-754 rounding. Pixel values are exact reals, and JavaScript's `Infinity`/`NaN` from dividing by a zero tab count appear as `None` in CustomTabBar.
- `JSON.stringify` of the label arrays. For arrays of strings, equal JSON texts means equal sequences, so the comparison is sequence equality.
- `ScrollGeometry.JsRem1`: its ensures say nothing about the zero-remainder case for negative progress, which `updateView` never uses after its guard.
- Example.js (a demo screen) and ScrollableTabBar.style.js (style constants) are not part of this model.
