# Styled switch: thumb placement and prop resolution

A Dafny model of the logic inside `createSwitch` of the Tamagui switch
package: the factory that wires a Frame (the track) and a Thumb (the
handle) to one styled context, and the two styled wrappers it builds.

- **Thumb placement.** The Thumb is anchored at `flex-end` when the first
  `checked` value it saw was true, at `flex-start` otherwise, and is moved by
  `x`: zero when `checked` equals that first value, otherwise plus or minus
  `frameWidth - thumbWidth`. Once `thumbWidth` holds the Thumb's measured
  width, anchor and offset together put the Thumb at the far edge when
  checked and at the near edge when not; a moved Thumb whose stored width
  differs from its laid-out width is misplaced.
- **Thumb state.** `SwitchThumb.Thumb` is a class. `initialChecked` is a
  constant set by the constructor (the first render). `thumbWidth` starts at
  0 and is overwritten by the layout handler.
- **Layout handlers.** `composeEventHandlers(a, b)` is modelled as a handler
  value that runs `a`, if there is one, and then `b`. `LayoutEvents.Fire` lists
  the effects of one layout event in order.
- **Prop resolution.** A prop bag is a `map<string, Value>`. A JSX element's
  attributes and spreads form a sequence of layers, and `SwitchTypes.Merge`
  folds them so that the last writer wins. The Thumb resolves
  `unstyled ?? context ?? false` and `size ?? context ?? '$true'`, emits the
  `active` theme rule and merges its final props in source order. The Frame
  overwrites `size` and `unstyled` from the styled context.
- **Wiring.** `CreateSwitch.CreateSwitch` sets both components' static
  `context` to the switch's styled context. In development it first emits one
  warning for each non-default component that already had a context.

Environment inputs are parameters. `isDev` stands for
`NODE_ENV === 'development'`. `ThumbEnv.headless` stands for
`TAMAGUI_HEADLESS === '1'`. `checked` and the styled context are values
that the enclosing switch supplies. `console.warn` becomes a returned
list of warnings. Widths are `int`.

Notes on the code:
- The `SwitchFrame` wrapper (lines 114-133) never writes `frameWidth`; the Thumb reads it from the styled context, so here it is an input.
- One createSwitch call can warn twice, once for the Frame and once for the Thumb (lines 61-70).
- A caller's `onLayout` replaces the composed handler (see Findings).

## Model

| member | source | states |
|---|---|---|
| `Wrappers.Coalesce` | packages/switch/src/createSwitch.tsx:85 | `a ?? b ?? c` is the first operand that is not nullish, else the last |
| `SwitchTypes.Merge` | packages/switch/src/createSwitch.tsx:95-110 | every key some layer sets is in the merged props, and the last layer's values always win |
| `SwitchTypes.Owner` | packages/switch/src/createSwitch.tsx:95-110 | the last spread layer that sets a key is found, and no later layer sets it |
| `SwitchTypes.MergeLookup` | packages/switch/src/createSwitch.tsx:95-110 | JSX spread order: a key is present iff some layer sets it, and its value comes from the last layer that does |
| `SwitchTypes.MergeFive` | packages/switch/src/createSwitch.tsx:95-110 | the Thumb's five layers merge as their left-to-right union |
| `LayoutEvents.Fire` | packages/switch/src/createSwitch.tsx:106-108 | a layout event has at least one effect, and every effect carries the event's width |
| `LayoutEvents.WidthAfterNoUpdate` | packages/switch/src/createSwitch.tsx:106-107 | effects with no width update leave the thumb width as it was |
| `LayoutEvents.MeasuresIff` | packages/switch/src/createSwitch.tsx:106-108 | a layout event updates the thumb width iff the handler it reaches contains the measurement, and only to the measured width |
| `LayoutEvents.CallerCallsAppend` | packages/switch/src/createSwitch.tsx:106 | the caller handlers invoked by two runs in sequence are those of the first run followed by those of the second |
| `LayoutEvents.WidthAfterAppend` | packages/switch/src/createSwitch.tsx:107 | the width after two runs in sequence is the second run applied to the first run's result |
| `LayoutEvents.MeasuredLast` | packages/switch/src/createSwitch.tsx:106-108 | when the measurement runs last, the width is the measured one whatever ran before |
| `ThumbLayout.Distance` | packages/switch/src/createSwitch.tsx:90 | `thumbWidth + distance == frameWidth`; with no measurement yet the distance is the whole frame width |
| `ThumbLayout.Offset` | packages/switch/src/createSwitch.tsx:90-91 | `x == 0` when `checked == initialChecked`; `x == frameWidth - thumbWidth` when moved from unchecked; `x == -(frameWidth - thumbWidth)` when moved from checked |
| `ThumbLayout.Anchor` | packages/switch/src/createSwitch.tsx:104 | `alignSelf` is `flex-end` iff `initialChecked`, else `flex-start` |
| `ThumbLayout.PlacementFollowsChecked` | packages/switch/src/createSwitch.tsx:90-104 | with the offset computed from the Thumb's laid-out width, anchor edge plus offset is the far edge when checked and the near edge when not, for either first value |
| `ThumbLayout.PlacementNeedsMeasuredWidth` | packages/switch/src/createSwitch.tsx:89-104 | with a stored width and a laid-out width: at rest the Thumb is in place whatever is stored; once moved it is in place iff the two widths are equal |
| `ThumbLayout.UnmeasuredMovedThumbOvershoots` | packages/switch/src/createSwitch.tsx:89-104 | a moved Thumb whose stored width is still 0 misses its target by its laid-out width, past the far edge when checked |
| `ThumbLayout.ToggleTravelsDistance` | packages/switch/src/createSwitch.tsx:90-91 | toggling moves the Thumb by exactly `frameWidth - thumbWidth` |
| `SwitchThumb.ResolveUnstyled` | packages/switch/src/createSwitch.tsx:85 | unstyled iff the prop says true, or the prop is nullish and the context says true |
| `SwitchThumb.ResolveSize` | packages/switch/src/createSwitch.tsx:99 | size is the prop, else the context's size, else `$true` |
| `SwitchThumb.ActiveThemeEnabled` | packages/switch/src/createSwitch.tsx:100 | the active theme applies unless `disableActiveTheme` is true; an undefined option keeps it |
| `SwitchThumb.StylingBlock` | packages/switch/src/createSwitch.tsx:97-103 | empty when unstyled; otherwise `unstyled` is the headless flag and `size` the resolved size; `theme` is present iff styled with the active theme enabled, and is then `active`/null by `checked` |
| `SwitchThumb.RestProps` | packages/switch/src/createSwitch.tsx:80 | the caller's props without `size` and `unstyled`, every other value unchanged |
| `SwitchThumb.ComposedOnLayout` | packages/switch/src/createSwitch.tsx:106-108 | the composed handler contains the measurement; an event runs the caller's `onLayout` effects, if any, then sets the measured width |
| `SwitchThumb.ThumbPropsAsWritten` | packages/switch/src/createSwitch.tsx:95-110 | as written: the final `onLayout` is the caller's when one is passed, the composed handler only otherwise |
| `SwitchThumb.ThumbProps` | packages/switch/src/createSwitch.tsx:95-110 | corrected: the final `onLayout` is always the composed handler |
| `SwitchThumb.AsWrittenUnion` | packages/switch/src/createSwitch.tsx:95-110 | the written final props are styling block, `alignSelf`, `x`, `onLayout`, then the caller's props, in that order |
| `SwitchThumb.CallerPropsWinAsWritten` | packages/switch/src/createSwitch.tsx:80-109 | every caller prop except `size` and `unstyled` overrides the computed one, including `x`, `alignSelf` and `onLayout` |
| `SwitchThumb.AsWrittenKeys` | packages/switch/src/createSwitch.tsx:80-110 | the final props hold exactly the styling keys, `alignSelf`, `x`, `onLayout` and the caller's other props |
| `SwitchThumb.ComputedPropsAsWritten` | packages/switch/src/createSwitch.tsx:104-108 | the computed `alignSelf`, `x` and composed `onLayout` survive when the caller does not pass that key |
| `SwitchThumb.StylingSurvivesAsWritten` | packages/switch/src/createSwitch.tsx:97-103 | styling-block props survive where the caller passes no prop of that name |
| `SwitchThumb.CorrectedUnion` | packages/switch/src/createSwitch.tsx:95-110 | the corrected final props put the composed `onLayout` after the caller's props |
| `SwitchThumb.CorrectionOnlyTouchesOnLayout` | packages/switch/src/createSwitch.tsx:106-109 | the corrected props equal the written ones except that `onLayout` is always the composed handler |
| `SwitchThumb.StyledThumbDefaults` | packages/switch/src/createSwitch.tsx:97-99 | when styled: `unstyled` is emitted as the headless flag and `size` is resolved by the `??` chain, in both the written and the corrected merge |
| `SwitchThumb.StyledThumbTheme` | packages/switch/src/createSwitch.tsx:100-102 | when styled: `theme` is `active`/null by `checked` unless the caller sets one; with the active theme disabled no `theme` is injected; in both the written and the corrected merge |
| `SwitchThumb.UnstyledThumbInjectsNothing` | packages/switch/src/createSwitch.tsx:97 | when unstyled, no `size`, no `unstyled`, and a `theme` only if the caller passes it, in both the written and the corrected merge |
| `SwitchThumb.AsWrittenDropsMeasurement` | packages/switch/src/createSwitch.tsx:106-109 | as written, a caller `onLayout` without the measurement becomes the final handler, and a layout event leaves any width unchanged |
| `SwitchThumb.AsWrittenCounterexample` | packages/switch/src/createSwitch.tsx:106-109 | with `onLayout` = caller handler 7, the final handler is that handler and its event only invokes the caller |
| `SwitchThumb.ThumbPropsAlwaysMeasure` | packages/switch/src/createSwitch.tsx:106-108 | corrected: the final `onLayout` runs the caller's handler, if any, then sets the measured width |
| `SwitchThumb.Thumb.constructor` | packages/switch/src/createSwitch.tsx:87-89 | `initialChecked` is the first `checked`; `thumbWidth` is 0, so the distance is the full frame width |
| `SwitchThumb.Thumb.OnLayout` | packages/switch/src/createSwitch.tsx:107 | sets `thumbWidth` to the measured width; touches nothing else (`initialChecked` is a constant) |
| `SwitchThumb.Thumb.X` | packages/switch/src/createSwitch.tsx:90-91 | once `thumbWidth` holds the Thumb's measured width, the offset places the Thumb at the edge `checked` selects; it is 0 at rest |
| `SwitchThumb.Thumb.AlignSelf` | packages/switch/src/createSwitch.tsx:104 | `flex-end` iff `initialChecked`, whatever `checked` is now |
| `SwitchThumb.Thumb.Render` | packages/switch/src/createSwitch.tsx:95-110 | corrected: the rendered props carry the composed `onLayout`, this state's `x` and `alignSelf` unless the caller overrides them, and the caller's other props |
| `SwitchThumb.Thumb.Dispatch` | packages/switch/src/createSwitch.tsx:106-108 | running a handler invokes caller handlers and measurements in composed order |
| `SwitchThumb.Thumb.LayoutEvent` | packages/switch/src/createSwitch.tsx:106-108 | a layout event goes to the rendered `onLayout`; with none, nothing changes |
| `SwitchThumb.LayoutAfterRender` | packages/switch/src/createSwitch.tsx:106-108 | corrected: after render and a layout event, the caller's handler ran and then the width became the measured one |
| `SwitchThumb.LayoutAfterWrittenRender` | packages/switch/src/createSwitch.tsx:106-109 | as written: after render with a caller `onLayout` lacking the measurement, a layout event runs only the caller's handlers and `thumbWidth` keeps its old value |
| `SwitchThumb.WrittenRenderOvershoots` | packages/switch/src/createSwitch.tsx:87-109 | as written: a Thumb first rendered unchecked with a caller `onLayout`, once checked, sits past the far edge by its laid-out width |
| `SwitchFrame.FrameSize` | packages/switch/src/createSwitch.tsx:126 | the Frame's size is the context's, else `$true` |
| `SwitchFrame.FrameUnstyled` | packages/switch/src/createSwitch.tsx:127 | the Frame is unstyled iff the context says so |
| `SwitchFrame.FrameProps` | packages/switch/src/createSwitch.tsx:126-127 | `size` and `unstyled` come from the context, overriding the caller's; other props are kept; no other key is added |
| `SwitchFrame.RenderFrame` | packages/switch/src/createSwitch.tsx:126-127 | overwriting the two fields in place leaves the props object equal to `FrameProps` of its old contents |
| `CreateSwitch.ContextWarnings` | packages/switch/src/createSwitch.tsx:60-71 | no warning outside development; one warning for each custom component that already had a context; all with the same text |
| `CreateSwitch.CreateSwitch` | packages/switch/src/createSwitch.tsx:51-74 | defaults the components, warns as `ContextWarnings` says from the contexts before the override, and leaves both contexts set to the switch's styled context |
| `CreateSwitch.CreateSwitchTwice` | packages/switch/src/createSwitch.tsx:60-74 | two calls with the same options: in development the second call warns once for each custom Frame or Thumb, because the first call installed a context; none outside development |

## Left out

- React machinery (`forwardRef`, `useContext`, `useRef`, `useState`, rendering, ref forwarding): state is explicit in the `Thumb` class and contexts are parameters.
- `useProps` normalisation (lines 119-124): a foreign call; its result is the opaque props object `RenderFrame` receives.
- The headless `createSwitch` and `SwitchContext` (lines 13, 135-141) are not part of this model; `checked` is an input. The headless switch receives the two styled wrappers; `SwitchParts` holds the Frame and Thumb components those wrappers render.
- The default Frame/Thumb components and the `SwitchStyledContext` definition (lines 14-15) are not part of this model; they are opaque identities passed as parameters.
- The theme/style engine, the react-native native switch and its props, and `children`: outside the logic modelled.
- `composeEventHandlers`: its check of `defaultPrevented` between the two handlers is not modelled; a composed handler always runs both, caller first.
- `process.env`: modelled as the booleans `isDev` and `headless`; `console.warn` as the returned warning list.
- Floating-point widths: widths are `int`; the offset facts do not depend on rounding.
- Values of a type the props' TypeScript types forbid (a non-boolean `unstyled`, say) are read as nullish; a numeric `size` is read as a numeric size. A handler prop such as `onLayout` is modelled only as a handler value; any other value there is read as no handler, so the model does not say what a non-function `onLayout` would do.

## Findings

| source | as written | input that shows it | evidently intended | confidence | as-written member | corrected member |
|---|---|---|---|---|---|---|
| packages/switch/src/createSwitch.tsx:106-109 | `{...thumbProps}` comes after the composed `onLayout`, and `thumbProps` still holds `props.onLayout`, so the caller's handler replaces the composed one | a Thumb rendered with `onLayout` set to any handler: the final `onLayout` is that handler alone and `thumbWidth` stays 0, so `x` uses the full frame width | both the caller's handler and the width measurement run on every layout event | high, not executed | `SwitchThumb.AsWrittenDropsMeasurement` | `SwitchThumb.ThumbPropsAlwaysMeasure` |

`SwitchThumb.Thumb.Render` and `SwitchThumb.LayoutAfterRender` use the
corrected merge, `SwitchThumb.ThumbProps`. The written merge is
`SwitchThumb.ThumbPropsAsWritten`, with the lemmas named `...AsWritten...`.
The two differ only in `onLayout` (`SwitchThumb.CorrectionOnlyTouchesOnLayout`).
