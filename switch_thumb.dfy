/** The styled Thumb that createSwitch builds (createSwitch.tsx lines 76-112):
    how it resolves `unstyled`, `size` and `theme`, the order in which its
    final props are merged, and its state (the first `checked` value and the
    measured thumb width). */
module SwitchThumb {
  import opened Wrappers
  import opened SwitchTypes
  import opened LayoutEvents
  import opened ThumbLayout

  /** What a Thumb render reads besides its own props: `checked` from the
      switch context, the styled context, createSwitch's `disableActiveTheme`
      option, and whether the headless environment flag is set. */
  datatype ThumbEnv = ThumbEnv(
    checked: bool,
    styled: StyledContext,
    disableActiveTheme: Option<bool>,
    headless: bool)

  /** `unstyledProp ?? unstyledContext ?? false`. */
  function ResolveUnstyled(props: Props, styled: StyledContext): (u: bool)
    ensures u <==> BoolProp(props, "unstyled") == Some(true)
                   || (BoolProp(props, "unstyled").None? && styled.unstyled == Some(true))
  {
    Coalesce(BoolProp(props, "unstyled"), styled.unstyled, false)
  }

  /** `sizeProp ?? sizeContext ?? '$true'`. */
  function ResolveSize(props: Props, styled: StyledContext): (s: Size)
    ensures SizeProp(props).Some? ==> s == SizeProp(props).value
    ensures SizeProp(props).None? && styled.size.Some? ==> s == styled.size.value
    ensures SizeProp(props).None? && styled.size.None? ==> s == DefaultSize
  {
    Coalesce(SizeProp(props), styled.size, DefaultSize)
  }

  /** `!disableActiveTheme`: an undefined option leaves the active theme on. */
  function ActiveThemeEnabled(disableActiveTheme: Option<bool>): (enabled: bool)
    ensures enabled <==> disableActiveTheme != Some(true)
  {
    !disableActiveTheme.GetOr(false)
  }

  /** The theme a styled Thumb receives: "active" when checked, else null. */
  function ThemeFor(checked: bool): Value
  {
    ThemeValue(if checked then Some("active") else None)
  }

  /** The conditional styling spread (lines 97-103); spreading `false` adds nothing. */
  function StylingBlock(props: Props, env: ThumbEnv): (block: Props)
    ensures block.Keys <= {"unstyled", "size", "theme"}
    ensures ResolveUnstyled(props, env.styled) ==> block == map[]
    ensures !ResolveUnstyled(props, env.styled) ==>
      && "unstyled" in block && block["unstyled"] == Bool(env.headless)
      && "size" in block && block["size"] == SizeValue(ResolveSize(props, env.styled))
    ensures "theme" in block <==> !ResolveUnstyled(props, env.styled) && ActiveThemeEnabled(env.disableActiveTheme)
    ensures "theme" in block ==> block["theme"] == ThemeFor(env.checked)
  {
    if ResolveUnstyled(props, env.styled) then map[]
    else
      map["unstyled" := Bool(env.headless), "size" := SizeValue(ResolveSize(props, env.styled))]
      + (if ActiveThemeEnabled(env.disableActiveTheme) then map["theme" := ThemeFor(env.checked)] else map[])
  }

  /** `thumbProps`: the props without `size` and `unstyled` (line 80). */
  function RestProps(props: Props): (rest: Props)
    ensures rest.Keys == props.Keys - {"size", "unstyled"}
    ensures forall k :: k in rest ==> rest[k] == props[k]
  {
    props - {"size", "unstyled"}
  }

  /** `composeEventHandlers(props.onLayout, measure)` (lines 106-108). */
  function ComposedOnLayout(props: Props): (h: Handler)
    ensures Measures(h)
    ensures forall width ::
      (Fire(h, width)
       == (match HandlerProp(props, "onLayout") case Some(c) => Fire(c, width) case None => [])
          + [SetThumbWidth(width)])
  {
    Composed(HandlerProp(props, "onLayout"), MeasureWidth)
  }

  function AlignLayer(initialChecked: bool): Props
  {
    map["alignSelf" := AlignValue(Anchor(initialChecked))]
  }

  function XLayer(initialChecked: bool, thumbWidth: int, env: ThumbEnv): Props
  {
    map["x" := Number(Offset(initialChecked, env.checked, env.styled.frameWidth, thumbWidth))]
  }

  function OnLayoutLayer(props: Props): Props
  {
    map["onLayout" := HandlerValue(ComposedOnLayout(props))]
  }

  /** The Thumb's final props as the source writes them (lines 95-110): the
      styling block, `alignSelf`, `x`, `onLayout`, then the caller's props. */
  function ThumbPropsAsWritten(initialChecked: bool, thumbWidth: int, props: Props, env: ThumbEnv): (r: Props)
    ensures "onLayout" in r
    ensures "onLayout" in props ==> r["onLayout"] == props["onLayout"]
    ensures "onLayout" !in props ==> r["onLayout"] == HandlerValue(ComposedOnLayout(props))
  {
    LayerKeys(initialChecked, thumbWidth, props, env);
    MergeFive(StylingBlock(props, env), AlignLayer(initialChecked), XLayer(initialChecked, thumbWidth, env),
              OnLayoutLayer(props), RestProps(props));
    Merge([StylingBlock(props, env), AlignLayer(initialChecked), XLayer(initialChecked, thumbWidth, env),
           OnLayoutLayer(props), RestProps(props)])
  }

  /** The Thumb's final props with the composed `onLayout` placed after the
      caller's props, so that the caller's handler cannot replace it. */
  function ThumbProps(initialChecked: bool, thumbWidth: int, props: Props, env: ThumbEnv): (r: Props)
    ensures "onLayout" in r && r["onLayout"] == HandlerValue(ComposedOnLayout(props))
  {
    Merge([StylingBlock(props, env), AlignLayer(initialChecked), XLayer(initialChecked, thumbWidth, env),
           RestProps(props), OnLayoutLayer(props)])
  }

  /** The written merge as a union of its five spread layers. */
  lemma AsWrittenUnion(initialChecked: bool, thumbWidth: int, props: Props, env: ThumbEnv)
    ensures ThumbPropsAsWritten(initialChecked, thumbWidth, props, env)
         == StylingBlock(props, env) + AlignLayer(initialChecked) + XLayer(initialChecked, thumbWidth, env)
            + OnLayoutLayer(props) + RestProps(props)
  {
    MergeFive(StylingBlock(props, env), AlignLayer(initialChecked), XLayer(initialChecked, thumbWidth, env),
              OnLayoutLayer(props), RestProps(props));
  }

  /** The keys each layer sets; the prop names involved are all distinct. */
  lemma LayerKeys(initialChecked: bool, thumbWidth: int, props: Props, env: ThumbEnv)
    ensures AlignLayer(initialChecked).Keys == {"alignSelf"}
    ensures XLayer(initialChecked, thumbWidth, env).Keys == {"x"}
    ensures OnLayoutLayer(props).Keys == {"onLayout"}
    ensures "size" != "unstyled" && "size" != "theme" && "size" != "alignSelf" && "size" != "x" && "size" != "onLayout"
    ensures "unstyled" != "theme" && "unstyled" != "alignSelf" && "unstyled" != "x" && "unstyled" != "onLayout"
    ensures "theme" != "alignSelf" && "theme" != "x" && "theme" != "onLayout"
    ensures "alignSelf" != "x" && "alignSelf" != "onLayout" && "x" != "onLayout"
  {
  }

  /** Merge order as written: every prop the caller passes (other than `size`
      and `unstyled`) overrides the computed one, `x`, `alignSelf` and
      `onLayout` included. */
  lemma CallerPropsWinAsWritten(initialChecked: bool, thumbWidth: int, props: Props, env: ThumbEnv)
    ensures var r := ThumbPropsAsWritten(initialChecked, thumbWidth, props, env);
      forall k :: k in props && k != "size" && k != "unstyled" ==> k in r && r[k] == props[k]
  {
    AsWrittenUnion(initialChecked, thumbWidth, props, env);
    LayerKeys(initialChecked, thumbWidth, props, env);
  }

  /** As written, the final props hold the styling block's keys, the three
      computed keys and the caller's props other than `size` and `unstyled`,
      and nothing else. */
  lemma AsWrittenKeys(initialChecked: bool, thumbWidth: int, props: Props, env: ThumbEnv)
    ensures ThumbPropsAsWritten(initialChecked, thumbWidth, props, env).Keys
         == StylingBlock(props, env).Keys + {"alignSelf", "x", "onLayout"} + (props.Keys - {"size", "unstyled"})
  {
    AsWrittenUnion(initialChecked, thumbWidth, props, env);
    LayerKeys(initialChecked, thumbWidth, props, env);
  }

  /** Merge order as written: each computed prop survives when the caller
      does not pass that key. */
  lemma ComputedPropsAsWritten(initialChecked: bool, thumbWidth: int, props: Props, env: ThumbEnv)
    ensures var r := ThumbPropsAsWritten(initialChecked, thumbWidth, props, env);
      && ("alignSelf" !in props ==> "alignSelf" in r && r["alignSelf"] == AlignValue(Anchor(initialChecked)))
      && ("x" !in props ==> "x" in r && r["x"] == Number(Offset(initialChecked, env.checked, env.styled.frameWidth, thumbWidth)))
      && ("onLayout" !in props ==> "onLayout" in r && r["onLayout"] == HandlerValue(ComposedOnLayout(props)))
  {
    AsWrittenUnion(initialChecked, thumbWidth, props, env);
    LayerKeys(initialChecked, thumbWidth, props, env);
  }

  /** Merge order as written: the styling block's props survive where the
      caller passes no prop of the same name. */
  lemma StylingSurvivesAsWritten(initialChecked: bool, thumbWidth: int, props: Props, env: ThumbEnv)
    ensures var r := ThumbPropsAsWritten(initialChecked, thumbWidth, props, env);
      forall k :: k in StylingBlock(props, env) && k !in props ==> k in r && r[k] == StylingBlock(props, env)[k]
  {
    AsWrittenUnion(initialChecked, thumbWidth, props, env);
    LayerKeys(initialChecked, thumbWidth, props, env);
    var block := StylingBlock(props, env);
    forall k | k in block && k !in props
      ensures k in ThumbPropsAsWritten(initialChecked, thumbWidth, props, env)
      ensures ThumbPropsAsWritten(initialChecked, thumbWidth, props, env)[k] == block[k]
    {
      FirstLayerOnly(block, AlignLayer(initialChecked), XLayer(initialChecked, thumbWidth, env),
                     OnLayoutLayer(props), RestProps(props), k);
    }
  }

  /** The corrected merge as a union of its five spread layers. */
  lemma CorrectedUnion(initialChecked: bool, thumbWidth: int, props: Props, env: ThumbEnv)
    ensures ThumbProps(initialChecked, thumbWidth, props, env)
         == StylingBlock(props, env) + AlignLayer(initialChecked) + XLayer(initialChecked, thumbWidth, env)
            + RestProps(props) + OnLayoutLayer(props)
  {
    MergeFive(StylingBlock(props, env), AlignLayer(initialChecked), XLayer(initialChecked, thumbWidth, env),
              RestProps(props), OnLayoutLayer(props));
  }

  /** The corrected merge differs from the written one only in `onLayout`,
      which is always the composed handler. */
  lemma CorrectionOnlyTouchesOnLayout(initialChecked: bool, thumbWidth: int, props: Props, env: ThumbEnv)
    ensures ThumbProps(initialChecked, thumbWidth, props, env)
         == ThumbPropsAsWritten(initialChecked, thumbWidth, props, env)["onLayout" := HandlerValue(ComposedOnLayout(props))]
  {
    var head := StylingBlock(props, env) + AlignLayer(initialChecked) + XLayer(initialChecked, thumbWidth, env);
    var rest, onLayout := RestProps(props), OnLayoutLayer(props);
    AsWrittenUnion(initialChecked, thumbWidth, props, env);
    LayerKeys(initialChecked, thumbWidth, props, env);
    CorrectedUnion(initialChecked, thumbWidth, props, env);
    var corrected, written := head + rest + onLayout, (head + onLayout + rest)["onLayout" := HandlerValue(ComposedOnLayout(props))];
    assert corrected.Keys == written.Keys;
    forall k | k in corrected ensures corrected[k] == written[k] {
    }
    assert corrected == written;
  }

  /** Defaults of a styled Thumb: `unstyled` is emitted as the headless flag
      and `size` as `sizeProp ?? sizeContext ?? '$true'`. */
  lemma StyledThumbDefaults(initialChecked: bool, thumbWidth: int, props: Props, env: ThumbEnv)
    requires !ResolveUnstyled(props, env.styled)
    ensures var r := ThumbProps(initialChecked, thumbWidth, props, env);
      && "unstyled" in r && r["unstyled"] == Bool(env.headless)
      && "size" in r && r["size"] == SizeValue(ResolveSize(props, env.styled))
    ensures var w := ThumbPropsAsWritten(initialChecked, thumbWidth, props, env);
      && "unstyled" in w && w["unstyled"] == Bool(env.headless)
      && "size" in w && w["size"] == SizeValue(ResolveSize(props, env.styled))
  {
    CorrectionOnlyTouchesOnLayout(initialChecked, thumbWidth, props, env);
    CorrectedUnion(initialChecked, thumbWidth, props, env);
    LayerKeys(initialChecked, thumbWidth, props, env);
    var block := StylingBlock(props, env);
    assert "unstyled" in block && block["unstyled"] == Bool(env.headless);
    assert "size" in block && block["size"] == SizeValue(ResolveSize(props, env.styled));
  }

  /** The theme rule of a styled Thumb: `active` when checked and null when
      not, unless the caller passes a theme; with the active theme disabled,
      no theme is injected. */
  lemma StyledThumbTheme(initialChecked: bool, thumbWidth: int, props: Props, env: ThumbEnv)
    requires !ResolveUnstyled(props, env.styled)
    ensures var r := ThumbProps(initialChecked, thumbWidth, props, env);
      && (ActiveThemeEnabled(env.disableActiveTheme) && "theme" !in props ==> "theme" in r && r["theme"] == ThemeFor(env.checked))
      && (!ActiveThemeEnabled(env.disableActiveTheme) ==> ("theme" in r <==> "theme" in props))
    ensures var w := ThumbPropsAsWritten(initialChecked, thumbWidth, props, env);
      && (ActiveThemeEnabled(env.disableActiveTheme) && "theme" !in props ==> "theme" in w && w["theme"] == ThemeFor(env.checked))
      && (!ActiveThemeEnabled(env.disableActiveTheme) ==> ("theme" in w <==> "theme" in props))
  {
    CorrectionOnlyTouchesOnLayout(initialChecked, thumbWidth, props, env);
    CorrectedUnion(initialChecked, thumbWidth, props, env);
    LayerKeys(initialChecked, thumbWidth, props, env);
    var block, rest := StylingBlock(props, env), RestProps(props);
    assert "theme" !in AlignLayer(initialChecked) && "theme" !in XLayer(initialChecked, thumbWidth, env)
        && "theme" !in OnLayoutLayer(props);
    assert "theme" in rest <==> "theme" in props;
    assert "theme" in block <==> ActiveThemeEnabled(env.disableActiveTheme);
  }

  /** An unstyled Thumb receives no `size` and no `unstyled`, and a `theme`
      only when the caller passes one. */
  lemma UnstyledThumbInjectsNothing(initialChecked: bool, thumbWidth: int, props: Props, env: ThumbEnv)
    requires ResolveUnstyled(props, env.styled)
    ensures var r := ThumbProps(initialChecked, thumbWidth, props, env);
      && "size" !in r && "unstyled" !in r
      && ("theme" in r <==> "theme" in props)
    ensures var w := ThumbPropsAsWritten(initialChecked, thumbWidth, props, env);
      && "size" !in w && "unstyled" !in w
      && ("theme" in w <==> "theme" in props)
  {
    CorrectionOnlyTouchesOnLayout(initialChecked, thumbWidth, props, env);
    CorrectedUnion(initialChecked, thumbWidth, props, env);
    LayerKeys(initialChecked, thumbWidth, props, env);
  }

  /** As written, a caller's `onLayout` replaces the composed handler, so a
      layout event never reaches the width measurement. */
  lemma AsWrittenDropsMeasurement(initialChecked: bool, thumbWidth: int, props: Props, env: ThumbEnv, h: Handler, width: int)
    requires "onLayout" in props && props["onLayout"] == HandlerValue(h) && !Measures(h)
    ensures var r := ThumbPropsAsWritten(initialChecked, thumbWidth, props, env);
      && HandlerProp(r, "onLayout") == Some(h)
      && SetThumbWidth(width) !in Fire(h, width)
    ensures forall before :: WidthAfter(Fire(h, width), before) == before
  {
    MeasuresIff(h, width);
    forall before ensures WidthAfter(Fire(h, width), before) == before {
      WidthAfterNoUpdate(Fire(h, width), before);
    }
  }

  /** The concrete input: one caller handler, whose event is passed on while
      the thumb width stays unmeasured. */
  lemma AsWrittenCounterexample(initialChecked: bool, thumbWidth: int, env: ThumbEnv, width: int)
    ensures var props := map["onLayout" := HandlerValue(CallerHandler(7))];
      var r := ThumbPropsAsWritten(initialChecked, thumbWidth, props, env);
      && "onLayout" in r && r["onLayout"] == HandlerValue(CallerHandler(7))
      && Fire(r["onLayout"].handler, width) == [InvokeCaller(7, width)]
  {
    CallerPropsWinAsWritten(initialChecked, thumbWidth, map["onLayout" := HandlerValue(CallerHandler(7))], env);
  }

  /** With the correction, every layout event runs the caller's handler (if
      any) and then measures: the width ends up as the measured one. */
  lemma {:induction false} ThumbPropsAlwaysMeasure(initialChecked: bool, thumbWidth: int, props: Props, env: ThumbEnv, width: int, before: int)
    ensures var r := ThumbProps(initialChecked, thumbWidth, props, env);
      && HandlerProp(r, "onLayout") == Some(ComposedOnLayout(props))
      && Measures(ComposedOnLayout(props))
      && WidthAfter(Fire(ComposedOnLayout(props), width), before) == width
      && Fire(ComposedOnLayout(props), width)
           == (match HandlerProp(props, "onLayout")
               case Some(h) => Fire(h, width)
               case None => []) + [SetThumbWidth(width)]
  {
    CorrectedUnion(initialChecked, thumbWidth, props, env);
    LayerKeys(initialChecked, thumbWidth, props, env);
    var pre := match HandlerProp(props, "onLayout") case Some(h) => Fire(h, width) case None => [];
    MeasuredLast(pre, width, before);
  }

  /** The Thumb's state: `initialChecked`, a ref read once on the first render
      (line 87), and `thumbWidth`, state that starts at 0 (line 89) and that
      the layout handler overwrites. */
  class Thumb {
    const initialChecked: bool
    var thumbWidth: int

    /** The first render, with the `checked` value it sees. */
    constructor (checked: bool)
      ensures initialChecked == checked && thumbWidth == 0
    {
      initialChecked := checked;
      thumbWidth := 0;
    }

    /** The width setter the layout handler calls with the measured width. */
    method OnLayout(width: int)
      modifies this`thumbWidth
      ensures thumbWidth == width
    {
      thumbWidth := width;
    }

    /** The offset `x` for this render (lines 90-91): added to the anchor's
        resting edge, it places the Thumb where `checked` says once
        `thumbWidth` holds the Thumb's measured width. */
    function X(checked: bool, frameWidth: int): (x: int)
      reads this
      ensures RestLeft(AlignSelf(), frameWidth, thumbWidth) + x == TargetLeft(checked, frameWidth, thumbWidth)
      ensures checked == initialChecked ==> x == 0
    {
      Offset(initialChecked, checked, frameWidth, thumbWidth)
    }

    /** `alignSelf` (line 104): fixed by the first `checked` value. */
    function AlignSelf(): (a: Align)
      ensures a == FlexEnd <==> initialChecked
    {
      Anchor(initialChecked)
    }

    /** The props this render passes to the Thumb component (corrected merge). */
    function Render(props: Props, env: ThumbEnv): (r: Props)
      reads this
      ensures HandlerProp(r, "onLayout") == Some(ComposedOnLayout(props))
      ensures "x" !in props ==> "x" in r && r["x"] == Number(X(env.checked, env.styled.frameWidth))
      ensures "alignSelf" !in props ==> "alignSelf" in r && r["alignSelf"] == AlignValue(AlignSelf())
      ensures forall k :: k in props && k != "size" && k != "unstyled" && k != "onLayout" ==> k in r && r[k] == props[k]
    {
      CorrectionOnlyTouchesOnLayout(initialChecked, thumbWidth, props, env);
      CallerPropsWinAsWritten(initialChecked, thumbWidth, props, env);
      ComputedPropsAsWritten(initialChecked, thumbWidth, props, env);
      ThumbProps(initialChecked, thumbWidth, props, env)
    }

    /** Runs a layout event of the given width through `h`; returns the
        caller handlers it invoked, in order. */
    method Dispatch(h: Handler, width: int) returns (called: seq<nat>)
      modifies this`thumbWidth
      ensures called == CallerCalls(Fire(h, width))
      ensures thumbWidth == WidthAfter(Fire(h, width), old(thumbWidth))
      decreases h
    {
      match h
      case CallerHandler(id) =>
        called := [id];
      case MeasureWidth =>
        OnLayout(width);
        called := [];
      case Composed(first, second) =>
        ghost var start := thumbWidth;
        var before: seq<nat> := [];
        ghost var firstEffects: seq<Effect> := [];
        if first.Some? {
          before := Dispatch(first.value, width);
          firstEffects := Fire(first.value, width);
        }
        var after := Dispatch(second, width);
        called := before + after;
        CallerCallsAppend(firstEffects, Fire(second, width));
        WidthAfterAppend(firstEffects, Fire(second, width), start);
    }

    /** The platform reports a layout of the given width to the rendered
        element whose props are `rendered`. */
    method LayoutEvent(rendered: Props, width: int) returns (called: seq<nat>)
      modifies this`thumbWidth
      ensures HandlerProp(rendered, "onLayout").None? ==> called == [] && thumbWidth == old(thumbWidth)
      ensures HandlerProp(rendered, "onLayout").Some? ==>
        var h := HandlerProp(rendered, "onLayout").value;
        called == CallerCalls(Fire(h, width)) && thumbWidth == WidthAfter(Fire(h, width), old(thumbWidth))
    {
      var h := HandlerProp(rendered, "onLayout");
      if h.Some? {
        called := Dispatch(h.value, width);
      } else {
        called := [];
      }
    }
  }

  /** A render followed by a layout event: the caller's own `onLayout` runs
      first, then the Thumb records the measured width. */
  method LayoutAfterRender(thumb: Thumb, props: Props, env: ThumbEnv, width: int) returns (called: seq<nat>)
    modifies thumb`thumbWidth
    ensures thumb.thumbWidth == width
    ensures called == match HandlerProp(props, "onLayout")
                      case Some(h) => CallerCalls(Fire(h, width))
                      case None => []
  {
    var rendered := thumb.Render(props, env);
    ThumbPropsAlwaysMeasure(thumb.initialChecked, thumb.thumbWidth, props, env, width, thumb.thumbWidth);
    var pre := match HandlerProp(props, "onLayout") case Some(h) => Fire(h, width) case None => [];
    CallerCallsAppend(pre, [SetThumbWidth(width)]);
    called := thumb.LayoutEvent(rendered, width);
  }

  /** The same render and layout event with the merge as written: when the
      caller passes an `onLayout` without the measurement, the Thumb keeps its
      old width (0 before any measurement). */
  method LayoutAfterWrittenRender(thumb: Thumb, props: Props, env: ThumbEnv, h: Handler, width: int)
    returns (called: seq<nat>)
    requires "onLayout" in props && props["onLayout"] == HandlerValue(h) && !Measures(h)
    modifies thumb`thumbWidth
    ensures thumb.thumbWidth == old(thumb.thumbWidth)
    ensures called == CallerCalls(Fire(h, width))
  {
    var rendered := ThumbPropsAsWritten(thumb.initialChecked, thumb.thumbWidth, props, env);
    AsWrittenDropsMeasurement(thumb.initialChecked, thumb.thumbWidth, props, env, h, width);
    called := thumb.LayoutEvent(rendered, width);
  }

  /** As written, a Thumb first rendered unchecked whose caller passes its own
      `onLayout` keeps `thumbWidth` at 0 after the layout event, so once
      checked it ends up past the far edge by its laid-out width. */
  method WrittenRenderOvershoots(props: Props, env: ThumbEnv, h: Handler, layoutWidth: int)
    returns (left: int)
    requires "onLayout" in props && props["onLayout"] == HandlerValue(h) && !Measures(h)
    ensures left == TargetLeft(true, env.styled.frameWidth, layoutWidth) + layoutWidth
  {
    var thumb := new Thumb(false);
    var _ := LayoutAfterWrittenRender(thumb, props, env, h, layoutWidth);
    UnmeasuredMovedThumbOvershoots(false, true, env.styled.frameWidth, layoutWidth);
    left := RestLeft(thumb.AlignSelf(), env.styled.frameWidth, layoutWidth) + thumb.X(true, env.styled.frameWidth);
  }

  /** A switch that starts unchecked in a 40-wide Frame with a 16-wide Thumb. */
  method StartsUncheckedScenario()
  {
    var thumb := new Thumb(false);
    assert thumb.X(false, 40) == 0;
    thumb.OnLayout(16);
    assert thumb.X(false, 40) == 0;
    assert thumb.X(true, 40) == 24;
    assert thumb.X(false, 40) == 0;
    assert thumb.AlignSelf() == FlexStart;
  }

  /** A switch that starts checked in the same Frame: toggling off moves it left. */
  method StartsCheckedScenario()
  {
    var thumb := new Thumb(true);
    thumb.OnLayout(16);
    assert thumb.X(true, 40) == 0;
    assert thumb.X(false, 40) == -24;
    assert thumb.AlignSelf() == FlexEnd;
  }
}
