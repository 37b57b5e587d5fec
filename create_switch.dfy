/** createSwitch's one-time wiring (createSwitch.tsx lines 51-74 and 135):
    choose the Frame and Thumb components, warn in development about a custom
    component that already has a context, and force both components' static
    configuration to read the switch's styled context. */
module CreateSwitch {
  import opened Wrappers

  /** A context object: the switch's own styled context, or another one. */
  datatype Context = SwitchStyledContext | OtherContext(id: nat)

  /** The part of a component's static configuration that createSwitch touches. */
  class StaticConfig {
    var context: Option<Context>

    constructor (context: Option<Context>)
      ensures this.context == context
    {
      this.context := context;
    }
  }

  /** A styled component, known by its identity and its static configuration. */
  class Component {
    const staticConfig: StaticConfig

    constructor (staticConfig: StaticConfig)
      ensures this.staticConfig == staticConfig
    {
      this.staticConfig := staticConfig;
    }
  }

  /** The options createSwitch takes; an absent component means the default one. */
  datatype SwitchOptions = SwitchOptions(
    disableActiveTheme: Option<bool>,
    frame: Option<Component>,
    thumb: Option<Component>)

  /** What createSwitch hands on to the headless switch: the option and the
      two components the styled Frame and Thumb render. */
  datatype SwitchParts = SwitchParts(disableActiveTheme: Option<bool>, frame: Component, thumb: Component)

  const ContextWarning: string :=
    "Warning: createSwitch() needs to control context to pass checked state from Frame to Thumb, any custom context passed will be overridden."

  /** The development warnings: one for a custom Frame that already has a
      context, then one for a custom Thumb that does; none outside development. */
  function ContextWarnings(isDev: bool, customFrame: bool, frameContext: Option<Context>,
                           customThumb: bool, thumbContext: Option<Context>): (w: seq<string>)
    ensures !isDev ==> w == []
    ensures |w| == (if isDev && customFrame && frameContext.Some? then 1 else 0)
                 + (if isDev && customThumb && thumbContext.Some? then 1 else 0)
    ensures forall i :: 0 <= i < |w| ==> w[i] == ContextWarning
  {
    if isDev then
      (if customFrame && frameContext.Some? then [ContextWarning] else [])
      + (if customThumb && thumbContext.Some? then [ContextWarning] else [])
    else []
  }

  /** createSwitch: warn, then override both contexts. Nothing but the two
      static configurations changes. */
  method CreateSwitch(options: SwitchOptions, defaultFrame: Component, defaultThumb: Component, isDev: bool)
    returns (warnings: seq<string>, parts: SwitchParts)
    modifies options.frame.GetOr(defaultFrame).staticConfig, options.thumb.GetOr(defaultThumb).staticConfig
    ensures parts == SwitchParts(options.disableActiveTheme, options.frame.GetOr(defaultFrame), options.thumb.GetOr(defaultThumb))
    ensures warnings == ContextWarnings(isDev,
      parts.frame != defaultFrame, old(parts.frame.staticConfig.context),
      parts.thumb != defaultThumb, old(parts.thumb.staticConfig.context))
    ensures parts.frame.staticConfig.context == Some(SwitchStyledContext)
    ensures parts.thumb.staticConfig.context == Some(SwitchStyledContext)
  {
    var frame := options.frame.GetOr(defaultFrame);
    var thumb := options.thumb.GetOr(defaultThumb);
    warnings := [];
    if isDev {
      if frame != defaultFrame && frame.staticConfig.context.Some? {
        warnings := warnings + [ContextWarning];
      }
      if thumb != defaultThumb && thumb.staticConfig.context.Some? {
        warnings := warnings + [ContextWarning];
      }
    }
    frame.staticConfig.context := Some(SwitchStyledContext);
    thumb.staticConfig.context := Some(SwitchStyledContext);
    parts := SwitchParts(options.disableActiveTheme, frame, thumb);
  }

  /** Calling createSwitch twice with the same options: the context the first
      call installed counts as a custom context on the second, so in
      development the second call warns once for each custom component. */
  method CreateSwitchTwice(options: SwitchOptions, defaultFrame: Component, defaultThumb: Component, isDev: bool)
    returns (first: seq<string>, second: seq<string>)
    modifies options.frame.GetOr(defaultFrame).staticConfig, options.thumb.GetOr(defaultThumb).staticConfig
    ensures !isDev ==> first == [] && second == []
    ensures isDev ==> |second| == (if options.frame.GetOr(defaultFrame) != defaultFrame then 1 else 0)
                                + (if options.thumb.GetOr(defaultThumb) != defaultThumb then 1 else 0)
    ensures forall i :: 0 <= i < |second| ==> second[i] == ContextWarning
  {
    var parts;
    first, parts := CreateSwitch(options, defaultFrame, defaultThumb, isDev);
    second, parts := CreateSwitch(options, defaultFrame, defaultThumb, isDev);
  }

  /** Two calls in development: a custom Thumb with its own context yields one
      warning per call, and both calls leave both contexts overridden. */
  method CreateTwiceScenario()
  {
    var frameConfig := new StaticConfig(Some(SwitchStyledContext));
    var thumbConfig := new StaticConfig(None);
    var customConfig := new StaticConfig(Some(OtherContext(1)));
    var defaultFrame := new Component(frameConfig);
    var defaultThumb := new Component(thumbConfig);
    var custom := new Component(customConfig);
    var options := SwitchOptions(None, None, Some(custom));
    var first, parts := CreateSwitch(options, defaultFrame, defaultThumb, true);
    assert |first| == 1;
    assert parts.thumb.staticConfig.context == Some(SwitchStyledContext);
    var second, _ := CreateSwitch(options, defaultFrame, defaultThumb, true);
    assert |second| == 1;
    var production, _ := CreateSwitch(options, defaultFrame, defaultThumb, false);
    assert production == [];
  }
}
