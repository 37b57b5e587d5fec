/** The styled Frame that createSwitch builds (createSwitch.tsx lines
    114-133). Its props object, as returned by the framework's prop
    normalisation, has `size` and `unstyled` overwritten from the styled
    context before it is passed on. */
module SwitchFrame {
  import opened Wrappers
  import opened SwitchTypes

  /** `styledContext.size ?? '$true'`. */
  function FrameSize(styled: StyledContext): (s: Size)
    ensures styled.size.Some? ==> s == styled.size.value
    ensures styled.size.None? ==> s == DefaultSize
  {
    styled.size.GetOr(DefaultSize)
  }

  /** `styledContext.unstyled ?? false`. */
  function FrameUnstyled(styled: StyledContext): (u: bool)
    ensures u <==> styled.unstyled == Some(true)
  {
    styled.unstyled.GetOr(false)
  }

  /** The props the Frame renders with: the context decides `size` and
      `unstyled` whatever the caller passed; every other prop is kept. */
  function FrameProps(props: Props, styled: StyledContext): (r: Props)
    ensures r.Keys == props.Keys + {"size", "unstyled"}
    ensures r["size"] == SizeValue(FrameSize(styled))
    ensures r["unstyled"] == Bool(FrameUnstyled(styled))
    ensures forall k :: k in props && k != "size" && k != "unstyled" ==> r[k] == props[k]
  {
    props["size" := SizeValue(FrameSize(styled))]["unstyled" := Bool(FrameUnstyled(styled))]
  }

  /** A mutable props object. */
  class PropsObject {
    var entries: Props

    constructor (entries: Props)
      ensures this.entries == entries
    {
      this.entries := entries;
    }
  }

  /** The Frame's render: overwrite `size` (line 126), then `unstyled`
      (line 127), on the normalised props object. */
  method RenderFrame(props: PropsObject, styled: StyledContext)
    modifies props
    ensures props.entries == FrameProps(old(props.entries), styled)
  {
    props.entries := props.entries["size" := SizeValue(styled.size.GetOr(DefaultSize))];
    props.entries := props.entries["unstyled" := Bool(styled.unstyled.GetOr(false))];
  }
}
