/** The Thumb's position arithmetic (createSwitch.tsx lines 90, 91 and 104).
    The Thumb is laid out at one edge of the Frame (its anchor) and moved
    horizontally by the offset `x`. */
module ThumbLayout {
  import opened SwitchTypes

  /** How far the Thumb can travel inside the Frame. */
  function Distance(frameWidth: int, thumbWidth: int): (d: int)
    ensures thumbWidth + d == frameWidth
    ensures thumbWidth == 0 ==> d == frameWidth
  {
    frameWidth - thumbWidth
  }

  /** The translation `x` for the current `checked` value, given the value
      `initialChecked` seen on the first render. */
  function Offset(initialChecked: bool, checked: bool, frameWidth: int, thumbWidth: int): (x: int)
    ensures checked == initialChecked ==> x == 0
    ensures !initialChecked && checked ==> x == frameWidth - thumbWidth
    ensures initialChecked && !checked ==> x == -(frameWidth - thumbWidth)
  {
    var distance := Distance(frameWidth, thumbWidth);
    if initialChecked then (if checked then 0 else -distance)
    else if checked then distance else 0
  }

  /** The edge the Thumb is laid out at. */
  function Anchor(initialChecked: bool): (a: Align)
    ensures a == FlexEnd <==> initialChecked
    ensures a == FlexStart <==> !initialChecked
  {
    if initialChecked then FlexEnd else FlexStart
  }

  /** The left edge, relative to the Frame, of a Thumb laid out at `anchor`
      before any translation. */
  function RestLeft(anchor: Align, frameWidth: int, thumbWidth: int): int
  {
    match anchor
    case FlexStart => 0
    case FlexEnd => frameWidth - thumbWidth
  }

  /** The left edge where the Thumb should be: at the far end when checked,
      at the near end when not. */
  function TargetLeft(checked: bool, frameWidth: int, thumbWidth: int): int
  {
    if checked then frameWidth - thumbWidth else 0
  }

  /** Anchor and offset together put the Thumb where `checked` says,
      whichever value `checked` had on the first render, provided the width
      the offset uses is the Thumb's laid-out width. */
  lemma PlacementFollowsChecked(initialChecked: bool, checked: bool, frameWidth: int, thumbWidth: int)
    ensures RestLeft(Anchor(initialChecked), frameWidth, thumbWidth)
              + Offset(initialChecked, checked, frameWidth, thumbWidth)
            == TargetLeft(checked, frameWidth, thumbWidth)
  {
  }

  /** With the offset computed from a stored width `stateWidth` and the
      Thumb actually `layoutWidth` wide: at rest the Thumb is always in
      place, and once moved it is in place iff the two widths agree. */
  lemma PlacementNeedsMeasuredWidth(initialChecked: bool, checked: bool, frameWidth: int,
                                    stateWidth: int, layoutWidth: int)
    ensures checked == initialChecked ==>
      RestLeft(Anchor(initialChecked), frameWidth, layoutWidth)
        + Offset(initialChecked, checked, frameWidth, stateWidth)
      == TargetLeft(checked, frameWidth, layoutWidth)
    ensures checked != initialChecked ==>
      (RestLeft(Anchor(initialChecked), frameWidth, layoutWidth)
         + Offset(initialChecked, checked, frameWidth, stateWidth)
       == TargetLeft(checked, frameWidth, layoutWidth)
       <==> stateWidth == layoutWidth)
  {
  }

  /** A moved Thumb whose width was never stored (still 0) misses its target
      by its own width: past the far edge when checked, before the near edge
      when not. */
  lemma UnmeasuredMovedThumbOvershoots(initialChecked: bool, checked: bool, frameWidth: int, layoutWidth: int)
    requires checked != initialChecked
    ensures RestLeft(Anchor(initialChecked), frameWidth, layoutWidth)
              + Offset(initialChecked, checked, frameWidth, 0)
            == TargetLeft(checked, frameWidth, layoutWidth) + (if checked then layoutWidth else -layoutWidth)
  {
  }

  /** Toggling moves the Thumb by exactly the travel distance. */
  lemma ToggleTravelsDistance(initialChecked: bool, frameWidth: int, thumbWidth: int)
    ensures Offset(initialChecked, true, frameWidth, thumbWidth)
              - Offset(initialChecked, false, frameWidth, thumbWidth)
            == Distance(frameWidth, thumbWidth)
  {
  }
}
