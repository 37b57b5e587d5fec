/** What a layout event does once it reaches a handler. A handler built by
    `composeEventHandlers(first, second)` runs `first` (when there is one) and
    then `second`; a caller's handler is opaque and is only recorded as called;
    the Thumb's measurement handler sets the thumb width. */
module LayoutEvents {
  import opened Wrappers
  import opened SwitchTypes

  datatype Effect = InvokeCaller(id: nat, width: int) | SetThumbWidth(width: int)

  /** The effects of a layout event of the given measured width, in order. */
  function Fire(h: Handler, width: int): (effects: seq<Effect>)
    ensures |effects| >= 1
    ensures forall e :: e in effects ==> e.width == width
    decreases h
  {
    match h
    case CallerHandler(id) => [InvokeCaller(id, width)]
    case MeasureWidth => [SetThumbWidth(width)]
    case Composed(first, second) =>
      (if first.Some? then Fire(first.value, width) else []) + Fire(second, width)
  }

  /** The caller handlers invoked by a run of effects, in order. */
  function CallerCalls(effects: seq<Effect>): seq<nat>
  {
    if |effects| == 0 then []
    else (if effects[0].InvokeCaller? then [effects[0].id] else []) + CallerCalls(effects[1..])
  }

  /** The thumb width after a run of effects, starting from `width`. */
  function WidthAfter(effects: seq<Effect>, width: int): int
  {
    if |effects| == 0 then width
    else WidthAfter(effects[1..], if effects[0].SetThumbWidth? then effects[0].width else width)
  }

  /** True when the measurement handler is part of `h`. */
  predicate Measures(h: Handler)
    decreases h
  {
    match h
    case CallerHandler(_) => false
    case MeasureWidth => true
    case Composed(first, second) => (first.Some? && Measures(first.value)) || Measures(second)
  }

  lemma {:induction false} CallerCallsAppend(a: seq<Effect>, b: seq<Effect>)
    ensures CallerCalls(a + b) == CallerCalls(a) + CallerCalls(b)
  {
    if |a| > 0 {
      assert (a + b)[1..] == a[1..] + b;
      CallerCallsAppend(a[1..], b);
    } else {
      assert a + b == b;
    }
  }

  lemma {:induction false} WidthAfterAppend(a: seq<Effect>, b: seq<Effect>, width: int)
    ensures WidthAfter(a + b, width) == WidthAfter(b, WidthAfter(a, width))
  {
    if |a| > 0 {
      assert (a + b)[1..] == a[1..] + b;
      WidthAfterAppend(a[1..], b, if a[0].SetThumbWidth? then a[0].width else width);
    } else {
      assert a + b == b;
    }
  }

  /** A layout event updates the thumb width exactly when the handler it
      reaches contains the measurement handler, and then only ever to the
      measured width. */
  lemma {:induction false} MeasuresIff(h: Handler, width: int)
    ensures SetThumbWidth(width) in Fire(h, width) <==> Measures(h)
    ensures forall e :: e in Fire(h, width) && e.SetThumbWidth? ==> e.width == width
    decreases h
  {
    match h
    case CallerHandler(_) =>
    case MeasureWidth =>
    case Composed(first, second) =>
      MeasuresIff(second, width);
      if first.Some? {
        MeasuresIff(first.value, width);
      }
  }

  /** A run with no width update leaves the width as it was. */
  lemma {:induction false} WidthAfterNoUpdate(effects: seq<Effect>, width: int)
    requires forall e :: e in effects ==> !e.SetThumbWidth?
    ensures WidthAfter(effects, width) == width
  {
    if |effects| > 0 {
      assert effects[0] in effects;
      assert forall e :: e in effects[1..] ==> e in effects;
      WidthAfterNoUpdate(effects[1..], width);
    }
  }

  /** Whatever ran before, a run that ends with the measurement leaves it in place. */
  lemma MeasuredLast(effects: seq<Effect>, measured: int, width: int)
    ensures WidthAfter(effects + [SetThumbWidth(measured)], width) == measured
  {
    WidthAfterAppend(effects, [SetThumbWidth(measured)], width);
  }
}
