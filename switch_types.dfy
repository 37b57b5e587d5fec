/** The values that flow between the switch's components: sizes, anchors,
    layout handlers, prop bags and the styled context the Frame shares with
    the Thumb. A prop bag is a map from prop name to value; JSX spreading is
    map union, where the later bag wins on a shared key. */
module SwitchTypes {
  import opened Wrappers

  /** A size: a size token such as "$true", or a number. */
  datatype Size = Token(name: string) | Numeric(n: int)

  /** The size used when neither the props nor the context give one. */
  const DefaultSize: Size := Token("$true")

  /** The `alignSelf` values the Thumb can receive. */
  datatype Align = FlexStart | FlexEnd

  /** A layout handler: one supplied by a caller (opaque, known by its
      identity), the Thumb's own width measurement, or the handler that
      `composeEventHandlers(first, second)` builds (`first` may be undefined). */
  datatype Handler =
    | CallerHandler(id: nat)
    | MeasureWidth
    | Composed(first: Option<Handler>, second: Handler)

  /** A prop value. `ThemeValue(None)` is the `null` theme; `Opaque` is any
      caller value the switch passes along without looking at it. A handler
      prop such as `onLayout` is always a `HandlerValue`: an `Opaque` or
      other value there is read as no handler. */
  datatype Value =
    | Undefined
    | Bool(b: bool)
    | SizeValue(size: Size)
    | ThemeValue(theme: Option<string>)
    | AlignValue(align: Align)
    | Number(n: int)
    | HandlerValue(handler: Handler)
    | Opaque(id: nat)

  type Props = map<string, Value>

  /** The styled context: the Frame's width and its size/unstyled settings. */
  datatype StyledContext = StyledContext(frameWidth: int, unstyled: Option<bool>, size: Option<Size>)

  /** A boolean prop, read the way `??` reads it: absent or undefined is nullish.
      (A value of another type cannot occur under the component's prop types.) */
  function BoolProp(p: Props, key: string): (r: Option<bool>)
    ensures r.Some? <==> key in p && p[key].Bool?
    ensures r.Some? ==> p[key] == Bool(r.value)
  {
    if key in p && p[key].Bool? then Some(p[key].b) else None
  }

  /** The `size` prop, nullish when absent or undefined. A number may be
      written either as `Number(n)` or as `SizeValue(Numeric(n))`; both are
      the numeric size `n`. */
  function SizeProp(p: Props): (r: Option<Size>)
    ensures r.Some? <==> "size" in p && (p["size"].SizeValue? || p["size"].Number?)
    ensures r.Some? && p["size"].SizeValue? ==> r.value == p["size"].size
    ensures r.Some? && p["size"].Number? ==> r.value == Numeric(p["size"].n)
  {
    if "size" in p && p["size"].SizeValue? then Some(p["size"].size)
    else if "size" in p && p["size"].Number? then Some(Numeric(p["size"].n))
    else None
  }

  /** A handler prop such as `onLayout`, nullish when absent or undefined. */
  function HandlerProp(p: Props, key: string): (r: Option<Handler>)
    ensures r.Some? <==> key in p && p[key].HandlerValue?
    ensures r.Some? ==> p[key] == HandlerValue(r.value)
  {
    if key in p && p[key].HandlerValue? then Some(p[key].handler) else None
  }

  /** The props of a JSX element whose attributes and spreads are `layers`,
      in writing order. */
  function Merge(layers: seq<Props>): (r: Props)
    ensures forall i, k :: 0 <= i < |layers| && k in layers[i] ==> k in r
    ensures |layers| > 0 ==> forall k :: k in layers[|layers| - 1] ==> r[k] == layers[|layers| - 1][k]
  {
    if |layers| == 0 then map[] else Merge(layers[..|layers| - 1]) + layers[|layers| - 1]
  }

  /** The index of the last layer that sets `key`, or -1 when none does. */
  function Owner(layers: seq<Props>, key: string): (i: int)
    ensures -1 <= i < |layers|
    ensures i >= 0 ==> key in layers[i]
    ensures forall j :: i < j < |layers| ==> key !in layers[j]
  {
    if |layers| == 0 then -1
    else if key in layers[|layers| - 1] then |layers| - 1
    else Owner(layers[..|layers| - 1], key)
  }

  /** Last writer wins: a key is set exactly when some layer sets it, and its
      value is that of the last layer that does. */
  lemma {:induction false} MergeLookup(layers: seq<Props>, key: string)
    ensures key in Merge(layers) <==> Owner(layers, key) >= 0
    ensures key in Merge(layers) ==> Merge(layers)[key] == layers[Owner(layers, key)][key]
  {
    if |layers| > 0 {
      MergeLookup(layers[..|layers| - 1], key);
      var prefix := layers[..|layers| - 1];
      if key !in layers[|layers| - 1] {
        assert Owner(layers, key) == Owner(prefix, key);
        if Owner(prefix, key) >= 0 {
          assert layers[Owner(prefix, key)] == prefix[Owner(prefix, key)];
        }
      }
    }
  }

  /** One more spread layer is another union on the right. */
  lemma MergeSnoc(layers: seq<Props>, last: Props)
    ensures Merge(layers + [last]) == Merge(layers) + last
  {
    assert (layers + [last])[..|layers|] == layers;
  }

  /** Five spread layers merge as the union written left to right. */
  lemma MergeFive(a: Props, b: Props, c: Props, d: Props, e: Props)
    ensures Merge([a, b, c, d, e]) == a + b + c + d + e
  {
    var s1, s2, s3, s4, s5 := [a], [a, b], [a, b, c], [a, b, c, d], [a, b, c, d, e];
    assert Merge(s1) == a by { MergeSnoc([], a); assert [] + [a] == s1; }
    assert Merge(s2) == a + b by { MergeSnoc(s1, b); assert s1 + [b] == s2; }
    assert Merge(s3) == a + b + c by { MergeSnoc(s2, c); assert s2 + [c] == s3; }
    assert Merge(s4) == a + b + c + d by { MergeSnoc(s3, d); assert s3 + [d] == s4; }
    MergeSnoc(s4, e);
    assert s4 + [e] == s5;
  }

  /** A key only the first of five layers sets keeps that layer's value. */
  lemma FirstLayerOnly(a: Props, b: Props, c: Props, d: Props, e: Props, key: string)
    requires key in a && key !in b && key !in c && key !in d && key !in e
    ensures key in a + b + c + d + e && (a + b + c + d + e)[key] == a[key]
  {
  }
}
