/**
 * What `Button` and `NewButton` share: the per-state style tables a brand
 * fills in through the `set…(_:for:)` setters, how a control state picks
 * its title, image, colours and scale from them, and how a size becomes
 * layout pins. Colours and images are names: colour arithmetic
 * (`darker()`, `lighter()`, `alpha()`) is kept as a tag on the colour.
 */
module ButtonStyles {
  import opened Wrappers
  import opened ControlStates

  datatype Color = Named(name: string) | Darker(base: Color) | Lighter(base: Color) | Faded(base: Color)

  /** `UIImage.none` is the placeholder that means "no image". */
  datatype Image = NoneImage | Picture(name: string)

  /** The per-state dictionaries a button keeps. Gradients are colour and location lists. */
  datatype StyleMaps = StyleMaps(
    titles: map<ControlState, string>,
    images: map<ControlState, Image>,
    scales: map<ControlState, bool>,
    borderColors: map<ControlState, Color>,
    titleColors: map<ControlState, Color>,
    imageColors: map<ControlState, Color>,
    backgroundColors: map<ControlState, Color>,
    gradientColors: map<ControlState, seq<Color>>,
    gradientLocations: map<ControlState, seq<real>>)

  const EmptyStyles := StyleMaps(map[], map[], map[], map[], map[], map[], map[], map[], map[])

  /** The title for a state: its own entry, else the normal one. */
  function TitleFor(m: StyleMaps, s: ControlState): (r: Option<string>)
    ensures s in m.titles ==> r == Some(m.titles[s])
    ensures s !in m.titles ==> r == Lookup(m.titles, Normal)
  {
    OrElse(Lookup(m.titles, s), Lookup(m.titles, Normal))
  }

  /** The image for a state: its own entry, else the normal one. */
  function ImageFor(m: StyleMaps, s: ControlState): (r: Option<Image>)
    ensures s in m.images ==> r == Some(m.images[s])
    ensures s !in m.images ==> r == Lookup(m.images, Normal)
  {
    OrElse(Lookup(m.images, s), Lookup(m.images, Normal))
  }

  /** The label colour: the state's own, else the normal one, else the control's tint. */
  function TitleColorFor(m: StyleMaps, s: ControlState, tint: Color): (r: Color)
    ensures s in m.titleColors ==> r == m.titleColors[s]
    ensures s !in m.titleColors && Normal in m.titleColors ==> r == m.titleColors[Normal]
    ensures s !in m.titleColors && Normal !in m.titleColors ==> r == tint
  {
    OrElse(Lookup(m.titleColors, s), Lookup(m.titleColors, Normal)).GetOr(tint)
  }

  /** The image tint: the state's own image colour, else whatever the label uses. */
  function ImageTintFor(m: StyleMaps, s: ControlState, tint: Color): (r: Color)
    ensures s in m.imageColors ==> r == m.imageColors[s]
    ensures s !in m.imageColors ==> r == TitleColorFor(m, s, tint)
  {
    Lookup(m.imageColors, s).GetOr(TitleColorFor(m, s, tint))
  }

  /**
   * `computedBackgroundColor`: derived from the normal background. The
   * `[.selected, .disabled]` case reads the highlighted background.
   */
  function ComputedBackground(m: StyleMaps, s: ControlState): Option<Color> {
    var normal := Lookup(m.backgroundColors, Normal);
    var selected := OrElse(Lookup(m.backgroundColors, Highlighted), normal);
    if s == Highlighted || s == Selected || s == ControlState(true, false, true) then
      if normal.Some? then Some(Darker(normal.value)) else None
    else if s == Disabled then
      if normal.Some? then Some(Faded(normal.value)) else None
    else if s == ControlState(false, true, true) then
      if selected.Some? then Some(Lighter(selected.value)) else None
    else normal
  }

  /**
   * On the four states a button can report, the derived background is the
   * normal one darkened when pressed or selected, faded when disabled; the
   * lighter `[.selected, .disabled]` colour is never produced.
   */
  lemma ComputedBackgroundOnButtonStates(m: StyleMaps, s: ControlState)
    requires IsSingle(s)
    ensures Normal !in m.backgroundColors ==> ComputedBackground(m, s) == None
    ensures Normal in m.backgroundColors ==>
      var n := m.backgroundColors[Normal];
      ComputedBackground(m, s) ==
        if s == Normal then Some(n) else if s == Disabled then Some(Faded(n)) else Some(Darker(n))
  {
  }

  /** The background: the state's own colour, else the derived one. */
  function BackgroundFor(m: StyleMaps, s: ControlState): (r: Option<Color>)
    ensures s in m.backgroundColors ==> r == Some(m.backgroundColors[s])
    ensures s !in m.backgroundColors ==> r == ComputedBackground(m, s)
  {
    OrElse(Lookup(m.backgroundColors, s), ComputedBackground(m, s))
  }

  /** Whether the state shrinks the button to 97%: only when that state asked for it. */
  function ScaledFor(m: StyleMaps, s: ControlState): (r: bool)
    ensures r <==> s in m.scales && m.scales[s]
  {
    Lookup(m.scales, s).GetOr(false)
  }

  /** The end point of a gradient animation: the state's list, else the normal one, else empty. */
  function GradientTarget<T>(lists: map<ControlState, seq<T>>, s: ControlState): (r: seq<T>)
    ensures s in lists ==> r == lists[s]
    ensures s !in lists && Normal in lists ==> r == lists[Normal]
    ensures s !in lists && Normal !in lists ==> r == []
  {
    OrElse(Lookup(lists, s), Lookup(lists, Normal)).GetOr([])
  }

  /** What is on screen. */
  datatype Appearance = Appearance(
    text: Option<string>,
    image: Option<Image>,
    imageHidden: bool,
    labelHidden: bool,
    /** The label's leading offset: room for the image and the padding after it. */
    labelOffset: real,
    /** `None` until the first colour refresh: UIKit's own default. */
    textColor: Option<Color>,
    imageTint: Option<Color>,
    background: Option<Color>,
    border: Option<Color>,
    gradientColors: Option<seq<Color>>,
    gradientLocations: Option<seq<real>>,
    scaled: bool)

  /** The colour parts of the appearance are those of state `s`. */
  predicate ColorsShow(a: Appearance, m: StyleMaps, s: ControlState, tint: Color) {
    && a.textColor == Some(TitleColorFor(m, s, tint))
    && a.imageTint == Some(ImageTintFor(m, s, tint))
    && a.background == BackgroundFor(m, s)
    && a.border == Lookup(m.borderColors, s)
    && a.scaled == ScaledFor(m, s)
  }

  /** The colour parts, gradient and scale of two appearances agree. */
  predicate SameLook(a: Appearance, b: Appearance) {
    && a.textColor == b.textColor && a.imageTint == b.imageTint
    && a.background == b.background && a.border == b.border
    && a.gradientColors == b.gradientColors && a.gradientLocations == b.gradientLocations
    && a.scaled == b.scaled
  }

  /** What a freshly made button shows before any refresh. */
  const Blank := Appearance(None, None, true, true, 0.0, None, None, None, None, None, None, false)

  /** The gradient layer holds state `s`'s lists; there is no fallback to the normal state here. */
  predicate GradientShows(a: Appearance, m: StyleMaps, s: ControlState) {
    a.gradientColors == Lookup(m.gradientColors, s) && a.gradientLocations == Lookup(m.gradientLocations, s)
  }

  /** The image is hidden when there is none or it is the `UIImage.none` placeholder. */
  predicate ImageHidden(image: Option<Image>) {
    image.None? || image.value == NoneImage
  }

  /** The label is hidden when it has no text or empty text. */
  predicate LabelHidden(text: Option<string>) {
    text.None? || |text.value| == 0
  }

  /**
   * The label offset that leaves room for a visible image: the image is as
   * wide as the content is high, times its scale, followed by the padding.
   */
  function LabelOffset(image: Option<Image>, contentHeight: real, imageScale: real, padding: real): (r: real)
    ensures ImageHidden(image) ==> r == 0.0
    ensures !ImageHidden(image) ==> r == contentHeight * imageScale + padding
  {
    if ImageHidden(image) then 0.0 else contentHeight * imageScale + padding
  }

  /** A button's size: how it spans its container and how tall it is. */
  datatype WidthKind = Full | Half | NaturalWidth | CustomWidth(constant: real)
  datatype HeightKind = Small | Medium | Large | NaturalHeight | CustomHeight(constant: real)
  datatype Size = Size(width: WidthKind, height: HeightKind)

  /** What a brand that conforms to `ButtonBrand` answers for one size. */
  datatype BrandMetrics = BrandMetrics(widthPadding: real, height: real)

  /**
   * A layout pin: no constraint, a fixed width or height, or a width tied
   * to the container's (`constant` added to `multiplier` times its width).
   */
  datatype Pin = NoPin | WidthConstant(value: real) | WidthToContainer(constant: real, multiplier: real) | HeightConstant(value: real)

  /**
   * `Pin.width(for:brandManager:)`: a natural width is unconstrained, a
   * custom one fixed; full and half widths follow the container, inset by
   * the brand's padding or, without a button brand, by two of the current
   * brand's keylines (`keyline`).
   */
  function WidthPin(size: Size, brand: Option<BrandMetrics>, keyline: real): (r: Pin)
    ensures size.width == NaturalWidth <==> r == NoPin
    ensures size.width.CustomWidth? ==> r == WidthConstant(size.width.constant)
    ensures size.width == Full || size.width == Half ==>
      r.WidthToContainer?
      && r.constant == (if brand.Some? then brand.value.widthPadding else -2.0 * keyline)
      && r.multiplier == (if size.width == Full then 1.0 else 0.5)
  {
    match size.width
    case CustomWidth(v) => WidthConstant(v)
    case Full => WidthToContainer(if brand.Some? then brand.value.widthPadding else -keyline * 2.0, 1.0)
    case Half => WidthToContainer(if brand.Some? then brand.value.widthPadding else -keyline * 2.0, 0.5)
    case NaturalWidth => NoPin
  }

  /** The heights used when the brand is not a button brand. */
  function DefaultHeightPin(h: HeightKind): (r: Pin)
    ensures h == NaturalHeight <==> r == NoPin
    ensures h.CustomHeight? ==> r == HeightConstant(h.constant)
  {
    match h
    case NaturalHeight => NoPin
    case Small => HeightConstant(32.0)
    case Medium => HeightConstant(44.0)
    case Large => HeightConstant(52.0)
    case CustomHeight(v) => HeightConstant(v)
  }

  /**
   * `Pin.height(for:brandManager:)`: a button brand's height wins over the
   * size entirely, and a height of zero means no constraint; the defaults
   * apply only when the brand is not a button brand.
   */
  function HeightPin(size: Size, brand: Option<BrandMetrics>): (r: Pin)
    ensures brand.Some? && brand.value.height == 0.0 ==> r == NoPin
    ensures brand.Some? && brand.value.height != 0.0 ==> r == HeightConstant(brand.value.height)
    ensures brand.None? ==> r == DefaultHeightPin(size.height)
  {
    if brand.Some? then
      if brand.value.height == 0.0 then NoPin else HeightConstant(brand.value.height)
    else DefaultHeightPin(size.height)
  }

  /** Scale animations: a spring back to rest for normal and selected, a quick ease otherwise. */
  datatype ScaleCurve = Spring | EaseInOut

  function ScaleCurveFor(s: ControlState): (c: ScaleCurve)
    ensures c == Spring <==> s == Normal || s == Selected
  {
    if s == Normal || s == Selected then Spring else EaseInOut
  }

  /** The animations an update starts; their timing is kept only as a duration. */
  datatype Animation =
    | ColorFade(duration: real)
    | GradientAnimation(fromLocations: seq<real>, toLocations: seq<real>,
                        fromColors: seq<Color>, toColors: seq<Color>, duration: real)
    | ScaleAnimation(curve: ScaleCurve)
}
