/**
 * `NewButton`: the same control as `Button` with a reworked `update()`.
 * Colours are refreshed at once unless the button is animated and its
 * state has changed since the last animation. After every `update()`
 * (run by flag changes, touches, button-brand changes and each layout
 * pass) the colours on screen belong to the current state; a setter for
 * another state leaves them stale until the next `update()`, and
 * `setDoesScale` refreshes nothing. The image is laid out directly
 * instead of through a content view.
 */
module NewButtons {
  import opened Wrappers
  import opened ControlStates
  import opened ButtonStyles

  /** `NewButton.Style`: styles are equal when their raw strings are. */
  datatype Style = Style(rawValue: string)

  function StyleEquals(a: Style, b: Style): (r: bool)
    ensures r <==> a == b
  {
    a.rawValue == b.rawValue
  }

  class NewButton {
    const style: Style
    const size: Size
    const brand: Option<BrandMetrics>
    var isSelected: bool
    var isHighlighted: bool
    var isEnabled: bool
    var isAnimated: bool
    var tintColor: Color
    var styles: StyleMaps
    /** The state the colours were last animated to. */
    var renderedState: ControlState
    var shown: Appearance
    var contentHeight: real
    var imageScale: real
    var imageTitlePadding: real
    var taps: nat
    var animations: seq<Animation>

    /** `state`. */
    function State(): ControlState
      reads this
    {
      EffectiveState(isSelected, isHighlighted, isEnabled)
    }

    /**
     * The image view shows the current state's image, offset by its width
     * and the padding, or is hidden with the label flush left when there is
     * no image or it is the placeholder.
     */
    predicate ImageShows()
      reads this
    {
      var image := ImageFor(styles, State());
      if ImageHidden(image) then shown.imageHidden && shown.labelOffset == 0.0
      else !shown.imageHidden && shown.image == image && shown.labelOffset == contentHeight * imageScale + imageTitlePadding
    }

    /** The initialiser: `setForBrand()`, then an unconditional `update()`. */
    constructor (style: Style, size: Size, brand: Option<BrandMetrics>, tintColor: Color, contentHeight: real, keyline: real)
      ensures this.style == style && this.size == size && this.brand == brand && this.tintColor == tintColor
      ensures imageTitlePadding == keyline && imageScale == 1.0
      ensures State() == Normal && renderedState == Normal && !isAnimated
      ensures styles == EmptyStyles && taps == 0 && animations == []
      ensures shown.text == None && ImageShows()
      ensures ColorsShow(shown, styles, State(), tintColor) && GradientShows(shown, styles, State())
    {
      this.style := style;
      this.size := size;
      this.brand := brand;
      this.tintColor := tintColor;
      this.contentHeight := contentHeight;
      isSelected := false;
      isHighlighted := false;
      isEnabled := true;
      isAnimated := false;
      styles := EmptyStyles;
      renderedState := Normal;
      shown := Blank;
      imageScale := 1.0;
      imageTitlePadding := keyline;
      taps := 0;
      animations := [];
      new;
      SetForBrand();
      Update();
    }

    /** `updateTitle()`. */
    method UpdateTitle()
      modifies this`shown
      ensures shown == old(shown).(text := TitleFor(styles, State()))
    {
      shown := shown.(text := TitleFor(styles, State()));
    }

    /** `updateImage()`: a hidden image view keeps its old image. */
    method UpdateImage()
      modifies this`shown
      ensures ImageShows()
      ensures shown.text == old(shown.text) && shown.labelHidden == old(shown.labelHidden) && SameLook(shown, old(shown))
      ensures ImageHidden(ImageFor(styles, State())) ==> shown.image == old(shown.image)
    {
      var image := ImageFor(styles, State());
      if image.None? || image.value == NoneImage {
        shown := shown.(labelOffset := 0.0, imageHidden := true);
        return;
      }
      shown := shown.(imageHidden := false, image := image,
                      labelOffset := contentHeight * imageScale + imageTitlePadding);
    }

    /** `updateTitleColor()`. */
    method UpdateTitleColor()
      modifies this`shown
      ensures shown == old(shown).(textColor := Some(TitleColorFor(styles, State(), tintColor)),
                                   imageTint := Some(ImageTintFor(styles, State(), tintColor)))
    {
      var color := TitleColorFor(styles, State(), tintColor);
      shown := shown.(textColor := Some(color), imageTint := Some(Lookup(styles.imageColors, State()).GetOr(color)));
    }

    /** `updateBackground()`. */
    method UpdateBackground()
      modifies this`shown
      ensures shown == old(shown).(background := BackgroundFor(styles, State()),
                                   border := Lookup(styles.borderColors, State()))
    {
      shown := shown.(background := BackgroundFor(styles, State()), border := Lookup(styles.borderColors, State()));
    }

    /** `updateGradientBackground()`. */
    method UpdateGradientBackground()
      modifies this`shown
      ensures shown == old(shown).(gradientColors := Lookup(styles.gradientColors, State()),
                                   gradientLocations := Lookup(styles.gradientLocations, State()))
    {
      shown := shown.(gradientColors := Lookup(styles.gradientColors, State()),
                      gradientLocations := Lookup(styles.gradientLocations, State()));
    }

    /** `updateScale()`. */
    method UpdateScale()
      modifies this`shown
      ensures shown == old(shown).(scaled := ScaledFor(styles, State()))
    {
      shown := shown.(scaled := ScaledFor(styles, State()));
    }

    /**
     * What `update()` leaves behind, relative to the state before it. Unless
     * the button is animated and its state moved since the last animation,
     * everything is refreshed at once and `renderedState` is left alone.
     * Otherwise colours, background and scale are animated to the current
     * state, the gradient animates from the previously rendered state's
     * lists (the layer itself keeps its lists), and `renderedState` becomes
     * the current state at the end. Either way the colours on screen are the
     * current state's.
     */
    twostate predicate Updated()
      reads this
    {
      && shown.text == TitleFor(styles, State()) && ImageShows()
      && shown.labelHidden == old(shown.labelHidden)
      && (ImageHidden(ImageFor(styles, State())) ==> shown.image == old(shown.image))
      && ColorsShow(shown, styles, State(), tintColor)
      && (!isAnimated || old(renderedState) == State() ==>
            GradientShows(shown, styles, State()) && renderedState == old(renderedState) && animations == old(animations))
      && (isAnimated && old(renderedState) != State() ==>
            && shown.gradientColors == old(shown.gradientColors)
            && shown.gradientLocations == old(shown.gradientLocations)
            && renderedState == State()
            && animations == old(animations) + [
                 ColorFade(0.2),
                 GradientAnimation(Lookup(styles.gradientLocations, old(renderedState)).GetOr([]),
                                   GradientTarget(styles.gradientLocations, State()),
                                   Lookup(styles.gradientColors, old(renderedState)).GetOr([]),
                                   GradientTarget(styles.gradientColors, State()), 0.2),
                 ScaleAnimation(ScaleCurveFor(State()))])
    }

    /** `update()`. */
    method Update()
      modifies this`shown, this`renderedState, this`animations
      ensures Updated()
    {
      UpdateTitle();
      UpdateImage();
      if !(isAnimated && renderedState != State()) {
        RefreshAll();
      } else {
        AnimateToState();
      }
    }

    /** The immediate path of `update()`: every colour part, the gradient and the scale. */
    method RefreshAll()
      modifies this`shown
      ensures ColorsShow(shown, styles, State(), tintColor) && GradientShows(shown, styles, State())
      ensures shown.text == old(shown.text) && shown.image == old(shown.image)
      ensures shown.imageHidden == old(shown.imageHidden) && shown.labelOffset == old(shown.labelOffset)
      ensures shown.labelHidden == old(shown.labelHidden)
    {
      UpdateTitleColor();
      UpdateBackground();
      UpdateGradientBackground();
      UpdateScale();
    }

    /** The animated path of `update()`. */
    method AnimateToState()
      modifies this`shown, this`renderedState, this`animations
      ensures ColorsShow(shown, styles, State(), tintColor)
      ensures shown.text == old(shown.text) && shown.image == old(shown.image)
      ensures shown.imageHidden == old(shown.imageHidden) && shown.labelOffset == old(shown.labelOffset)
      ensures shown.labelHidden == old(shown.labelHidden)
      ensures shown.gradientColors == old(shown.gradientColors) && shown.gradientLocations == old(shown.gradientLocations)
      ensures renderedState == State()
      ensures animations == old(animations) + [
             ColorFade(0.2),
             GradientAnimation(Lookup(styles.gradientLocations, old(renderedState)).GetOr([]),
                               GradientTarget(styles.gradientLocations, State()),
                               Lookup(styles.gradientColors, old(renderedState)).GetOr([]),
                               GradientTarget(styles.gradientColors, State()), 0.2),
             ScaleAnimation(ScaleCurveFor(State()))]
    {
      UpdateTitleColor();
      UpdateBackground();
      var fade := ColorFade(0.2);
      var gradient := GradientAnimation(Lookup(styles.gradientLocations, renderedState).GetOr([]),
                                        OrElse(Lookup(styles.gradientLocations, State()), Lookup(styles.gradientLocations, Normal)).GetOr([]),
                                        Lookup(styles.gradientColors, renderedState).GetOr([]),
                                        OrElse(Lookup(styles.gradientColors, State()), Lookup(styles.gradientColors, Normal)).GetOr([]),
                                        0.2);
      var curve := if State() == Normal || State() == Selected then Spring else EaseInOut;
      UpdateScale();
      animations := animations + [fade, gradient, ScaleAnimation(curve)];
      renderedState := State();
    }

    /** `layoutSubviews()`: every layout pass runs `update()`. */
    method LayoutSubviews()
      modifies this`shown, this`renderedState, this`animations
      ensures Updated()
    {
      Update();
    }

    /** `setForBrand()`: only a button brand triggers a refresh. */
    method SetForBrand()
      modifies this`shown, this`renderedState, this`animations
      ensures brand.None? ==> shown == old(shown) && renderedState == old(renderedState) && animations == old(animations)
      ensures brand.Some? ==> Updated()
    {
      if brand.Some? {
        Update();
      }
    }

    /** The `isHighlighted` property: its `didSet` calls `update()`. */
    method SetHighlighted(value: bool)
      modifies this`isHighlighted, this`shown, this`renderedState, this`animations
      ensures isHighlighted == value
      ensures Updated()
    {
      isHighlighted := value;
      Update();
    }

    /** The `isSelected` property: its `didSet` calls `update()`. */
    method SetSelected(value: bool)
      modifies this`isSelected, this`shown, this`renderedState, this`animations
      ensures isSelected == value
      ensures Updated()
    {
      isSelected := value;
      Update();
    }

    /** The `isEnabled` property: its `didSet` calls `update()`. */
    method SetEnabled(value: bool)
      modifies this`isEnabled, this`shown, this`renderedState, this`animations
      ensures isEnabled == value
      ensures Updated()
    {
      isEnabled := value;
      Update();
    }

    /** The `tintColor` property: its `didSet` refreshes the label colour. */
    method SetTintColor(color: Color)
      modifies this`tintColor, this`shown
      ensures tintColor == color
      ensures shown == old(shown).(textColor := Some(TitleColorFor(styles, State(), color)),
                                   imageTint := Some(ImageTintFor(styles, State(), color)))
    {
      tintColor := color;
      UpdateTitleColor();
    }

    /** Touch down (and repeated touch down) and drag back inside highlight the button. */
    method TouchDown()
      modifies this`isHighlighted, this`shown, this`renderedState, this`animations
      ensures isHighlighted && State() == (if isSelected then Selected else Highlighted)
      ensures Updated()
    {
      SetHighlighted(true);
    }

    method DragInside()
      modifies this`isHighlighted, this`shown, this`renderedState, this`animations
      ensures isHighlighted
      ensures Updated()
    {
      SetHighlighted(true);
    }

    /** Drag outside and touch cancel clear the highlight. */
    method DragOutside()
      modifies this`isHighlighted, this`shown, this`renderedState, this`animations
      ensures !isHighlighted
      ensures Updated()
    {
      SetHighlighted(false);
    }

    /** Touch up inside clears the highlight, then runs `tapped`. */
    method TouchUpInside()
      modifies this`isHighlighted, this`shown, this`renderedState, this`animations, this`taps
      ensures !isHighlighted && taps == old(taps) + 1
      ensures Updated()
    {
      SetHighlighted(false);
      taps := taps + 1;
    }

    /** The `title` property: the normal title, then a title refresh. */
    method SetTitleProperty(title: Option<string>)
      modifies this`styles, this`shown
      ensures styles == old(styles).(titles := Store(old(styles).titles, Normal, title))
      ensures shown == old(shown).(text := TitleFor(styles, State()))
    {
      styles := styles.(titles := Store(styles.titles, Normal, title));
      UpdateTitle();
    }

    /** The `backgroundColor` property: the normal background, then a background refresh. */
    method SetBackgroundColorProperty(color: Option<Color>)
      modifies this`styles, this`shown
      ensures styles == old(styles).(backgroundColors := Store(old(styles).backgroundColors, Normal, color))
      ensures shown == old(shown).(background := BackgroundFor(styles, State()), border := Lookup(styles.borderColors, State()))
    {
      styles := styles.(backgroundColors := Store(styles.backgroundColors, Normal, color));
      UpdateBackground();
    }

    /** `setTitle(_:for:)`: refreshed only if `s` is the current state. */
    method SetTitle(title: Option<string>, s: ControlState)
      modifies this`styles, this`shown
      ensures styles == old(styles).(titles := Store(old(styles).titles, s, title))
      ensures s == State() ==> shown == old(shown).(text := TitleFor(styles, s))
      ensures s != State() ==> shown == old(shown)
    {
      styles := styles.(titles := Store(styles.titles, s, title));
      if State() == s { UpdateTitle(); }
    }

    /** `setTitleColor(_:for:)`. */
    method SetTitleColor(color: Option<Color>, s: ControlState)
      modifies this`styles, this`shown
      ensures styles == old(styles).(titleColors := Store(old(styles).titleColors, s, color))
      ensures s == State() ==> shown == old(shown).(textColor := Some(TitleColorFor(styles, s, tintColor)),
                                                    imageTint := Some(ImageTintFor(styles, s, tintColor)))
      ensures s != State() ==> shown == old(shown)
    {
      styles := styles.(titleColors := Store(styles.titleColors, s, color));
      if State() == s { UpdateTitleColor(); }
    }

    /** `setImageColor(_:for:)`. */
    method SetImageColor(color: Option<Color>, s: ControlState)
      modifies this`styles, this`shown
      ensures styles == old(styles).(imageColors := Store(old(styles).imageColors, s, color))
      ensures s == State() ==> shown == old(shown).(textColor := Some(TitleColorFor(styles, s, tintColor)),
                                                    imageTint := Some(ImageTintFor(styles, s, tintColor)))
      ensures s != State() ==> shown == old(shown)
    {
      styles := styles.(imageColors := Store(styles.imageColors, s, color));
      if State() == s { UpdateTitleColor(); }
    }

    /** `setImage(_:for:)`. */
    method SetImage(image: Option<Image>, s: ControlState)
      modifies this`styles, this`shown
      ensures styles == old(styles).(images := Store(old(styles).images, s, image))
      ensures s == State() ==> ImageShows() && shown.text == old(shown.text) && SameLook(shown, old(shown))
      ensures s == State() ==> shown.labelHidden == old(shown.labelHidden)
      ensures s == State() && ImageHidden(ImageFor(styles, State())) ==> shown.image == old(shown.image)
      ensures s != State() ==> shown == old(shown)
    {
      styles := styles.(images := Store(styles.images, s, image));
      if State() == s { UpdateImage(); }
    }

    /** `setBackgroundColor(_:for:)`. */
    method SetBackgroundColor(color: Option<Color>, s: ControlState)
      modifies this`styles, this`shown
      ensures styles == old(styles).(backgroundColors := Store(old(styles).backgroundColors, s, color))
      ensures s == State() ==> shown == old(shown).(background := BackgroundFor(styles, s), border := Lookup(styles.borderColors, s))
      ensures s != State() ==> shown == old(shown)
    {
      styles := styles.(backgroundColors := Store(styles.backgroundColors, s, color));
      if State() == s { UpdateBackground(); }
    }

    /** `setBorderColor(_:for:)`. */
    method SetBorderColor(color: Option<Color>, s: ControlState)
      modifies this`styles, this`shown
      ensures styles == old(styles).(borderColors := Store(old(styles).borderColors, s, color))
      ensures s == State() ==> shown == old(shown).(background := BackgroundFor(styles, s), border := Lookup(styles.borderColors, s))
      ensures s != State() ==> shown == old(shown)
    {
      styles := styles.(borderColors := Store(styles.borderColors, s, color));
      if State() == s { UpdateBackground(); }
    }

    /** `setGradientColors(_:for:)`: like `Button`, it refreshes the background, not the gradient layer. */
    method SetGradientColors(stops: Option<seq<(Color, real)>>, s: ControlState)
      modifies this`styles, this`shown
      ensures styles == old(styles).(
        gradientColors := Store(old(styles).gradientColors, s,
                                if stops.Some? then Some(seq(|stops.value|, (k: int) requires 0 <= k < |stops.value| => stops.value[k].0)) else None),
        gradientLocations := Store(old(styles).gradientLocations, s,
                                   if stops.Some? then Some(seq(|stops.value|, (k: int) requires 0 <= k < |stops.value| => stops.value[k].1)) else None))
      ensures s == State() ==> shown == old(shown).(background := BackgroundFor(styles, s), border := Lookup(styles.borderColors, s))
      ensures s != State() ==> shown == old(shown)
    {
      var colors := if stops.Some? then Some(seq(|stops.value|, (k: int) requires 0 <= k < |stops.value| => stops.value[k].0)) else None;
      var locations := if stops.Some? then Some(seq(|stops.value|, (k: int) requires 0 <= k < |stops.value| => stops.value[k].1)) else None;
      styles := styles.(gradientColors := Store(styles.gradientColors, s, colors),
                        gradientLocations := Store(styles.gradientLocations, s, locations));
      if State() == s { UpdateBackground(); }
    }

    /** `setDoesScale(_:for:)`: recorded, never refreshed. */
    method SetDoesScale(doesScale: bool, s: ControlState)
      modifies this`styles
      ensures styles == old(styles).(scales := old(styles).scales[s := doesScale])
    {
      styles := styles.(scales := styles.scales[s := doesScale]);
    }

    /** `imageTitlePadding`: its `didSet` lays the image out again. */
    method SetImageTitlePadding(padding: real)
      modifies this`imageTitlePadding, this`shown
      ensures imageTitlePadding == padding && ImageShows()
      ensures shown.text == old(shown.text) && SameLook(shown, old(shown))
      ensures shown.labelHidden == old(shown.labelHidden)
      ensures ImageHidden(ImageFor(styles, State())) ==> shown.image == old(shown.image)
    {
      imageTitlePadding := padding;
      UpdateImage();
    }

    /** `imageScale`: its `didSet` only transforms the image view; the label offset waits for the next image update. */
    method SetImageScale(scale: real)
      modifies this`imageScale
      ensures imageScale == scale
    {
      imageScale := scale;
    }

    /** `pin(sizeIn:)`: the width and the height pin, with the current brand's keyline. */
    method PinSize(keyline: real) returns (pins: seq<Pin>)
      ensures pins == [WidthPin(size, brand, keyline), HeightPin(size, brand)]
      ensures size.width == NaturalWidth ==> pins[0] == NoPin
    {
      pins := [WidthPin(size, brand, keyline), HeightPin(size, brand)];
    }
  }

  /** The press and release that leaves `Button` showing the pressed colour restores the resting one here. */
  method ReleaseRestoresRest() returns (b: NewButton)
    ensures b.State() == Normal
    ensures b.shown.background == Some(Named("rest"))
    ensures ColorsShow(b.shown, b.styles, b.State(), b.tintColor)
  {
    b := new NewButton(Style("primary"), Size(Full, Large), Some(BrandMetrics(-32.0, 52.0)), Named("tint"), 52.0, 16.0);
    b.SetBackgroundColor(Some(Named("rest")), Normal);
    b.SetBackgroundColor(Some(Named("pressed")), Highlighted);
    b.TouchDown();
    b.TouchUpInside();
  }
}
