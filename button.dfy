/**
 * `Button`: a control whose title, image, colours, gradient and scale
 * follow its state. Touches set `isHighlighted`; every flag change calls
 * `update()`, which refreshes what is shown. This module keeps the update
 * exactly as written, including its `renderedState` bookkeeping.
 */
module Buttons {
  import opened Wrappers
  import opened ControlStates
  import opened ButtonStyles

  class Button {
    const size: Size
    /** The brand's answers when it conforms to `ButtonBrand`; `None` when it does not. */
    const brand: Option<BrandMetrics>
    var isSelected: bool
    var isHighlighted: bool
    var isEnabled: bool
    var isAnimated: bool
    var tintColor: Color
    var styles: StyleMaps
    /** The state the colours were last animated to; only the animated path assigns it. */
    var renderedState: ControlState
    var shown: Appearance
    /** The content view's height, the image's scale and the padding between image and title. */
    var contentHeight: real
    var imageScale: real
    var spacing: real
    /** How many times `tapped` has run. */
    var taps: nat
    var animations: seq<Animation>

    /** `state`. */
    function State(): ControlState
      reads this
    {
      EffectiveState(isSelected, isHighlighted, isEnabled)
    }

    /** The content view's layout agrees with the text and image it shows. */
    predicate LayoutCurrent()
      reads this
    {
      && shown.imageHidden == ImageHidden(shown.image)
      && shown.labelHidden == LabelHidden(shown.text)
      && shown.labelOffset == LabelOffset(shown.image, contentHeight, imageScale, spacing)
    }

    /**
     * The initialiser: an enabled, unselected, unhighlighted button whose
     * content view is spaced by the brand's keyline, then `setForBrand()`.
     */
    constructor (size: Size, brand: Option<BrandMetrics>, tintColor: Color, contentHeight: real, keyline: real)
      ensures this.size == size && this.brand == brand && this.tintColor == tintColor
      ensures spacing == keyline && imageScale == 1.0
      ensures State() == Normal && renderedState == Normal && !isAnimated
      ensures styles == EmptyStyles && taps == 0 && animations == []
      ensures brand.Some? ==> shown.text == None && shown.image == None && LayoutCurrent()
      ensures brand.None? ==> shown == Blank
      ensures SameLook(shown, Blank)
    {
      this.size := size;
      this.brand := brand;
      this.tintColor := tintColor;
      this.contentHeight := contentHeight;
      isSelected := false;
      isHighlighted := false;
      isEnabled := true;
      isAnimated := false;
      styles := EmptyStyles;
      renderedState := Normal;
      shown := Blank;
      imageScale := 1.0;
      spacing := keyline;
      taps := 0;
      animations := [];
      new;
      SetForBrand();
    }

    /** `prepareForRedraw()` of the content view. */
    method PrepareForRedraw()
      modifies this`shown
      ensures LayoutCurrent()
      ensures shown.text == old(shown.text) && shown.image == old(shown.image) && SameLook(shown, old(shown))
    {
      shown := shown.(imageHidden := ImageHidden(shown.image), labelHidden := LabelHidden(shown.text),
                      labelOffset := LabelOffset(shown.image, contentHeight, imageScale, spacing));
    }

    /** `updateTitle()`. */
    method UpdateTitle()
      modifies this`shown
      ensures shown.text == TitleFor(styles, State()) && shown.image == old(shown.image)
      ensures LayoutCurrent() && SameLook(shown, old(shown))
    {
      shown := shown.(text := TitleFor(styles, State()));
      PrepareForRedraw();
    }

    /** `updateImage()`. */
    method UpdateImage()
      modifies this`shown
      ensures shown.image == ImageFor(styles, State()) && shown.text == old(shown.text)
      ensures LayoutCurrent() && SameLook(shown, old(shown))
    {
      shown := shown.(image := ImageFor(styles, State()));
      PrepareForRedraw();
    }

    /** `updateTitleColor()`: the label colour, and the image tint that defaults to it. */
    method UpdateTitleColor()
      modifies this`shown
      ensures shown == old(shown).(textColor := Some(TitleColorFor(styles, State(), tintColor)),
                                   imageTint := Some(ImageTintFor(styles, State(), tintColor)))
    {
      var color := TitleColorFor(styles, State(), tintColor);
      shown := shown.(textColor := Some(color), imageTint := Some(Lookup(styles.imageColors, State()).GetOr(color)));
    }

    /** `updateBackground()`: background and border. */
    method UpdateBackground()
      modifies this`shown
      ensures shown == old(shown).(background := BackgroundFor(styles, State()),
                                   border := Lookup(styles.borderColors, State()))
    {
      shown := shown.(background := BackgroundFor(styles, State()), border := Lookup(styles.borderColors, State()));
    }

    /** `updateGradientBackground()`. */
    method UpdateGradientBackground()
      modifies this`shown
      ensures shown == old(shown).(gradientColors := Lookup(styles.gradientColors, State()),
                                   gradientLocations := Lookup(styles.gradientLocations, State()))
    {
      shown := shown.(gradientColors := Lookup(styles.gradientColors, State()),
                      gradientLocations := Lookup(styles.gradientLocations, State()));
    }

    /** `updateScale()`. */
    method UpdateScale()
      modifies this`shown
      ensures shown == old(shown).(scaled := ScaledFor(styles, State()))
    {
      shown := shown.(scaled := ScaledFor(styles, State()));
    }

    /**
     * What `update()` leaves behind, relative to the state before it. Title
     * and image always follow the state. The colours are refreshed only
     * when the state differs from `renderedState`: at once when not animated
     * (leaving `renderedState` as it was), or animated, in which case
     * `renderedState` is assigned first, so the gradient animation starts
     * from the new state's lists, and the gradient layer itself is not
     * reassigned.
     */
    twostate predicate Updated()
      reads this
    {
      && shown.text == TitleFor(styles, State()) && shown.image == ImageFor(styles, State()) && LayoutCurrent()
      && (old(renderedState) == State() ==>
            SameLook(shown, old(shown)) && renderedState == old(renderedState) && animations == old(animations))
      && (old(renderedState) != State() && !isAnimated ==>
            && ColorsShow(shown, styles, State(), tintColor) && GradientShows(shown, styles, State())
            && renderedState == old(renderedState) && animations == old(animations))
      && (old(renderedState) != State() && isAnimated ==>
            && ColorsShow(shown, styles, State(), tintColor)
            && shown.gradientColors == old(shown.gradientColors)
            && shown.gradientLocations == old(shown.gradientLocations)
            && renderedState == State()
            && animations == old(animations) + [
                 ColorFade(0.1),
                 GradientAnimation(Lookup(styles.gradientLocations, State()).GetOr([]),
                                   GradientTarget(styles.gradientLocations, State()),
                                   Lookup(styles.gradientColors, State()).GetOr([]),
                                   GradientTarget(styles.gradientColors, State()), 0.1),
                 ScaleAnimation(ScaleCurveFor(State()))])
    }

    /** `update()`. */
    method Update()
      modifies this`shown, this`renderedState, this`animations
      ensures Updated()
    {
      UpdateTitle();
      UpdateImage();
      if renderedState == State() {
        return;
      }
      if !isAnimated {
        UpdateTitleColor();
        UpdateBackground();
        UpdateGradientBackground();
        UpdateScale();
        return;
      }
      renderedState := State();
      UpdateTitleColor();
      UpdateBackground();
      var fade := ColorFade(0.1);
      var gradient := GradientAnimation(Lookup(styles.gradientLocations, renderedState).GetOr([]),
                                        OrElse(Lookup(styles.gradientLocations, State()), Lookup(styles.gradientLocations, Normal)).GetOr([]),
                                        Lookup(styles.gradientColors, renderedState).GetOr([]),
                                        OrElse(Lookup(styles.gradientColors, State()), Lookup(styles.gradientColors, Normal)).GetOr([]),
                                        0.1);
      var curve := if State() == Normal || State() == Selected then Spring else EaseInOut;
      UpdateScale();
      animations := animations + [fade, gradient, ScaleAnimation(curve)];
    }

    /** `layoutSubviews()`: every layout pass runs `update()`. */
    method LayoutSubviews()
      modifies this`shown, this`renderedState, this`animations
      ensures Updated()
    {
      Update();
    }

    /** `setForBrand()`: only a button brand triggers a refresh. */
    method SetForBrand()
      modifies this`shown, this`renderedState, this`animations
      ensures brand.None? ==> shown == old(shown) && renderedState == old(renderedState) && animations == old(animations)
      ensures brand.Some? ==> Updated()
    {
      if brand.Some? {
        Update();
      }
    }

    /** The `isHighlighted` property: its `didSet` calls `update()`. */
    method SetHighlighted(value: bool)
      modifies this`isHighlighted, this`shown, this`renderedState, this`animations
      ensures isHighlighted == value
      ensures Updated()
    {
      isHighlighted := value;
      Update();
    }

    /** The `isSelected` property: its `didSet` calls `update()`. */
    method SetSelected(value: bool)
      modifies this`isSelected, this`shown, this`renderedState, this`animations
      ensures isSelected == value
      ensures Updated()
    {
      isSelected := value;
      Update();
    }

    /** The `isEnabled` property: its `didSet` calls `update()`. */
    method SetEnabled(value: bool)
      modifies this`isEnabled, this`shown, this`renderedState, this`animations
      ensures isEnabled == value
      ensures Updated()
    {
      isEnabled := value;
      Update();
    }

    /** The `tintColor` property: its `didSet` refreshes the label colour. */
    method SetTintColor(color: Color)
      modifies this`tintColor, this`shown
      ensures tintColor == color
      ensures shown == old(shown).(textColor := Some(TitleColorFor(styles, State(), color)),
                                   imageTint := Some(ImageTintFor(styles, State(), color)))
    {
      tintColor := color;
      UpdateTitleColor();
    }

    /** Touch down (and repeated touch down) and drag back inside highlight the button. */
    method TouchDown()
      modifies this`isHighlighted, this`shown, this`renderedState, this`animations
      ensures isHighlighted && State() == (if isSelected then Selected else Highlighted)
      ensures Updated()
    {
      SetHighlighted(true);
    }

    method DragInside()
      modifies this`isHighlighted, this`shown, this`renderedState, this`animations
      ensures isHighlighted
      ensures Updated()
    {
      SetHighlighted(true);
    }

    /** Drag outside and touch cancel clear the highlight. */
    method DragOutside()
      modifies this`isHighlighted, this`shown, this`renderedState, this`animations
      ensures !isHighlighted
      ensures Updated()
    {
      SetHighlighted(false);
    }

    /** Touch up inside clears the highlight, then runs `tapped`. */
    method TouchUpInside()
      modifies this`isHighlighted, this`shown, this`renderedState, this`animations, this`taps
      ensures !isHighlighted && taps == old(taps) + 1
      ensures Updated()
    {
      SetHighlighted(false);
      taps := taps + 1;
    }

    /** The `title` property: the normal title, then a title refresh. */
    method SetTitleProperty(title: Option<string>)
      modifies this`styles, this`shown
      ensures styles == old(styles).(titles := Store(old(styles).titles, Normal, title))
      ensures shown.text == TitleFor(styles, State()) && shown.image == old(shown.image)
      ensures LayoutCurrent() && SameLook(shown, old(shown))
    {
      styles := styles.(titles := Store(styles.titles, Normal, title));
      UpdateTitle();
    }

    /** The `backgroundColor` property: the normal background, then a background refresh. */
    method SetBackgroundColorProperty(color: Option<Color>)
      modifies this`styles, this`shown
      ensures styles == old(styles).(backgroundColors := Store(old(styles).backgroundColors, Normal, color))
      ensures shown == old(shown).(background := BackgroundFor(styles, State()), border := Lookup(styles.borderColors, State()))
    {
      styles := styles.(backgroundColors := Store(styles.backgroundColors, Normal, color));
      UpdateBackground();
    }

    /** `setTitle(_:for:)`: the title of one state; refreshed only if that is the current state. */
    method SetTitle(title: Option<string>, s: ControlState)
      modifies this`styles, this`shown
      ensures styles == old(styles).(titles := Store(old(styles).titles, s, title))
      ensures s == State() ==>
        shown.text == TitleFor(styles, State()) && shown.image == old(shown.image) && LayoutCurrent() && SameLook(shown, old(shown))
      ensures s != State() ==> shown == old(shown)
    {
      styles := styles.(titles := Store(styles.titles, s, title));
      if State() == s { UpdateTitle(); }
    }

    /** `setTitleColor(_:for:)`. */
    method SetTitleColor(color: Option<Color>, s: ControlState)
      modifies this`styles, this`shown
      ensures styles == old(styles).(titleColors := Store(old(styles).titleColors, s, color))
      ensures s == State() ==> shown == old(shown).(textColor := Some(TitleColorFor(styles, s, tintColor)),
                                                    imageTint := Some(ImageTintFor(styles, s, tintColor)))
      ensures s != State() ==> shown == old(shown)
    {
      styles := styles.(titleColors := Store(styles.titleColors, s, color));
      if State() == s { UpdateTitleColor(); }
    }

    /** `setImageColor(_:for:)`: refreshes through the title colour update. */
    method SetImageColor(color: Option<Color>, s: ControlState)
      modifies this`styles, this`shown
      ensures styles == old(styles).(imageColors := Store(old(styles).imageColors, s, color))
      ensures s == State() ==> shown == old(shown).(textColor := Some(TitleColorFor(styles, s, tintColor)),
                                                    imageTint := Some(ImageTintFor(styles, s, tintColor)))
      ensures s != State() ==> shown == old(shown)
    {
      styles := styles.(imageColors := Store(styles.imageColors, s, color));
      if State() == s { UpdateTitleColor(); }
    }

    /** `setImage(_:for:)`. */
    method SetImage(image: Option<Image>, s: ControlState)
      modifies this`styles, this`shown
      ensures styles == old(styles).(images := Store(old(styles).images, s, image))
      ensures s == State() ==>
        shown.image == ImageFor(styles, s) && shown.text == old(shown.text) && LayoutCurrent() && SameLook(shown, old(shown))
      ensures s != State() ==> shown == old(shown)
    {
      styles := styles.(images := Store(styles.images, s, image));
      if State() == s { UpdateImage(); }
    }

    /** `setBackgroundColor(_:for:)`. */
    method SetBackgroundColor(color: Option<Color>, s: ControlState)
      modifies this`styles, this`shown
      ensures styles == old(styles).(backgroundColors := Store(old(styles).backgroundColors, s, color))
      ensures s == State() ==> shown == old(shown).(background := BackgroundFor(styles, s), border := Lookup(styles.borderColors, s))
      ensures s != State() ==> shown == old(shown)
    {
      styles := styles.(backgroundColors := Store(styles.backgroundColors, s, color));
      if State() == s { UpdateBackground(); }
    }

    /** `setBorderColor(_:for:)`. */
    method SetBorderColor(color: Option<Color>, s: ControlState)
      modifies this`styles, this`shown
      ensures styles == old(styles).(borderColors := Store(old(styles).borderColors, s, color))
      ensures s == State() ==> shown == old(shown).(background := BackgroundFor(styles, s), border := Lookup(styles.borderColors, s))
      ensures s != State() ==> shown == old(shown)
    {
      styles := styles.(borderColors := Store(styles.borderColors, s, color));
      if State() == s { UpdateBackground(); }
    }

    /**
     * `setGradientColors(_:for:)`: colours and locations of one state. The
     * refresh it triggers is the background one, so the gradient layer is
     * not updated until the next colour refresh.
     */
    method SetGradientColors(stops: Option<seq<(Color, real)>>, s: ControlState)
      modifies this`styles, this`shown
      ensures styles == old(styles).(
        gradientColors := Store(old(styles).gradientColors, s,
                                if stops.Some? then Some(seq(|stops.value|, (k: int) requires 0 <= k < |stops.value| => stops.value[k].0)) else None),
        gradientLocations := Store(old(styles).gradientLocations, s,
                                   if stops.Some? then Some(seq(|stops.value|, (k: int) requires 0 <= k < |stops.value| => stops.value[k].1)) else None))
      ensures s == State() ==> shown == old(shown).(background := BackgroundFor(styles, s), border := Lookup(styles.borderColors, s))
      ensures s != State() ==> shown == old(shown)
    {
      var colors := if stops.Some? then Some(seq(|stops.value|, (k: int) requires 0 <= k < |stops.value| => stops.value[k].0)) else None;
      var locations := if stops.Some? then Some(seq(|stops.value|, (k: int) requires 0 <= k < |stops.value| => stops.value[k].1)) else None;
      styles := styles.(gradientColors := Store(styles.gradientColors, s, colors),
                        gradientLocations := Store(styles.gradientLocations, s, locations));
      if State() == s { UpdateBackground(); }
    }

    /** `setDoesScale(_:for:)`: recorded, never refreshed. */
    method SetDoesScale(doesScale: bool, s: ControlState)
      modifies this`styles
      ensures styles == old(styles).(scales := old(styles).scales[s := doesScale])
    {
      styles := styles.(scales := styles.scales[s := doesScale]);
    }

    /** `imageTitlePadding`: the content view's spacing, whose `didSet` redraws. */
    method SetImageTitlePadding(padding: real)
      modifies this`spacing, this`shown
      ensures spacing == padding && LayoutCurrent()
      ensures shown.text == old(shown.text) && shown.image == old(shown.image) && SameLook(shown, old(shown))
    {
      spacing := padding;
      PrepareForRedraw();
    }

    /** `imageScale`: the content view's image scale, whose `didSet` redraws. */
    method SetImageScale(scale: real)
      modifies this`imageScale, this`shown
      ensures imageScale == scale && LayoutCurrent()
      ensures shown.text == old(shown.text) && shown.image == old(shown.image) && SameLook(shown, old(shown))
    {
      imageScale := scale;
      PrepareForRedraw();
    }

    /** `pin(sizeIn:)`: the width and the height pin, with the current brand's keyline. */
    method PinSize(keyline: real) returns (pins: seq<Pin>)
      ensures pins == [WidthPin(size, brand, keyline), HeightPin(size, brand)]
      ensures size.width == NaturalWidth ==> pins[0] == NoPin
    {
      pins := [WidthPin(size, brand, keyline), HeightPin(size, brand)];
    }
  }

  /**
   * Without animation, a press and release leaves the pressed background on
   * screen: the press refreshes the colours but keeps `renderedState` at
   * normal, so the release, back in the normal state, skips the refresh.
   */
  method StaleHighlightAfterRelease() returns (b: Button)
    ensures b.State() == Normal
    ensures BackgroundFor(b.styles, Normal) == Some(Named("rest"))
    ensures b.shown.background == Some(Named("pressed"))
    ensures !ColorsShow(b.shown, b.styles, b.State(), b.tintColor)
  {
    b := new Button(Size(Full, Large), Some(BrandMetrics(-32.0, 52.0)), Named("tint"), 52.0, 16.0);
    b.SetBackgroundColor(Some(Named("rest")), Normal);
    b.SetBackgroundColor(Some(Named("pressed")), Highlighted);
    b.TouchDown();
    assert b.shown.background == Some(Named("pressed"));
    b.TouchUpInside();
  }
}
