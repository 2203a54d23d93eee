# fractal design system — a Dafny model of its core

This project models the core of the fractal iOS design system: the brand
manager, its typographies, the two button controls, the section system's
table controller, the carousel and peeking-content sections, the
`Observable` value box and the sample `FractalBrand`. Each part is modelled
in the same form as the Swift code. Pure switches and computed properties
are functions. The mutable classes (buttons, observable, table controller,
brand manager, rebrand walk) are Dafny classes, with `modifies` clauses and
loops carrying their invariants.

Modules, one per Swift file plus three shared ones:

| module | models |
|---|---|
| `Wrappers` | Swift optionals (`??`), dictionary reads and writes (`dict[k] = nil` removes the key), repetition-free arrays |
| `ControlStates` | `UIControl.State` as a triple of flags, and the buttons' four-way `state` |
| `Typographies` | `Typography`, its `name`, `==` and `====` |
| `Rebranding` | `rebrandViewHierarchy()`: the walk over views and controllers, and the de-duplicated `setForBrand()` calls |
| `Brands` | `BrandManager`: brand changes, the cross-fade, the content size category |
| `ButtonStyles` | what both buttons share: the per-state style tables and their fallbacks, `computedBackgroundColor`, the size pins |
| `Buttons` | `Button`, including its `update()` exactly as written |
| `NewButtons` | `NewButton`, with its reworked `update()` and `updateImage()` |
| `PeekingContent` | `PeekingContentSection`: items interleaved with padding slots |
| `Carousel` | `CarouselSection`: index adjustment, reuse identifier, cell size, sections closure |
| `SectionTables` | `SectionTableViewController`: the reload plan, `finished()`, `setForBrand()` |
| `Observables` | `Observable<V>`: observers, notification and repeat suppression |
| `FractalBrand` | the sample brand's spacing, icon, font size, weight and font name tables |

Some modelling choices:
- A view hierarchy is two arenas of numbered nodes. Children have larger
  numbers than their parents, as in any tree, so the walk terminates.
- Colours and images are names, and `darker()`, `lighter()` and `alpha()`
  are tags on a colour.
- What UIKit shows is an `Appearance` value held by the button.
- Animations are recorded as events.

The main results:
- `Button` shows stale colours: its `update()` never moves `renderedState`
  on the immediate path, so after a press and release it keeps showing the
  pressed colours.
- `NewButton` shows the current state's colours after every `update()`,
  which flag changes, touches, button-brand changes and each layout pass
  run. A setter for another state leaves the derived colours stale until
  the next `update()`.
- Within one controller's view tree, the rebrand walk collects exactly the
  brandable, non-stack views it can reach.
- The controller walk is complete: every controller it enters has its view
  tree collected, and it and every brandable controller of its navigation
  stack and children are recorded.
- A presented controller is recorded but never entered through the
  presentation edge, so its views are rebranded only if some other path
  reaches them.
- Every distinct node is told `setForBrand()` once, all views before any
  controller.
- Each peeking-content slot maps back to the section and offset it came
  from.
- `Typography ==` ignores `condensed` and the order of modifiers.
- `FractalBrand` never selects the black font weight. It gives strong
  typographies the default size.

A button brand's height of 0 means no height constraint at all, not the
default heights (Button.swift:494-497, `ButtonStyles.HeightPin`).

## Model

| member | source | states |
|---|---|---|
| `Wrappers.Store` | DesignSystem/Sources/DesignSystem/Atoms/Button.swift:275-313 | writing a dictionary entry: the key then reads as the value written (`nil` removes it), every other key reads as before |
| `ControlStates.EffectiveState` | DesignSystem/Sources/DesignSystem/Atoms/Button.swift:60-65 | the state is always one of normal, highlighted, disabled, selected; selected iff selected, highlighted iff not selected and highlighted, normal iff neither and enabled, disabled otherwise |
| `Typographies.Suffix` | DesignSystem/Sources/DesignSystem/BrandManager.swift:225-226 | the part of `name` after the key is empty or starts with a space, and starts with " strong" whenever the typography is strong |
| `Typographies.Name` | DesignSystem/Sources/DesignSystem/BrandManager.swift:223-228 | `name` starts with the key and continues with the modifier suffix |
| `Typographies.IsStrong` | DesignSystem/Sources/DesignSystem/BrandManager.swift:262 | no contract of its own: whether `strong` is among the modifiers |
| `Typographies.UseAccessibility` | DesignSystem/Sources/DesignSystem/BrandManager.swift:260 | no contract of its own: whether `noAccessibility` is absent |
| `Typographies.Equal` | DesignSystem/Sources/DesignSystem/BrandManager.swift:202-204 | no contract of its own: `==` compares names; `EqualCharacterised` and `NameCollision` state what that means |
| `Typographies.ExactlyEqual` | DesignSystem/Sources/DesignSystem/BrandManager.swift:206-211 | no contract of its own: `ExactlyEqualImpliesEqual`, `ExactlyEqualOnDistinct` and `ExactlyEqualNotSymmetric` state what it means |
| `Typographies.ExactlyEqualImpliesEqual` | DesignSystem/Sources/DesignSystem/BrandManager.swift:206-211 | `====` implies `==`, equal modifier counts and every left modifier present on the right |
| `Typographies.SuffixDeterminesFlags` | DesignSystem/Sources/DesignSystem/BrandManager.swift:223-228 | equal suffixes mean the same strong and accessibility flags |
| `Typographies.NameDeterminesKey` | DesignSystem/Sources/DesignSystem/BrandManager.swift:223-228 | for keys without spaces, equal names mean equal keys and equal suffixes |
| `Typographies.EqualCharacterised` | DesignSystem/Sources/DesignSystem/BrandManager.swift:202-204 | for keys without spaces, `==` holds iff the keys are equal and both flags (`strong`, `noAccessibility`) agree; `condensed` and order do not matter |
| `Typographies.NameCollision` | DesignSystem/Sources/DesignSystem/BrandManager.swift:202-204 | a key containing a space collides: "large strong" with no modifiers `==` "large" with `strong` |
| `Typographies.ExactlyEqualOnDistinct` | DesignSystem/Sources/DesignSystem/BrandManager.swift:207-209 | on modifier lists without repetitions, `====` holds iff `==` holds and the modifier sets are equal |
| `Typographies.ExactlyEqualNotSymmetric` | DesignSystem/Sources/DesignSystem/BrandManager.swift:208-209 | with a repeated modifier `====` is not symmetric: [strong, strong] `====` [strong, condensed] but not the reverse |
| `Typographies.CondensedIsLooseOnly` | DesignSystem/Sources/DesignSystem/BrandManager.swift:206-211 | adding `condensed` keeps `==` but breaks `====` |
| `Rebranding.CollectView` | DesignSystem/Sources/DesignSystem/BrandManager.swift:116-127 | `applyTo(view:)` collects only brandable non-stack views, and a collectable view comes after its whole subtree (post-order) |
| `Rebranding.CollectViews` | DesignSystem/Sources/DesignSystem/BrandManager.swift:118-122 | walking sibling views collects only brandable non-stack views |
| `Rebranding.CollectViewCharacterised` | DesignSystem/Sources/DesignSystem/BrandManager.swift:116-127 | a view is collected from a subtree iff it is reachable through arranged subviews of stack views and subviews of other views, brandable and not a stack view |
| `Rebranding.CollectViewsCharacterised` | DesignSystem/Sources/DesignSystem/BrandManager.swift:118-122 | a view is collected from a list of siblings iff one of them reaches it and it is collectable |
| `Rebranding.GrowsTransitive` | DesignSystem/Sources/DesignSystem/BrandManager.swift:113-114 | appending only brandable nodes to `views`/`vcs` composes |
| `Rebranding.WalkController` | DesignSystem/Sources/DesignSystem/BrandManager.swift:129-151 | `applyTo(viewController:)` only appends, only brandable views and controllers, and returns at once for a controller already in `vcs`; completeness is `WalkCovers` |
| `Rebranding.WalkControllers` | DesignSystem/Sources/DesignSystem/BrandManager.swift:144-150 | walking the navigation stack or the children only appends brandable nodes; that each brandable one ends up recorded is `WalksCover` |
| `Rebranding.OwnViewFirst` | DesignSystem/Sources/DesignSystem/BrandManager.swift:133-137 | a controller met for the first time has its own view tree appended first and is then recorded itself, if brandable |
| `Rebranding.PresentedControllerNotEntered` | DesignSystem/Sources/DesignSystem/BrandManager.swift:139-142 | for every controller met for the first time, the presented step only appends a brandable presented controller to `vcs` (and skips a non-brandable one); the walk then continues with the navigation stack and children from that state, collecting no view of the presented controller on the way |
| `Rebranding.Entered` | DesignSystem/Sources/DesignSystem/BrandManager.swift:129-150 | the controllers whose walk body runs: those reached through a navigation stack or children list while not yet in `vcs`; no lemma needs more than its definition |
| `Rebranding.WalkCovers` | DesignSystem/Sources/DesignSystem/BrandManager.swift:129-151 | completeness of `applyTo(viewController:)`: `c` is entered iff it was not yet recorded, and every controller the walk enters ends with its whole view tree in `views`, itself in `vcs` if brandable, and every brandable controller of its navigation stack (when a navigation controller) and children in `vcs` |
| `Rebranding.WalksCover` | DesignSystem/Sources/DesignSystem/BrandManager.swift:144-150 | after walking a list of controllers, every brandable one in the list is in `vcs`, and every controller entered on the way is covered as in `WalkCovers` |
| `Rebranding.RebrandWalk.constructor` | DesignSystem/Sources/DesignSystem/BrandManager.swift:113-114 | the walk starts with empty `views` and `vcs` |
| `Rebranding.RebrandWalk.ApplyToView` | DesignSystem/Sources/DesignSystem/BrandManager.swift:116-127 | the recursive method appends exactly `CollectView` to `views` |
| `Rebranding.RebrandWalk.ApplyToController` | DesignSystem/Sources/DesignSystem/BrandManager.swift:129-151 | the recursive method leaves `views`/`vcs` exactly as `WalkController` says |
| `Rebranding.RebrandWalk.ApplyToControllers` | DesignSystem/Sources/DesignSystem/BrandManager.swift:144-150 | the `forEach` over controllers leaves exactly `WalkControllers` |
| `Rebranding.DistinctElements` | DesignSystem/Sources/DesignSystem/BrandManager.swift:154-155 | iterating `Set(xs)` visits each distinct element of `xs` exactly once, in some order |
| `Rebranding.RebrandViewHierarchy` | DesignSystem/Sources/DesignSystem/BrandManager.swift:107-156 | without a root nothing is invoked; otherwise each collected view and controller gets `setForBrand()` exactly once, views before controllers |
| `Brands.Announce` | DesignSystem/Sources/DesignSystem/BrandManager.swift:154-155 | one `setForBrand()` event per invoked node, in order |
| `Brands.ContentSizeCategory` | DesignSystem/Sources/DesignSystem/BrandManager.swift:82-87 | with the override switched on, the stored category (or "medium" when none is stored) wins; otherwise the system's |
| `Brands.BrandManager.constructor` | DesignSystem/Sources/DesignSystem/BrandManager.swift:66-80 | a new manager has no root, is in its initial load and has done nothing |
| `Brands.BrandManager.SetRoot` | DesignSystem/Sources/DesignSystem/BrandManager.swift:69 | setting the root controller |
| `Brands.BrandManager.SetBrand` | DesignSystem/Sources/DesignSystem/BrandManager.swift:67 | assigning `brand` runs `brandDidChange()` |
| `Brands.BrandManager.BrandDidChange` | DesignSystem/Sources/DesignSystem/BrandManager.swift:89-105 | a cross-fade exactly when not the initial load, a root is set and it could be snapshotted; the initial load is always over afterwards; the rebrand always follows |
| `Brands.BrandManager.ContentSizeCategoryDidChange` | DesignSystem/Sources/DesignSystem/BrandManager.swift:75-77 | the content size notification rebrands without a cross-fade and without touching the initial-load flag |
| `Brands.FirstChangeNeverFades` | DesignSystem/Sources/DesignSystem/BrandManager.swift:93-103 | with a root set, the first brand change only rebrands and the second cross-fades first |
| `ButtonStyles.TitleFor` | DesignSystem/Sources/DesignSystem/Atoms/Button.swift:253 | the title is the state's own entry, else the normal one |
| `ButtonStyles.ImageFor` | DesignSystem/Sources/DesignSystem/Atoms/Button.swift:258 | the image is the state's own entry, else the normal one |
| `ButtonStyles.TitleColorFor` | DesignSystem/Sources/DesignSystem/Atoms/Button.swift:264 | the label colour is the state's own, else the normal one, else the tint colour |
| `ButtonStyles.ImageTintFor` | DesignSystem/Sources/DesignSystem/Atoms/Button.swift:266 | the image tint is the state's own image colour, else the resolved label colour |
| `ButtonStyles.ComputedBackgroundOnButtonStates` | DesignSystem/Sources/DesignSystem/Atoms/Button.swift:327-337 | on the four states a button reports, the derived background is the normal one (normal), faded (disabled) or darkened (highlighted, selected), and nothing without a normal background; the composite branches are never taken |
| `ButtonStyles.ComputedBackground` | DesignSystem/Sources/DesignSystem/Atoms/Button.swift:327-337 | no contract of its own; `ComputedBackgroundOnButtonStates` states its value on every state a button reports |
| `ButtonStyles.BackgroundFor` | DesignSystem/Sources/DesignSystem/Atoms/Button.swift:243 | the background is the state's own colour, else the derived one |
| `ButtonStyles.ScaledFor` | DesignSystem/Sources/DesignSystem/Atoms/Button.swift:270 | the button shrinks iff its state's scale flag is set and true |
| `ButtonStyles.GradientTarget` | DesignSystem/Sources/DesignSystem/Atoms/Button.swift:217 | a gradient animation ends at the state's list, else the normal one, else the empty list |
| `ButtonStyles.LabelOffset` | DesignSystem/Sources/DesignSystem/Atoms/Button.swift:419-422 | the label is flush left when the image is hidden; otherwise it leaves room for the image (content height times scale) and the padding |
| `ButtonStyles.WidthPin` | DesignSystem/Sources/DesignSystem/Atoms/Button.swift:464-475 | natural width gives no pin (iff); a custom width is fixed; full and half follow the container, inset by the button brand's padding or else by two of the current brand's keylines (`CGFloat.keyline`, BrandManager.swift:432), half at multiplier 0.5 |
| `ButtonStyles.DefaultHeightPin` | DesignSystem/Sources/DesignSystem/Atoms/Button.swift:479-492 | natural height gives no pin (iff); a custom height is fixed |
| `ButtonStyles.HeightPin` | DesignSystem/Sources/DesignSystem/Atoms/Button.swift:477-500 | a button brand's height wins, 0 meaning no pin; only without a button brand do the defaults apply |
| `ButtonStyles.ScaleCurveFor` | DesignSystem/Sources/DesignSystem/Atoms/Button.swift:226-239 | the scale animation is a spring exactly when returning to normal or selected |
| `Buttons.Button.constructor` | DesignSystem/Sources/DesignSystem/Atoms/Button.swift:118-144 | a new button is enabled, normal, with `renderedState` normal, no styles and no animations, content spacing the brand's keyline (362) and image scale 1; `setForBrand()` refreshes title and image only |
| `Buttons.Button.State` | DesignSystem/Sources/DesignSystem/Atoms/Button.swift:60-65 | no contract of its own: `ControlStates.EffectiveState` of the three flags, whose contract gives the four-way precedence |
| `Buttons.Button.PrepareForRedraw` | DesignSystem/Sources/DesignSystem/Atoms/Button.swift:408-420 | the image hides when absent or the `none` placeholder, the label when its text is absent or empty, and the label offset follows |
| `Buttons.Button.UpdateTitle` | DesignSystem/Sources/DesignSystem/Atoms/Button.swift:252-255 | the label shows the state's title and the layout is redone |
| `Buttons.Button.UpdateImage` | DesignSystem/Sources/DesignSystem/Atoms/Button.swift:257-261 | the image view shows the state's image and the layout is redone |
| `Buttons.Button.UpdateTitleColor` | DesignSystem/Sources/DesignSystem/Atoms/Button.swift:263-267 | label colour and image tint become the state's; nothing else changes |
| `Buttons.Button.UpdateBackground` | DesignSystem/Sources/DesignSystem/Atoms/Button.swift:242-245 | background and border become the state's; nothing else changes |
| `Buttons.Button.UpdateGradientBackground` | DesignSystem/Sources/DesignSystem/Atoms/Button.swift:247-250 | the gradient layer takes the state's own lists, with no fallback |
| `Buttons.Button.UpdateScale` | DesignSystem/Sources/DesignSystem/Atoms/Button.swift:269-271 | the scale becomes the state's |
| `Buttons.Button.Update` | DesignSystem/Sources/DesignSystem/Atoms/Button.swift:192-240 | the twostate predicate `Updated`: title and image always follow the state; colours untouched when the state equals `renderedState`; otherwise refreshed at once with `renderedState` left as it was, or animated with `renderedState` set first so the gradient starts from the new state, the gradient layer itself keeping its lists, and exactly a 0.1 s fade, the gradient animation and the scale animation logged |
| `Buttons.Button.LayoutSubviews` | DesignSystem/Sources/DesignSystem/Atoms/Button.swift:150-153 | every layout pass establishes the whole of `Updated` |
| `Buttons.Button.SetForBrand` | DesignSystem/Sources/DesignSystem/Atoms/Button.swift:177-190 | without a button brand nothing changes; with one, the whole of `Updated` (every path of `update()`) |
| `Buttons.Button.SetHighlighted` | DesignSystem/Sources/DesignSystem/Atoms/Button.swift:78 | the flag is set and its `didSet` leaves the whole of `Updated` for the new state: title, image, colours, gradient, `renderedState` and animations on each of the three paths |
| `Buttons.Button.SetSelected` | DesignSystem/Sources/DesignSystem/Atoms/Button.swift:77 | the flag is set and its `didSet` leaves the whole of `Updated` for the new state: title, image, colours, gradient, `renderedState` and animations on each of the three paths |
| `Buttons.Button.SetEnabled` | DesignSystem/Sources/DesignSystem/Atoms/Button.swift:79 | the flag is set and its `didSet` leaves the whole of `Updated` for the new state: title, image, colours, gradient, `renderedState` and animations on each of the three paths |
| `Buttons.Button.SetTintColor` | DesignSystem/Sources/DesignSystem/Atoms/Button.swift:80 | a new tint refreshes label colour and image tint |
| `Buttons.Button.TouchDown` | DesignSystem/Sources/DesignSystem/Atoms/Button.swift:157-159 | touch down highlights (state highlighted unless selected), with the whole of `Updated`, including `renderedState` on every path |
| `Buttons.Button.DragInside` | DesignSystem/Sources/DesignSystem/Atoms/Button.swift:161-163 | drag enter highlights, with the whole of `Updated` |
| `Buttons.Button.DragOutside` | DesignSystem/Sources/DesignSystem/Atoms/Button.swift:171-173 | drag exit and cancel clear the highlight, with the whole of `Updated` |
| `Buttons.Button.TouchUpInside` | DesignSystem/Sources/DesignSystem/Atoms/Button.swift:165-169 | touch up inside clears the highlight with the whole of `Updated`, then `tapped` runs exactly once |
| `Buttons.Button.SetTitleProperty` | DesignSystem/Sources/DesignSystem/Atoms/Button.swift:67-70 | `title` writes the normal title and always refreshes the title, leaving the image and colours as they were |
| `Buttons.Button.SetBackgroundColorProperty` | DesignSystem/Sources/DesignSystem/Atoms/Button.swift:72-75 | `backgroundColor` writes the normal background and always refreshes the background |
| `Buttons.Button.SetTitle` | DesignSystem/Sources/DesignSystem/Atoms/Button.swift:275-278 | stores the state's title; for the current state shows it and relays out, leaving the image and colours as they were; else nothing shown changes |
| `Buttons.Button.SetTitleColor` | DesignSystem/Sources/DesignSystem/Atoms/Button.swift:280-283 | stores the state's title colour; refreshes only for the current state |
| `Buttons.Button.SetImageColor` | DesignSystem/Sources/DesignSystem/Atoms/Button.swift:285-288 | stores the state's image colour; refreshes (through the title colour) only for the current state |
| `Buttons.Button.SetImage` | DesignSystem/Sources/DesignSystem/Atoms/Button.swift:290-293 | stores the state's image; for the current state shows it and relays out, leaving the title and colours as they were |
| `Buttons.Button.SetBackgroundColor` | DesignSystem/Sources/DesignSystem/Atoms/Button.swift:295-298 | stores the state's background; refreshes only for the current state |
| `Buttons.Button.SetBorderColor` | DesignSystem/Sources/DesignSystem/Atoms/Button.swift:300-303 | stores the state's border; refreshes the background only for the current state |
| `Buttons.Button.SetGradientColors` | DesignSystem/Sources/DesignSystem/Atoms/Button.swift:305-309 | stores the state's gradient colours and locations (or removes both); the refresh it triggers is the background's, not the gradient's |
| `Buttons.Button.SetDoesScale` | DesignSystem/Sources/DesignSystem/Atoms/Button.swift:311-313 | stores the flag and refreshes nothing |
| `Buttons.Button.SetImageTitlePadding` | DesignSystem/Sources/DesignSystem/Atoms/Button.swift:101 | the padding is the content view's spacing, whose change redoes the layout |
| `Buttons.Button.SetImageScale` | DesignSystem/Sources/DesignSystem/Atoms/Button.swift:364-369 | a new image scale redoes the layout |
| `Buttons.Button.PinSize` | DesignSystem/Sources/DesignSystem/Atoms/Button.swift:452-455 | `pin(sizeIn:)` is the width pin with the current brand's keyline, then the height pin |
| `Buttons.StaleHighlightAfterRelease` | DesignSystem/Sources/DesignSystem/Atoms/Button.swift:197-204 | without animation, press and release leave the pressed background on screen while the state is normal |
| `NewButtons.StyleEquals` | DesignSystem/Sources/DesignSystem/Atoms/NewButton.swift:341-346 | two styles are equal iff their raw strings are |
| `NewButtons.NewButton.constructor` | DesignSystem/Sources/DesignSystem/Atoms/NewButton.swift:59-96 | after `setForBrand()` and the unconditional `update()`, a new button shows the normal state's colours, gradient and image layout; image/title padding is the brand's keyline (51) and image scale 1 |
| `NewButtons.NewButton.State` | DesignSystem/Sources/DesignSystem/Atoms/NewButton.swift:28-33 | no contract of its own: `ControlStates.EffectiveState` of the three flags |
| `NewButtons.NewButton.UpdateTitle` | DesignSystem/Sources/DesignSystem/Atoms/NewButton.swift:202-204 | the label shows the state's title; nothing else changes |
| `NewButtons.NewButton.UpdateImage` | DesignSystem/Sources/DesignSystem/Atoms/NewButton.swift:206-216 | no image or the placeholder: image view hidden, label offset 0, old image kept; otherwise shown with offset content height times scale plus padding |
| `NewButtons.NewButton.UpdateTitleColor` | DesignSystem/Sources/DesignSystem/Atoms/NewButton.swift:218-222 | label colour and image tint become the state's |
| `NewButtons.NewButton.UpdateBackground` | DesignSystem/Sources/DesignSystem/Atoms/NewButton.swift:192-195 | background and border become the state's |
| `NewButtons.NewButton.UpdateGradientBackground` | DesignSystem/Sources/DesignSystem/Atoms/NewButton.swift:197-200 | the gradient layer takes the state's own lists |
| `NewButtons.NewButton.UpdateScale` | DesignSystem/Sources/DesignSystem/Atoms/NewButton.swift:224-226 | the scale becomes the state's |
| `NewButtons.NewButton.Update` | DesignSystem/Sources/DesignSystem/Atoms/NewButton.swift:144-190 | the twostate predicate `Updated`: the colours shown are always the current state's; unless animated with a changed state everything applies at once and `renderedState` and the animations are untouched; otherwise the gradient layer keeps its lists, a 0.2 s fade, a gradient animation from the previously rendered state's lists and the scale animation are logged, and `renderedState` becomes the state |
| `NewButtons.NewButton.RefreshAll` | DesignSystem/Sources/DesignSystem/Atoms/NewButton.swift:149-155 | the immediate path applies colours, background, gradient and scale of the state |
| `NewButtons.NewButton.AnimateToState` | DesignSystem/Sources/DesignSystem/Atoms/NewButton.swift:157-189 | the animated path: colours to the state, gradient from the old `renderedState`'s lists to the target, then `renderedState` is the state |
| `NewButtons.NewButton.LayoutSubviews` | DesignSystem/Sources/DesignSystem/Atoms/NewButton.swift:102-105 | every layout pass establishes the whole of `Updated`, so the current state's colours show after it |
| `NewButtons.NewButton.SetForBrand` | DesignSystem/Sources/DesignSystem/Atoms/NewButton.swift:129-142 | without a button brand nothing changes; with one, the whole of `Updated` |
| `NewButtons.NewButton.SetHighlighted` | DesignSystem/Sources/DesignSystem/Atoms/NewButton.swift:46 | the flag is set and its `didSet` leaves the whole of `Updated` for the new state, animated path included |
| `NewButtons.NewButton.SetSelected` | DesignSystem/Sources/DesignSystem/Atoms/NewButton.swift:45 | the flag is set and its `didSet` leaves the whole of `Updated` for the new state, animated path included |
| `NewButtons.NewButton.SetEnabled` | DesignSystem/Sources/DesignSystem/Atoms/NewButton.swift:47 | the flag is set and its `didSet` leaves the whole of `Updated` for the new state, animated path included |
| `NewButtons.NewButton.SetTintColor` | DesignSystem/Sources/DesignSystem/Atoms/NewButton.swift:48 | a new tint refreshes label colour and image tint |
| `NewButtons.NewButton.TouchDown` | DesignSystem/Sources/DesignSystem/Atoms/NewButton.swift:109-111 | touch down highlights (highlighted unless selected), with the whole of `Updated` |
| `NewButtons.NewButton.DragInside` | DesignSystem/Sources/DesignSystem/Atoms/NewButton.swift:113-115 | drag enter highlights, with the whole of `Updated` |
| `NewButtons.NewButton.DragOutside` | DesignSystem/Sources/DesignSystem/Atoms/NewButton.swift:123-125 | drag exit and cancel clear the highlight, with the whole of `Updated` |
| `NewButtons.NewButton.TouchUpInside` | DesignSystem/Sources/DesignSystem/Atoms/NewButton.swift:117-121 | touch up inside clears the highlight with the whole of `Updated`, then `tapped` runs exactly once |
| `NewButtons.NewButton.SetTitleProperty` | DesignSystem/Sources/DesignSystem/Atoms/NewButton.swift:35-38 | `title` writes the normal title and refreshes the title |
| `NewButtons.NewButton.SetBackgroundColorProperty` | DesignSystem/Sources/DesignSystem/Atoms/NewButton.swift:40-43 | `backgroundColor` writes the normal background and refreshes the background |
| `NewButtons.NewButton.SetTitle` | DesignSystem/Sources/DesignSystem/Atoms/NewButton.swift:230-233 | stores the state's title; refreshes only for the current state |
| `NewButtons.NewButton.SetTitleColor` | DesignSystem/Sources/DesignSystem/Atoms/NewButton.swift:235-238 | stores the state's title colour; refreshes only for the current state |
| `NewButtons.NewButton.SetImageColor` | DesignSystem/Sources/DesignSystem/Atoms/NewButton.swift:240-243 | stores the state's image colour; refreshes only for the current state |
| `NewButtons.NewButton.SetImage` | DesignSystem/Sources/DesignSystem/Atoms/NewButton.swift:245-248 | stores the state's image; lays the image out again only for the current state, leaving the title, the label's visibility and (when the image is hidden) the image as they were |
| `NewButtons.NewButton.SetBackgroundColor` | DesignSystem/Sources/DesignSystem/Atoms/NewButton.swift:250-253 | stores the state's background; refreshes only for the current state |
| `NewButtons.NewButton.SetBorderColor` | DesignSystem/Sources/DesignSystem/Atoms/NewButton.swift:255-258 | stores the state's border; refreshes only for the current state |
| `NewButtons.NewButton.SetGradientColors` | DesignSystem/Sources/DesignSystem/Atoms/NewButton.swift:260-264 | stores the state's gradient; refreshes the background only for the current state |
| `NewButtons.NewButton.SetDoesScale` | DesignSystem/Sources/DesignSystem/Atoms/NewButton.swift:266-268 | stores the flag and refreshes nothing |
| `NewButtons.NewButton.SetImageTitlePadding` | DesignSystem/Sources/DesignSystem/Atoms/NewButton.swift:51 | a new padding lays the image out again, leaving the title, the label's visibility and (when the image is hidden) the image as they were |
| `NewButtons.NewButton.SetImageScale` | DesignSystem/Sources/DesignSystem/Atoms/NewButton.swift:52-54 | a new image scale only transforms the image view |
| `NewButtons.NewButton.PinSize` | DesignSystem/Sources/DesignSystem/Atoms/NewButton.swift:272-275 | `pin(sizeIn:)` is the width pin with the current brand's keyline (`Pin.width` at 408-416 is the shared `WidthPin`), then the height pin |
| `NewButtons.ReleaseRestoresRest` | DesignSystem/Sources/DesignSystem/Atoms/NewButton.swift:149-155 | the press and release that leaves `Button` stale restores the resting background here |
| `PeekingContent.PrefixMonotone` | DesignSystem/Sources/SectionSystem/Sections/PeekingContentSection.swift:67-72 | running totals of item counts never decrease |
| `PeekingContent.SaltedContentCount` | DesignSystem/Sources/SectionSystem/Sections/PeekingContentSection.swift:27-32 | zero slots iff no items; otherwise an odd count, one more than twice the items |
| `PeekingContent.TruncatingHalf` | DesignSystem/Sources/SectionSystem/Sections/PeekingContentSection.swift:35 | Swift's `/ 2` rounds toward zero |
| `PeekingContent.UnsaltedIndex` | DesignSystem/Sources/SectionSystem/Sections/PeekingContentSection.swift:34-36 | slot `i >= 1` holds item `(i - 1) / 2` (slots `2k+1` and `2k+2` give `k`); slot 0 gives 0 |
| `PeekingContent.SectionAt` | DesignSystem/Sources/SectionSystem/Sections/PeekingContentSection.swift:60-76 | no contract of its own: `SectionAtSlots` states which section every slot gets and `LocateSection` that the loop computes it |
| `PeekingContent.GivenSectionIndex` | DesignSystem/Sources/SectionSystem/Sections/PeekingContentSection.swift:94-106 | no contract of its own: `SearchFindsOwner` and `SlotRoundTrip` state the offset it finds |
| `PeekingContent.ItemCount` | DesignSystem/Sources/SectionSystem/Sections/PeekingContentSection.swift:78-80 | no contract of its own: `itemCount` is `SaltedContentCount`, whose contract gives 0 or 2n+1 |
| `PeekingContent.CountSalted` | DesignSystem/Sources/SectionSystem/Sections/PeekingContentSection.swift:27-32 | the counting loop computes `SaltedContentCount` |
| `PeekingContent.LocateSection` | DesignSystem/Sources/SectionSystem/Sections/PeekingContentSection.swift:60-76 | the search loop of `section(at:)` computes `SectionAt` |
| `PeekingContent.LocateGivenIndex` | DesignSystem/Sources/SectionSystem/Sections/PeekingContentSection.swift:94-106 | the search loop of `givenSectionIndex(from:)` computes `GivenSectionIndex` |
| `PeekingContent.AllSections` | DesignSystem/Sources/SectionSystem/Sections/PeekingContentSection.swift:56-58 | the given sections in order, then the bookend padding, then the inter-item padding |
| `PeekingContent.SearchFindsOwner` | DesignSystem/Sources/SectionSystem/Sections/PeekingContentSection.swift:66-72 | both searches find the section whose item range contains the item, and the offset into it, or nothing past the last item |
| `PeekingContent.SectionAtSlots` | DesignSystem/Sources/SectionSystem/Sections/PeekingContentSection.swift:60-76 | first and last slot are the bookend padding, other even slots the inter-item padding, odd slots the section owning item `(i - 1) / 2` with the matching offset |
| `PeekingContent.SlotRoundTrip` | DesignSystem/Sources/SectionSystem/Sections/PeekingContentSection.swift:94-106 | item `o` of section `j` sits in slot `2(Prefix(j) + o) + 1`, which maps back to section `j` and offset `o` |
| `PeekingContent.OwnerUnique` | DesignSystem/Sources/SectionSystem/Sections/PeekingContentSection.swift:68-71 | at most one section owns an item |
| `PeekingContent.EmptyHasNoSlots` | DesignSystem/Sources/SectionSystem/Sections/PeekingContentSection.swift:27-32 | with no items there are no slots, slot 0 reads as the bookend, and no slot has a given-section offset |
| `PeekingContent.UnsaltedIndexTruncates` | DesignSystem/Sources/SectionSystem/Sections/PeekingContentSection.swift:34-36 | truncation sends slot 0 to item 0, where floor division would give -1 |
| `Carousel.Modifier` | DesignSystem/Sources/SectionSystem/Sections/CarouselSection.swift:63-72 | left/top give -1, right/bottom +1, center 0 (each iff) |
| `Carousel.AdjustIndexPath` | DesignSystem/Sources/SectionSystem/Sections/CarouselSection.swift:121-127 | only an odd item under double-jump paging moves, by the position's modifier, landing on an even item unless centred; the section never changes |
| `Carousel.CurrentIndexPath` | DesignSystem/Sources/SectionSystem/Sections/CarouselSection.swift:117-128 | a path exactly when a carousel is visible and the probe hits an item; it is the probe adjusted by `AdjustIndexPath` for the paging and offset, so within one item of the probe, in the same section |
| `Carousel.ReuseIdentifier` | DesignSystem/Sources/SectionSystem/Sections/CarouselSection.swift:148-150 | "Carousel_" followed by the id |
| `Carousel.ReuseIdentifierInjective` | DesignSystem/Sources/SectionSystem/Sections/CarouselSection.swift:148-150 | different ids give different reuse identifiers |
| `Carousel.CellSizeIn` | DesignSystem/Sources/SectionSystem/Sections/CarouselSection.swift:165-180 | the cell spans the view's width; height per height type: view height, width, width times v, view height times v, or v |
| `Carousel.CarouselSection.constructor` | DesignSystem/Sources/SectionSystem/Sections/CarouselSection.swift:92-115 | the initialiser stores its settings and evaluates the sections closure once |
| `Carousel.CarouselSection.WillReload` | DesignSystem/Sources/SectionSystem/Sections/CarouselSection.swift:152-154 | a reload re-evaluates the closure against the current state |
| `SectionTables.SectionIndexes` | DesignSystem/Sources/SectionSystem/TableView/SectionTableViewController.swift:43 | the given indexes, or every section when none are given |
| `SectionTables.Paths` | DesignSystem/Sources/SectionSystem/TableView/SectionTableViewController.swift:50-51 | item `k` of the list becomes the index path (item, section) at position `k` |
| `SectionTables.CollectPaths` | DesignSystem/Sources/SectionSystem/TableView/SectionTableViewController.swift:47-52 | no contract of its own: `CollectPathsMembers` states exactly which paths it collects and `CollectPathsAppend` its order |
| `SectionTables.UpdateEvents` | DesignSystem/Sources/SectionSystem/TableView/SectionTableViewController.swift:54-64 | no contract of its own: the table calls of one `refresh()`, which `Refresh` promises |
| `SectionTables.CollectPathsAppend` | DesignSystem/Sources/SectionSystem/TableView/SectionTableViewController.swift:47-52 | collecting over two runs of sections is the concatenation of collecting over each |
| `SectionTables.CollectPathsMembers` | DesignSystem/Sources/SectionSystem/TableView/SectionTableViewController.swift:47-52 | a path is collected iff its section is walked, the table already shows that section, and the section lists the item |
| `SectionTables.NewSectionsHaveNoRowChanges` | DesignSystem/Sources/SectionSystem/TableView/SectionTableViewController.swift:49 | sections the table does not show yet contribute no row changes |
| `SectionTables.FinishedEvents` | DesignSystem/Sources/SectionSystem/TableView/SectionTableViewController.swift:84-95 | every section hears `didReload` in order, then the `didReload` closure runs if set |
| `SectionTables.SectionTableViewController.constructor` | DesignSystem/Sources/SectionSystem/TableView/SectionTableViewController.swift:106-129 | nothing registered, tear-down on brand change on, no refresh control |
| `SectionTables.SectionTableViewController.ReloadSections` | DesignSystem/Sources/SectionSystem/TableView/SectionTableViewController.swift:21-76 | cells registered only for new sections; sections notified; a spinning refresh control reloads everything; otherwise without animation a section reload (or full reload when no index is given), with animation one batch of inserts then deletes, or an empty batch; `finished()` last |
| `SectionTables.SectionTableViewController.Refresh` | DesignSystem/Sources/SectionSystem/TableView/SectionTableViewController.swift:30-65 | the table calls of `refresh()` for the collected paths, then `finished()` |
| `SectionTables.SectionTableViewController.CollectRowChanges` | DesignSystem/Sources/SectionSystem/TableView/SectionTableViewController.swift:43-52 | the loop gathers exactly the insert and delete paths of the walked sections the table already shows |
| `SectionTables.SectionTableViewController.Finished` | DesignSystem/Sources/SectionSystem/TableView/SectionTableViewController.swift:84-87 | the loop appends exactly `FinishedEvents` |
| `SectionTables.SectionTableViewController.SetForBrand` | DesignSystem/Sources/SectionSystem/TableView/SectionTableViewController.swift:172-175 | sections are torn down and reloaded only when `tearDownOnBrandChange` is on |
| `Observables.SnapshotDelivers` | DesignSystem/Sources/DesignSystem/Utilities/Observable.swift:69-77 | calling, in order, the closure of each observer in a repetition-free snapshot of all observers is one round: each observer once, with its own closure and the value |
| `Observables.Observable.constructor` | DesignSystem/Sources/DesignSystem/Utilities/Observable.swift:34-36 | the initial value is stored without notifying; `previous` is still nil |
| `Observables.Observable.SetValue` | DesignSystem/Sources/DesignSystem/Utilities/Observable.swift:26 | assigning notifies every observer once with the new value unless it repeats the previous one and repeats are ignored; `previous` becomes the value |
| `Observables.Observable.Notify` | DesignSystem/Sources/DesignSystem/Utilities/Observable.swift:61-84 | a round calls each current observer's closure exactly once with the value, or nothing when suppressed |
| `Observables.Observable.Snapshot` | DesignSystem/Sources/DesignSystem/Utilities/Observable.swift:69-75 | the closures are collected before any is called: every observer once, nothing else |
| `Observables.Observable.AddObserver` | DesignSystem/Sources/DesignSystem/Utilities/Observable.swift:38-51 | the object's closure is (re)placed; unless `skipFirst` it is called at once with the current value |
| `Observables.Observable.RemoveObserver` | DesignSystem/Sources/DesignSystem/Utilities/Observable.swift:53-59 | the object no longer observes |
| `Observables.FirstAssignmentNotifies` | DesignSystem/Sources/DesignSystem/Utilities/Observable.swift:25-26 | the first assignment notifies even when it repeats the initial value |
| `Observables.RemovedObserverNotCalled` | DesignSystem/Sources/DesignSystem/Utilities/Observable.swift:53-59 | after removal, later assignments never reach the removed object |
| `FractalBrand.SpacingLadder` | TestApp/TestApp/View/Brands/FractalBrand.swift:55-78 | the spacing ladder doubles at each step from 1 to 128; the keyline equals large spacing, the divider the smallest |
| `FractalBrand.SpacingValue` | TestApp/TestApp/View/Brands/FractalBrand.swift:55-78 | every spacing lies between 1 and 128 points |
| `FractalBrand.IconSizeValue` | TestApp/TestApp/View/Brands/FractalBrand.swift:80-95 | icon sizes are square |
| `FractalBrand.IconSizesIncrease` | TestApp/TestApp/View/Brands/FractalBrand.swift:80-95 | icons strictly grow with their size class |
| `FractalBrand.BaseFontSize` | TestApp/TestApp/View/Brands/FractalBrand.swift:143-170 | as written: the base size lies in 10 to 32, and any strong or `noAccessibility` typography gets the default 16 |
| `FractalBrand.FontSizeAdjustment` | TestApp/TestApp/View/Brands/FractalBrand.swift:172-198 | the adjustment lies in [-2, 7] and is 0 for the medium, large and unspecified categories |
| `FractalBrand.FontSize` | TestApp/TestApp/View/Brands/FractalBrand.swift:143-170 | the final size lies in 8 to 39 points |
| `FractalBrand.FontWeight` | TestApp/TestApp/View/Brands/FractalBrand.swift:212-222 | as written: regular iff not strong, otherwise medium or black |
| `FractalBrand.AdjustmentMonotone` | TestApp/TestApp/View/Brands/FractalBrand.swift:172-198 | the content-size adjustment lies in [-2, 7] and never decreases as the category grows |
| `FractalBrand.FontSizeBounds` | TestApp/TestApp/View/Brands/FractalBrand.swift:143-170 | sizes are at least 8, xxsmall at least 10, and `noAccessibility` typographies keep their base size |
| `FractalBrand.FontName` | TestApp/TestApp/View/Brands/FractalBrand.swift:200-209 | the font is Avenir, Avenir-Black or Avenir-Medium; Black iff the weight is black |
| `FractalBrand.StrongNameHasSpace` | DesignSystem/Sources/DesignSystem/BrandManager.swift:223-228 | a strong typography's name contains a space |
| `FractalBrand.StrongNeverMatchesConstant` | TestApp/TestApp/View/Brands/FractalBrand.swift:146-162 | a strong typography never matches a `case` for a plain key |
| `FractalBrand.FontWeightNeverBlack` | TestApp/TestApp/View/Brands/FractalBrand.swift:212-222 | as written, no typography gets the black weight or the Avenir-Black font |
| `FractalBrand.StrongLargeFallsToDefaultSize` | TestApp/TestApp/View/Brands/FractalBrand.swift:143-170 | as written, strong large text gets the default base 16 while plain large gets 20 |
| `FractalBrand.BaseFontSizeByKey` | TestApp/TestApp/View/Brands/FractalBrand.swift:146-163 | the size table looked up by key stays within 10 to 32 |
| `FractalBrand.ByKeyTablesIntended` | TestApp/TestApp/View/Brands/FractalBrand.swift:212-222 | looked up by key, strong large/xlarge/xxlarge are black and modifiers never change the size class; on unmodified typographies the key tables equal the tables as written |

## Left out

- Animations are recorded as events. Their timing, curves, completion blocks and the layer's in-flight values are not modelled.
- Colour arithmetic (`darker()`, `lighter()`, `alpha()`) is kept as a tag on a colour. Fonts, font metrics and `UIImage.with` bundle lookup are not modelled. `UIImage.none` is one placeholder value.
- `NotificationCenter`, `UserDefaults` and the platform's preferred category are parameters: `Brands.ContentSizeCategory` takes the override flag and stored value, and `FractalBrand` takes the category. Decoding a stored raw string into a category is not modelled.
- Weak references (the root controller, `NSMapTable`'s weak keys and values, associated objects) are not modelled. An observer stays until removed.
- `notify()` stops when an entry is not a closure wrapper. The typed observer map rules this out, so that case is not modelled.
- Observers are keyed by object. The wrapper list that `addObserver` keeps on the observing object is not modelled.
- `Button`'s `observedIsSelected`/`observedIsHighlighted`/`observedIsEnabled` mirrors and `sendActions(for:)` are not modelled. `tapped` is counted.
- Buttons.Button.SetForBrand: the brand's content insets, typography and `configure(_:with:)` callback are brand code and not modelled; only the refresh it triggers is.
- NewButtons.NewButton.SetForBrand: likewise.
- Other `UIControl.State` flags (focused, application, reserved) are not modelled. Composite states are kept only for dictionary keys and `computedBackgroundColor`.
- The intrinsic content size of `Button`'s content view depends on font metrics and is not modelled.
- The table and collection views are not modelled. `tableView.numberOfSections` is a field, and the data source's `registerCells` and `notifySectionsOfReload` become events plus the set of registered identifiers. `SectionControllerDataSource` is not part of this model.
- Index validity: the Swift code traps on an index past `dataSource.sections`. `ReloadSections` therefore requires valid indexes.
- The `DispatchQueue.main.async` hop is not modelled: the reload runs at once. The 0.4 s and 0.1 s delays of `reloadRefresh()` are not modelled either.
- `tearDownSections()` is recorded as one event.
- Carousel geometry (probe points, scrolling, `createViewController`, `configure`) is left out. The visible controller and the hit index path are parameters.
- `Label.swift` and the other context files are not part of this model.

## Findings

| source | as written | input that shows it | evidently intended | confidence | as-written member | corrected member |
|---|---|---|---|---|---|---|
| DesignSystem/Sources/DesignSystem/Atoms/Button.swift:197-204 | the immediate path of `update()` never assigns `renderedState`, so it stays `.normal`; back in `.normal` the colour refresh is skipped | normal background "rest", highlighted background "pressed", not animated; touch down, then touch up inside: state `.normal`, background "pressed" | colours always follow the state, as `NewButton.update()` does | high, not executed | `Buttons.StaleHighlightAfterRelease` | `NewButtons.NewButton.Update` |
| TestApp/TestApp/View/Brands/FractalBrand.swift:212-222 | the `switch` on a strong typography matches with `Typography ==`, that is by `name`, which contains " strong", so `.large`/`.xlarge`/`.xxlarge` never match | `Typography(.large, [.strong])` gets `.medium` weight and "Avenir-Medium" | strong title sizes are black | high, not executed | `FractalBrand.FontWeightNeverBlack` | `FractalBrand.ByKeyTablesIntended` |
| TestApp/TestApp/View/Brands/FractalBrand.swift:146-163 | the size `switch` matches by `name`, so any typography with `strong` or `noAccessibility` falls to the default 16 | `Typography(.large, [.strong])` has base size 16; `.large` has 20 | the size class comes from the key | medium, not executed | `FractalBrand.StrongLargeFallsToDefaultSize` | `FractalBrand.BaseFontSizeByKey` |
