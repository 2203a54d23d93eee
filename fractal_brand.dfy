/**
 * The test application's `FractalBrand`: spacing, icon-size and typography
 * tables. The content-size category, which the source reads from the
 * platform, is a parameter here. Font sizes are whole points, so `int`.
 */
module FractalBrand {
  import opened Typographies

  datatype Spacing = XXSmall | XSmall | Small | Medium | Large | XLarge | XXLarge | XXXLarge | Keyline | Divider

  /** `value(for: Spacing)`: every spacing is between one point and 128. */
  function SpacingValue(s: Spacing): (r: int)
    ensures 1 <= r <= 128
  {
    match s
    case XXSmall => 1
    case XSmall => 2
    case Small => 4
    case Medium => 8
    case Large => 16
    case XLarge => 32
    case XXLarge => 64
    case XXXLarge => 128
    case Keyline => 16
    case Divider => 1
  }

  /** The position of a spacing on the xxsmall ... xxxlarge ladder. */
  function SpacingRank(s: Spacing): nat
    requires s != Keyline && s != Divider
  {
    match s
    case XXSmall => 0
    case XSmall => 1
    case Small => 2
    case Medium => 3
    case Large => 4
    case XLarge => 5
    case XXLarge => 6
    case XXXLarge => 7
  }

  function Pow2(n: nat): (r: nat)
    ensures r >= 1
  {
    if n == 0 then 1 else 2 * Pow2(n - 1)
  }

  /** The ladder doubles at every step; the keyline is the large spacing, the divider the smallest. */
  lemma SpacingLadder(s: Spacing)
    ensures s != Keyline && s != Divider ==> SpacingValue(s) == Pow2(SpacingRank(s))
    ensures SpacingValue(Keyline) == SpacingValue(Large)
    ensures SpacingValue(Divider) == SpacingValue(XXSmall)
  {
    assert Pow2(7) == 128 by {
      assert Pow2(1) == 2 && Pow2(2) == 4 && Pow2(3) == 8 && Pow2(4) == 16;
      assert Pow2(5) == 32 && Pow2(6) == 64;
    }
  }

  datatype IconSize = XSmallIcon | SmallIcon | MediumIcon | LargeIcon | XLargeIcon | XXLargeIcon

  datatype Size = Size(width: int, height: int)

  function IconRank(s: IconSize): nat {
    match s
    case XSmallIcon => 0
    case SmallIcon => 1
    case MediumIcon => 2
    case LargeIcon => 3
    case XLargeIcon => 4
    case XXLargeIcon => 5
  }

  function IconSizeValue(s: IconSize): (r: Size)
    ensures r.width == r.height
  {
    match s
    case XSmallIcon => Size(20, 20)
    case SmallIcon => Size(28, 28)
    case MediumIcon => Size(40, 40)
    case LargeIcon => Size(64, 64)
    case XLargeIcon => Size(96, 96)
    case XXLargeIcon => Size(128, 128)
  }

  /** Icons are square and strictly grow with their size class. */
  lemma IconSizesIncrease(a: IconSize, b: IconSize)
    requires IconRank(a) < IconRank(b)
    ensures IconSizeValue(a).width < IconSizeValue(b).width
  {
  }

  datatype ContentSizeCategory =
    | Unspecified | ExtraSmall | SmallCategory | MediumCategory | LargeCategory
    | ExtraLarge | ExtraExtraLarge | ExtraExtraExtraLarge
    | AccessibilityMedium | AccessibilityLarge | AccessibilityExtraLarge
    | AccessibilityExtraExtraLarge | AccessibilityExtraExtraExtraLarge

  /** The platform's ordering of the specified categories, smallest first. */
  function CategoryRank(c: ContentSizeCategory): nat
    requires c != Unspecified
  {
    match c
    case ExtraSmall => 0
    case SmallCategory => 1
    case MediumCategory => 2
    case LargeCategory => 3
    case ExtraLarge => 4
    case ExtraExtraLarge => 5
    case ExtraExtraExtraLarge => 6
    case AccessibilityMedium => 7
    case AccessibilityLarge => 8
    case AccessibilityExtraLarge => 9
    case AccessibilityExtraExtraLarge => 10
    case AccessibilityExtraExtraExtraLarge => 11
  }

  /** The brand's typography constants: a key without modifiers. */
  const XXSmallType := Typography("xxsmall", [])
  const XSmallType := Typography("xsmall", [])
  const SmallType := Typography("small", [])
  const MediumType := Typography("medium", [])
  const LargeType := Typography("large", [])
  const XLargeType := Typography("xlarge", [])
  const XXLargeType := Typography("xxlarge", [])

  /**
   * The base size. The source switches over the typography itself, and a
   * Swift `case` matches with `Typography.==`, that is by `Name`.
   */
  function BaseFontSize(t: Typography): (r: int)
    ensures 10 <= r <= 32
    ensures IsStrong(t) || !UseAccessibility(t) ==> r == 16
  {
    if Equal(t, XXLargeType) then 32
    else if Equal(t, XLargeType) then 28
    else if Equal(t, LargeType) then 20
    else if Equal(t, MediumType) then 16
    else if Equal(t, SmallType) then 14
    else if Equal(t, XSmallType) then 12
    else if Equal(t, XXSmallType) then 10
    else 16
  }

  /** `fontSizeAdjustment(for:)` for the given content-size category. */
  function FontSizeAdjustment(t: Typography, c: ContentSizeCategory): (r: int)
    ensures -2 <= r <= 7
    ensures c == Unspecified || c == MediumCategory || c == LargeCategory ==> r == 0
  {
    if Equal(t, XXSmallType) && (c == ExtraSmall || c == SmallCategory) then 0
    else match c
      case ExtraSmall => -2
      case SmallCategory => -1
      case ExtraLarge => 1
      case ExtraExtraLarge => 2
      case ExtraExtraExtraLarge => 3
      case AccessibilityMedium => 4
      case AccessibilityLarge => 5
      case AccessibilityExtraLarge => 6
      case AccessibilityExtraExtraLarge => 7
      case AccessibilityExtraExtraExtraLarge => 7
      case _ => 0
  }

  /** `fontSize(for:)`: the base size, adjusted only when the typography uses accessibility sizes. */
  function FontSize(t: Typography, c: ContentSizeCategory): (r: int)
    ensures 8 <= r <= 39
  {
    var size := BaseFontSize(t);
    if UseAccessibility(t) then size + FontSizeAdjustment(t, c) else size
  }

  /** The adjustment lies in [-2, 7] and never decreases as the category grows. */
  lemma AdjustmentMonotone(t: Typography, c1: ContentSizeCategory, c2: ContentSizeCategory)
    requires c1 != Unspecified && c2 != Unspecified && CategoryRank(c1) <= CategoryRank(c2)
    ensures -2 <= FontSizeAdjustment(t, c1) <= FontSizeAdjustment(t, c2) <= 7
  {
  }

  /** Sizes stay positive; xxsmall text is never shrunk below its base of 10. */
  lemma FontSizeBounds(t: Typography, c: ContentSizeCategory)
    ensures FontSize(t, c) >= 8
    ensures Equal(t, XXSmallType) ==> FontSize(t, c) >= 10
    ensures !UseAccessibility(t) ==> FontSize(t, c) == BaseFontSize(t)
  {
  }

  datatype Weight = UltraLight | Thin | Light | Regular | MediumWeight | Semibold | Bold | Heavy | Black

  /**
   * `fontWeight(for:)` as written: a strong typography whose `==` matches
   * xxlarge, xlarge or large is black, another strong one medium, the rest
   * regular.
   */
  function FontWeight(t: Typography): (r: Weight)
    ensures r == Regular <==> !IsStrong(t)
    ensures r == Regular || r == MediumWeight || r == Black
  {
    if IsStrong(t) then
      if Equal(t, XXLargeType) || Equal(t, XLargeType) || Equal(t, LargeType) then Black else MediumWeight
    else Regular
  }

  /** `fontName(for:)`. */
  function FontName(w: Weight): (r: string)
    ensures r == "Avenir" || r == "Avenir-Black" || r == "Avenir-Medium"
    ensures r == "Avenir-Black" <==> w == Black
  {
    match w
    case Black => "Avenir-Black"
    case MediumWeight => "Avenir-Medium"
    case _ => "Avenir"
  }

  /** A strong typography's name contains a space; no constant's name does. */
  lemma StrongNameHasSpace(t: Typography)
    requires IsStrong(t)
    ensures ' ' in Name(t)
  {
    assert Name(t)[|t.key|] == Suffix(t)[0] == ' ';
  }

  lemma StrongNeverMatchesConstant(t: Typography, k: string)
    requires IsStrong(t) && ' ' !in k
    ensures !Equal(t, Typography(k, []))
  {
    StrongNameHasSpace(t);
    assert Name(Typography(k, [])) == k;
  }

  /** As written, the black branch cannot be taken: every typography gets a non-black weight. */
  lemma FontWeightNeverBlack(t: Typography)
    ensures FontWeight(t) != Black
    ensures FontName(FontWeight(t)) != "Avenir-Black"
  {
    if IsStrong(t) {
      StrongNeverMatchesConstant(t, "xxlarge");
      StrongNeverMatchesConstant(t, "xlarge");
      StrongNeverMatchesConstant(t, "large");
    }
  }

  /** As written, a strong title typography falls to the default base size 16. */
  lemma StrongLargeFallsToDefaultSize(c: ContentSizeCategory)
    ensures FontSize(Typography("large", [Strong]), c) == 16 + FontSizeAdjustment(Typography("large", [Strong]), c)
    ensures FontSize(LargeType, c) == 20 + FontSizeAdjustment(LargeType, c)
  {
    var t := Typography("large", [Strong]);
    StrongNeverMatchesConstant(t, "xxlarge");
    StrongNeverMatchesConstant(t, "xlarge");
    StrongNeverMatchesConstant(t, "large");
    StrongNeverMatchesConstant(t, "medium");
    StrongNeverMatchesConstant(t, "small");
    StrongNeverMatchesConstant(t, "xsmall");
    StrongNeverMatchesConstant(t, "xxsmall");
  }

  /** The evidently intended lookup: by key, so modifiers cannot hide the size class. */
  function BaseFontSizeByKey(t: Typography): (r: int)
    ensures 10 <= r <= 32
  {
    match t.key
    case "xxlarge" => 32
    case "xlarge" => 28
    case "large" => 20
    case "medium" => 16
    case "small" => 14
    case "xsmall" => 12
    case "xxsmall" => 10
    case _ => 16
  }

  function FontWeightByKey(t: Typography): Weight {
    if IsStrong(t) then
      if t.key == "xxlarge" || t.key == "xlarge" || t.key == "large" then Black else MediumWeight
    else Regular
  }

  /**
   * The corrected tables: strong title typographies are black, the size
   * class comes from the key whatever the modifiers, and on unmodified
   * typographies they agree with the tables as written.
   */
  lemma ByKeyTablesIntended(t: Typography)
    ensures IsStrong(t) && t.key in {"xxlarge", "xlarge", "large"} ==> FontWeightByKey(t) == Black
    ensures BaseFontSizeByKey(t) == BaseFontSizeByKey(Typography(t.key, []))
    ensures t.modifiers == [] ==> BaseFontSizeByKey(t) == BaseFontSize(t) && FontWeightByKey(t) == FontWeight(t)
  {
    if t.modifiers == [] {
      assert Suffix(t) == "";
      assert Name(t) == t.key;
    }
  }
}
