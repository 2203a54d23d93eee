/**
 * `CarouselSection`: the index adjustment used when reading the current
 * page, the reuse identifier, the cell size, and the section list that the
 * sections closure yields at construction and on every reload. The closure
 * reads application state; here it is a function of an explicit `env`.
 */
module Carousel {
  import opened Wrappers

  datatype PositionType = Left | Right | Center | Top | Bottom

  /** `PositionType.modifier`: which neighbour an odd (gap) index is moved to. */
  function Modifier(p: PositionType): (r: int)
    ensures r == -1 <==> p == Left || p == Top
    ensures r == 1 <==> p == Right || p == Bottom
    ensures r == 0 <==> p == Center
  {
    match p
    case Left => -1
    case Top => -1
    case Right => 1
    case Bottom => 1
    case Center => 0
  }

  /** `CarouselViewController.PagingType`; only `.calculatedDoubleJump` matters here. */
  datatype PagingType = NotPaged | CalculatedDoubleJump | OtherPaging(name: string)

  datatype IndexPath = IndexPath(item: int, section: int)

  /** The adjustment at the end of `currentIndexPath(at:)`. */
  function AdjustIndexPath(paging: PagingType, position: PositionType, ip: IndexPath): (r: IndexPath)
    ensures r.section == ip.section
    ensures paging != CalculatedDoubleJump || ip.item % 2 == 0 ==> r == ip
    ensures paging == CalculatedDoubleJump && ip.item % 2 != 0 ==>
      r.item - ip.item == Modifier(position) && (position != Center <==> r.item % 2 == 0)
  {
    if paging == CalculatedDoubleJump && ip.item % 2 != 0 then
      IndexPath(ip.item + Modifier(position), ip.section)
    else ip
  }

  /**
   * `currentIndexPath(at:)`: `hasCarousel` says whether a carousel controller
   * is visible; `probe` is what the collection view reports at the probe
   * point of the position.
   */
  function CurrentIndexPath(hasCarousel: bool, probe: Option<IndexPath>, paging: PagingType,
                            position: PositionType): (r: Option<IndexPath>)
    ensures r.Some? <==> hasCarousel && probe.Some?
    ensures r.Some? ==> r.value == AdjustIndexPath(paging, position, probe.value)
    ensures r.Some? ==> r.value.section == probe.value.section && -1 <= r.value.item - probe.value.item <= 1
  {
    if !hasCarousel then None
    else match probe
      case None => None
      case Some(ip) => Some(AdjustIndexPath(paging, position, ip))
  }

  /** `reuseIdentifier`: distinct carousel ids give distinct identifiers. */
  function ReuseIdentifier(id: string): (r: string)
    ensures |r| == 9 + |id| && r[..9] == "Carousel_" && r[9..] == id
  {
    "Carousel_" + id
  }

  lemma ReuseIdentifierInjective(a: string, b: string)
    requires ReuseIdentifier(a) == ReuseIdentifier(b)
    ensures a == b
  {
    assert a == ReuseIdentifier(a)[9..];
  }

  datatype HeightType = Full | Width | WidthMultiplier(value: real) | Multiplier(value: real) | Custom(value: real)

  datatype CellSize = CellSize(width: real, height: real)

  /** `size(in:at:)`: the cell always spans the view's width; the height follows the height type. */
  function CellSizeIn(heightType: HeightType, viewWidth: real, viewHeight: real): (r: CellSize)
    ensures r.width == viewWidth
    ensures heightType == Full ==> r.height == viewHeight
    ensures heightType == Width ==> r.height == viewWidth
    ensures heightType.Custom? ==> r.height == heightType.value
    ensures heightType.WidthMultiplier? ==> r.height == viewWidth * heightType.value
    ensures heightType.Multiplier? ==> r.height == viewHeight * heightType.value
  {
    match heightType
    case Full => CellSize(viewWidth, viewHeight)
    case Width => CellSize(viewWidth, viewWidth)
    case WidthMultiplier(v) => CellSize(viewWidth, viewWidth * v)
    case Custom(v) => CellSize(viewWidth, v)
    case Multiplier(v) => CellSize(viewWidth, viewHeight * v)
  }

  class CarouselSection<Env, S> {
    const id: string
    const heightType: HeightType
    const pagingType: PagingType
    const tearDownOnBrandChange: bool
    const sectionsClosure: Env -> seq<S>
    var staticSections: seq<S>

    /** The initialiser evaluates the sections closure once. */
    constructor (id: string, heightType: HeightType, pagingType: PagingType, tearDownOnBrandChange: bool,
                 sectionsClosure: Env -> seq<S>, env: Env)
      ensures this.id == id && this.heightType == heightType && this.pagingType == pagingType
      ensures this.tearDownOnBrandChange == tearDownOnBrandChange && this.sectionsClosure == sectionsClosure
      ensures staticSections == sectionsClosure(env)
    {
      this.id := id;
      this.heightType := heightType;
      this.pagingType := pagingType;
      this.tearDownOnBrandChange := tearDownOnBrandChange;
      this.sectionsClosure := sectionsClosure;
      this.staticSections := sectionsClosure(env);
    }

    /** `willReload()`: the sections are re-read from the closure against the current state. */
    method WillReload(env: Env)
      modifies this
      ensures staticSections == sectionsClosure(env)
    {
      staticSections := sectionsClosure(env);
    }
  }
}
