/**
 * `BrandManager`: holds the current brand and the root view controller.
 * Changing the brand cross-fades from a snapshot of the old look (except on
 * the first load) and rebrands the whole hierarchy; a change of the text
 * size category rebrands it without the cross-fade.
 */
module Brands {
  import opened Wrappers
  import opened Rebranding

  datatype BrandEvent = CrossFade | SetForBrand(target: Target)

  /** The `setForBrand()` calls of one rebrand, in order. */
  function Announce(invoked: seq<Target>): (r: seq<BrandEvent>)
    ensures |r| == |invoked| && forall i :: 0 <= i < |r| ==> r[i] == SetForBrand(invoked[i])
  {
    seq(|invoked|, (i: int) requires 0 <= i < |invoked| => SetForBrand(invoked[i]))
  }

  /**
   * `contentSizeCategory`: a stored override, when switched on, wins over
   * the system setting, and a missing stored value reads as "medium".
   */
  function ContentSizeCategory(overrideOn: bool, stored: Option<string>, preferred: string): (r: string)
    ensures !overrideOn ==> r == preferred
    ensures overrideOn ==> r == stored.GetOr("medium")
  {
    if overrideOn then stored.GetOr("medium") else preferred
  }

  class BrandManager {
    var brandId: string
    /** The weakly held root controller, when there is one. */
    var root: Option<nat>
    var initialLoad: bool
    var hierarchy: Hierarchy
    var log: seq<BrandEvent>

    ghost predicate Valid()
      reads this
    {
      WellFormed(hierarchy) && (root.Some? ==> root.value < |hierarchy.controllers|)
    }

    constructor (brandId: string, hierarchy: Hierarchy)
      requires WellFormed(hierarchy)
      ensures Valid() && this.brandId == brandId && this.hierarchy == hierarchy
      ensures root == None && initialLoad && log == []
    {
      this.brandId := brandId;
      this.hierarchy := hierarchy;
      root := None;
      initialLoad := true;
      log := [];
    }

    /** Setting `rootViewController`. */
    method SetRoot(r: Option<nat>)
      requires WellFormed(hierarchy) && (r.Some? ==> r.value < |hierarchy.controllers|)
      modifies this`root
      ensures root == r && Valid()
    {
      root := r;
    }

    /** The `brand` property: its `didSet` calls `brandDidChange()`. */
    method SetBrand(id: string, snapshotAvailable: bool) returns (invoked: seq<Target>)
      requires Valid()
      modifies this`brandId, this`initialLoad, this`log
      ensures brandId == id && !initialLoad
      ensures RebrandPlan(hierarchy, root, invoked)
      ensures log == old(log)
        + (if !old(initialLoad) && root.Some? && snapshotAvailable then [CrossFade] else [])
        + Announce(invoked)
    {
      brandId := id;
      invoked := BrandDidChange(snapshotAvailable);
    }

    /**
     * `brandDidChange()`: a cross-fade when this is not the first load, a
     * root is set and its view could be snapshotted; then the first load is
     * over, and the hierarchy is rebranded.
     */
    method BrandDidChange(snapshotAvailable: bool) returns (invoked: seq<Target>)
      requires Valid()
      modifies this`initialLoad, this`log
      ensures !initialLoad
      ensures RebrandPlan(hierarchy, root, invoked)
      ensures log == old(log)
        + (if !old(initialLoad) && root.Some? && snapshotAvailable then [CrossFade] else [])
        + Announce(invoked)
    {
      if !initialLoad && root.Some? && snapshotAvailable {
        log := log + [CrossFade];
      }
      initialLoad := false;
      invoked := RebrandViewHierarchy(hierarchy, root);
      log := log + Announce(invoked);
    }

    /** The content size notification rebrands without a cross-fade and leaves `initialLoad` alone. */
    method ContentSizeCategoryDidChange() returns (invoked: seq<Target>)
      requires Valid()
      modifies this`log
      ensures RebrandPlan(hierarchy, root, invoked)
      ensures log == old(log) + Announce(invoked)
    {
      invoked := RebrandViewHierarchy(hierarchy, root);
      log := log + Announce(invoked);
    }
  }

  /**
   * The first brand change never cross-fades; every later one, with a root
   * and a snapshot, does.
   */
  method FirstChangeNeverFades(h: Hierarchy, r: nat) returns (m: BrandManager, first: seq<Target>, second: seq<Target>)
    requires WellFormed(h) && r < |h.controllers|
    ensures m.log == Announce(first) + [CrossFade] + Announce(second)
    ensures RebrandPlan(h, Some(r), first) && RebrandPlan(h, Some(r), second)
  {
    m := new BrandManager("default", h);
    m.SetRoot(Some(r));
    first := m.SetBrand("fractal", true);
    second := m.SetBrand("apple", true);
  }
}
