/**
 * `SectionTableViewController`: how a reload of some sections is turned
 * into table-view calls. The table view and the sections are outside the
 * model; what the controller asks of them is recorded as `TableEvent`s.
 * The reload runs synchronously, as it does without a refresh control.
 */
module SectionTables {

  datatype RowAnimation = NoAnimation | Fade | RightSlide | LeftSlide | TopSlide | BottomSlide | Middle | Automatic

  datatype IndexPath = IndexPath(item: int, section: nat)

  /** What the controller reads of a section: its cell identifiers and its pending row changes. */
  datatype SectionData = SectionData(reuseIdentifiers: set<string>, indexesToAdd: seq<int>, indexesToRemove: seq<int>)

  datatype TableEvent =
    | RegisterCells
    | NotifySectionsOfReload(indexes: seq<nat>)
    | ReloadSectionsWithoutAnimation(indexes: seq<nat>)
    | ReloadData
    | EndRefreshing
    | BeginUpdates
    | InsertRows(paths: seq<IndexPath>, animation: RowAnimation)
    | DeleteRows(paths: seq<IndexPath>, animation: RowAnimation)
    | EndUpdates
    | SectionDidReload(section: nat)
    | DidReloadClosure
    | TearDownAndReload

  /** The sections an animated reload walks: the given ones, or all of them when none are given. */
  function SectionIndexes(indexes: seq<nat>, count: nat): (r: seq<nat>)
    ensures indexes != [] ==> r == indexes
    ensures indexes == [] ==> |r| == count && forall k :: 0 <= k < count ==> r[k] == k
  {
    if |indexes| == 0 then seq(count, (k: int) requires 0 <= k => k) else indexes
  }

  /** The index paths of `items` in section `i`. */
  function Paths(items: seq<int>, i: nat): (r: seq<IndexPath>)
    ensures |r| == |items| && forall j :: 0 <= j < |items| ==> r[j] == IndexPath(items[j], i)
  {
    seq(|items|, (j: int) requires 0 <= j < |items| => IndexPath(items[j], i))
  }

  /** The items a section adds (`add`) or removes (`!add`). */
  function Changes(s: SectionData, add: bool): seq<int> {
    if add then s.indexesToAdd else s.indexesToRemove
  }

  /**
   * The paths collected over `order`, in section order; sections the table
   * does not have yet (`i >= numberOfSections`) contribute nothing.
   */
  function CollectPaths(order: seq<nat>, sections: seq<SectionData>, numberOfSections: nat, add: bool): seq<IndexPath>
    requires forall k :: 0 <= k < |order| ==> order[k] < |sections|
  {
    if order == [] then []
    else
      var i := order[|order| - 1];
      CollectPaths(order[..|order| - 1], sections, numberOfSections, add)
      + (if i < numberOfSections then Paths(Changes(sections[i], add), i) else [])
  }

  /** Collecting over two runs of sections is collecting over each, in turn. */
  lemma {:induction false} CollectPathsAppend(a: seq<nat>, b: seq<nat>, sections: seq<SectionData>, n: nat, add: bool)
    requires forall k :: 0 <= k < |a| ==> a[k] < |sections|
    requires forall k :: 0 <= k < |b| ==> b[k] < |sections|
    ensures forall k :: 0 <= k < |a + b| ==> (a + b)[k] < |sections|
    ensures CollectPaths(a + b, sections, n, add) == CollectPaths(a, sections, n, add) + CollectPaths(b, sections, n, add)
    decreases |b|
  {
    if b != [] {
      var b' := b[..|b| - 1];
      assert (a + b)[..|a + b| - 1] == a + b';
      CollectPathsAppend(a, b', sections, n, add);
    } else {
      assert a + b == a;
    }
  }

  /**
   * A path is collected exactly when its section is among those walked, the
   * table already has that section, and the section lists its item.
   */
  lemma {:induction false} CollectPathsMembers(order: seq<nat>, sections: seq<SectionData>, n: nat, add: bool, p: IndexPath)
    requires forall k :: 0 <= k < |order| ==> order[k] < |sections|
    ensures p in CollectPaths(order, sections, n, add) <==>
      p.section in order && p.section < n && p.item in Changes(sections[p.section], add)
  {
    if order != [] {
      var i := order[|order| - 1];
      var init := order[..|order| - 1];
      CollectPathsMembers(init, sections, n, add, p);
      assert order == init + [i];
      assert p.section in order <==> p.section in init || p.section == i;
      if i < n && p.section == i && p.item in Changes(sections[i], add) {
        var j :| 0 <= j < |Changes(sections[i], add)| && Changes(sections[i], add)[j] == p.item;
        assert Paths(Changes(sections[i], add), i)[j] == p;
      }
    }
  }

  /** Sections the table does not show yet produce no row changes at all. */
  lemma {:induction false} NewSectionsHaveNoRowChanges(order: seq<nat>, sections: seq<SectionData>, n: nat, add: bool)
    requires forall k :: 0 <= k < |order| ==> order[k] < |sections|
    requires forall k :: 0 <= k < |order| ==> order[k] >= n
    ensures CollectPaths(order, sections, n, add) == []
  {
    if order != [] {
      NewSectionsHaveNoRowChanges(order[..|order| - 1], sections, n, add);
    }
  }

  /** The table-view calls `refresh()` makes once the paths are known, before `finished()`. */
  function UpdateEvents(indexes: seq<nat>, animation: RowAnimation, inserts: seq<IndexPath>,
                        removes: seq<IndexPath>): seq<TableEvent>
  {
    if animation == NoAnimation then
      (if |indexes| > 0 then [ReloadSectionsWithoutAnimation(indexes)] else [ReloadData])
    else if |inserts| + |removes| == 0 then
      [BeginUpdates, EndUpdates]
    else
      [BeginUpdates, InsertRows(inserts, animation), DeleteRows(removes, animation), EndUpdates]
  }

  /** `finished()`: every section hears `didReload`, then the controller's `didReload` closure runs if set. */
  function FinishedEvents(sectionCount: nat, hasDidReload: bool): (r: seq<TableEvent>)
    ensures |r| == sectionCount + (if hasDidReload then 1 else 0)
    ensures forall k :: 0 <= k < sectionCount ==> r[k] == SectionDidReload(k)
    ensures hasDidReload ==> r[sectionCount] == DidReloadClosure
  {
    seq(sectionCount, (k: int) requires 0 <= k => SectionDidReload(k)) + (if hasDidReload then [DidReloadClosure] else [])
  }

  class SectionTableViewController {
    /** The data source's sections. */
    var sections: seq<SectionData>
    /** Whether the data source has sections whose cells are not registered yet. */
    var newSections: bool
    var registeredReuseIdentifiers: set<string>
    /** `tableView.numberOfSections`: what the table showed before this reload. */
    var numberOfSections: nat
    var hasDidReload: bool
    var tearDownOnBrandChange: bool
    /** Whether the controller was built with a pull-to-refresh control, and whether it is spinning. */
    var useRefreshControl: bool
    var isRefreshing: bool
    var events: seq<TableEvent>

    constructor (sections: seq<SectionData>, numberOfSections: nat, hasDidReload: bool)
      ensures this.sections == sections && this.numberOfSections == numberOfSections
      ensures this.hasDidReload == hasDidReload && newSections
      ensures registeredReuseIdentifiers == {} && tearDownOnBrandChange && events == []
      ensures !useRefreshControl && !isRefreshing
    {
      this.sections := sections;
      this.numberOfSections := numberOfSections;
      this.hasDidReload := hasDidReload;
      newSections := true;
      registeredReuseIdentifiers := {};
      tearDownOnBrandChange := true;
      useRefreshControl := false;
      isRefreshing := false;
      events := [];
    }

    /** Every identifier the sections use. */
    function AllReuseIdentifiers(): set<string>
      reads this
    {
      set i, id | 0 <= i < |sections| && id in sections[i].reuseIdentifiers :: id
    }

    /**
     * `reloadSections(at:animation:)`. The source indexes `dataSource.sections`
     * with every given index, so indexes must name existing sections. While
     * the refresh control spins, the whole table is reloaded instead
     * (`reloadRefresh()`; its delays are not modelled).
     */
    method ReloadSections(indexes: seq<nat>, animation: RowAnimation)
      requires forall k :: 0 <= k < |indexes| ==> indexes[k] < |sections|
      modifies this`events, this`registeredReuseIdentifiers
      ensures registeredReuseIdentifiers ==
        if newSections then old(registeredReuseIdentifiers) + AllReuseIdentifiers() else old(registeredReuseIdentifiers)
      ensures useRefreshControl && isRefreshing ==>
        events == old(events)
          + (if newSections then [RegisterCells] else [])
          + [NotifySectionsOfReload(indexes), ReloadData, EndRefreshing]
          + FinishedEvents(|sections|, hasDidReload)
      ensures !(useRefreshControl && isRefreshing) ==>
        var order := SectionIndexes(indexes, |sections|);
        events == old(events)
          + (if newSections then [RegisterCells] else [])
          + [NotifySectionsOfReload(indexes)]
          + UpdateEvents(indexes, animation,
                         CollectPaths(order, sections, numberOfSections, true),
                         CollectPaths(order, sections, numberOfSections, false))
          + FinishedEvents(|sections|, hasDidReload)
    {
      if newSections {
        registeredReuseIdentifiers := registeredReuseIdentifiers + AllReuseIdentifiers();
        events := events + [RegisterCells];
      }
      events := events + [NotifySectionsOfReload(indexes)];
      if useRefreshControl && isRefreshing {
        events := events + [ReloadData, EndRefreshing];
        Finished();
      } else {
        Refresh(indexes, animation);
      }
    }

    /** The nested `refresh()` of `reloadSections(at:animation:)`. */
    method Refresh(indexes: seq<nat>, animation: RowAnimation)
      requires forall k :: 0 <= k < |indexes| ==> indexes[k] < |sections|
      modifies this`events
      ensures var order := SectionIndexes(indexes, |sections|);
        events == old(events)
          + UpdateEvents(indexes, animation,
                         CollectPaths(order, sections, numberOfSections, true),
                         CollectPaths(order, sections, numberOfSections, false))
          + FinishedEvents(|sections|, hasDidReload)
    {
      var order := SectionIndexes(indexes, |sections|);
      var insertIndexPaths, removeIndexPaths := [], [];
      var updates: seq<TableEvent>;
      if animation == NoAnimation {
        updates := if |indexes| > 0 then [ReloadSectionsWithoutAnimation(indexes)] else [ReloadData];
      } else {
        insertIndexPaths, removeIndexPaths := CollectRowChanges(order);
        if |insertIndexPaths| + |removeIndexPaths| == 0 {
          updates := [BeginUpdates, EndUpdates];
        } else {
          updates := [BeginUpdates, InsertRows(insertIndexPaths, animation),
                      DeleteRows(removeIndexPaths, animation), EndUpdates];
        }
      }
      assert updates == UpdateEvents(indexes, animation, CollectPaths(order, sections, numberOfSections, true),
                                     CollectPaths(order, sections, numberOfSections, false));
      events := events + updates;
      Finished();
    }

    /**
     * The loop of `refresh()` that gathers, section by section, the rows to
     * insert and to delete, skipping sections the table does not show yet.
     */
    method CollectRowChanges(order: seq<nat>) returns (insertIndexPaths: seq<IndexPath>, removeIndexPaths: seq<IndexPath>)
      requires forall k :: 0 <= k < |order| ==> order[k] < |sections|
      ensures insertIndexPaths == CollectPaths(order, sections, numberOfSections, true)
      ensures removeIndexPaths == CollectPaths(order, sections, numberOfSections, false)
    {
      insertIndexPaths := [];
      removeIndexPaths := [];
      for k := 0 to |order|
        invariant insertIndexPaths == CollectPaths(order[..k], sections, numberOfSections, true)
        invariant removeIndexPaths == CollectPaths(order[..k], sections, numberOfSections, false)
      {
        var i := order[k];
        var s := sections[i];
        assert order[..k + 1][..k] == order[..k];
        if i >= numberOfSections {
          continue;
        }
        insertIndexPaths := insertIndexPaths + Paths(s.indexesToAdd, i);
        removeIndexPaths := removeIndexPaths + Paths(s.indexesToRemove, i);
      }
      assert order[..|order|] == order;
    }

    /** `finished()`. */
    method Finished()
      modifies this`events
      ensures events == old(events) + FinishedEvents(|sections|, hasDidReload)
    {
      for k := 0 to |sections|
        invariant events == old(events) + seq(k, (j: int) requires 0 <= j => SectionDidReload(j))
      {
        events := events + [SectionDidReload(k)];
      }
      if hasDidReload {
        events := events + [DidReloadClosure];
      }
    }

    /** `setForBrand()`: the sections are torn down and reloaded only when the controller asks for it. */
    method SetForBrand()
      modifies this`events
      ensures events == old(events) + (if tearDownOnBrandChange then [TearDownAndReload] else [])
    {
      if !tearDownOnBrandChange {
        return;
      }
      events := events + [TearDownAndReload];
    }
  }
}
