/**
 * The rebrand walk of `BrandManager.rebrandViewHierarchy()`. Views and view
 * controllers live in two arenas indexed by number; a node's children have
 * larger numbers than the node itself, which is what a UIKit hierarchy (a
 * tree) guarantees and what makes the walk terminate. The walk collects the
 * brandable views and controllers, and every distinct one is then told to
 * `setForBrand()` once, views first.
 */
module Rebranding {
  import opened Wrappers

  datatype ViewNode = ViewNode(isStack: bool, brandable: bool, subviews: seq<nat>, arranged: seq<nat>)

  datatype ControllerNode = ControllerNode(
    view: nat, brandable: bool, presented: Option<nat>,
    isNavigation: bool, navStack: seq<nat>, children: seq<nat>)

  datatype Hierarchy = Hierarchy(views: seq<ViewNode>, controllers: seq<ControllerNode>)

  predicate ChildIds(ids: seq<nat>, parent: nat, bound: nat) {
    forall i :: 0 <= i < |ids| ==> parent < ids[i] < bound
  }

  predicate WellFormed(h: Hierarchy) {
    && (forall v :: 0 <= v < |h.views| ==>
          ChildIds(h.views[v].subviews, v, |h.views|) && ChildIds(h.views[v].arranged, v, |h.views|))
    && (forall c :: 0 <= c < |h.controllers| ==>
          && h.controllers[c].view < |h.views|
          && (h.controllers[c].presented.Some? ==> c < h.controllers[c].presented.value < |h.controllers|)
          && ChildIds(h.controllers[c].navStack, c, |h.controllers|)
          && ChildIds(h.controllers[c].children, c, |h.controllers|))
  }

  /** The views the walk descends into: a stack view's arranged subviews, any other view's subviews. */
  function ViewChildren(h: Hierarchy, v: nat): seq<nat>
    requires v < |h.views|
  {
    if h.views[v].isStack then h.views[v].arranged else h.views[v].subviews
  }

  /** A view the walk may collect: brandable and not a stack view. */
  predicate Collectable(h: Hierarchy, w: nat) {
    w < |h.views| && h.views[w].brandable && !h.views[w].isStack
  }

  /**
   * `applyTo(view:)`: the collected views of a subtree, in post-order. A
   * stack view is transparent: its arranged subviews are walked, and it is
   * never collected itself.
   */
  function CollectView(h: Hierarchy, v: nat): (r: seq<nat>)
    requires WellFormed(h) && v < |h.views|
    ensures forall i :: 0 <= i < |r| ==> Collectable(h, r[i])
    ensures Collectable(h, v) ==> |r| > 0 && r[|r| - 1] == v
    decreases |h.views| - v, 1
  {
    if h.views[v].isStack then CollectViews(h, h.views[v].arranged, v)
    else CollectViews(h, h.views[v].subviews, v) + (if h.views[v].brandable then [v] else [])
  }

  /** The collected views of several sibling subtrees, in order. */
  function CollectViews(h: Hierarchy, vs: seq<nat>, parent: nat): (r: seq<nat>)
    requires WellFormed(h) && ChildIds(vs, parent, |h.views|)
    ensures forall i :: 0 <= i < |r| ==> Collectable(h, r[i])
    decreases |h.views| - parent, 0, |vs|
  {
    if vs == [] then []
    else CollectViews(h, vs[..|vs| - 1], parent) + CollectView(h, vs[|vs| - 1])
  }

  /** `w` lies in the subtree the walk explores from `v`. */
  ghost predicate Reaches(h: Hierarchy, v: nat, w: nat)
    requires WellFormed(h) && v < |h.views|
    decreases |h.views| - v
  {
    v == w || exists i :: 0 <= i < |ViewChildren(h, v)| && Reaches(h, ViewChildren(h, v)[i], w)
  }

  /** The view walk collects exactly the collectable views it can reach. */
  lemma {:induction false} CollectViewCharacterised(h: Hierarchy, v: nat, w: nat)
    requires WellFormed(h) && v < |h.views|
    ensures w in CollectView(h, v) <==> Reaches(h, v, w) && Collectable(h, w)
    decreases |h.views| - v, 1
  {
    CollectViewsCharacterised(h, ViewChildren(h, v), v, w);
  }

  lemma {:induction false} CollectViewsCharacterised(h: Hierarchy, vs: seq<nat>, parent: nat, w: nat)
    requires WellFormed(h) && ChildIds(vs, parent, |h.views|)
    ensures w in CollectViews(h, vs, parent) <==>
      (exists i :: 0 <= i < |vs| && Reaches(h, vs[i], w)) && Collectable(h, w)
    decreases |h.views| - parent, 0, |vs|
  {
    if vs != [] {
      var init := vs[..|vs| - 1];
      var last := vs[|vs| - 1];
      CollectViewsCharacterised(h, init, parent, w);
      CollectViewCharacterised(h, last, w);
      if exists i :: 0 <= i < |vs| && Reaches(h, vs[i], w) {
        var i :| 0 <= i < |vs| && Reaches(h, vs[i], w);
        if i < |vs| - 1 {
          assert init[i] == vs[i];
        }
      }
      if exists i :: 0 <= i < |init| && Reaches(h, init[i], w) {
        var i :| 0 <= i < |init| && Reaches(h, init[i], w);
        assert vs[i] == init[i];
      }
    }
  }

  /** What the walk has gathered: the `views` and `vcs` arrays. */
  datatype Collected = Collected(views: seq<nat>, vcs: seq<nat>)

  /** A controller the walk may record. */
  predicate BrandableController(h: Hierarchy, c: nat) {
    c < |h.controllers| && h.controllers[c].brandable
  }

  /** `r` extends `st` by appending only, and only brandable nodes. */
  predicate Grows(h: Hierarchy, st: Collected, r: Collected) {
    && |st.views| <= |r.views| && r.views[..|st.views|] == st.views
    && |st.vcs| <= |r.vcs| && r.vcs[..|st.vcs|] == st.vcs
    && (forall i :: |st.views| <= i < |r.views| ==> Collectable(h, r.views[i]))
    && (forall i :: |st.vcs| <= i < |r.vcs| ==> BrandableController(h, r.vcs[i]))
  }

  lemma GrowsTransitive(h: Hierarchy, a: Collected, b: Collected, c: Collected)
    requires Grows(h, a, b) && Grows(h, b, c)
    ensures Grows(h, a, c)
  {
    assert c.views[..|a.views|] == c.views[..|b.views|][..|a.views|];
    assert c.vcs[..|a.vcs|] == c.vcs[..|b.vcs|][..|a.vcs|];
  }

  /**
   * `applyTo(viewController:)`. A controller already recorded is skipped.
   * Otherwise its view tree is walked, it is recorded if brandable, then a
   * brandable presented controller is recorded and walked (which returns at
   * once, since it was just recorded), then the navigation stack and the
   * children are walked.
   */
  function WalkController(h: Hierarchy, c: nat, st: Collected): (r: Collected)
    requires WellFormed(h) && c < |h.controllers|
    ensures Grows(h, st, r)
    ensures c in st.vcs ==> r == st
    decreases |h.controllers| - c, 1
  {
    if c in st.vcs then st
    else
      var node := h.controllers[c];
      var s1 := Collected(st.views + CollectView(h, node.view), st.vcs + (if node.brandable then [c] else []));
      assert Grows(h, st, s1);
      var s2 :=
        if node.presented.Some? && h.controllers[node.presented.value].brandable then
          var p := node.presented.value;
          GrowsTransitive(h, st, s1, s1.(vcs := s1.vcs + [p]));
          WalkController(h, p, s1.(vcs := s1.vcs + [p]))
        else s1;
      var s3 := if node.isNavigation then WalkControllers(h, node.navStack, c, s2) else s2;
      var r := WalkControllers(h, node.children, c, s3);
      GrowsTransitive(h, st, s1, s2);
      GrowsTransitive(h, st, s2, s3);
      GrowsTransitive(h, st, s3, r);
      r
  }

  /** Walking sibling controllers one after another. */
  function WalkControllers(h: Hierarchy, cs: seq<nat>, parent: nat, st: Collected): (r: Collected)
    requires WellFormed(h) && ChildIds(cs, parent, |h.controllers|)
    ensures Grows(h, st, r)
    decreases |h.controllers| - parent, 0, |cs|
  {
    if cs == [] then st
    else
      var s := WalkControllers(h, cs[..|cs| - 1], parent, st);
      var r := WalkController(h, cs[|cs| - 1], s);
      GrowsTransitive(h, st, s, r);
      r
  }

  /** A controller met for the first time has its own view tree collected first, then itself recorded. */
  lemma OwnViewFirst(h: Hierarchy, c: nat, st: Collected)
    requires WellFormed(h) && c < |h.controllers| && c !in st.vcs
    ensures var r := WalkController(h, c, st);
      var own := CollectView(h, h.controllers[c].view);
      && |r.views| >= |st.views| + |own|
      && r.views[|st.views|..|st.views| + |own|] == own
      && (h.controllers[c].brandable ==> |r.vcs| > |st.vcs| && r.vcs[|st.vcs|] == c)
  {
    var node := h.controllers[c];
    var own := CollectView(h, node.view);
    var s1 := Collected(st.views + own, st.vcs + (if node.brandable then [c] else []));
    var r := WalkController(h, c, st);
    assert Grows(h, s1, r);
    assert r.views[..|s1.views|] == s1.views;
    assert r.views[|st.views|..|st.views| + |own|] == s1.views[|st.views|..];
    assert r.vcs[..|s1.vcs|] == s1.vcs;
  }

  /**
   * A presented controller is never entered through the presentation edge:
   * when `c` is met for the first time, a brandable presented controller is
   * only appended to `vcs`, and the walk goes on from there with the
   * navigation stack and the children exactly as if `c` presented nothing
   * but that one recorded entry.
   */
  lemma PresentedControllerNotEntered(h: Hierarchy, c: nat, st: Collected)
    requires WellFormed(h) && c < |h.controllers| && c !in st.vcs
    requires h.controllers[c].presented.Some?
    ensures var node := h.controllers[c];
      var p := node.presented.value;
      var s1 := Collected(st.views + CollectView(h, node.view), st.vcs + (if node.brandable then [c] else []));
      var s2 := if h.controllers[p].brandable then s1.(vcs := s1.vcs + [p]) else s1;
      var s3 := if node.isNavigation then WalkControllers(h, node.navStack, c, s2) else s2;
      WalkController(h, c, st) == WalkControllers(h, node.children, c, s3)
  {
  }

  /** The controllers `applyTo(viewController:)` walks from `e`: the navigation stack, then the children. */
  function Walked(h: Hierarchy, e: nat): seq<nat>
    requires e < |h.controllers|
  {
    (if h.controllers[e].isNavigation then h.controllers[e].navStack else []) + h.controllers[e].children
  }

  /**
   * The controllers whose `applyTo(viewController:)` body runs during the
   * walk from `c`: those not yet in `vcs` when reached through a navigation
   * stack or a children list. A presented controller is never among them.
   */
  ghost function Entered(h: Hierarchy, c: nat, st: Collected): set<nat>
    requires WellFormed(h) && c < |h.controllers|
    decreases |h.controllers| - c, 1
  {
    if c in st.vcs then {}
    else
      var node := h.controllers[c];
      var s1 := Collected(st.views + CollectView(h, node.view), st.vcs + (if node.brandable then [c] else []));
      var s2 :=
        if node.presented.Some? && h.controllers[node.presented.value].brandable then
          WalkController(h, node.presented.value, s1.(vcs := s1.vcs + [node.presented.value]))
        else s1;
      var s3 := if node.isNavigation then WalkControllers(h, node.navStack, c, s2) else s2;
      {c} + (if node.isNavigation then EnteredAll(h, node.navStack, c, s2) else {})
          + EnteredAll(h, node.children, c, s3)
  }

  ghost function EnteredAll(h: Hierarchy, cs: seq<nat>, parent: nat, st: Collected): set<nat>
    requires WellFormed(h) && ChildIds(cs, parent, |h.controllers|)
    decreases |h.controllers| - parent, 0, |cs|
  {
    if cs == [] then {}
    else EnteredAll(h, cs[..|cs| - 1], parent, st) + Entered(h, cs[|cs| - 1], WalkControllers(h, cs[..|cs| - 1], parent, st))
  }

  /**
   * What entering `e` guarantees about the final result `r`: `e`'s view
   * tree is collected, `e` is recorded if brandable, and so is every
   * brandable controller of its navigation stack and children.
   */
  ghost predicate Covered(h: Hierarchy, e: nat, r: Collected)
    requires WellFormed(h)
  {
    && e < |h.controllers|
    && (forall w :: w in CollectView(h, h.controllers[e].view) ==> w in r.views)
    && (BrandableController(h, e) ==> e in r.vcs)
    && (forall d :: d in Walked(h, e) && BrandableController(h, d) ==> d in r.vcs)
  }

  lemma GrowsKeeps(h: Hierarchy, a: Collected, b: Collected)
    requires Grows(h, a, b)
    ensures forall w :: w in a.views ==> w in b.views
    ensures forall d :: d in a.vcs ==> d in b.vcs
  {
    forall w | w in a.views ensures w in b.views {
      assert w in b.views[..|a.views|];
    }
    forall d | d in a.vcs ensures d in b.vcs {
      assert d in b.vcs[..|a.vcs|];
    }
  }

  lemma CoveredGrows(h: Hierarchy, e: nat, a: Collected, b: Collected)
    requires WellFormed(h) && Grows(h, a, b) && Covered(h, e, a)
    ensures Covered(h, e, b)
  {
    GrowsKeeps(h, a, b);
  }

  /**
   * The walk from `c` is complete: `c` is entered exactly when it was not
   * yet recorded, and every entered controller is covered by the result.
   */
  lemma {:induction false} WalkCovers(h: Hierarchy, c: nat, st: Collected)
    requires WellFormed(h) && c < |h.controllers|
    ensures c in Entered(h, c, st) <==> c !in st.vcs
    ensures forall e :: e in Entered(h, c, st) ==> Covered(h, e, WalkController(h, c, st))
    decreases |h.controllers| - c, 1
  {
    if c !in st.vcs {
      var node := h.controllers[c];
      var s1 := Collected(st.views + CollectView(h, node.view), st.vcs + (if node.brandable then [c] else []));
      var s2 :=
        if node.presented.Some? && h.controllers[node.presented.value].brandable then
          WalkController(h, node.presented.value, s1.(vcs := s1.vcs + [node.presented.value]))
        else s1;
      var s3 := if node.isNavigation then WalkControllers(h, node.navStack, c, s2) else s2;
      var r := WalkControllers(h, node.children, c, s3);
      assert r == WalkController(h, c, st);
      assert Grows(h, s1, s2);
      GrowsTransitive(h, s1, s2, s3);
      GrowsTransitive(h, s1, s3, r);
      GrowsKeeps(h, s1, r);
      GrowsKeeps(h, s3, r);
      WalksCover(h, node.children, c, s3);
      if node.isNavigation {
        WalksCover(h, node.navStack, c, s2);
        GrowsKeeps(h, s3, r);
        forall e | e in EnteredAll(h, node.navStack, c, s2) ensures Covered(h, e, r) {
          CoveredGrows(h, e, s3, r);
        }
      }
      forall d | d in Walked(h, c) && BrandableController(h, d) ensures d in r.vcs {
        if d !in node.children {
          assert node.isNavigation && d in node.navStack;
        }
      }
      assert Covered(h, c, r);
    }
  }

  lemma {:induction false} WalksCover(h: Hierarchy, cs: seq<nat>, parent: nat, st: Collected)
    requires WellFormed(h) && ChildIds(cs, parent, |h.controllers|)
    ensures forall d :: d in cs && BrandableController(h, d) ==> d in WalkControllers(h, cs, parent, st).vcs
    ensures forall e :: e in EnteredAll(h, cs, parent, st) ==> Covered(h, e, WalkControllers(h, cs, parent, st))
    decreases |h.controllers| - parent, 0, |cs|
  {
    if cs != [] {
      var init := cs[..|cs| - 1];
      var last := cs[|cs| - 1];
      var s := WalkControllers(h, init, parent, st);
      var r := WalkController(h, last, s);
      WalksCover(h, init, parent, st);
      WalkCovers(h, last, s);
      GrowsKeeps(h, s, r);
      forall e | e in EnteredAll(h, init, parent, st) ensures Covered(h, e, r) {
        CoveredGrows(h, e, s, r);
      }
      forall d | d in cs && BrandableController(h, d) ensures d in r.vcs {
        if d != last {
          assert d in init;
        } else if last !in s.vcs {
          assert Covered(h, last, r);
        }
      }
    }
  }

  /** The `views` and `vcs` arrays of one rebrand, filled by the two nested functions. */
  class RebrandWalk {
    const h: Hierarchy
    var views: seq<nat>
    var vcs: seq<nat>

    constructor (h: Hierarchy)
      ensures this.h == h && views == [] && vcs == []
    {
      this.h := h;
      views := [];
      vcs := [];
    }

    /** `applyTo(view:)`. */
    method ApplyToView(v: nat)
      requires WellFormed(h) && v < |h.views|
      modifies this`views
      ensures views == old(views) + CollectView(h, v)
      decreases |h.views| - v
    {
      var kids := if h.views[v].isStack then h.views[v].arranged else h.views[v].subviews;
      ghost var start := views;
      for k := 0 to |kids|
        invariant views == start + CollectViews(h, kids[..k], v)
      {
        assert kids[..k + 1][..k] == kids[..k];
        ApplyToView(kids[k]);
      }
      assert kids[..|kids|] == kids;
      if !h.views[v].isStack && h.views[v].brandable {
        views := views + [v];
      }
    }

    /** `applyTo(viewController:)`. */
    method ApplyToController(c: nat)
      requires WellFormed(h) && c < |h.controllers|
      modifies this`views, this`vcs
      ensures Collected(views, vcs) == WalkController(h, c, old(Collected(views, vcs)))
      decreases |h.controllers| - c, 1
    {
      if c in vcs {
        return;
      }
      var node := h.controllers[c];
      ghost var st := Collected(views, vcs);
      ApplyToView(node.view);
      if node.brandable {
        vcs := vcs + [c];
      }
      ghost var s1 := Collected(views, vcs);
      assert s1 == Collected(st.views + CollectView(h, node.view), st.vcs + (if node.brandable then [c] else []));
      if node.presented.Some? && h.controllers[node.presented.value].brandable {
        vcs := vcs + [node.presented.value];
        ApplyToController(node.presented.value);
      }
      ghost var s2 := Collected(views, vcs);
      if node.isNavigation {
        ApplyToControllers(node.navStack, c);
      }
      ghost var s3 := Collected(views, vcs);
      assert s3 == if node.isNavigation then WalkControllers(h, node.navStack, c, s2) else s2;
      ApplyToControllers(node.children, c);
    }

    /** The `forEach` over a navigation stack or the children. */
    method ApplyToControllers(cs: seq<nat>, parent: nat)
      requires WellFormed(h) && ChildIds(cs, parent, |h.controllers|)
      modifies this`views, this`vcs
      ensures Collected(views, vcs) == WalkControllers(h, cs, parent, old(Collected(views, vcs)))
      decreases |h.controllers| - parent, 0
    {
      ghost var start := Collected(views, vcs);
      for k := 0 to |cs|
        invariant Collected(views, vcs) == WalkControllers(h, cs[..k], parent, start)
      {
        assert cs[..k + 1][..k] == cs[..k];
        ApplyToController(cs[k]);
      }
      assert cs[..|cs|] == cs;
    }
  }

  /** Who is told `setForBrand()`. */
  datatype Target = ViewTarget(view: nat) | ControllerTarget(controller: nat)

  /**
   * `for b in Set(xs)`: every distinct element once. Set iteration order is
   * unspecified, so the order here is any order.
   */
  method DistinctElements(xs: seq<nat>) returns (ys: seq<nat>)
    ensures Distinct(ys)
    ensures forall x :: x in ys <==> x in xs
  {
    ys := [];
    var remaining := set x | x in xs;
    while remaining != {}
      invariant forall x :: x in xs <==> x in ys || x in remaining
      invariant forall i :: 0 <= i < |ys| ==> ys[i] !in remaining
      invariant Distinct(ys)
      decreases remaining
    {
      var x :| x in remaining;
      ys := ys + [x];
      remaining := remaining - {x};
    }
  }

  /**
   * What one rebrand invokes: each collected view and controller exactly
   * once, every view before every controller.
   */
  ghost predicate RebrandPlan(h: Hierarchy, root: Option<nat>, invoked: seq<Target>)
    requires WellFormed(h) && (root.Some? ==> root.value < |h.controllers|)
  {
    if root.None? then invoked == []
    else
      var w := WalkController(h, root.value, Collected([], []));
      && Distinct(invoked)
      && (forall t :: t in invoked <==> (t.ViewTarget? && t.view in w.views) || (t.ControllerTarget? && t.controller in w.vcs))
      && (forall i, j :: 0 <= i < j < |invoked| && invoked[j].ViewTarget? ==> invoked[i].ViewTarget?)
  }

  /**
   * `rebrandViewHierarchy()`: without a root controller nothing happens;
   * otherwise the walk from the root, then the invocations.
   */
  method RebrandViewHierarchy(h: Hierarchy, root: Option<nat>) returns (invoked: seq<Target>)
    requires WellFormed(h) && (root.Some? ==> root.value < |h.controllers|)
    ensures RebrandPlan(h, root, invoked)
  {
    if root.None? {
      return [];
    }
    var walk := new RebrandWalk(h);
    walk.ApplyToController(root.value);
    var vs := DistinctElements(walk.views);
    var cs := DistinctElements(walk.vcs);
    var viewTargets := seq(|vs|, (i: int) requires 0 <= i < |vs| => ViewTarget(vs[i]));
    var controllerTargets := seq(|cs|, (i: int) requires 0 <= i < |cs| => ControllerTarget(cs[i]));
    invoked := viewTargets + controllerTargets;
    forall t | t in invoked
      ensures (t.ViewTarget? && t.view in walk.views) || (t.ControllerTarget? && t.controller in walk.vcs)
    {
      var i :| 0 <= i < |invoked| && invoked[i] == t;
      if i < |vs| {
        assert t == ViewTarget(vs[i]);
      } else {
        assert t == ControllerTarget(cs[i - |vs|]);
      }
    }
    forall t: Target | (t.ViewTarget? && t.view in walk.views) || (t.ControllerTarget? && t.controller in walk.vcs)
      ensures t in invoked
    {
      if t.ViewTarget? {
        var i :| 0 <= i < |vs| && vs[i] == t.view;
        assert invoked[i] == t;
      } else {
        var i :| 0 <= i < |cs| && cs[i] == t.controller;
        assert invoked[|vs| + i] == t;
      }
    }
  }
}
