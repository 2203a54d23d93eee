/**
 * `Typography`: a font role made of a key (`"large"`, `"small"`, ...) and a
 * list of modifiers. Two equalities are defined on it: `==` compares the
 * derived `name`, which only reflects `strong` and `noAccessibility`, and the
 * stricter `====` also compares the modifier lists.
 */
module Typographies {
  import opened Wrappers

  datatype Typography = Typography(key: string, modifiers: seq<string>)

  const Strong := "strong"
  const Condensed := "condensed"
  const NoAccessibility := "noAccessibility"

  predicate IsStrong(t: Typography) {
    Strong in t.modifiers
  }

  /** Accessibility size adjustments apply unless `noAccessibility` is present. */
  predicate UseAccessibility(t: Typography) {
    NoAccessibility !in t.modifiers
  }

  /** What `name` appends to the key: " strong" first, then " noAccessibility". */
  function Suffix(t: Typography): (r: string)
    ensures r == "" || r[0] == ' '
    ensures IsStrong(t) ==> |r| >= 7 && r[..7] == " strong"
  {
    (if IsStrong(t) then " " + Strong else "")
    + (if UseAccessibility(t) then "" else " " + NoAccessibility)
  }

  /** `Typography.name`: the key followed by the suffix of the modifiers that matter. */
  function Name(t: Typography): (r: string)
    ensures |r| >= |t.key| && r[..|t.key|] == t.key
    ensures r[|t.key|..] == Suffix(t)
  {
    t.key + Suffix(t)
  }

  /** Swift `==` on `Typography`. */
  predicate Equal(a: Typography, b: Typography) {
    Name(a) == Name(b)
  }

  /** Swift `====` on `Typography`: `==`, equal modifier counts, every left modifier found on the right. */
  predicate ExactlyEqual(a: Typography, b: Typography) {
    && Equal(a, b)
    && |a.modifiers| == |b.modifiers|
    && forall i :: 0 <= i < |a.modifiers| ==> a.modifiers[i] in b.modifiers
  }

  /** `====` is a refinement of `==`. */
  lemma ExactlyEqualImpliesEqual(a: Typography, b: Typography)
    requires ExactlyEqual(a, b)
    ensures Equal(a, b) && |a.modifiers| == |b.modifiers|
    ensures forall m :: m in a.modifiers ==> m in b.modifiers
  {
    forall m | m in a.modifiers ensures m in b.modifiers {
      var i :| 0 <= i < |a.modifiers| && a.modifiers[i] == m;
    }
  }

  /** The four possible suffixes are pairwise different, so a suffix tells both flags. */
  lemma SuffixDeterminesFlags(a: Typography, b: Typography)
    requires Suffix(a) == Suffix(b)
    ensures IsStrong(a) == IsStrong(b) && UseAccessibility(a) == UseAccessibility(b)
  {
    assert |Suffix(a)| == (if IsStrong(a) then 7 else 0) + (if UseAccessibility(a) then 0 else 16);
    assert |Suffix(b)| == (if IsStrong(b) then 7 else 0) + (if UseAccessibility(b) then 0 else 16);
  }

  /** For keys without a space (all the keys the design system defines), the name determines the key. */
  lemma NameDeterminesKey(a: Typography, b: Typography)
    requires ' ' !in a.key && ' ' !in b.key
    requires Name(a) == Name(b)
    ensures a.key == b.key && Suffix(a) == Suffix(b)
  {
    var n := Name(a);
    assert |a.key| == |b.key|;
    assert a.key == n[..|a.key|] == b.key;
  }

  /**
   * `==` holds exactly when the keys agree and both carry, or both lack,
   * `strong` and `noAccessibility`: `condensed` and the order of the
   * modifiers do not matter.
   */
  lemma EqualCharacterised(a: Typography, b: Typography)
    requires ' ' !in a.key && ' ' !in b.key
    ensures Equal(a, b) <==>
      a.key == b.key && IsStrong(a) == IsStrong(b) && UseAccessibility(a) == UseAccessibility(b)
  {
    if Equal(a, b) {
      NameDeterminesKey(a, b);
      SuffixDeterminesFlags(a, b);
    }
  }

  /** A key containing a space can collide with another key plus modifiers. */
  lemma NameCollision()
    ensures Equal(Typography("large strong", []), Typography("large", [Strong]))
  {
    assert Name(Typography("large strong", [])) == "large strong";
    assert Name(Typography("large", [Strong])) == "large" + " strong";
  }

  lemma {:induction false} DistinctCardinality(s: seq<string>)
    requires Distinct(s)
    ensures |set m | m in s| == |s|
  {
    if s != [] {
      var rest := s[1..];
      assert Distinct(rest);
      DistinctCardinality(rest);
      assert (set m | m in s) == (set m | m in rest) + {s[0]};
      assert s[0] !in rest;
    }
  }

  /** On repetition-free modifier lists `====` is `==` plus equality of the modifier sets. */
  lemma ExactlyEqualOnDistinct(a: Typography, b: Typography)
    requires Distinct(a.modifiers) && Distinct(b.modifiers)
    ensures ExactlyEqual(a, b) <==>
      Equal(a, b) && (set m | m in a.modifiers) == (set m | m in b.modifiers)
  {
    var sa := set m | m in a.modifiers;
    var sb := set m | m in b.modifiers;
    DistinctCardinality(a.modifiers);
    DistinctCardinality(b.modifiers);
    if ExactlyEqual(a, b) {
      ExactlyEqualImpliesEqual(a, b);
      assert sa <= sb;
      assert |sb - sa| == |sb| - |sa| == 0;
      assert sb - sa == {};
    }
    if Equal(a, b) && sa == sb {
      forall i | 0 <= i < |a.modifiers| ensures a.modifiers[i] in b.modifiers {
        assert a.modifiers[i] in sa;
      }
    }
  }

  /** With a repeated modifier, `====` is not symmetric. */
  lemma ExactlyEqualNotSymmetric()
    ensures ExactlyEqual(Typography("large", [Strong, Strong]), Typography("large", [Strong, Condensed]))
    ensures !ExactlyEqual(Typography("large", [Strong, Condensed]), Typography("large", [Strong, Strong]))
  {
    var a := Typography("large", [Strong, Strong]);
    var b := Typography("large", [Strong, Condensed]);
    assert Suffix(a) == Suffix(b);
    assert b.modifiers[1] !in a.modifiers;
  }

  /** Same key, modifiers differing only by `condensed`: loosely but not exactly equal. */
  lemma CondensedIsLooseOnly(k: string)
    ensures Equal(Typography(k, [Condensed]), Typography(k, []))
    ensures !ExactlyEqual(Typography(k, [Condensed]), Typography(k, []))
  {
    assert Suffix(Typography(k, [Condensed])) == "";
  }
}
