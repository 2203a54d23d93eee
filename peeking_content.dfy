/**
 * `PeekingContentSection`: the items of the given sections are interleaved
 * with padding items, a bookend padding at each end and an inter-item
 * padding between neighbours, giving `2n + 1` slots for `n` items. A given
 * section is represented by its item count.
 */
module PeekingContent {
  import opened Wrappers

  datatype SectionRef = Given(index: nat) | BookendPadding | InterItemPadding

  /** Items in the first `j` given sections. */
  function Prefix(counts: seq<nat>, j: nat): nat
    requires j <= |counts|
  {
    if j == 0 then 0 else Prefix(counts, j - 1) + counts[j - 1]
  }

  function Total(counts: seq<nat>): nat {
    Prefix(counts, |counts|)
  }

  lemma {:induction false} PrefixMonotone(counts: seq<nat>, i: nat, j: nat)
    requires i <= j <= |counts|
    ensures Prefix(counts, i) <= Prefix(counts, j)
    decreases j - i
  {
    if i < j {
      PrefixMonotone(counts, i, j - 1);
    }
  }

  /** `saltedContentCount()`: no slots when there are no items, otherwise one slot more than twice the items. */
  function SaltedContentCount(counts: seq<nat>): (r: int)
    ensures r == 0 || r % 2 == 1
    ensures r == 0 <==> Total(counts) == 0
    ensures r > 0 ==> (r - 1) / 2 == Total(counts)
  {
    var count := Total(counts);
    if count > 0 then 1 + count * 2 else 0
  }

  /** Swift `Int` division by 2, which truncates toward zero. */
  function TruncatingHalf(x: int): (r: int)
    ensures x >= 0 ==> 2 * r <= x <= 2 * r + 1
    ensures x < 0 ==> 2 * r - 1 <= x <= 2 * r
  {
    if x >= 0 then x / 2 else -((-x) / 2)
  }

  /** `unsaltedIndex(from:)`: `(index - 1) / 2` with truncating division. */
  function UnsaltedIndex(index: int): (r: int)
    ensures index >= 1 ==> 2 * r + 1 <= index <= 2 * r + 2
    ensures index == 0 ==> r == 0
  {
    TruncatingHalf(index - 1)
  }

  /** The loop of `section(at:)`: the first section, from `j` on, whose running total passes `k`. */
  function FindSection(counts: seq<nat>, k: int, j: nat, total: int): Option<nat>
    requires j <= |counts|
    decreases |counts| - j
  {
    if j == |counts| then None
    else if counts[j] + total > k then Some(j)
    else FindSection(counts, k, j + 1, total + counts[j])
  }

  /** The loop of `givenSectionIndex(from:)`: the same search, returning the offset into the section found. */
  function FindOffset(counts: seq<nat>, k: int, j: nat, total: int): Option<int>
    requires j <= |counts|
    decreases |counts| - j
  {
    if j == |counts| then None
    else if counts[j] + total > k then Some(k - total)
    else FindOffset(counts, k, j + 1, total + counts[j])
  }

  /** `section(at:)`. Swift's `%` truncates, but `index % 2 != 0` holds for the same indices as here. */
  function SectionAt(counts: seq<nat>, index: int): SectionRef {
    if index == 0 || index == SaltedContentCount(counts) - 1 then BookendPadding
    else if index % 2 != 0 then
      match FindSection(counts, UnsaltedIndex(index), 0, 0)
      case Some(j) => Given(j)
      case None => InterItemPadding
    else InterItemPadding
  }

  /** `givenSectionIndex(from:)`. */
  function GivenSectionIndex(counts: seq<nat>, index: int): Option<int> {
    FindOffset(counts, UnsaltedIndex(index), 0, 0)
  }

  /** `itemCount`. */
  function ItemCount(counts: seq<nat>): int {
    SaltedContentCount(counts)
  }

  /** `allSections`: the given sections, then the bookend padding, then the inter-item padding. */
  function AllSections(counts: seq<nat>): (r: seq<SectionRef>)
    ensures |r| == |counts| + 2
    ensures forall j :: 0 <= j < |counts| ==> r[j] == Given(j)
    ensures r[|counts|] == BookendPadding && r[|counts| + 1] == InterItemPadding
  {
    seq(|counts|, (j: int) requires 0 <= j => Given(j)) + [BookendPadding, InterItemPadding]
  }

  /** The loop of `saltedContentCount()` over the sections' item counts. */
  method CountSalted(counts: seq<nat>) returns (r: int)
    ensures r == SaltedContentCount(counts)
  {
    var count := 0;
    for j := 0 to |counts|
      invariant count == Prefix(counts, j)
    {
      count := count + counts[j];
    }
    if count <= 0 {
      return 0;
    }
    r := 1 + count * 2;
  }

  /** `section(at:)` with its loop. */
  method LocateSection(counts: seq<nat>, index: int) returns (r: SectionRef)
    ensures r == SectionAt(counts, index)
  {
    var salted := CountSalted(counts);
    if index == 0 || index == salted - 1 {
      return BookendPadding;
    }
    if index % 2 != 0 {
      var total := 0;
      for j := 0 to |counts|
        invariant total == Prefix(counts, j)
        invariant FindSection(counts, UnsaltedIndex(index), 0, 0) == FindSection(counts, UnsaltedIndex(index), j, total)
      {
        if counts[j] + total > UnsaltedIndex(index) {
          return Given(j);
        }
        total := total + counts[j];
      }
    }
    return InterItemPadding;
  }

  /** `givenSectionIndex(from:)` with its loop. */
  method LocateGivenIndex(counts: seq<nat>, index: int) returns (r: Option<int>)
    ensures r == GivenSectionIndex(counts, index)
  {
    var total := 0;
    for j := 0 to |counts|
      invariant total == Prefix(counts, j)
      invariant GivenSectionIndex(counts, index) == FindOffset(counts, UnsaltedIndex(index), j, total)
    {
      var trueIndex := UnsaltedIndex(index);
      if counts[j] + total > trueIndex {
        return Some(trueIndex - total);
      }
      total := total + counts[j];
    }
    return None;
  }

  /** The section owning item `k`: its range of item numbers contains `k`. */
  predicate Owns(counts: seq<nat>, j: nat, k: int)
    requires j < |counts|
  {
    Prefix(counts, j) <= k < Prefix(counts, j + 1)
  }

  /**
   * Both searches, started at `j` with the running total of the sections
   * before `j`, find the section that owns item `k` and `k`'s offset in it,
   * or nothing when `k` lies past the last item.
   */
  lemma {:induction false} SearchFindsOwner(counts: seq<nat>, k: int, j: nat)
    requires j <= |counts| && Prefix(counts, j) <= k
    ensures k < Total(counts) ==>
      && FindSection(counts, k, j, Prefix(counts, j)).Some?
      && var s := FindSection(counts, k, j, Prefix(counts, j)).value;
      && j <= s < |counts| && Owns(counts, s, k)
      && FindOffset(counts, k, j, Prefix(counts, j)) == Some(k - Prefix(counts, s))
    ensures k >= Total(counts) ==>
      FindSection(counts, k, j, Prefix(counts, j)).None? && FindOffset(counts, k, j, Prefix(counts, j)).None?
    decreases |counts| - j
  {
    if j < |counts| {
      if counts[j] + Prefix(counts, j) <= k {
        SearchFindsOwner(counts, k, j + 1);
      } else {
        PrefixMonotone(counts, j + 1, |counts|);
      }
    }
  }

  /** Every slot of a non-empty peeking section resolves to the padding or to the section owning its item. */
  lemma SectionAtSlots(counts: seq<nat>, index: int)
    requires 0 <= index < ItemCount(counts)
    ensures index == 0 || index == ItemCount(counts) - 1 ==> SectionAt(counts, index) == BookendPadding
    ensures 0 < index < ItemCount(counts) - 1 && index % 2 == 0 ==> SectionAt(counts, index) == InterItemPadding
    ensures index % 2 == 1 ==>
      && SectionAt(counts, index).Given?
      && var j := SectionAt(counts, index).index;
      && j < |counts| && Owns(counts, j, (index - 1) / 2)
      && GivenSectionIndex(counts, index) == Some((index - 1) / 2 - Prefix(counts, j))
  {
    if index % 2 == 1 {
      SearchFindsOwner(counts, UnsaltedIndex(index), 0);
    }
  }

  /**
   * Round trip: item `offset` of given section `j` sits in slot
   * `2 * (Prefix(j) + offset) + 1`, and that slot maps back to section `j`
   * at the same offset.
   */
  lemma SlotRoundTrip(counts: seq<nat>, j: nat, offset: nat)
    requires j < |counts| && offset < counts[j]
    ensures var index := 2 * (Prefix(counts, j) + offset) + 1;
      && 0 < index < ItemCount(counts) - 1
      && SectionAt(counts, index) == Given(j)
      && GivenSectionIndex(counts, index) == Some(offset)
  {
    var k := Prefix(counts, j) + offset;
    PrefixMonotone(counts, j + 1, |counts|);
    SearchFindsOwner(counts, k, 0);
    var s := FindSection(counts, k, 0, 0).value;
    OwnerUnique(counts, s, j, k);
  }

  /** At most one section owns a given item. */
  lemma OwnerUnique(counts: seq<nat>, a: nat, b: nat, k: int)
    requires a < |counts| && b < |counts| && Owns(counts, a, k) && Owns(counts, b, k)
    ensures a == b
  {
    if a < b {
      PrefixMonotone(counts, a + 1, b);
    } else if b < a {
      PrefixMonotone(counts, b + 1, a);
    }
  }

  /** With no items there are no slots, and slot 0 is still reported as the bookend. */
  lemma EmptyHasNoSlots(counts: seq<nat>)
    requires Total(counts) == 0
    ensures ItemCount(counts) == 0 && SectionAt(counts, 0) == BookendPadding
    ensures forall index :: GivenSectionIndex(counts, index).None? || UnsaltedIndex(index) < 0
  {
    forall index ensures GivenSectionIndex(counts, index).None? || UnsaltedIndex(index) < 0 {
      if UnsaltedIndex(index) >= 0 {
        SearchFindsOwner(counts, UnsaltedIndex(index), 0);
      }
    }
  }

  /**
   * Truncating division makes slot 0 unsalt to item 0, like slots 1 and 2;
   * floor division would give -1.
   */
  lemma UnsaltedIndexTruncates()
    ensures UnsaltedIndex(0) == 0 && UnsaltedIndex(1) == 0 && UnsaltedIndex(2) == 0
    ensures UnsaltedIndex(-1) == -1 && (0 - 1) / 2 == -1
  {
  }
}
