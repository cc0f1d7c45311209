/**
 * A loot table: an ordered list of items, one of which is chosen at random
 * with probability proportional to its drop rate.  The random draw is a
 * parameter; the choice is a prefix-sum search.
 */
module Loot {
  import opened Engine
  import opened ItemAssets

  /** Sum of the weights, accumulated front to back as the source's first loop does. */
  function Sum(w: seq<real>): real
    decreases |w|
  {
    if w == [] then 0.0 else Sum(w[..|w| - 1]) + w[|w| - 1]
  }

  /** The drop rates of the items, in order. */
  function DropRates(items: seq<Item>): (w: seq<real>)
    reads items
    ensures |w| == |items|
    ensures forall i :: 0 <= i < |items| ==> w[i] == items[i].dropRate
    decreases |items|
  {
    if items == [] then [] else DropRates(items[..|items| - 1]) + [items[|items| - 1].dropRate]
  }

  /** `Random.Range(0, total)` is inclusive of both bounds, whichever is larger. */
  predicate InDrawRange(r: real, total: real) {
    (0.0 <= r <= total) || (total <= r <= 0.0)
  }

  /** After subtracting the weights up to and including `i`, the draw is used up. */
  predicate Hits(w: seq<real>, r: real, i: nat)
    requires i < |w|
  {
    r - Sum(w[..i + 1]) <= 0.0
  }

  /** The first index from `i` on that the draw hits, or the last index when none does. */
  function ScanFrom(w: seq<real>, r: real, i: nat): (k: nat)
    requires i < |w|
    ensures i <= k < |w|
    ensures Hits(w, r, k) ==> forall j :: i <= j < k ==> !Hits(w, r, j)
    ensures !Hits(w, r, k) ==> k == |w| - 1 && forall j :: i <= j < |w| ==> !Hits(w, r, j)
    decreases |w| - i
  {
    if Hits(w, r, i) || i == |w| - 1 then i else ScanFrom(w, r, i + 1)
  }

  /**
   * The index `GetWeightedRandomDrop` returns for weights `w` and draw `r`:
   * the smallest index at which the draw is used up, or the last index when
   * it never is.
   */
  function WeightedIndex(w: seq<real>, r: real): (k: nat)
    requires |w| > 0
    ensures k < |w|
    ensures (exists j :: 0 <= j < |w| && Hits(w, r, j)) ==> Hits(w, r, k) && forall j :: 0 <= j < k ==> !Hits(w, r, j)
    ensures (forall j :: 0 <= j < |w| ==> !Hits(w, r, j)) ==> k == |w| - 1
  {
    ScanFrom(w, r, 0)
  }

  lemma SumSnoc(w: seq<real>, i: nat)
    requires i < |w|
    ensures Sum(w[..i + 1]) == Sum(w[..i]) + w[i]
  {
    assert w[..i + 1][..i] == w[..i];
  }

  predicate NonNegative(w: seq<real>) {
    forall i :: 0 <= i < |w| ==> w[i] >= 0.0
  }

  /** With non-negative weights the prefix sums never decrease. */
  lemma {:induction false} PrefixSumsIncrease(w: seq<real>, i: nat, j: nat)
    requires NonNegative(w) && i <= j <= |w|
    ensures Sum(w[..i]) <= Sum(w[..j])
    decreases j - i
  {
    if i < j {
      SumSnoc(w, j - 1);
      PrefixSumsIncrease(w, i, j - 1);
    }
  }

  /**
   * With non-negative weights and a draw of at most the total, the draw is
   * used up by the last item at the latest, so the loop always returns and
   * the fallback after it is never reached.
   */
  lemma DrawIsAlwaysUsedUp(w: seq<real>, r: real)
    requires |w| > 0 && NonNegative(w) && InDrawRange(r, Sum(w))
    ensures Hits(w, r, |w| - 1)
    ensures Hits(w, r, WeightedIndex(w, r))
  {
    PrefixSumsIncrease(w, 0, |w|);
    assert w[..|w|] == w;
    assert Hits(w, r, |w| - 1);
  }

  /** The first index at which the draw is used up is the one chosen. */
  lemma FirstHitIsChosen(w: seq<real>, r: real, i: nat)
    requires i < |w| && Hits(w, r, i)
    requires forall j :: 0 <= j < i ==> !Hits(w, r, j)
    ensures WeightedIndex(w, r) == i
  {
  }

  /** A draw of zero, which covers every draw from an all-zero table, picks the first item. */
  lemma ZeroDrawPicksFirst(w: seq<real>)
    requires |w| > 0 && w[0] >= 0.0
    ensures WeightedIndex(w, 0.0) == 0
  {
    SumSnoc(w, 0);
    assert Hits(w, 0.0, 0);
  }

  lemma AllZeroTablePicksFirst(w: seq<real>, r: real)
    requires |w| > 0 && forall i :: 0 <= i < |w| ==> w[i] == 0.0
    requires InDrawRange(r, Sum(w))
    ensures WeightedIndex(w, r) == 0
  {
    assert Sum(w) == 0.0 by {
      PrefixSumsIncrease(w, 0, |w|);
      assert w[..|w|] == w;
      ZeroSumsOfZeros(w);
    }
    ZeroDrawPicksFirst(w);
  }

  lemma {:induction false} ZeroSumsOfZeros(w: seq<real>)
    requires forall i :: 0 <= i < |w| ==> w[i] == 0.0
    ensures Sum(w) == 0.0
    decreases |w|
  {
    if w != [] {
      ZeroSumsOfZeros(w[..|w| - 1]);
    }
  }

  /** A heavier draw never picks an earlier item, whatever the weights. */
  lemma ChoiceIsMonotone(w: seq<real>, r1: real, r2: real)
    requires |w| > 0 && r1 <= r2
    ensures WeightedIndex(w, r1) <= WeightedIndex(w, r2)
  {
    var k2 := WeightedIndex(w, r2);
    if Hits(w, r2, k2) {
      assert Hits(w, r1, k2);
    }
  }

  /**
   * With non-negative weights and a draw within the total, item `k` is chosen
   * exactly when the draw lies in its slice of the prefix sums: above the
   * weights before it (or anywhere up to its end, for the first item) and at
   * most the weights up to and including it.
   */
  lemma ChosenExactlyInItsSlice(w: seq<real>, r: real, k: nat)
    requires k < |w| && NonNegative(w) && InDrawRange(r, Sum(w))
    ensures WeightedIndex(w, r) == k <==> (k == 0 || Sum(w[..k]) < r) && r <= Sum(w[..k + 1])
  {
    if WeightedIndex(w, r) == k {
      DrawIsAlwaysUsedUp(w, r);
      if k > 0 {
        assert !Hits(w, r, k - 1);
      }
    }
    if (k == 0 || Sum(w[..k]) < r) && r <= Sum(w[..k + 1]) {
      forall j | 0 <= j < k
        ensures !Hits(w, r, j)
      {
        PrefixSumsIncrease(w, j + 1, k);
      }
      FirstHitIsChosen(w, r, k);
    }
  }

  /** A weightless item after the first is never chosen by a draw within the total. */
  lemma ZeroWeightNeverChosen(w: seq<real>, r: real, k: nat)
    requires 0 < k < |w| && NonNegative(w) && InDrawRange(r, Sum(w)) && w[k] == 0.0
    ensures WeightedIndex(w, r) != k
  {
    ChosenExactlyInItsSlice(w, r, k);
    SumSnoc(w, k);
  }

  class LootTable {
    var items: seq<Item>     // m_items

    constructor (items: seq<Item>)
      ensures this.items == items
    {
      this.items := items;
    }

    /**
     * The weighted drop for the draw `r` of `Random.Range(0, total)`; the
     * table is left as it is.
     */
    method GetWeightedRandomDrop(r: real) returns (drop: Item?)
      requires |items| > 0 ==> InDrawRange(r, Sum(DropRates(items)))
      ensures |items| == 0 ==> drop == null
      ensures |items| > 0 ==> drop == items[WeightedIndex(DropRates(items), r)]
    {
      if |items| <= 0 {
        return null;
      }
      ghost var w := DropRates(items);

      var totalWeight := 0.0;
      for i := 0 to |items|
        invariant totalWeight == Sum(w[..i])
      {
        SumSnoc(w, i);
        totalWeight := totalWeight + items[i].dropRate;
      }
      assert w[..|w|] == w;

      var chance := r;
      for i := 0 to |items|
        invariant chance == r - Sum(w[..i])
        invariant forall j :: 0 <= j < i ==> !Hits(w, r, j)
      {
        SumSnoc(w, i);
        chance := chance - items[i].dropRate;
        if chance <= 0.0 {
          FirstHitIsChosen(w, r, i);
          return items[i];
        }
      }
      return items[|items| - 1];
    }

    /**
     * Loads every item in order, going on after a failure; the answer is the
     * last item's own answer (true for an empty table).  An item listed twice
     * is loaded twice, which leaves it as loading it once does.
     */
    method InitializeLootTable(loadModel: string -> Option<AssetId>, loadSprite: string -> Option<AssetId>)
      returns (result: bool)
      modifies items
      ensures forall x :: x in items ==> x.State() == Initialized(old(x.State()), loadModel, loadSprite).state
      ensures result == (|items| == 0 || Initialized(old(items[|items| - 1].State()), loadModel, loadSprite).ok)
    {
      result := true;
      for i := 0 to |items|
        invariant forall x :: x in items[..i] ==> x.State() == Initialized(old(x.State()), loadModel, loadSprite).state
        invariant forall x :: x in items && x !in items[..i] ==> x.State() == old(x.State())
        invariant result == (i == 0 || Initialized(old(items[i - 1].State()), loadModel, loadSprite).ok)
      {
        var x := items[i];
        InitializedIsIdempotent(old(x.State()), loadModel, loadSprite);
        result := x.InitializeItem(loadModel, loadSprite);
        assert items[..i + 1] == items[..i] + [x];
      }
      assert items[..|items|] == items;
    }

    /** Records the resource paths of every item, in order. */
    method SerializeItems(assetPath: Option<AssetId> -> string)
      modifies items
      ensures forall x :: x in items ==> x.State() == Saved(old(x.State()), assetPath)
    {
      for i := 0 to |items|
        invariant forall x :: x in items[..i] ==> x.State() == Saved(old(x.State()), assetPath)
        invariant forall x :: x in items && x !in items[..i] ==> x.State() == old(x.State())
      {
        var x := items[i];
        SavedIsIdempotent(old(x.State()), assetPath);
        x.SetSavedProperties(assetPath);
        assert items[..i + 1] == items[..i] + [x];
      }
      assert items[..|items|] == items;
    }
  }
}
