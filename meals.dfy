/**
 * The breakfast / lunch / dinner split of the allergen-filtered catalog
 * (app.py lines 85-91): the food at position i goes to slot i mod 3.
 */
module Meals {
  import opened Catalog

  /** Slot numbers: breakfast, lunch, dinner. */
  const Breakfast: nat := 0
  const Lunch: nat := 1
  const Dinner: nat := 2

  /** The elements of `s` at the positions congruent to `k` modulo 3, in order. */
  function Slot<T>(s: seq<T>, k: nat): (r: seq<T>)
  {
    if s == [] then []
    else Slot(s[..|s| - 1], k) + (if (|s| - 1) % 3 == k then [s[|s| - 1]] else [])
  }

  /** Slot k holds ceil((n - k) / 3) elements, and its j-th element is the element at position 3j + k. */
  lemma {:induction false} SlotAt<T>(s: seq<T>, k: nat)
    requires k < 3
    ensures |Slot(s, k)| == (|s| + 2 - k) / 3
    ensures forall j :: 0 <= j < |Slot(s, k)| ==> Slot(s, k)[j] == s[3 * j + k]
  {
    if s != [] {
      var m := |s| - 1;
      var p, x := s[..m], s[m];
      assert s == p + [x];
      SlotAt(p, k);
      SlotSnoc(p, x, k);
      CountStep(m, k);
    }
  }

  /** Arithmetic of the slot sizes: position m adds one element to slot k exactly when m mod 3 is k, at index (m - k) / 3. */
  lemma CountStep(m: nat, k: nat)
    requires k < 3
    ensures (m + 3 - k) / 3 == (m + 2 - k) / 3 + (if m % 3 == k then 1 else 0)
    ensures m % 3 == k ==> 3 * ((m + 2 - k) / 3) + k == m
  {
    var q := m / 3;
    assert m == 3 * q + m % 3;
  }

  /** The element at position i is the (i / 3)-th element of slot i mod 3. */
  lemma IndexLandsInItsSlot<T>(s: seq<T>, i: nat)
    requires i < |s|
    ensures i / 3 < |Slot(s, i % 3)| && Slot(s, i % 3)[i / 3] == s[i]
  {
    SlotAt(s, i % 3);
  }

  /** Appending an element extends only the slot of its position. */
  lemma SlotSnoc<T>(p: seq<T>, x: T, k: nat)
    ensures Slot(p + [x], k) == Slot(p, k) + (if |p| % 3 == k then [x] else [])
  {
    assert (p + [x])[..|p|] == p;
  }

  /** The three slots together hold every element exactly as often as `s` does. */
  lemma {:induction false} SlotsPartition<T>(s: seq<T>)
    ensures multiset(Slot(s, 0)) + multiset(Slot(s, 1)) + multiset(Slot(s, 2)) == multiset(s)
  {
    if s != [] {
      var p, x := s[..|s| - 1], s[|s| - 1];
      assert s == p + [x];
      SlotsPartition(p);
      SlotSnoc(p, x, 0);
      SlotSnoc(p, x, 1);
      SlotSnoc(p, x, 2);
    }
  }

  /** Slot sizes are non-increasing from breakfast to dinner and differ by at most one. */
  lemma SlotSizes<T>(s: seq<T>)
    ensures |Slot(s, 0)| >= |Slot(s, 1)| >= |Slot(s, 2)| >= |Slot(s, 0)| - 1
  {
    SlotAt(s, 0);
    SlotAt(s, 1);
    SlotAt(s, 2);
  }

  /** Deals the filtered foods round-robin into the three meal slots. */
  method SplitMeals(filtered: seq<Food>) returns (breakfast: seq<Food>, lunch: seq<Food>, dinner: seq<Food>)
    ensures breakfast == Slot(filtered, Breakfast)
    ensures lunch == Slot(filtered, Lunch)
    ensures dinner == Slot(filtered, Dinner)
    ensures multiset(breakfast) + multiset(lunch) + multiset(dinner) == multiset(filtered)
  {
    breakfast, lunch, dinner := [], [], [];
    for i := 0 to |filtered|
      invariant breakfast == Slot(filtered[..i], Breakfast)
      invariant lunch == Slot(filtered[..i], Lunch)
      invariant dinner == Slot(filtered[..i], Dinner)
    {
      assert filtered[..i + 1][..i] == filtered[..i];
      if i % 3 == 0 {
        breakfast := breakfast + [filtered[i]];
      } else if i % 3 == 1 {
        lunch := lunch + [filtered[i]];
      } else {
        dinner := dinner + [filtered[i]];
      }
    }
    assert filtered[..|filtered|] == filtered;
    SlotsPartition(filtered);
  }
}
