/** Totals over sequences, for the accounts that a pool and its holders must balance. */
module Sums {

  ghost function Sum<T>(weight: T -> nat, items: seq<T>): nat {
    if items == [] then 0 else Sum(weight, items[..|items| - 1]) + weight(items[|items| - 1])
  }

  lemma SumAppend<T>(weight: T -> nat, items: seq<T>, item: T)
    ensures Sum(weight, items + [item]) == Sum(weight, items) + weight(item)
  {
    assert (items + [item])[..|items|] == items;
  }

  lemma {:induction false} SumUpdate<T>(weight: T -> nat, items: seq<T>, i: nat, item: T)
    requires i < |items|
    ensures Sum(weight, items[i := item]) + weight(items[i]) == Sum(weight, items) + weight(item)
  {
    var last := |items| - 1;
    if i == last {
      assert items[i := item][..last] == items[..last];
    } else {
      assert items[i := item][..last] == items[..last][i := item];
      SumUpdate(weight, items[..last], i, item);
    }
  }

  lemma {:induction false} SumAtLeast<T>(weight: T -> nat, items: seq<T>, i: nat)
    requires i < |items|
    ensures weight(items[i]) <= Sum(weight, items)
  {
    if i < |items| - 1 {
      SumAtLeast(weight, items[..|items| - 1], i);
    }
  }

  lemma {:induction false} SumOfNothing<T>(weight: T -> nat, items: seq<T>)
    requires forall i | 0 <= i < |items| :: weight(items[i]) == 0
    ensures Sum(weight, items) == 0
  {
    if items != [] {
      SumOfNothing(weight, items[..|items| - 1]);
    }
  }

  /** Where every item weighs at most `factor` times another weight, so does the total. */
  lemma {:induction false} SumScaled<T>(weight: T -> nat, other: T -> nat, factor: nat, items: seq<T>)
    requires forall i | 0 <= i < |items| :: weight(items[i]) <= factor * other(items[i])
    ensures Sum(weight, items) <= factor * Sum(other, items)
  {
    if items != [] {
      SumScaled(weight, other, factor, items[..|items| - 1]);
    }
  }

  // ----- Totals over numbered entries -----

  /** What the entries below a bound weigh together. */
  ghost function Total<T>(weight: T -> nat, entries: map<nat, T>, bound: nat): nat {
    if bound == 0 then 0
    else Total(weight, entries, bound - 1) + if bound - 1 in entries then weight(entries[bound - 1]) else 0
  }

  lemma {:induction false} TotalWithout<T>(weight: T -> nat, entries: map<nat, T>, key: nat, bound: nat)
    requires key in entries
    ensures Total(weight, entries, bound) == Total(weight, entries - {key}, bound) + if key < bound then weight(entries[key]) else 0
  {
    if bound > 0 {
      TotalWithout(weight, entries, key, bound - 1);
    }
  }

  lemma {:induction false} TotalWith<T>(weight: T -> nat, entries: map<nat, T>, key: nat, entry: T, bound: nat)
    requires key !in entries
    ensures Total(weight, entries[key := entry], bound) == Total(weight, entries, bound) + if key < bound then weight(entry) else 0
  {
    if bound > 0 {
      TotalWith(weight, entries, key, entry, bound - 1);
    }
  }

  // ----- Distinct numbers below a bound -----

  ghost function UpTo(n: nat): set<nat> {
    if n == 0 then {} else UpTo(n - 1) + {n - 1}
  }

  lemma {:induction false} CountUpTo(n: nat)
    ensures |UpTo(n)| == n && forall k: nat :: k in UpTo(n) <==> k < n
  {
    if n > 0 {
      CountUpTo(n - 1);
    }
  }

  ghost function Range(s: seq<nat>): set<nat> {
    set j | 0 <= j < |s| :: s[j]
  }

  lemma {:induction false} CountDistinct(s: seq<nat>)
    requires forall i, j | 0 <= i < j < |s| :: s[i] != s[j]
    ensures |Range(s)| == |s|
  {
    if s != [] {
      var most, last := s[..|s| - 1], s[|s| - 1];
      CountDistinct(most);
      assert Range(s) == Range(most) + {last};
    }
  }

  /** As many distinct numbers as there are below a bound leave none of them out. */
  lemma DistinctCover(s: seq<nat>, k: nat)
    requires forall i, j | 0 <= i < j < |s| :: s[i] != s[j]
    requires forall i | 0 <= i < |s| :: s[i] < |s|
    requires k < |s|
    ensures exists i | 0 <= i < |s| :: s[i] == k
  {
    CountUpTo(|s|);
    CountDistinct(s);
    assert Range(s) <= UpTo(|s|);
    assert UpTo(|s|) == Range(s) + (UpTo(|s|) - Range(s));
    assert k in Range(s);
  }
}
