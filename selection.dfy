/** The exclusion list and its one update, `toggleExcludedNumber` (App.tsx). */
module Selection {
  import opened Sequences

  /** `s.filter(n => n !== x)`: every element of `s` except `x`, in their original order. */
  function RemoveAll(s: seq<int>, x: int): (r: seq<int>)
    ensures x !in r
    ensures multiset(r) == multiset(s)[x := 0]
    ensures forall y :: y != x ==> (y in r <==> y in s)
  {
    if s == [] then []
    else
      assert s == [s[0]] + s[1..];
      (if s[0] == x then [] else [s[0]]) + RemoveAll(s[1..], x)
  }

  /**
   * Filtering distributes over concatenation, so the kept elements keep their
   * relative order; with `RemoveAll([y], x) == [y]` for `y != x` and
   * `RemoveAll([x], x) == []` this determines `RemoveAll` completely.
   */
  lemma {:induction false} RemoveAllAppend(a: seq<int>, b: seq<int>, x: int)
    ensures RemoveAll(a + b, x) == RemoveAll(a, x) + RemoveAll(b, x)
  {
    if a != [] {
      var head := if a[0] == x then [] else [a[0]];
      assert (a + b)[0] == a[0];
      assert (a + b)[1..] == a[1..] + b;
      assert RemoveAll(a + b, x) == head + RemoveAll(a[1..] + b, x);
      assert RemoveAll(a, x) == head + RemoveAll(a[1..], x);
      RemoveAllAppend(a[1..], b, x);
      assert head + (RemoveAll(a[1..], x) + RemoveAll(b, x))
          == (head + RemoveAll(a[1..], x)) + RemoveAll(b, x);
    } else {
      assert a + b == b;
    }
  }

  /** Filtering out a value that does not occur changes nothing. */
  lemma {:induction false} RemoveAbsent(s: seq<int>, x: int)
    requires x !in s
    ensures RemoveAll(s, x) == s
  {
    if s != [] {
      RemoveAbsent(s[1..], x);
      assert s == [s[0]] + s[1..];
    }
  }

  /** Filtering never introduces duplicates. */
  lemma RemoveAllDistinct(s: seq<int>, x: int)
    requires Distinct(s)
    ensures Distinct(RemoveAll(s, x))
  {
    DistinctIffSingleCounts(s);
    DistinctIffSingleCounts(RemoveAll(s, x));
  }

  /** The toggle of App.tsx: remove `num` when the list includes it, otherwise append it. */
  function Toggle(prev: seq<int>, num: int): (r: seq<int>)
  {
    if num in prev then RemoveAll(prev, num) else prev + [num]
  }

  /**
   * Toggling a present number removes every occurrence and keeps the rest
   * (with their multiplicities); toggling an absent number appends it at the end.
   */
  lemma ToggleEffect(prev: seq<int>, num: int)
    ensures num in prev ==> num !in Toggle(prev, num) &&
                            multiset(Toggle(prev, num)) == multiset(prev)[num := 0]
    ensures num !in prev ==> Toggle(prev, num) == prev + [num] && |Toggle(prev, num)| == |prev| + 1
    ensures num in Toggle(prev, num) <==> num !in prev
    ensures forall y :: y != num ==> (y in Toggle(prev, num) <==> y in prev)
  {
  }

  /** Toggle keeps the exclusion list duplicate-free. */
  lemma ToggleKeepsDistinct(prev: seq<int>, num: int)
    requires Distinct(prev)
    ensures Distinct(Toggle(prev, num))
  {
    if num in prev {
      RemoveAllDistinct(prev, num);
    }
  }

  /**
   * Toggling twice restores the same set of exclusions; when the number was
   * absent it restores the very same list.
   */
  lemma ToggleTwice(prev: seq<int>, num: int)
    ensures forall y :: y in Toggle(Toggle(prev, num), num) <==> y in prev
    ensures num !in prev ==> Toggle(Toggle(prev, num), num) == prev
  {
    ToggleEffect(prev, num);
    ToggleEffect(Toggle(prev, num), num);
    if num !in prev {
      RemoveAllAppend(prev, [num], num);
      RemoveAbsent(prev, num);
      assert RemoveAll([num], num) == [];
    }
  }
}
