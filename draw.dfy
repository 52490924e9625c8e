/** The pool of eligible numbers and one drawn set (App.tsx, `generateNumbers`). */
module Draw {
  import opened Sequences

  /** Lotto numbers run from 1 to `DomainSize`. */
  const DomainSize: nat := 45
  /** Numbers in one drawn set. */
  const SetSize: nat := 6
  /** Sets produced by one draw. */
  const SetsPerDraw: nat := 5

  /** `Array.from({ length: 45 }, (_, i) => i + 1)`. */
  function Domain(): (r: seq<int>)
    ensures StrictlyAscending(r)
    ensures forall x :: x in r <==> 1 <= x <= DomainSize
  {
    var d := seq(DomainSize, i => i + 1);
    assert forall x | 1 <= x <= DomainSize :: x in d by {
      forall x | 1 <= x <= DomainSize ensures x in d {
        assert d[x - 1] == x;
      }
    }
    d
  }

  /** `s.filter(n => !excluded.includes(n))`. */
  function FilterOut(s: seq<int>, excluded: seq<int>): (r: seq<int>)
  {
    if s == [] then []
    else (if s[0] in excluded then [] else [s[0]]) + FilterOut(s[1..], excluded)
  }

  /** The numbers eligible for a draw. */
  function Pool(excluded: seq<int>): seq<int>
  {
    FilterOut(Domain(), excluded)
  }

  /** The excluded numbers that lie in the domain, each counted once. */
  ghost function ExcludedInDomain(excluded: seq<int>): set<int>
  {
    set x | x in excluded && 1 <= x <= DomainSize
  }

  lemma {:induction false} FilterOutMembers(s: seq<int>, excluded: seq<int>)
    ensures forall x :: x in FilterOut(s, excluded) <==> x in s && x !in excluded
  {
    if s != [] {
      FilterOutMembers(s[1..], excluded);
      assert s == [s[0]] + s[1..];
    }
  }

  lemma {:induction false} FilterOutStrictlyAscending(s: seq<int>, excluded: seq<int>)
    requires StrictlyAscending(s)
    ensures StrictlyAscending(FilterOut(s, excluded))
  {
    if s != [] {
      FilterOutStrictlyAscending(s[1..], excluded);
      FilterOutMembers(s[1..], excluded);
      var rest := FilterOut(s[1..], excluded);
      forall k | 0 <= k < |rest| ensures s[0] < rest[k] {
        assert rest[k] in rest;
      }
    }
  }

  lemma {:induction false} FilterOutLength(s: seq<int>, excluded: seq<int>)
    requires Distinct(s)
    ensures |FilterOut(s, excluded)| + |set x | x in s && x in excluded| == |s|
  {
    if s == [] {
      assert (set x | x in s && x in excluded) == {};
    } else {
      var t := s[1..];
      DistinctTail(s);
      FilterOutLength(t, excluded);
      assert s == [s[0]] + t;
      var hit := if s[0] in excluded then {s[0]} else {};
      assert (set x | x in s && x in excluded) == hit + (set x | x in t && x in excluded);
      assert s[0] !in (set x | x in t && x in excluded);
    }
  }

  /**
   * The pool is exactly the numbers 1..45 not excluded, in strictly ascending
   * order, and its length is 45 minus the number of distinct excluded numbers
   * in 1..45.
   */
  lemma PoolSpec(excluded: seq<int>)
    ensures forall x :: x in Pool(excluded) <==> 1 <= x <= DomainSize && x !in excluded
    ensures StrictlyAscending(Pool(excluded))
    ensures |Pool(excluded)| == DomainSize - |ExcludedInDomain(excluded)|
  {
    var d := Domain();
    FilterOutMembers(d, excluded);
    FilterOutStrictlyAscending(d, excluded);
    FilterOutLength(d, excluded);
    assert (set x | x in d && x in excluded) == ExcludedInDomain(excluded);
  }

  /** The pool depends only on which numbers are excluded, not on the list's order or repeats. */
  lemma PoolDependsOnMembership(a: seq<int>, b: seq<int>)
    requires forall x :: x in a <==> x in b
    ensures Pool(a) == Pool(b)
  {
    PoolSpec(a);
    PoolSpec(b);
    StrictlyAscendingUnique(Pool(a), Pool(b));
  }

  /** A draw is possible exactly when at most 39 distinct numbers of 1..45 are excluded. */
  lemma DrawPossibleIff(excluded: seq<int>)
    ensures |Pool(excluded)| >= SetSize <==> |ExcludedInDomain(excluded)| <= DomainSize - SetSize
  {
    PoolSpec(excluded);
  }

  /** An exclusion list of at most 39 entries always leaves a pool of at least 6. */
  lemma ShortListLeavesEnough(excluded: seq<int>)
    requires |excluded| <= DomainSize - SetSize
    ensures |Pool(excluded)| >= SetSize
  {
    PoolSpec(excluded);
    ElementCount(excluded);
    var inDomain, all := ExcludedInDomain(excluded), set x | x in excluded;
    assert all == inDomain + (all - inDomain);
    assert inDomain * (all - inDomain) == {};
  }

  /**
   * A duplicate-free list of 40 or more numbers, all in 1..45, leaves a pool
   * too small to draw from.
   */
  lemma LongListLeavesTooFew(excluded: seq<int>)
    requires Distinct(excluded)
    requires forall k :: 0 <= k < |excluded| ==> 1 <= excluded[k] <= DomainSize
    requires |excluded| > DomainSize - SetSize
    ensures |Pool(excluded)| < SetSize
  {
    PoolSpec(excluded);
    ElementCount(excluded);
    assert ExcludedInDomain(excluded) == set x | x in excluded;
  }

  /** Places `x` before the first element not smaller than it. */
  function Insert(x: int, s: seq<int>): seq<int>
  {
    if s == [] || x <= s[0] then [x] + s
    else [s[0]] + Insert(x, s[1..])
  }

  /** `.sort((a, b) => a - b)`, as insertion sort. */
  function SortAscending(s: seq<int>): seq<int>
  {
    if s == [] then [] else Insert(s[0], SortAscending(s[1..]))
  }

  /** Inserting adds exactly `x` to the numbers held. */
  lemma {:induction false} InsertAddsOne(x: int, s: seq<int>)
    ensures multiset(Insert(x, s)) == multiset(s) + multiset{x}
  {
    if s != [] && x > s[0] {
      InsertAddsOne(x, s[1..]);
      assert s == [s[0]] + s[1..];
    }
  }

  /** Inserting into an ascending sequence keeps it ascending. */
  lemma {:induction false} InsertKeepsAscending(x: int, s: seq<int>)
    requires Ascending(s)
    ensures Ascending(Insert(x, s))
  {
    if s == [] || x <= s[0] {
      ConsAscending(x, s);
    } else {
      var rest := Insert(x, s[1..]);
      InsertKeepsAscending(x, s[1..]);
      InsertAddsOne(x, s[1..]);
      forall k | 0 <= k < |rest| ensures s[0] <= rest[k] {
        assert rest[k] in multiset(rest);
        if rest[k] != x {
          assert rest[k] in s[1..];
        }
      }
      ConsAscending(s[0], rest);
    }
  }

  /** The sort yields the same numbers, each as often, in ascending order. */
  lemma {:induction false} SortAscendingSpec(s: seq<int>)
    ensures Ascending(SortAscending(s))
    ensures multiset(SortAscending(s)) == multiset(s)
  {
    if s != [] {
      SortAscendingSpec(s[1..]);
      InsertAddsOne(s[0], SortAscending(s[1..]));
      InsertKeepsAscending(s[0], SortAscending(s[1..]));
      assert s == [s[0]] + s[1..];
    }
  }

  /**
   * `shuffled.slice(0, 6).sort((a, b) => a - b)`: the first six of a shuffled
   * pool, sorted (`slice` keeps the whole of a shorter array).
   */
  function Select(shuffled: seq<int>): seq<int>
  {
    SortAscending(shuffled[..if |shuffled| < SetSize then |shuffled| else SetSize])
  }

  /** Six numbers in strictly ascending order: the shape of every drawn set. */
  predicate SixAscending(numbers: seq<int>)
  {
    |numbers| == SetSize && StrictlyAscending(numbers)
  }

  /** The six numbers a set may hold: six ascending numbers within 1..45. */
  predicate WellFormedNumbers(numbers: seq<int>)
  {
    SixAscending(numbers) && forall k :: 0 <= k < |numbers| ==> 1 <= numbers[k] <= DomainSize
  }

  /**
   * Sorting part of a rearrangement of a duplicate-free list gives a strictly
   * ascending list of the same length whose elements come from that list.
   */
  lemma SortPartOfDistinct(part: seq<int>, whole: seq<int>)
    requires Distinct(whole)
    requires multiset(part) <= multiset(whole)
    ensures |SortAscending(part)| == |part|
    ensures StrictlyAscending(SortAscending(part))
    ensures forall x :: x in SortAscending(part) ==> x in whole
  {
    var r := SortAscending(part);
    SortAscendingSpec(part);
    assert |r| == |multiset(r)| == |multiset(part)| == |part|;
    DistinctIffSingleCounts(whole);
    DistinctIffSingleCounts(r);
    AscendingDistinctIsStrict(r);
    forall x | x in r ensures x in whole {
      assert x in multiset(r);
    }
  }

  /**
   * For any rearrangement of a strictly ascending pool of at least six numbers,
   * the selected set is six strictly ascending numbers from the pool.
   */
  lemma SelectFromRearrangement(pool: seq<int>, shuffled: seq<int>)
    requires StrictlyAscending(pool) && |pool| >= SetSize
    requires multiset(shuffled) == multiset(pool)
    ensures SixAscending(Select(shuffled))
    ensures forall x :: x in Select(shuffled) ==> x in pool
  {
    assert |shuffled| == |multiset(shuffled)| == |pool|;
    var first := shuffled[..SetSize];
    assert shuffled == first + shuffled[SetSize..];
    assert multiset(shuffled) == multiset(first) + multiset(shuffled[SetSize..]);
    SortPartOfDistinct(first, pool);
  }

  /**
   * For any rearrangement of the pool, when it has at least six numbers, the
   * selected set has exactly six numbers, is strictly ascending and lies inside
   * the pool, so within 1..45 and outside the exclusions.
   */
  lemma SelectFromPool(excluded: seq<int>, shuffled: seq<int>)
    requires multiset(shuffled) == multiset(Pool(excluded))
    requires |Pool(excluded)| >= SetSize
    ensures |Select(shuffled)| == SetSize
    ensures StrictlyAscending(Select(shuffled))
    ensures forall x :: x in Select(shuffled) ==> x in Pool(excluded)
    ensures forall x :: x in Select(shuffled) ==> 1 <= x <= DomainSize && x !in excluded
  {
    PoolSpec(excluded);
    SelectFromRearrangement(Pool(excluded), shuffled);
  }

  /** When the pool holds exactly six numbers, every selected set is the whole pool. */
  lemma SelectFromPoolOfSix(excluded: seq<int>, shuffled: seq<int>)
    requires multiset(shuffled) == multiset(Pool(excluded))
    requires |Pool(excluded)| == SetSize
    ensures Select(shuffled) == Pool(excluded)
  {
    var pool := Pool(excluded);
    SelectFromPool(excluded, shuffled);
    PoolSpec(excluded);
    assert |shuffled| == |multiset(shuffled)| == SetSize;
    assert shuffled[..SetSize] == shuffled;
    SortAscendingSpec(shuffled);
    forall x ensures x in Select(shuffled) <==> x in pool {
      assert x in Select(shuffled) <==> x in multiset(Select(shuffled));
      assert x in pool <==> x in multiset(pool);
    }
    StrictlyAscendingUnique(Select(shuffled), pool);
  }

  /** Excluding 1..39 leaves exactly 40..45, so every set of a draw is [40, 41, 42, 43, 44, 45]. */
  lemma ExcludingOneToThirtyNine(shuffled: seq<int>)
    requires multiset(shuffled) == multiset(Pool(seq(39, i => i + 1)))
    ensures Pool(seq(39, i => i + 1)) == [40, 41, 42, 43, 44, 45]
    ensures Select(shuffled) == [40, 41, 42, 43, 44, 45]
  {
    var excluded := seq(39, i => i + 1);
    var expected := [40, 41, 42, 43, 44, 45];
    PoolSpec(excluded);
    forall x ensures x in Pool(excluded) <==> x in expected {
      if 1 <= x <= 39 {
        assert excluded[x - 1] == x;
      }
    }
    StrictlyAscendingUnique(Pool(excluded), expected);
    SelectFromPoolOfSix(excluded, shuffled);
  }

  /** Excluding 1..40 leaves only five numbers, too few to draw. */
  lemma ExcludingOneToForty()
    ensures |Pool(seq(40, i => i + 1))| == 5
  {
    var excluded := seq(40, i => i + 1);
    var expected := [41, 42, 43, 44, 45];
    PoolSpec(excluded);
    forall x ensures x in Pool(excluded) <==> x in expected {
      if 1 <= x <= 40 {
        assert excluded[x - 1] == x;
      }
    }
    StrictlyAscendingUnique(Pool(excluded), expected);
  }
}
