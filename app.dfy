/**
 * The application state of App.tsx: the five `useState` fields and the handlers
 * that update them.
 */
module AppState {
  import opened Types
  import opened Sequences
  import opened Selection
  import opened Draw

  /** The set a draw creates from one shuffle of the pool, before any comment is attached. */
  function NewSet(id: string, shuffled: seq<int>, timestamp: int): LottoSet
  {
    LottoSet(id, Select(shuffled), timestamp, None)
  }

  /** `[{ ...prev[0], aiComment: comment }, ...prev.slice(1)]`. */
  function WithComment(sets: seq<LottoSet>, comment: string): (r: seq<LottoSet>)
    requires |sets| > 0
  {
    [sets[0].(aiComment := Some(comment))] + sets[1..]
  }

  /**
   * Attaching a comment touches only the first set, and of it only the comment:
   * its id, numbers and timestamp stay, and every later set is unchanged.
   */
  lemma WithCommentChangesOnlyFirst(sets: seq<LottoSet>, comment: string)
    requires |sets| > 0
    ensures |WithComment(sets, comment)| == |sets|
    ensures WithComment(sets, comment)[0].aiComment == Some(comment)
    ensures WithComment(sets, comment)[0].id == sets[0].id
    ensures WithComment(sets, comment)[0].numbers == sets[0].numbers
    ensures WithComment(sets, comment)[0].timestamp == sets[0].timestamp
    ensures forall k :: 1 <= k < |sets| ==> WithComment(sets, comment)[k] == sets[k]
  {
  }

  /**
   * A set as a draw from `pool` leaves it: six strictly ascending numbers,
   * all from the pool, with no comment yet.
   */
  predicate DrawnFrom(s: LottoSet, pool: seq<int>)
  {
    SixAscending(s.numbers) && s.aiComment == None &&
    forall x :: x in s.numbers ==> x in pool
  }

  /** Every set a draw creates from a rearrangement of a pool of at least six is drawn from that pool. */
  lemma NewSetFromPool(pool: seq<int>, shuffled: seq<int>, id: string, timestamp: int)
    requires StrictlyAscending(pool) && |pool| >= SetSize
    requires multiset(shuffled) == multiset(pool)
    ensures DrawnFrom(NewSet(id, shuffled, timestamp), pool)
  {
    SelectFromRearrangement(pool, shuffled);
  }

  /**
   * The loop of `generateNumbers`: five sets, the k-th selected from the k-th
   * shuffle of the pool, each stamped with the k-th identifier and clock reading.
   */
  method DrawSets(pool: seq<int>, shuffles: seq<seq<int>>, ids: seq<string>, timestamps: seq<int>)
    returns (newSets: seq<LottoSet>)
    requires StrictlyAscending(pool) && |pool| >= SetSize
    requires |shuffles| == SetsPerDraw && |ids| == SetsPerDraw && |timestamps| == SetsPerDraw
    requires forall k :: 0 <= k < |shuffles| ==> multiset(shuffles[k]) == multiset(pool)
    ensures |newSets| == SetsPerDraw
    ensures forall k :: 0 <= k < SetsPerDraw ==> newSets[k] == NewSet(ids[k], shuffles[k], timestamps[k])
    ensures forall k :: 0 <= k < SetsPerDraw ==> DrawnFrom(newSets[k], pool)
  {
    newSets := [];
    for i := 0 to SetsPerDraw
      invariant |newSets| == i
      invariant forall k :: 0 <= k < i ==> newSets[k] == NewSet(ids[k], shuffles[k], timestamps[k])
    {
      var drawn := NewSet(ids[i], shuffles[i], timestamps[i]);
      ghost var before := newSets;
      newSets := newSets + [drawn];
      assert newSets[..i] == before && newSets[i] == drawn;
    }
    forall k | 0 <= k < SetsPerDraw ensures DrawnFrom(newSets[k], pool) {
      NewSetFromPool(pool, shuffles[k], ids[k], timestamps[k]);
    }
  }

  class App {
    var step: AppStep
    var excludedNumbers: seq<int>
    var generatedResults: seq<LottoSet>
    var isGenerating: bool
    var aiLoading: bool

    /**
     * The state every handler keeps: the exclusion list has no duplicates and
     * every shown set holds six strictly ascending numbers from 1..45.
     */
    ghost predicate Valid()
      reads this
    {
      Distinct(excludedNumbers) &&
      forall k :: 0 <= k < |generatedResults| ==> WellFormedNumbers(generatedResults[k].numbers)
    }

    /** The initial values of the five `useState` hooks. */
    constructor ()
      ensures Valid()
      ensures step == Intro && excludedNumbers == [] && generatedResults == []
      ensures !isGenerating && !aiLoading
    {
      step := Intro;
      excludedNumbers := [];
      generatedResults := [];
      isGenerating := false;
      aiLoading := false;
    }

    /** `toggleExcludedNumber`: remove `num` if excluded, otherwise exclude it. */
    method ToggleExcludedNumber(num: int)
      requires Valid()
      modifies this
      ensures Valid()
      ensures excludedNumbers == Toggle(old(excludedNumbers), num)
      ensures num in excludedNumbers <==> num !in old(excludedNumbers)
      ensures step == old(step) && generatedResults == old(generatedResults)
      ensures isGenerating == old(isGenerating) && aiLoading == old(aiLoading)
    {
      ToggleKeepsDistinct(excludedNumbers, num);
      ToggleEffect(excludedNumbers, num);
      excludedNumbers := Toggle(excludedNumbers, num);
    }

    /**
     * The synchronous part of `generateNumbers`, after its delay: build the pool;
     * abort when it has fewer than six numbers; otherwise draw five sets, one
     * from each of `shuffles` (any rearrangements of the pool), and show them.
     * `ids` and `timestamps` stand for the identifiers and clock readings taken
     * per set. The comment request is left pending (`aiLoading` stays true).
     */
    method GenerateNumbers(shuffles: seq<seq<int>>, ids: seq<string>, timestamps: seq<int>)
      returns (drawn: bool)
      requires Valid()
      requires |shuffles| == SetsPerDraw && |ids| == SetsPerDraw && |timestamps| == SetsPerDraw
      requires forall k :: 0 <= k < |shuffles| ==> multiset(shuffles[k]) == multiset(Pool(excludedNumbers))
      modifies this
      ensures Valid()
      ensures drawn <==> |Pool(excludedNumbers)| >= SetSize
      ensures excludedNumbers == old(excludedNumbers)
      ensures !isGenerating
      ensures !drawn ==> generatedResults == old(generatedResults) && step == old(step) && !aiLoading
      ensures drawn ==> step == Generation && aiLoading
      ensures drawn ==> |generatedResults| == SetsPerDraw
      ensures drawn ==> forall k :: 0 <= k < SetsPerDraw ==>
                generatedResults[k] == NewSet(ids[k], shuffles[k], timestamps[k])
      ensures drawn ==> forall k :: 0 <= k < SetsPerDraw ==>
                DrawnFrom(generatedResults[k], Pool(excludedNumbers))
    {
      isGenerating := true;
      aiLoading := true;

      var excluded := excludedNumbers;
      var pool := Pool(excluded);
      if |pool| < SetSize {
        isGenerating := false;
        aiLoading := false;
        return false;
      }

      PoolSpec(excluded);
      var newSets := DrawSets(pool, shuffles, ids, timestamps);
      forall k | 0 <= k < SetsPerDraw ensures WellFormedNumbers(newSets[k].numbers) {
        var numbers := newSets[k].numbers;
        forall j | 0 <= j < |numbers| ensures 1 <= numbers[j] <= DomainSize {
          assert numbers[j] in numbers;
        }
      }
      generatedResults := newSets;
      isGenerating := false;
      step := Generation;
      return true;
    }

    /**
     * The end of `generateNumbers`: the comment request for the first set has
     * settled. `outcome` is the comment, or `None` when the request threw; in
     * either case loading ends.
     */
    method AttachComment(outcome: Option<string>)
      requires Valid()
      requires |generatedResults| > 0
      modifies this
      ensures Valid()
      ensures !aiLoading
      ensures outcome.Some? ==> generatedResults == WithComment(old(generatedResults), outcome.value)
      ensures outcome.None? ==> generatedResults == old(generatedResults)
      ensures |generatedResults| == |old(generatedResults)|
      ensures forall k :: 0 <= k < |generatedResults| ==>
                generatedResults[k].numbers == old(generatedResults)[k].numbers &&
                generatedResults[k].id == old(generatedResults)[k].id &&
                generatedResults[k].timestamp == old(generatedResults)[k].timestamp
      ensures forall k :: 1 <= k < |generatedResults| ==> generatedResults[k] == old(generatedResults)[k]
      ensures step == old(step) && excludedNumbers == old(excludedNumbers)
      ensures isGenerating == old(isGenerating)
    {
      if outcome.Some? {
        WithCommentChangesOnlyFirst(generatedResults, outcome.value);
        generatedResults := WithComment(generatedResults, outcome.value);
      }
      aiLoading := false;
    }

    /** `resetApp`: back to the intro screen with no exclusions and no results. */
    method ResetApp()
      requires Valid()
      modifies this
      ensures Valid()
      ensures excludedNumbers == [] && generatedResults == [] && step == Intro
      ensures isGenerating == old(isGenerating) && aiLoading == old(aiLoading)
    {
      excludedNumbers := [];
      generatedResults := [];
      step := Intro;
    }
  }
}
