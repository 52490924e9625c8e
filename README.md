# HappyFamily Lotto — a Dafny model of the exclusion-and-draw core

HappyFamily Lotto is a browser app that suggests lottery numbers. Friends and
family each name a number they think will not come up. The user excludes those
numbers from the domain 1..45. The app then draws five sets of six numbers from
what remains. A text-generation service writes a comment for the first set.

This project models two parts of it:

- The application state of `App.tsx`, as the class `AppState.App`. Its fields
  are the five `useState` hooks: `step`, `excludedNumbers`, `generatedResults`,
  `isGenerating` and `aiLoading`. Its methods are the handlers that update
  them:
  - toggling a number in or out of the exclusion list;
  - drawing five sets, or aborting when the pool is too small;
  - attaching the comment to the first set;
  - resetting.
  The pure parts become functions with lemmas about them:
  - the toggle (`Selection`);
  - the pool, the numeric sort and the six-number selection (`Draw`).
- The `LottoBall` component (`components/LottoBall.tsx`): how a ball's colour
  depends on its status and number, its size classes, its status classes and
  its label.

The source draws with randomness: `Math.random` inside a sort comparator.
Here each draw takes its five shuffles as inputs instead. A shuffle may be any
rearrangement of the pool, and every property is proved for all of them. The
set identifiers (`crypto.randomUUID()`) and clock readings (`Date.now()`) are
also inputs. The `types.ts` shapes are datatypes in module `Types`.

Files: `types.dfy`, `sequences.dfy` (order and duplicate-freedom of integer
sequences), `selection.dfy`, `draw.dfy`, `app.dfy`, `lotto_ball.dfy`.

## Model

| member | source | states |
|---|---|---|
| AppState.App.constructor | App.tsx:9-13 | The app starts on the intro screen with no exclusions and no results, not generating and not loading. |
| AppState.App.ToggleExcludedNumber | App.tsx:15-21 | The exclusion list becomes the toggle of the old one, so the number is excluded afterwards exactly when it was not before. Nothing else changes, and the list stays duplicate-free. |
| Selection.RemoveAll | App.tsx:18 | The filtered list does not contain the number. It holds every other element as often as before (a multiset with that one count set to zero). |
| Selection.RemoveAllAppend | App.tsx:18 | The filter distributes over concatenation, so the kept elements stay in their original order. |
| Selection.RemoveAbsent | App.tsx:18 | Filtering out a number that is not in the list returns the list unchanged. |
| Selection.ToggleEffect | App.tsx:16-19 | A present number is removed, every occurrence of it, and the rest keep their counts. An absent number is appended at the end. In both cases only that number's membership flips. |
| Selection.ToggleKeepsDistinct | App.tsx:16-19 | A duplicate-free exclusion list stays duplicate-free after a toggle. |
| Selection.ToggleTwice | App.tsx:16-19 | Toggling the same number twice restores the same set of exclusions. When the number was absent, it restores the identical list. |
| Draw.PoolSpec | App.tsx:30-31 | The pool is exactly the numbers 1..45 that are not excluded, in strictly ascending order. Its length is 45 minus the number of distinct excluded numbers in 1..45. |
| Draw.PoolDependsOnMembership | App.tsx:30-31 | Two exclusion lists with the same members give the same pool, whatever their order or repeats. |
| Draw.DrawPossibleIff | App.tsx:33 | The pool has at least 6 numbers exactly when at most 39 distinct numbers of 1..45 are excluded. |
| Draw.ShortListLeavesEnough | App.tsx:30-33 | An exclusion list of at most 39 entries always leaves a drawable pool. |
| Draw.LongListLeavesTooFew | App.tsx:30-33 | A duplicate-free list of 40 or more numbers from 1..45 leaves fewer than 6, so the draw aborts. |
| Draw.ExcludingOneToForty | App.tsx:30-33 | Excluding 1..40 leaves a pool of 5, which is too small to draw. |
| Draw.InsertAddsOne | App.tsx:44 | Insertion adds exactly the inserted number to the multiset of numbers. |
| Draw.InsertKeepsAscending | App.tsx:44 | Inserting into an ascending sequence keeps it ascending. |
| Draw.SortAscendingSpec | App.tsx:44 | The numeric sort returns the same numbers with the same multiplicities, in ascending order. |
| Draw.SortPartOfDistinct | App.tsx:44 | Sorting part of a rearrangement of a duplicate-free list gives a strictly ascending list of the same length, drawn from that list. |
| Draw.SelectFromRearrangement | App.tsx:43-44 | For any rearrangement of a strictly ascending pool of at least 6, the first six sorted are six strictly ascending numbers, all from that pool. |
| Draw.SelectFromPool | App.tsx:43-44 | For any rearrangement of a pool of at least 6, the first six sorted are 6 numbers. They are strictly ascending, all in the pool, so within 1..45 and never excluded. |
| Draw.SelectFromPoolOfSix | App.tsx:43-44 | When the pool holds exactly 6 numbers, every selected set equals the pool. |
| Draw.ExcludingOneToThirtyNine | App.tsx:30-44 | Excluding 1..39 leaves the pool [40..45], and every set drawn from it is [40, 41, 42, 43, 44, 45]. |
| AppState.DrawSets | App.tsx:41-52 | The loop builds exactly five sets. Set k holds the selection from shuffle k, identifier k, timestamp k and no comment. Every set is drawn from the pool. |
| AppState.NewSetFromPool | App.tsx:43-50 | A set made from any rearrangement of the pool has 6 strictly ascending pool numbers and no comment. |
| AppState.App.GenerateNumbers | App.tsx:23-56 | A draw happens exactly when the pool has at least 6 numbers. On abort, the results and the step are unchanged and both flags end false. On success there are five new sets, each with 6 strictly ascending pool numbers and no comment. The step becomes GENERATION, generating ends and the comment stays pending. The exclusions are untouched either way. |
| AppState.WithCommentChangesOnlyFirst | App.tsx:61-64 | Attaching a comment sets the comment of set 0 only. Set 0 keeps its id, numbers and timestamp, every later set is unchanged, and the length is the same. |
| AppState.App.AttachComment | App.tsx:59-69 | A returned comment is attached to the first set only. A failed request leaves the results unchanged. Loading ends false either way, and no other field changes. |
| AppState.App.ResetApp | App.tsx:85-89 | The exclusions and results become empty and the step becomes INTRO. `isGenerating` and `aiLoading` are untouched. |
| LottoBall.StatusOverridesNumber | components/LottoBall.tsx:17-18 | An excluded ball gets the grey classes and a dimmed ball the slate-100 classes, whatever its number. |
| LottoBall.BandsPartition | components/LottoBall.tsx:20-24 | Every integer lies in exactly one of the bands ≤10, 11..20, 21..30, 31..40 and ≥41. |
| LottoBall.DefaultColorsFollowBands | components/LottoBall.tsx:20-24 | Under the default status, the first-match chain yields a band's colour classes if and only if the number lies in that band. |
| LottoBall.RenderDefaults | components/LottoBall.tsx:12-13 | An unset size and status render the same ball as `md` and `default`. |
| LottoBall.RenderSpec | components/LottoBall.tsx:41-45 | The label is "X" exactly when the ball is excluded, and otherwise the number. An excluded ball gets `scale-90 grayscale` and any other gets `shadow-lg`. Hover and cursor classes appear exactly when a click handler is given. |
| Sequences.StrictlyAscendingUnique | App.tsx:30-31 | A general fact about sequences, not code at these lines: two strictly ascending sequences with the same members are equal. It serves `Draw.PoolDependsOnMembership` and `Draw.SelectFromPoolOfSix`. |
| Sequences.DistinctIffSingleCounts | App.tsx:43-44 | A general fact about sequences: a sequence is duplicate-free exactly when no count in its multiset exceeds one. It serves `Draw.SortPartOfDistinct`, where a rearrangement of the pool inherits its distinctness. |
| Sequences.ElementCount | App.tsx:30-33 | A general fact about sequences: there are at most as many distinct members as entries, and exactly as many when the sequence is duplicate-free. It serves `Draw.ShortListLeavesEnough` and `Draw.LongListLeavesTooFew`. |

## Left out

- Randomness: the `Math.random() - 0.5` comparator sort (App.tsx:43) is replaced by arbitrary shuffles given as inputs. Its non-uniformity is not modelled, because fairness cannot be stated without probability.
- `crypto.randomUUID()` and `Date.now()` (App.tsx:47, 49) are inputs, so nothing is claimed about uniqueness of identifiers.
- The 800 ms delay and the async scheduling of `generateNumbers` (App.tsx:24-28) are left out. The draw is one atomic step, so the model does not capture that the intermediate `isGenerating = true` is visible. It also does not capture that the handler uses the exclusion list captured when it was invoked.
- AppState.App.AttachComment: modelled as one atomic step on a non-empty result list. The source's late comment lands on whatever `prev[0]` is current. After a reset or a second draw, that can be a different batch, or a bare object made from an empty list. This interleaving is not modelled.
- The comment service (`services/geminiService.ts`) is not part of this model. Its result enters `AttachComment` as an input, where `None` stands for a request that threw. The three fallback strings and the prompt are not modelled.
- `shareRequestMessage` (App.tsx:72-83) is platform I/O with a fixed text: native share, clipboard and `alert`. The abort's `alert` (App.tsx:34) is left out for the same reason.
- The screen changes wired directly in markup, `setStep(AppStep.EXCLUSION)` (App.tsx:140, 268), and all JSX and Tailwind markup of App.tsx are left out.
- `components/NumberSelector.tsx` is not part of this model. Its rule is that a ball is excluded exactly when its number is in the list, over 1..45; the pool and the toggle already cover that rule.
- LottoBall's `number` is a JavaScript number, but here it is an `int`. Fractional numbers are not modelled.
- The class strings are kept as separate strings in template order, not joined with the template's whitespace.
