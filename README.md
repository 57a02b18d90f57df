# guess-my-number, modelled in Dafny

This project models the core of `guess-my-number`, a number guessing game written in Rust. It has three parts.

- **`NumberGuessingGame`** (`number_game.dfy`, module `NumberGame`) is the game engine. The engine holds an inclusive `i128` range `[min, max]`, a secret number drawn from that range, and a counter of the guesses made since the secret was drawn. It is a class whose methods update these four fields in place. Its invariant `Valid()` says that the range is non-empty and holds the secret. Every range setter fails exactly when `min > max`, and then changes nothing. This is stated once, as the two-state predicate `RangeUpdated`.
- **`AutoNumberGuesser`** (`auto_guesser.dfy`, module `AutoGuesser`) is the solver. It plays the game by bisection over its own bounds, using the truncating midpoint `(min + max) / 2`. When only two candidates remain it snaps the bound onto the remaining one. `Start` is the solver's loop. It is proved to:
  - end on a correct guess;
  - report the counts 1, 2, ... in order;
  - keep the game's range;
  - make at most `MaxGuesses(max - min)` guesses.

  `MaxGuessesLog` proves that this is at most `k + 1` for a range of at most `2^k` values. That is the `log2(8) + 1 = 4` bound that the solver's test checks on `[0, 7]`.
- **`Histogram`** (`histogram.dfy`, module `Histograms`) is an ordered map from keys to occurrence counts.
  - A list is tallied by the loop `CountOccurrences`. Its result is the multiset-based `Tally`, whose counts add up to the list's length (`TallySum`).
  - The highest and lowest entries are the `max_by`/`min_by` folds over the entries in ascending key order. They are proved to be a maximum and a minimum, with the tie rule those folds have.

Randomness is a choice the model leaves open. `ResetNumber` picks *some* value of the range, and every property is proved for whatever value is picked. The result handler of `make_guess` is a callback. It is modelled as the `GuessReport` that `MakeGuess` returns. The report holds the arguments the handler would be called with, once, and also the guess, which the solver's verbose handler captures (src/auto_guesser.rs:57-58).

Two details of the code decide edge cases, and the model follows them exactly.
- The midpoint uses Rust's `/`, which truncates toward zero. The unit test labels its case `get_guess(1, 10) == 5` "Rounding Down" (src/auto_guesser.rs:17-18). That case has a positive sum, where truncating and rounding down agree. `TruncHalf` models the truncation. `GetGuessExamples` shows a case where the two differ: `get_guess(-2, -1)` is `-1`, whereas floor division gives `-2`.
- `Iterator::max_by` returns the *last* of several equal maxima. A `BTreeMap` iterates in ascending key order, so `get_highest` returns the largest key among the entries with the highest count. `Iterator::min_by` returns the *first* of several equal minima, so `get_lowest` returns the smallest key among the entries with the lowest count. `MaxByCount` and `MinByCount` are these folds. `MaxByCountLastWins` and `MinByCountFirstWins` prove the resulting tie rules.

## Model

| member | source | states |
|---|---|---|
| NumberGame.Compare | src/number_game.rs:70 | the three outcomes of `guess.cmp(&number)`, each exactly when its comparison holds |
| NumberGame.NumberGuessingGame.Zeroed | src/number_game.rs:50-55 | the all-zero struct that `new` starts from, which already satisfies the invariant |
| NumberGame.NumberGuessingGame.New | src/number_game.rs:49-60 | fails exactly when min > max; otherwise a fresh valid game over [min, max] with no guesses counted |
| NumberGame.NumberGuessingGame.MakeGuess | src/number_game.rs:63-74 | the counter goes up by one and nothing else changes; the outcome is Greater/Less/Equal exactly when the guess is above/below/equal to the secret; the report carries the handler's arguments (outcome, new count, secret) and the guess |
| NumberGame.NumberGuessingGame.ResetNumber | src/number_game.rs:112-118 | the new secret lies in the unchanged range and the counter is 0 |
| NumberGame.NumberGuessingGame.ResetNGuesses | src/number_game.rs:121-123 | the counter becomes 0 and range and secret stay |
| NumberGame.NumberGuessingGame.GetNGuesses | src/number_game.rs:126-128 | the guess count |
| NumberGame.NumberGuessingGame.Min | src/number_game.rs:140-142 | the lower bound, which is at most the upper bound and the secret |
| NumberGame.NumberGuessingGame.Max | src/number_game.rs:153-155 | the upper bound, which is at least the lower bound and the secret |
| NumberGame.NumberGuessingGame.GetRange | src/number_game.rs:168-170 | the pair (min, max), which encloses the secret |
| NumberGame.NumberGuessingGame.SetRange | src/number_game.rs:176-188 | fails exactly when lo > hi and then changes nothing; otherwise the range is [lo, hi], the new secret is in it and the count is 0; the invariant is kept |
| NumberGame.NumberGuessingGame.SetMin | src/number_game.rs:148-150 | the same effect as setting the range to (m, old max) |
| NumberGame.NumberGuessingGame.SetMax | src/number_game.rs:161-163 | the same effect as setting the range to (old min, m) |
| NumberGame.GuessRepeatedly | tests/number_guessing_game.rs:53-55 | n guesses in a row raise the count by exactly n and leave range and secret alone |
| NumberGame.CounterScenario | tests/number_guessing_game.rs:44-59 | after n wrong guesses on a new game over [1, 10] the count is n |
| NumberGame.ResetScenario | src/number_game.rs:13-30 | on one game over [1, 10], each round of n wrong guesses reads back n, because the reset after each round brings the count back to 0 |
| NumberGame.MakeGuessScenario | tests/number_guessing_game.rs:23-40 | on [0, 0]: 69 is too high, -69 too low and reported as the second guess, 0 correct with secret 0 |
| NumberGame.RangeScenario | tests/number_guessing_game.rs:7-98 | new(0, 69) has range (0, 69) and new(0, -69) is rejected; on fresh games over [1, 10], min 1 becomes 2 by set_min(2), max 10 becomes 69 by set_max(69), and range (1, 10) becomes (69, 420), which a rejected set_range(420, 69) leaves as it is |
| AutoGuesser.TruncHalf | src/auto_guesser.rs:91 | Rust's `/ 2`: the remainder has the sign of the dividend and is at most 1 in size |
| AutoGuesser.GetGuess | src/auto_guesser.rs:90-92 | on a non-empty range the midpoint lies in it, leaves at most half the width (rounded up) on each side, and is strictly inside once the width is 2 or more |
| AutoGuesser.GetGuessExamples | src/auto_guesser.rs:13-18 | the unit test's midpoints (0,10)→5, (-5,5)→0, (-11,-5)→-8, (1,10)→5, and (-2,-1)→-1 where flooring would give -2 |
| AutoGuesser.MaxGuesses | src/auto_guesser.rs:64-83 | the guess budget for a width: at least 1, and at least 2 once the range holds two values |
| AutoGuesser.MaxGuessesMonotonic | src/auto_guesser.rs:64-83 | a wider range never has a smaller budget |
| AutoGuesser.MaxGuessesStep | src/auto_guesser.rs:64-83 | narrowing to at most half the width (rounded up), but never to width 1, uses up at least one unit of budget |
| AutoGuesser.MaxGuessesPow2 | src/auto_guesser.rs:64-83 | a width of at most 2^j needs at most j + 1 guesses |
| AutoGuesser.MaxGuessesLog | tests/auto_guesser.rs:26 | a range of at most 2^k values is solved in at most k + 1 guesses |
| AutoGuesser.ZeroToSevenBound | tests/auto_guesser.rs:26 | the range [0, 7] needs at most log2(8) + 1 = 4 guesses |
| AutoGuesser.TooHighStep | src/auto_guesser.rs:66-71 | after a too-high guess, the new upper bound (with the snap) still covers the secret, is below the old one, and uses one unit of budget |
| AutoGuesser.TooLowStep | src/auto_guesser.rs:73-78 | after a too-low guess, the new lower bound (with the snap) still covers the secret, is above the old one, and uses one unit of budget |
| AutoGuesser.NarrowStep | src/auto_guesser.rs:64-81 | one wrong round of the loop keeps the secret between the bounds, shrinks the width and uses one unit of budget |
| AutoGuesser.AutoNumberGuesser.Wrap | src/auto_guesser.rs:32 | the solver holds the given valid game |
| AutoGuesser.AutoNumberGuesser.New | src/auto_guesser.rs:29-33 | fails exactly when min > max; otherwise a solver around a fresh game with that range and no guesses |
| AutoGuesser.AutoNumberGuesser.Game | src/auto_guesser.rs:36-38 | the game the solver plays |
| AutoGuesser.AutoNumberGuesser.Start | src/auto_guesser.rs:46-87 | terminates; returns the game's guess count, which is at least 1 and at most MaxGuesses(max - min); the reported counts run 1, 2, ...; every guess but the last differs from the secret and is reported as wrong, and the last guess equals the secret; the range is kept |
| AutoGuesser.SolverScenario | tests/auto_guesser.rs:4-28 | (0, 69) gives that range; (0, -69) is rejected; 100 runs on [0, 7] each take between 1 and 4 guesses |
| Histograms.Tally | src/histogram.rs:28-31 | the keys are exactly the values of the list, and each count is that value's number of occurrences (at least 1) |
| Histograms.TallyAppend | src/histogram.rs:29-30 | one more value bumps its count, starting from 0 when the value is new |
| Histograms.SumCountsRemove | src/histogram.rs:13 | the sum of counts can take out any key first |
| Histograms.TallySum | src/histogram.rs:28-31 | the counts of a tally add up to the length of the list |
| Histograms.CountOccurrences | src/histogram.rs:27-31 | the entry/or_insert/increment loop computes the tally of the list |
| Histograms.MinKey | src/histogram.rs:13 | the least key of a non-empty key set, the first one a BTreeMap visits |
| Histograms.MinKeyExists | src/histogram.rs:13 | a non-empty set of integers has a least element |
| Histograms.Entries | src/histogram.rs:87 | the (key, count) pairs that `iter()` yields: as many as the map has keys (their content and ascending order are the Entries lemmas below) |
| Histograms.EntriesSound | src/histogram.rs:87 | every entry that `iter()` yields is a key of the map, paired with its count |
| Histograms.EntriesComplete | src/histogram.rs:87 | every key of the map, with its count, is yielded by `iter()` |
| Histograms.EntriesAscending | src/histogram.rs:87 | `iter()` yields the keys in strictly ascending order |
| Histograms.EntriesNonEmpty | src/histogram.rs:87 | `iter()` yields something exactly when the map is non-empty, which is when `unwrap` does not panic |
| Histograms.MaxByCount | src/histogram.rs:87 | the `max_by` fold on counts returns an element of the sequence, and no element has a greater count |
| Histograms.MinByCount | src/histogram.rs:92 | the `min_by` fold on counts returns an element of the sequence, and no element has a smaller count |
| Histograms.MaxByCountLastWins | src/histogram.rs:87 | over ascending keys, among equal maximal counts `max_by` returns the largest key |
| Histograms.MinByCountFirstWins | src/histogram.rs:92 | over ascending keys, among equal minimal counts `min_by` returns the smallest key |
| Histograms.Histogram.constructor | src/histogram.rs:21-23 | the histogram stores the given map |
| Histograms.Histogram.FromVec | src/histogram.rs:26-34 | a fresh histogram holding the tally of the list |
| Histograms.Histogram.Data | src/histogram.rs:96-98 | the stored map |
| Histograms.Histogram.SetData | src/histogram.rs:106-108 | the stored map becomes the given one |
| Histograms.Histogram.SetDataList | src/histogram.rs:111-119 | the stored map becomes the tally of the list, whatever it held before |
| Histograms.Histogram.GetHighest | src/histogram.rs:86-88 | an entry of the map whose count is at least every count; among equal counts it has the largest key |
| Histograms.Histogram.GetLowest | src/histogram.rs:91-93 | an entry of the map whose count is at most every count; among equal counts it has the smallest key |
| Histograms.TallyDisjoint | src/histogram.rs:28-31 | the tally of two lists with no value in common is the union of their tallies |
| Histograms.Repeat | tests/histogram.rs:14 | `vec![x; n]`: n values, all x |
| Histograms.TallyRepeat | tests/histogram.rs:14 | n ≥ 1 copies of x tally to the single entry x → n |
| Histograms.TallyThreeRuns | tests/histogram.rs:14-16 | three runs of distinct values tally to their three lengths |
| Histograms.FromVecScenario | tests/histogram.rs:14-19 | from_vec on 69×69, 420×420 and 4×21 gives {69: 69, 420: 420, 21: 4} |
| Histograms.SetDataScenario | tests/histogram.rs:30-33 | set_data stores {69: 69, 420: 420, 21: 4} and data reads it back |
| Histograms.HighestLowestScenario | tests/histogram.rs:44-50 | on a histogram built from {69: 69, 420: 420, 21: 4}, the highest entry is (420, 420) and the lowest is (21, 4) |
| Histograms.TallyScenario | tests/histogram.rs:23-41 | after set_data stored {69: 69, 420: 420, 21: 4}, set_data_list on [1, 1, 69, 420, 3, 3, 3, 3] replaces the map with {1: 2, 69: 1, 420: 1, 3: 4} and keeps none of the old counts |
| Histograms.TallyOfSetterList | tests/histogram.rs:36-37 | the list [1, 1, 69, 420, 3, 3, 3, 3] tallies to {1: 2, 69: 1, 420: 1, 3: 4} |

## Left out

- `NumberGuessingGame::get_guess` reads guesses from standard input. It is not modelled, because it is console I/O around `make_guess`.
- `handle_guess` in both structs only prints. A handler call is modelled as the returned `GuessReport`.
- The `verbose` flag of `start` is not modelled. It only chooses which printing closure to pass to `make_guess`.
- `AutoNumberGuesser::game_mut` and `Histogram::data_mut` are not modelled as separate members. `Game()` already returns the game object itself, and its methods change it in place, so `game_mut`'s effect is reached through `Game()` and the game's setters. The histogram's map is changed through `SetData` and `SetDataList`. Arbitrary edits through `data_mut` are not modelled.
- `Histogram::print`, `print_horizontal`, `print_vertical` and the `Direction` type are not modelled. They are text rendering to standard output.
- `src/main.rs` and `src/bin/ai-benchmark.rs` are not part of this model. They cover argument parsing, the interactive loop, CSV output and the floating-point mean/variance statistics.
- ResetNumber: the secret is any value of the range. That `rand` draws it uniformly is not modelled.
- MakeGuess: the `u128` guess counter is an unbounded `nat`, so overflow after 2^128 guesses is not modelled.
- Histograms.CountOccurrences: the `u128` counts are unbounded `nat`s, so count overflow is not modelled.
- Histograms: keys are `int` instead of the generic `T: Ord`. The proofs use only the total order of the keys.
- Start: requires both bounds to lie within half the `i128` range. Otherwise `current_min + current_max` could overflow `i128`, which panics in a debug build and wraps in a release build. Under this requirement the sum and the snap increments `current_min + 1` and `current_max - 1` provably stay within `i128`.
- NumberGuessingGame setters and `New`: their arguments are required to be `i128` values, which the Rust parameter type already guarantees.
- Histograms.Histogram.GetHighest and GetLowest: both require a non-empty map. On an empty map the source's `unwrap` panics.
