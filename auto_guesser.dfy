/**
 * The solver that plays the number guessing game by bisection over its own
 * narrowing bounds, and the bound on the number of guesses it needs.
 */
module AutoGuesser {
  import opened NumberGame

  /** Rust's `s / 2` on integers: the quotient truncated toward zero. */
  function TruncHalf(s: int): (h: int)
    ensures s >= 0 ==> 0 <= s - 2 * h <= 1
    ensures s < 0 ==> -1 <= s - 2 * h <= 0
  {
    if s >= 0 then s / 2 else -((-s) / 2)
  }

  /**
   * `get_guess(min, max)`, the midpoint `(min + max) / 2`. On a non-empty
   * range it lies in the range, splits it into two parts of at most half
   * the width rounded up, and lies strictly inside once the width is 2 or more.
   */
  function GetGuess(lo: int, hi: int): (g: int)
    ensures lo <= hi ==> lo <= g <= hi
    ensures lo <= hi ==> 2 * (g - lo) <= hi - lo + 1 && 2 * (hi - g) <= hi - lo + 1
    ensures hi - lo >= 2 ==> lo < g < hi
  {
    TruncHalf(lo + hi)
  }

  /** The cases of `get_guess` the unit test checks, and an odd negative sum where truncation and flooring differ. */
  lemma GetGuessExamples()
    ensures GetGuess(0, 10) == 5
    ensures GetGuess(-5, 5) == 0
    ensures GetGuess(-11, -5) == -8
    ensures GetGuess(1, 10) == 5
    ensures GetGuess(-2, -1) == -1 && (-2 + -1) / 2 == -2
  {
  }

  function Pow2(k: nat): (p: nat)
    ensures p >= 1
  {
    if k == 0 then 1 else 2 * Pow2(k - 1)
  }

  /**
   * The most guesses `start` makes on bounds `w` apart: one guess, then the
   * remaining width is at most half of `w` rounded up, and a width of 1 is
   * snapped to 0.
   */
  function MaxGuesses(w: nat): (n: nat)
    ensures n >= 1
    ensures w >= 1 ==> n >= 2
  {
    if w == 0 then 1 else if w <= 2 then 2 else 1 + MaxGuesses((w + 1) / 2)
  }

  lemma {:induction false} MaxGuessesMonotonic(a: nat, b: nat)
    requires a <= b
    ensures MaxGuesses(a) <= MaxGuesses(b)
    decreases b
  {
    if a >= 3 {
      MaxGuessesMonotonic((a + 1) / 2, (b + 1) / 2);
    }
  }

  /** One unsuccessful guess costs one unit of the budget. */
  lemma MaxGuessesStep(w: nat, next: nat)
    requires w >= 1 && next <= (w + 1) / 2 && next != 1
    ensures MaxGuesses(next) + 1 <= MaxGuesses(w)
  {
    if w >= 3 {
      MaxGuessesMonotonic(next, (w + 1) / 2);
    }
  }

  lemma {:induction false} MaxGuessesPow2(w: nat, j: nat)
    requires j >= 1 && w <= Pow2(j)
    ensures MaxGuesses(w) <= j + 1
    decreases j
  {
    if w >= 3 {
      MaxGuessesPow2((w + 1) / 2, j - 1);
    }
  }

  /**
   * The logarithmic bound: on a range of K = w + 1 values with K <= 2^k,
   * `start` makes at most k + 1 guesses (so ceil(log2 K) + 1 at most).
   */
  lemma MaxGuessesLog(w: nat, k: nat)
    requires w + 1 <= Pow2(k)
    ensures MaxGuesses(w) <= k + 1
  {
    if w >= 1 {
      MaxGuessesPow2(w, k);
    }
  }

  /** The range [0, 7] of the solver's test needs at most log2(8) + 1 = 4 guesses. */
  lemma ZeroToSevenBound()
    ensures MaxGuesses(7 - 0) <= 4
  {
    MaxGuessesLog(7, 3);
  }

  /**
   * A too-high guess on [lo, hi] moves the upper bound to the guess, or to lo
   * when only lo is left below it: the secret stays inside, the width
   * shrinks and one unit of the guess budget is used.
   */
  lemma TooHighStep(lo: int, hi: int, secret: int, newHi: int)
    requires lo <= secret <= hi && GetGuess(lo, hi) > secret
    requires newHi == if GetGuess(lo, hi) == lo + 1 then lo else GetGuess(lo, hi)
    ensures lo <= secret <= newHi < hi
    ensures MaxGuesses(newHi - lo) + 1 <= MaxGuesses(hi - lo)
  {
    MaxGuessesStep(hi - lo, newHi - lo);
  }

  /** The mirror image of TooHighStep for a too-low guess. */
  lemma TooLowStep(lo: int, hi: int, secret: int, newLo: int)
    requires lo <= secret <= hi && GetGuess(lo, hi) < secret
    requires newLo == if GetGuess(lo, hi) == hi - 1 then hi else GetGuess(lo, hi)
    ensures lo < newLo <= secret <= hi
    ensures MaxGuesses(hi - newLo) + 1 <= MaxGuesses(hi - lo)
  {
    MaxGuessesStep(hi - lo, hi - newLo);
  }

  /**
   * One round of `start` after a wrong guess, whichever way it was wrong:
   * the secret stays inside the new bounds, the width shrinks and one unit
   * of the guess budget is used.
   */
  lemma NarrowStep(lo: int, hi: int, secret: int, status: Ordering, newLo: int, newHi: int)
    requires lo <= secret <= hi && status == Compare(GetGuess(lo, hi), secret) && status != Equal
    requires status == Greater ==>
      newLo == lo && newHi == if GetGuess(lo, hi) == lo + 1 then lo else GetGuess(lo, hi)
    requires status == Less ==>
      newHi == hi && newLo == if GetGuess(lo, hi) == hi - 1 then hi else GetGuess(lo, hi)
    ensures lo <= newLo <= secret <= newHi <= hi && newHi - newLo < hi - lo
    ensures MaxGuesses(newHi - newLo) + 1 <= MaxGuesses(hi - lo)
  {
    if status == Greater {
      TooHighStep(lo, hi, secret, newHi);
    } else {
      TooLowStep(lo, hi, secret, newLo);
    }
  }

  /** Bounds whose doubled value is an `i128`, so that no midpoint sum overflows. */
  predicate InHalfI128(x: int) {
    InI128(2 * x)
  }

  class AutoNumberGuesser {
    const game: NumberGuessingGame

    ghost predicate Valid()
      reads this, game
    {
      game.Valid()
    }

    constructor Wrap(game: NumberGuessingGame)
      requires game.Valid()
      ensures this.game == game && Valid()
    {
      this.game := game;
    }

    /** `new(min, max)`: fails exactly when lo > hi; otherwise a solver around a fresh game over [lo, hi]. */
    static method New(lo: int, hi: int) returns (r: Result<AutoNumberGuesser>)
      requires InI128(lo) && InI128(hi)
      ensures r.Err? <==> lo > hi
      ensures r.Ok? ==> fresh(r.value) && fresh(r.value.game) && r.value.Valid()
      ensures r.Ok? ==> r.value.game.GetRange() == (lo, hi) && r.value.game.guesses == 0
    {
      var created := NumberGuessingGame.New(lo, hi);
      if created.Err? {
        return Err;
      }
      var solver := new AutoNumberGuesser.Wrap(created.value);
      return Ok(solver);
    }

    /** `game()`: the game this solver plays. */
    function Game(): (g: NumberGuessingGame)
      reads this
      ensures g == game
    {
      game
    }

    /**
     * `start`: draws a new secret and bisects until a guess is correct.
     * Returns the guess count, which is the number of guesses made; `trace`
     * is the sequence of what each guess reported: counts 1, 2, ..., only
     * the last guess equal to the secret. The range is kept and the count is bounded
     * by MaxGuesses of its width.
     */
    method Start() returns (n: nat, ghost trace: seq<GuessReport>)
      requires Valid()
      requires InHalfI128(game.min) && InHalfI128(game.max)
      modifies game
      ensures Valid()
      ensures game.min == old(game.min) && game.max == old(game.max)
      ensures n == game.guesses == |trace| && n >= 1
      ensures n <= MaxGuesses(game.max - game.min)
      ensures forall i :: 0 <= i < |trace| ==> trace[i].guesses == i + 1 && trace[i].number == game.number
      ensures forall i :: 0 <= i < |trace| - 1 ==> trace[i].result != Equal && trace[i].guess != game.number
      ensures trace[|trace| - 1].result == Equal && trace[|trace| - 1].guess == game.number
    {
      game.ResetNumber();
      var currentMin := game.Min();
      var currentMax := game.Max();
      assert InI128(currentMin + currentMax);
      var guess := GetGuess(currentMin, currentMax);
      trace := [];
      ghost var budget := MaxGuesses(old(game.max) - old(game.min));
      while true
        invariant game.Valid()
        invariant game.min == old(game.min) && game.max == old(game.max)
        invariant game.min <= currentMin <= game.number <= currentMax <= game.max
        invariant guess == GetGuess(currentMin, currentMax)
        invariant game.guesses == |trace|
        invariant forall i :: 0 <= i < |trace| ==> trace[i].guesses == i + 1 && trace[i].number == game.number
        invariant forall i :: 0 <= i < |trace| ==> trace[i].result != Equal && trace[i].guess != game.number
        invariant |trace| + MaxGuesses(currentMax - currentMin) <= budget
        decreases currentMax - currentMin
      {
        var status, report := game.MakeGuess(guess);
        trace := trace + [report];
        ghost var lo, hi := currentMin, currentMax;
        match status {
          case Greater =>
            currentMax := guess;
            assert InI128(currentMin + 1);
            if currentMax == currentMin + 1 {
              currentMax := currentMin;
            }
          case Less =>
            currentMin := guess;
            assert InI128(currentMax - 1);
            if currentMin == currentMax - 1 {
              currentMin := currentMax;
            }
          case Equal =>
            break;
        }
        NarrowStep(lo, hi, game.number, status, currentMin, currentMax);
        assert InI128(currentMin + currentMax);
        guess := GetGuess(currentMin, currentMax);
      }
      assert MaxGuesses(game.max - game.min) == budget;
      n := game.GetNGuesses();
    }
  }

  /** The solver's tests: [0, 69] is accepted with that range, [0, -69] is rejected, and [0, 7] is solved in at most 4 guesses. */
  method SolverScenario() returns (range: (int, int), rejected: bool, n: nat)
    ensures range == (0, 69)
    ensures rejected
    ensures 1 <= n <= 4
  {
    var wide := AutoNumberGuesser.New(0, 69);
    range := wide.value.Game().GetRange();
    var bad := AutoNumberGuesser.New(0, -69);
    rejected := bad.Err?;
    var created := AutoNumberGuesser.New(0, 7);
    var solver := created.value;
    ZeroToSevenBound();
    n := 1;
    for round := 0 to 100
      invariant solver.Valid() && solver.game.GetRange() == (0, 7)
      invariant 1 <= n <= 4
    {
      ghost var trace;
      n, trace := solver.Start();
    }
  }
}
