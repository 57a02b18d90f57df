/**
 * The number guessing game engine: an inclusive range [min, max], a secret
 * number drawn from it and a counter of the guesses made since the secret
 * was drawn.
 */
module NumberGame {

  /** Rust's `Result<_, ()>`: the game's only error is an empty range (min > max). */
  datatype Result<T> = Ok(value: T) | Err

  /** Rust's `std::cmp::Ordering`, the outcome of comparing a guess with the secret. */
  datatype Ordering = Less | Equal | Greater

  /**
   * What `make_guess` hands to its result handler: the outcome, the count
   * after the increment and the secret, together with the guess that a
   * handler closure such as the solver's verbose one captures.
   */
  datatype GuessReport = GuessReport(guess: int, result: Ordering, guesses: nat, number: int)

  const I128Min: int := -0x8000_0000_0000_0000_0000_0000_0000_0000
  const I128Max: int := 0x7fff_ffff_ffff_ffff_ffff_ffff_ffff_ffff

  /** The values of Rust's `i128`, the type of the bounds and of the secret. */
  predicate InI128(x: int) {
    I128Min <= x <= I128Max
  }

  /** `guess.cmp(&number)` on integers. */
  function Compare(a: int, b: int): (r: Ordering)
    ensures r == Less <==> a < b
    ensures r == Equal <==> a == b
    ensures r == Greater <==> a > b
  {
    if a < b then Less else if a == b then Equal else Greater
  }

  class NumberGuessingGame {
    var min: int
    var max: int
    var guesses: nat
    var number: int

    /** The bounds are `i128` values forming a non-empty range. */
    ghost predicate RangeValid()
      reads this
    {
      InI128(min) && InI128(max) && min <= max
    }

    /** The object invariant: a non-empty range that holds the secret. */
    ghost predicate Valid()
      reads this
    {
      RangeValid() && min <= number <= max
    }

    /**
     * The effect `set_range(lo, hi)` promises, returning `r`: it fails exactly
     * when lo > hi and then changes nothing; otherwise the range becomes
     * [lo, hi], a new secret is drawn from it and the counter is zeroed.
     */
    twostate predicate RangeUpdated(lo: int, hi: int, new r: Result<()>)
      reads this
    {
      && (r.Ok? <==> lo <= hi)
      && (if r.Ok? then min == lo && max == hi && guesses == 0 && lo <= number <= hi
          else min == old(min) && max == old(max) && number == old(number) && guesses == old(guesses))
    }

    /** The all-zero struct that `new` starts from before it sets the range. */
    constructor Zeroed()
      ensures Valid()
      ensures min == 0 && max == 0 && guesses == 0 && number == 0
    {
      min, max, guesses, number := 0, 0, 0, 0;
    }

    /** `new(min, max)`: fails exactly when lo > hi; otherwise a fresh game over [lo, hi]. */
    static method New(lo: int, hi: int) returns (r: Result<NumberGuessingGame>)
      requires InI128(lo) && InI128(hi)
      ensures r.Err? <==> lo > hi
      ensures r.Ok? ==> fresh(r.value) && r.value.Valid()
      ensures r.Ok? ==> r.value.min == lo && r.value.max == hi && r.value.guesses == 0
    {
      var game := new NumberGuessingGame.Zeroed();
      var status := game.SetRange(lo, hi);
      if status.Err? {
        return Err;
      }
      return Ok(game);
    }

    /**
     * `make_guess(guess, handler)`: counts the guess, compares it with the
     * secret and returns the outcome together with the arguments the handler
     * is called with once (outcome, post-increment count, secret).
     */
    method MakeGuess(guess: int) returns (result: Ordering, report: GuessReport)
      requires Valid()
      modifies this
      ensures Valid()
      ensures guesses == old(guesses) + 1
      ensures min == old(min) && max == old(max) && number == old(number)
      ensures result == Greater <==> guess > number
      ensures result == Less <==> guess < number
      ensures result == Equal <==> guess == number
      ensures report == GuessReport(guess, result, guesses, number)
    {
      guesses := guesses + 1;
      result := Compare(guess, number);
      report := GuessReport(guess, result, guesses, number);
    }

    /** `reset_number`: draws a new secret from the current range and zeroes the counter. */
    method ResetNumber()
      requires RangeValid()
      modifies this
      ensures Valid()
      ensures min == old(min) && max == old(max)
      ensures guesses == 0
    {
      var drawn :| min <= drawn <= max;
      number := drawn;
      ResetNGuesses();
    }

    /** `reset_n_guesses`: zeroes the counter and nothing else. */
    method ResetNGuesses()
      modifies this
      ensures guesses == 0
      ensures min == old(min) && max == old(max) && number == old(number)
    {
      guesses := 0;
    }

    /** `get_n_guesses`. */
    function GetNGuesses(): (n: nat)
      reads this
      ensures n == guesses
    {
      guesses
    }

    /** `min()`: the lower bound, never above the upper one. */
    function Min(): (m: int)
      reads this
      requires Valid()
      ensures m == min && m <= max && m <= number
    {
      min
    }

    /** `max()`: the upper bound, never below the lower one. */
    function Max(): (m: int)
      reads this
      requires Valid()
      ensures m == max && min <= m && number <= m
    {
      max
    }

    /** `get_range()`: the inclusive range (min, max), which holds the secret. */
    function GetRange(): (r: (int, int))
      reads this
      requires Valid()
      ensures r == (min, max)
      ensures r.0 <= number <= r.1
    {
      (Min(), Max())
    }

    /** `set_range(lo, hi)`: see RangeUpdated. */
    method SetRange(lo: int, hi: int) returns (r: Result<()>)
      requires Valid() && InI128(lo) && InI128(hi)
      modifies this
      ensures Valid()
      ensures RangeUpdated(lo, hi, r)
    {
      if lo > hi {
        return Err;
      }
      min := lo;
      max := hi;
      ResetNumber();
      return Ok(());
    }

    /** `set_min(m)`: the same as `set_range(m, max)`. */
    method SetMin(m: int) returns (r: Result<()>)
      requires Valid() && InI128(m)
      modifies this
      ensures Valid()
      ensures RangeUpdated(m, old(max), r)
    {
      r := SetRange(m, max);
    }

    /** `set_max(m)`: the same as `set_range(min, m)`. */
    method SetMax(m: int) returns (r: Result<()>)
      requires Valid() && InI128(m)
      modifies this
      ensures Valid()
      ensures RangeUpdated(old(min), m, r)
    {
      r := SetRange(min, m);
    }
  }

  /** A caller that makes `n` guesses in a row (the loop of the counter tests). */
  method GuessRepeatedly(game: NumberGuessingGame, guess: int, n: nat)
    requires game.Valid()
    modifies game
    ensures game.Valid()
    ensures game.guesses == old(game.guesses) + n
    ensures game.min == old(game.min) && game.max == old(game.max) && game.number == old(game.number)
  {
    for i := 0 to n
      invariant game.Valid()
      invariant game.guesses == old(game.guesses) + i
      invariant game.min == old(game.min) && game.max == old(game.max) && game.number == old(game.number)
    {
      var _, _ := game.MakeGuess(guess);
    }
  }

  /** On a fresh game over [1, 10], `n` wrong guesses leave the counter at `n`. */
  method CounterScenario(n: nat) returns (counted: nat)
    ensures counted == n
  {
    var created := NumberGuessingGame.New(1, 10);
    var game := created.value;
    GuessRepeatedly(game, 100, n);
    counted := game.GetNGuesses();
  }

  /**
   * On one game over [1, 10], round after round: `rounds[i]` wrong guesses,
   * the counter read back, then a reset of the counter.
   */
  method ResetScenario(rounds: seq<nat>) returns (observed: seq<nat>)
    ensures observed == rounds
  {
    var created := NumberGuessingGame.New(1, 10);
    var game := created.value;
    observed := [];
    for i := 0 to |rounds|
      invariant game.Valid() && game.guesses == 0
      invariant observed == rounds[..i]
    {
      GuessRepeatedly(game, 100, rounds[i]);
      var counted := game.GetNGuesses();
      observed := observed + [counted];
      game.ResetNGuesses();
    }
    assert rounds[..|rounds|] == rounds;
  }

  /** On the one-value range [0, 0]: too high, then too low reported as the second guess, then correct with secret 0. */
  method MakeGuessScenario() returns (s1: Ordering, s2: Ordering, count2: nat, s3: Ordering, secret3: int)
    ensures s1 == Greater
    ensures s2 == Less && count2 == 2
    ensures s3 == Equal && secret3 == 0
  {
    var created := NumberGuessingGame.New(0, 0);
    var game := created.value;
    var report;
    s1, report := game.MakeGuess(69);
    s2, report := game.MakeGuess(-69);
    count2 := report.guesses;
    s3, report := game.MakeGuess(0);
    secret3 := report.number;
  }

  /** Construction, the bound setters and a rejected range, as the game's tests exercise them. */
  method RangeScenario() returns (first: (int, int), rejected: bool, minBefore: int, minAfter: int,
                                  maxBefore: int, maxAfter: int, rangeBefore: (int, int), rangeSet: (int, int), kept: (int, int))
    ensures first == (0, 69) && rejected
    ensures minBefore == 1 && minAfter == 2
    ensures maxBefore == 10 && maxAfter == 69
    ensures rangeBefore == (1, 10) && rangeSet == (69, 420) && kept == (69, 420)
  {
    var created := NumberGuessingGame.New(0, 69);
    first := created.value.GetRange();
    var bad := NumberGuessingGame.New(0, -69);
    rejected := bad.Err?;

    created := NumberGuessingGame.New(1, 10);
    var game := created.value;
    minBefore := game.Min();
    var status := game.SetMin(2);
    minAfter := game.Min();

    created := NumberGuessingGame.New(1, 10);
    game := created.value;
    maxBefore := game.Max();
    status := game.SetMax(69);
    maxAfter := game.Max();

    created := NumberGuessingGame.New(1, 10);
    game := created.value;
    rangeBefore := game.GetRange();
    status := game.SetRange(69, 420);
    rangeSet := game.GetRange();
    status := game.SetRange(420, 69);
    kept := game.GetRange();
  }
}
