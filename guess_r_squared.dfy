/**
 * The "guess R²" game: a synthetic noisy line built from uniform draws, a
 * board of (name, value) guesses, and the choice of the guess closest to the
 * fitted R², the earliest one winning ties.
 */
module GuessRSquared {
  import opened Wrappers
  import Text

  /** N_SAMPLES: points per generated trial. */
  const NSamples := 20

  /** A draw of `np.random.rand()`: uniform on [0, 1). */
  predicate IsUnitDraw(u: real) {
    0.0 <= u < 1.0
  }

  /** The true line and its noisy observations: y = a·x + b + noise. */
  datatype Trial = Trial(x: seq<real>, y: seq<real>, a: real, b: real)

  /**
   * `get_samples()` as a function of its draws: slope 2u - 1, intercept 0,
   * positions 5·x' and noise 2·n, so the slope lies in [-1, 1), each x in
   * [0, 5) and each point sits between 0 and 2 above the true line.
   */
  function Samples(u: real, xDraws: seq<real>, noiseDraws: seq<real>): (t: Trial)
    requires IsUnitDraw(u)
    requires |xDraws| == NSamples && forall i :: 0 <= i < NSamples ==> IsUnitDraw(xDraws[i])
    requires |noiseDraws| == NSamples && forall i :: 0 <= i < NSamples ==> IsUnitDraw(noiseDraws[i])
    ensures -1.0 <= t.a < 1.0 && t.b == 0.0
    ensures |t.x| == NSamples && |t.y| == NSamples
    ensures forall i :: 0 <= i < NSamples ==> 0.0 <= t.x[i] < 5.0
    ensures forall i :: 0 <= i < NSamples ==> 0.0 <= t.y[i] - t.a * t.x[i] - t.b < 2.0
  {
    var a := 2.0 * u - 1.0;
    var b := 0.0;
    var x := seq(NSamples, i requires 0 <= i < NSamples => 5.0 * xDraws[i]);
    var noise := seq(NSamples, i requires 0 <= i < NSamples => 2.0 * noiseDraws[i]);
    var y := seq(NSamples, i requires 0 <= i < NSamples => a * x[i] + b + noise[i]);
    assert forall i :: 0 <= i < NSamples ==> IsUnitDraw(xDraws[i]) && 0.0 <= x[i] < 5.0;
    assert forall i :: 0 <= i < NSamples ==> IsUnitDraw(noiseDraws[i]) && 0.0 <= noise[i] < 2.0;
    assert forall i :: 0 <= i < NSamples ==> y[i] - a * x[i] - b == noise[i];
    Trial(x, y, a, b)
  }

  /** The session's `data` dict: the trial, the fitted line and its R². */
  datatype TrialData = TrialData(x: seq<real>, y: seq<real>, a: real, b: real, ahat: real, bhat: real, r2: real)

  /** The placeholder the page starts with, before any data is generated. */
  const InitialData := TrialData([-100.0], [-100.0], -100.0, 0.0, -99.0, -99.0, 0.0)

  /** One participant's guess. */
  datatype Guess = Guess(name: string, value: real)

  function Abs(x: real): real {
    if x < 0.0 then -x else x
  }

  /** How far a guess is from the true R². */
  function Distance(g: Guess, r2: real): real {
    Abs(g.value - r2)
  }

  /** The list `diffs` of distances, one per guess, in order. */
  function Diffs(guesses: seq<Guess>, r2: real): (d: seq<real>)
    ensures |d| == |guesses|
    ensures forall i :: 0 <= i < |d| ==> d[i] == Distance(guesses[i], r2)
  {
    seq(|guesses|, i requires 0 <= i < |guesses| => Distance(guesses[i], r2))
  }

  /** `k` is the first index holding the least value of `d`. */
  predicate IsFirstMin(d: seq<real>, k: nat) {
    && k < |d|
    && (forall j :: 0 <= j < |d| ==> d[k] <= d[j])
    && (forall j :: 0 <= j < k ==> d[j] > d[k])
  }

  /** `np.argmin`: the first index of a least value; none for an empty list (where numpy raises ValueError). */
  function ArgMin(d: seq<real>): (r: Option<nat>)
    ensures r.None? <==> d == []
    ensures r.Some? ==> IsFirstMin(d, r.value)
  {
    if d == [] then None
    else
      match ArgMin(d[1..])
      case None => Some(0)
      case Some(k) => if d[k + 1] < d[0] then Some(k + 1) else Some(0)
  }

  /** At most one index is the first minimum. */
  lemma FirstMinUnique(d: seq<real>, k1: nat, k2: nat)
    requires IsFirstMin(d, k1) && IsFirstMin(d, k2)
    ensures k1 == k2
  {
    assert d[k1] == d[k2];
  }

  /** The outcome of "Determine winner": the winning guess and its position, or the blank pair. */
  datatype Winner = Blank | Best(index: nat, guess: Guess)

  /**
   * The winner: a stored guess at least as close to r2 as every other, and
   * strictly closer than every earlier one; blank when nobody guessed.
   */
  function DetermineWinner(guesses: seq<Guess>, r2: real): (w: Winner)
    ensures w.Blank? <==> guesses == []
    ensures w.Best? ==>
      && w.index < |guesses| && w.guess == guesses[w.index]
      && (forall j :: 0 <= j < |guesses| ==> Distance(w.guess, r2) <= Distance(guesses[j], r2))
      && (forall j :: 0 <= j < w.index ==> Distance(guesses[j], r2) > Distance(w.guess, r2))
  {
    var d := Diffs(guesses, r2);
    match ArgMin(d)
    case None => Blank
    case Some(k) => Best(k, guesses[k])
  }

  /**
   * Adding a guess changes the winner only when the new guess is strictly
   * closer than the current winner: on a tie the earlier guess stays.
   */
  lemma {:induction false} WinnerAfterAdd(guesses: seq<Guess>, g: Guess, r2: real)
    ensures DetermineWinner(guesses + [g], r2) ==
      match DetermineWinner(guesses, r2)
      case Blank => Best(0, g)
      case Best(k, h) => if Distance(g, r2) < Distance(h, r2) then Best(|guesses|, g) else Best(k, h)
  {
    var all := guesses + [g];
    var w := DetermineWinner(all, r2);
    var d := Diffs(all, r2);
    assert w.Best?;
    assert IsFirstMin(d, w.index);
    match DetermineWinner(guesses, r2)
    case Blank =>
    case Best(k, h) =>
      if Distance(g, r2) < Distance(h, r2) {
        assert IsFirstMin(d, |guesses|);
        FirstMinUnique(d, w.index, |guesses|);
      } else {
        assert IsFirstMin(d, k);
        FirstMinUnique(d, w.index, k);
      }
  }

  /** A stored guess: its name already stripped and its value within the input box's bounds [0, 1]. */
  predicate ValidGuess(g: Guess) {
    Text.IsStripped(g.name) && 0.0 <= g.value <= 1.0
  }

  /** The per-session state of the game: the `data` dict and the `guesses` list. */
  class RSquaredGame {
    var data: TrialData
    var guesses: seq<Guess>

    ghost predicate Valid()
      reads this
    {
      forall i :: 0 <= i < |guesses| ==> ValidGuess(guesses[i])
    }

    /** The first run of the page: placeholder data and no guesses. */
    constructor ()
      ensures Valid() && data == InitialData && guesses == []
    {
      data := InitialData;
      guesses := [];
    }

    /** `add_guess`: append one (name, value) pair at the end. */
    method AddGuess(name: string, value: real)
      requires Valid() && ValidGuess(Guess(name, value))
      modifies this`guesses
      ensures Valid() && guesses == old(guesses) + [Guess(name, value)]
    {
      guesses := guesses + [Guess(name, value)];
    }

    /** "Add guess": the typed name is stripped; the number box keeps the value in [0, 1]. */
    method SubmitGuess(typedName: string, value: real)
      requires Valid() && 0.0 <= value <= 1.0
      modifies this`guesses
      ensures Valid() && guesses == old(guesses) + [Guess(Text.Strip(typedName), value)]
    {
      var name := Text.Strip(typedName);
      AddGuess(name, value);
    }

    /**
     * "Generate data!": a new trial from the draws, with the fitted slope,
     * intercept and R² supplied by the fit, replaces all of `data`, and the
     * guesses are emptied.
     */
    method Generate(u: real, xDraws: seq<real>, noiseDraws: seq<real>, ahat: real, bhat: real, r2: real)
      requires IsUnitDraw(u)
      requires |xDraws| == NSamples && forall i :: 0 <= i < NSamples ==> IsUnitDraw(xDraws[i])
      requires |noiseDraws| == NSamples && forall i :: 0 <= i < NSamples ==> IsUnitDraw(noiseDraws[i])
      modifies this
      ensures Valid() && guesses == []
      ensures var t := Samples(u, xDraws, noiseDraws);
        data == TrialData(t.x, t.y, t.a, t.b, ahat, bhat, r2)
    {
      var t := Samples(u, xDraws, noiseDraws);
      data := data.(x := t.x, y := t.y, a := t.a, b := t.b);
      data := data.(ahat := ahat, bhat := bhat, r2 := r2);
      guesses := [];
    }

    /** "Clear guesses": the list is emptied and the data kept. */
    method ClearGuesses()
      modifies this`guesses
      ensures Valid() && guesses == []
    {
      guesses := [];
    }

    /** "Determine winner" over the stored guesses and the stored R². */
    method CurrentWinner() returns (w: Winner)
      requires Valid()
      ensures w == DetermineWinner(guesses, data.r2)
      ensures w.Best? ==> ValidGuess(w.guess)
    {
      w := DetermineWinner(guesses, data.r2);
    }
  }
}
