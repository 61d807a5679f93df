# Statistics guessing games: a Dafny model of the game engines

The repository is a Streamlit app with three statistics guessing games. This
project models the small piece of sequential logic inside each game and proves
its properties. Widgets, rendering and plotting are not modelled.

- **Guess the figure** (`guess_the_graph.dfy`, module `GuessTheGraph`). A
  `Figure` class keeps the properties the figure was built with. It also keeps
  a `Chart` record saying which properties the `add_*` methods have applied to
  the plot so far. A `GraphGame` object is one session. It holds the session
  keys that are present, a private copy of the selected figure, the six-step
  reveal order (trace, x label, y label, x ticks, y ticks, title), the cursor
  `revealIndex` and `nReveals`. Its object invariant says that the chart shows
  exactly the first `revealIndex` steps.
- **Guess R²** (`guess_r_squared.dfy`, module `GuessRSquared`). The noisy-line
  generator is a function of its uniform draws. The session is a class holding
  the `data` record and the append-only guess list, with generate, add and
  clear operations. The winner is the first index of the least distance
  |value − r2|, as `np.argmin` picks it.
- **Guess the distribution** (`guess_distribution.dfy`, module
  `GuessDistribution`). It covers the five-family catalog, the memo table of
  samples keyed by (family, count) with the raw draw as an input, the range
  filter of family 2, the density dispatch and the three-way judging of a
  typed guess.
- `text.dfy` (module `Text`) models Python's `str.strip()` and `str.lower()`.
  `wrappers.dfy` holds `Option` and `Result`.

Behaviour of the code the model keeps:
- A guess value is not validated when it is added. The number box only
  accepts values in [0, 1], so `SubmitGuess` requires that range.
- The page looks the selected key up in DISTRIBUTIONS
  (lib/guess_distribution.py:84), which raises KeyError for a key outside
  1..5. The radio button only offers keys 1..5. `PlayRound`'s
  `requires key in Catalog` stands for that lookup. `get_pdf` raises
  NotImplementedError for a key outside 1..5; `Pdf` returns `Failure` there.
- The slope draw `2u − 1` lies in [−1, 1) and each x in [0, 5), because
  `np.random.rand` draws from [0, 1).
- The reset deletes every session key. When the reveal cursor is at the end,
  a reveal press only prints "No more properties to display"; `Reveal` and
  `Run` report this as `exhausted`.

## Model

| member | source | states |
|---|---|---|
| `Text.Strip` | lib/guess_distribution.py:88-90 | `strip()` returns the slice of the input between an all-whitespace prefix and an all-whitespace suffix, and that slice neither starts nor ends with whitespace |
| `Text.StripPadded` | lib/guess_r_squared.py:94 | stripping whitespace + stripped core + whitespace gives back exactly the core |
| `Text.StripIdempotent` | lib/guess_r_squared.py:94 | a stripped name is stripped: stripping twice equals stripping once |
| `Text.Lower` | lib/guess_distribution.py:91 | `lower()` keeps the length and lower-cases each character in place |
| `GuessTheGraph.Figure.constructor` | lib/guess_the_graph.py:18-36 | each property not passed takes its PROPERTIES default, each passed one is kept, and the chart starts with no trace, no titles and tick labels hidden |
| `GuessTheGraph.Figure.Copy` | lib/guess_the_graph.py:121 | the deep copy has the template's properties and chart |
| `GuessTheGraph.Figure.AddTitle` | lib/guess_the_graph.py:38-39 | sets the chart title to the figure's title; nothing else changes |
| `GuessTheGraph.Figure.AddTrace` | lib/guess_the_graph.py:41-42 | appends the figure's trace to the chart |
| `GuessTheGraph.Figure.AddXLabel` | lib/guess_the_graph.py:44-45 | sets the x-axis title to the figure's x label |
| `GuessTheGraph.Figure.AddYLabel` | lib/guess_the_graph.py:47-48 | sets the y-axis title to the figure's y label |
| `GuessTheGraph.Figure.AddXTicks` | lib/guess_the_graph.py:50-58 | sets array tick mode with the x ticks' positions and labels and shows the labels; the axis title is kept |
| `GuessTheGraph.Figure.AddYTicks` | lib/guess_the_graph.py:63-71 | the same for the y axis |
| `GuessTheGraph.TickVals` | lib/guess_the_graph.py:54 | one position per tick, in order: the tuple's second component |
| `GuessTheGraph.TickText` | lib/guess_the_graph.py:55 | one label per tick, in order: the tuple's first component |
| `GuessTheGraph.ApplyShowsOnlyItsProperty` | lib/guess_the_graph.py:38-71 | each `add_*` step, as `Apply` gives its effect on the chart, makes its own property show and does not change whether any other property shows |
| `GuessTheGraph.RevealedIsExpected` | lib/guess_the_graph.py:122-129 | after k steps of the fixed order the chart holds the trace once and the figure's labels, ticks and title for exactly the steps taken, blank values for the rest |
| `GuessTheGraph.RevealedShowsPrefix` | lib/guess_the_graph.py:156-163 | after k reveals a property shows if and only if its position in the reveal order is below k |
| `GuessTheGraph.RevealedTicks` | lib/guess_the_graph.py:33-36 | tick labels are hidden until their step; from then on the tick positions and labels equal the figure's ticks, in order and of equal length |
| `GuessTheGraph.MakeFigures` | lib/guess_the_graph.py:74-115 | FIGURES holds three new figures, each built from its own arguments (labels, ticks, trace and title) and each with a blank chart |
| `GuessTheGraph.GraphGame.Select` | lib/guess_the_graph.py:120-131 | a fresh copy of the chosen template, the steps trace, xlabel, ylabel, xticks, yticks, title, cursor 0 and `n_reveals` 6 |
| `GuessTheGraph.GraphGame.Reveal` | lib/guess_the_graph.py:156-163 | below the end, applies exactly the step under the cursor and advances the cursor by one; at the end, changes nothing and reports it; the cursor never passes `n_reveals`; templates are never modified |
| `GuessTheGraph.GraphGame.Reset` | lib/guess_the_graph.py:134-136 | deletes every session key, which leaves the one empty state, so resetting twice gives the same state |
| `GuessTheGraph.GraphGame.Run` | lib/guess_the_graph.py:148-171 | a page run re-derives the figure with cursor 0 when the session has none or the selection changed, then applies at most one button; it reports "no more properties" exactly when reveal is pressed with the cursor already at the end |
| `GuessRSquared.Samples` | lib/guess_r_squared.py:12-18 | for 20 unit draws: slope in [−1, 1), intercept 0, each x in [0, 5), each y − a·x − b in [0, 2) |
| `GuessRSquared.RSquaredGame.constructor` | lib/guess_r_squared.py:29-41 | the placeholder data and an empty guess list |
| `GuessRSquared.RSquaredGame.AddGuess` | lib/guess_r_squared.py:25-26 | appends exactly one (name, value) pair at the end; earlier entries are kept |
| `GuessRSquared.RSquaredGame.SubmitGuess` | lib/guess_r_squared.py:94-99 | the stored guess has the stripped name and a value in [0, 1] |
| `GuessRSquared.RSquaredGame.Generate` | lib/guess_r_squared.py:64-74 | x, y, a, b, ahat, bhat and r2 are all replaced and the guess list is emptied |
| `GuessRSquared.RSquaredGame.ClearGuesses` | lib/guess_r_squared.py:105-106 | empties the guess list and keeps the data, so clearing twice gives the same state |
| `GuessRSquared.ArgMin` | lib/guess_r_squared.py:120 | none exactly for an empty list; otherwise an index of a least value with every earlier value strictly larger |
| `GuessRSquared.FirstMinUnique` | lib/guess_r_squared.py:120 | at most one index is the first minimum, so the tie-break decides the winner |
| `GuessRSquared.DetermineWinner` | lib/guess_r_squared.py:112-123 | blank exactly when there are no guesses; otherwise a stored guess no farther from r2 than any other and strictly closer than every earlier one |
| `GuessRSquared.WinnerAfterAdd` | lib/guess_r_squared.py:114-121 | a new guess takes the win only when it is strictly closer than the current winner; on a tie the earlier guess keeps it |
| `GuessRSquared.RSquaredGame.CurrentWinner` | lib/guess_r_squared.py:114-123 | the winner of the stored guesses against the stored r2; its value lies in [0, 1] |
| `GuessDistribution.CatalogShape` | lib/guess_distribution.py:9-15 | the keys are exactly 1..5, named normal, Lorentz, power, uniform and gamma, all non-empty |
| `GuessDistribution.KeepInRange` | lib/guess_distribution.py:22-23 | the result is a subsequence of the draw, every element lies strictly inside (−25, 25), and each in-range value occurs as often as in the draw |
| `GuessDistribution.PostProcessShape` | lib/guess_distribution.py:20-24 | key 2 yields the in-range subsequence, no longer than the draw; every other key yields the draw unchanged |
| `GuessDistribution.SampleCache.constructor` | lib/guess_distribution.py:19 | the memo table starts empty |
| `GuessDistribution.SampleCache.GetSamples` | lib/guess_distribution.py:19-24 | a hit returns the stored, already filtered samples and leaves the table unchanged; a miss stores the processed draw under (key, count); a different count is a separate entry; every entry keeps its length and range invariant |
| `GuessDistribution.CachedCallsAgree` | lib/guess_distribution.py:85 | two calls with the same key and count return the same samples, whatever the second draw |
| `GuessDistribution.PowerDensity` | lib/guess_distribution.py:33 | one value 5·x⁴ per point, each non-negative |
| `GuessDistribution.UniformDensity` | lib/guess_distribution.py:35 | 0.20 at each point, same length as the input |
| `GuessDistribution.Pdf` | lib/guess_distribution.py:26-39 | fails exactly for keys outside 1..5; keys 3 and 4 give one non-negative value per point, key 4 all 0.20 |
| `GuessDistribution.Judge` | lib/guess_distribution.py:88-103 | correct if and only if the stripped guess equals the name ignoring case; otherwise blank asks for a guess and non-blank is incorrect |
| `GuessDistribution.BlankInputIsNoGuess` | lib/guess_distribution.py:96-99 | an all-whitespace input never matches a non-empty name and gets the "please write a guess" outcome |
| `GuessDistribution.PaddedNameIsCorrect` | lib/guess_distribution.py:88-95 | a family name in any letter case, with whitespace around it, is judged correct |
| `GuessDistribution.AtMostOneFamilyMatches` | lib/guess_distribution.py:91 | no input is judged correct for two different families |
| `GuessDistribution.JudgeOnNormalised` | lib/guess_distribution.py:88-91 | inputs with equal stripped, lower-cased forms get the same verdict |
| `GuessDistribution.PlayRound` | lib/guess_distribution.py:84-103 | a page run returns the memoised samples for (key, count), the verdict for the typed guess, and draws the density exactly when the verdict is correct |

## Left out

- Streamlit widgets, text output, CSS and the persistence of `st.session_state` are not modelled. Each game's state is an explicit object. The page runs are methods (`GraphGame.Run`, `GuessDistribution.PlayRound`) or single button methods.
- `reset_state` deletes every key of the shared session, which includes the other games' keys. The model gives each game its own state object, so this reset clears only the figure game's keys.
- The page shows `EMPTY_FIGURE` on every run without a reveal press (lib/guess_the_graph.py:165-166). This display quirk is not modelled; `Run` does not return a chart.
- Plotly and matplotlib are not modelled. A figure is a record of the properties applied to it. Bar marker colours are dropped. The y-tick labels of the first figure are numbers in the source (`(0, 0)`, `(2500, 2500)`, `(5000, 5000)`, lib/guess_the_graph.py:85); the model writes them as strings.
- Random draws, `np.random.seed(314)` and the samplers are parameters. The raw draw given to `GetSamples` stands for the sampler's output of n values.
- The memo key of `st.cache` includes the sampler function. The model keys on (family key, count), since the key determines the sampler.
- `scipy.stats.linregress` and the R² computation are not modelled. `Generate` receives ahat, bhat and r2 as inputs.
- Floating point is not modelled: all values are Dafny `real`. The density formulas of keys 1, 2 and 5 (normal, Cauchy, gamma) use π and exp, so `Pdf` returns them as an unevaluated `Closed(key, xs)` curve.
- The initial `data` dict holds scalars (x = y = −100). The model stores them as one-element sequences.
- The winner is displayed as strings, because `np.array` turns (name, value) tuples into strings. The model returns the guess itself, or `Blank` for the ("", "") pair.
- `Text.Lower`: lower-cases ASCII letters only, while Python's `str.lower()` covers all of Unicode. The verdicts still agree. The one non-ASCII character that Python lower-cases to pure ASCII is U+212A KELVIN SIGN, which becomes 'k', and no catalog name contains 'k'. Every other non-ASCII character lower-cases to text that still holds a non-ASCII character, so it can never equal an ASCII name either way.
- `plot_distribution`, main.py and lib/front_page.py are rendering and routing, so they are not modelled.
