/**
 * The "guess the distribution" game: a catalog of five sampling families, a
 * memo table of drawn samples keyed by (family, sample count), the plotting
 * range filter of the heavy-tailed family, the density dispatch and the
 * judging of a typed guess.
 */
module GuessDistribution {
  import opened Wrappers
  import Text

  /** DISTRIBUTIONS: family key to display name (the samplers are random and live outside the model). */
  const Catalog: map<int, string> :=
    map[1 := "normal", 2 := "Lorentz", 3 := "power", 4 := "uniform", 5 := "gamma"]

  /** The key of the heavy-tailed (Cauchy) family whose samples are range-filtered. */
  const LorentzKey := 2

  /** The catalog holds exactly keys 1..5, each with a non-empty name. */
  lemma CatalogShape()
    ensures Catalog.Keys == {1, 2, 3, 4, 5}
    ensures Catalog[1] == "normal" && Catalog[2] == "Lorentz" && Catalog[3] == "power"
    ensures Catalog[4] == "uniform" && Catalog[5] == "gamma"
    ensures forall k :: k in Catalog ==> Catalog[k] != ""
  {
  }

  /** A sample is kept for plotting when it lies strictly inside (-25, 25). */
  predicate InPlotRange(x: real) {
    -25.0 < x < 25.0
  }

  /** `r` is obtained from `s` by deleting elements, keeping the order of the rest. */
  predicate IsSubsequence(r: seq<real>, s: seq<real>)
    decreases |s|
  {
    if r == [] then true
    else if s == [] then false
    else (r[0] == s[0] && IsSubsequence(r[1..], s[1..])) || IsSubsequence(r, s[1..])
  }

  /**
   * The boolean-mask filter `samples[(samples > -25) & (samples < 25)]`: the
   * in-range samples in their original order, each as often as in `s`, and
   * no out-of-range sample.
   */
  function KeepInRange(s: seq<real>): (r: seq<real>)
    ensures |r| <= |s|
    ensures forall i :: 0 <= i < |r| ==> InPlotRange(r[i])
    ensures IsSubsequence(r, s)
    ensures forall x :: multiset(r)[x] == if InPlotRange(x) then multiset(s)[x] else 0
  {
    if s == [] then []
    else
      assert s == [s[0]] + s[1..];
      if InPlotRange(s[0]) then [s[0]] + KeepInRange(s[1..]) else KeepInRange(s[1..])
  }

  /** What `get_samples` stores and returns for a raw draw of family `key`. */
  function PostProcess(key: int, raw: seq<real>): seq<real> {
    if key == LorentzKey then KeepInRange(raw) else raw
  }

  /** For the Lorentz family the stored samples are the in-range subsequence; for every other key the raw draw. */
  lemma PostProcessShape(key: int, raw: seq<real>)
    ensures key != LorentzKey ==> PostProcess(key, raw) == raw
    ensures key == LorentzKey ==>
      IsSubsequence(PostProcess(key, raw), raw) && |PostProcess(key, raw)| <= |raw|
      && forall i :: 0 <= i < |PostProcess(key, raw)| ==> InPlotRange(PostProcess(key, raw)[i])
  {
  }

  /** What every memo entry satisfies: its length and, for the Lorentz family, its range. */
  predicate EntryOk(key: int, n: nat, s: seq<real>) {
    if key == LorentzKey then |s| <= n && forall i :: 0 <= i < |s| ==> InPlotRange(s[i])
    else |s| == n
  }

  /**
   * The `st.cache` memo table of `get_samples`, keyed by (family key, sample
   * count). The sampler itself is determined by the key, so it is not part of
   * the key here.
   */
  class SampleCache {
    var entries: map<(int, nat), seq<real>>

    ghost predicate Valid()
      reads this
    {
      forall k :: k in entries ==> EntryOk(k.0, k.1, entries[k])
    }

    constructor ()
      ensures Valid() && entries == map[]
    {
      entries := map[];
    }

    /**
     * `get_samples(sampler, n, key)`. `raw` is what the family's sampler
     * would draw, n values; it is used only on a miss. A hit returns the
     * stored, already filtered sequence and leaves the table as it was.
     */
    method GetSamples(key: int, n: nat, raw: seq<real>) returns (samples: seq<real>)
      requires Valid() && |raw| == n
      modifies this
      ensures Valid()
      ensures (key, n) in old(entries) ==> samples == old(entries)[(key, n)] && entries == old(entries)
      ensures (key, n) !in old(entries) ==>
        samples == PostProcess(key, raw) && entries == old(entries)[(key, n) := samples]
      ensures EntryOk(key, n, samples)
    {
      if (key, n) in entries {
        samples := entries[(key, n)];
      } else {
        samples := PostProcess(key, raw);
        entries := entries[(key, n) := samples];
      }
    }
  }

  /** A repeated call with the same key and count returns the same samples, whatever the second draw would have been. */
  method CachedCallsAgree(cache: SampleCache, key: int, n: nat, raw1: seq<real>, raw2: seq<real>)
    returns (first: seq<real>, second: seq<real>)
    requires cache.Valid() && |raw1| == n && |raw2| == n
    modifies cache
    ensures cache.Valid() && first == second
    ensures (key, n) !in old(cache.entries) ==> first == PostProcess(key, raw1)
  {
    first := cache.GetSamples(key, n, raw1);
    second := cache.GetSamples(key, n, raw2);
  }

  /** The `NotImplementedError` of `get_pdf`. */
  datatype PdfError = NotImplemented

  /**
   * A density curve: values computed exactly, or the closed-form density of
   * family `key` (normal, Cauchy, gamma) at the points `xs`, whose
   * floating-point evaluation is outside the model.
   */
  datatype Curve = Values(ys: seq<real>) | Closed(key: int, xs: seq<real>)

  /** The power-law density 5·x⁴ at each point. */
  function PowerDensity(xs: seq<real>): (ys: seq<real>)
    ensures |ys| == |xs|
    ensures forall i :: 0 <= i < |xs| ==> ys[i] == 5.0 * xs[i] * xs[i] * xs[i] * xs[i] && ys[i] >= 0.0
  {
    if xs == [] then []
    else
      var x := xs[0];
      assert x * x >= 0.0;
      assert (x * x) * (x * x) >= 0.0;
      [5.0 * x * x * x * x] + PowerDensity(xs[1..])
  }

  /** The uniform density on [0, 5]: 0.20 at each point. */
  function UniformDensity(xs: seq<real>): (ys: seq<real>)
    ensures |ys| == |xs| && forall i :: 0 <= i < |ys| ==> ys[i] == 0.20
  {
    if xs == [] then [] else [0.20] + UniformDensity(xs[1..])
  }

  /** `get_pdf(key, x)`: dispatch on the family key; any other key fails. */
  function Pdf(key: int, xs: seq<real>): (r: Result<Curve, PdfError>)
    ensures r.Failure? <==> key !in Catalog
    ensures key == 3 ==>
      && r.Success? && r.value.Values? && |r.value.ys| == |xs|
      && forall i :: 0 <= i < |xs| ==> r.value.ys[i] >= 0.0
    ensures key == 4 ==>
      && r.Success? && r.value.Values? && |r.value.ys| == |xs|
      && forall i :: 0 <= i < |xs| ==> r.value.ys[i] == 0.20
    ensures key in {1, 2, 5} ==> r == Success(Closed(key, xs))
  {
    if key == 1 then Success(Closed(1, xs))
    else if key == 2 then Success(Closed(2, xs))
    else if key == 3 then Success(Values(PowerDensity(xs)))
    else if key == 4 then Success(Values(UniformDensity(xs)))
    else if key == 5 then Success(Closed(5, xs))
    else Failure(NotImplemented)
  }

  /** The three messages the page can show about a guess. */
  datatype Verdict = Correct | NoGuess | Incorrect

  /**
   * Judge the text typed into the box against a family name: the stripped
   * guess is correct when it equals the name ignoring case; otherwise an
   * empty stripped guess asks for a guess and anything else is incorrect.
   */
  function Judge(input: string, name: string): (v: Verdict)
    ensures v == Correct <==> Text.Lower(Text.Strip(input)) == Text.Lower(name)
    ensures v == NoGuess ==> Text.Strip(input) == ""
    ensures v == Incorrect ==> Text.Strip(input) != ""
  {
    var guess := Text.Strip(input);
    if Text.Lower(guess) == Text.Lower(name) then Correct
    else if guess == "" then NoGuess
    else Incorrect
  }

  /** An input of only whitespace never matches a non-empty name: it asks for a guess. */
  lemma {:induction false} BlankInputIsNoGuess(input: string, name: string)
    requires Text.AllSpace(input) && name != ""
    ensures Judge(input, name) == NoGuess
  {
    Text.AllSpaceTrimsToEmpty(input);
  }

  /** Every catalog name, in any letter case and padded with whitespace, is judged correct. */
  lemma {:induction false} PaddedNameIsCorrect(pre: string, guess: string, post: string, key: int)
    requires key in Catalog
    requires Text.AllSpace(pre) && Text.AllSpace(post)
    requires Text.Lower(guess) == Text.Lower(Catalog[key]) && Text.IsStripped(guess)
    ensures Judge(pre + guess + post, Catalog[key]) == Correct
  {
    Text.StripPadded(pre, guess, post);
  }

  /** The length and lower-cased first letter of each family name. */
  function NameSignature(key: int): (int, char) {
    match key
    case 1 => (6, 'n')
    case 2 => (7, 'l')
    case 3 => (5, 'p')
    case 4 => (7, 'u')
    case 5 => (5, 'g')
    case _ => (0, ' ')
  }

  lemma LowerNameSignature(key: int)
    requires key in Catalog
    ensures var l := Text.Lower(Catalog[key]); |l| > 0 && NameSignature(key) == (|l|, l[0])
  {
  }

  /** No input is judged correct for two different families: their lower-cased names differ. */
  lemma {:induction false} AtMostOneFamilyMatches(input: string, k1: int, k2: int)
    requires k1 in Catalog && k2 in Catalog
    requires Judge(input, Catalog[k1]) == Correct && Judge(input, Catalog[k2]) == Correct
    ensures k1 == k2
  {
    var guess := Text.Lower(Text.Strip(input));
    assert guess == Text.Lower(Catalog[k1]) && guess == Text.Lower(Catalog[k2]);
    LowerNameSignature(k1);
    LowerNameSignature(k2);
    NameSignatureInjective(k1, k2);
  }

  lemma NameSignatureInjective(k1: int, k2: int)
    requires k1 in Catalog && k2 in Catalog && NameSignature(k1) == NameSignature(k2)
    ensures k1 == k2
  {
  }

  /** The verdict depends only on the stripped, lower-cased input. */
  lemma {:induction false} JudgeOnNormalised(a: string, b: string, name: string)
    requires Text.Lower(Text.Strip(a)) == Text.Lower(Text.Strip(b))
    ensures Judge(a, name) == Judge(b, name)
  {
    assert |Text.Strip(a)| == |Text.Lower(Text.Strip(a))|;
  }

  /**
   * One run of the page: look up the selected family, obtain its samples
   * through the memo table, and judge the typed guess; `showDensity` says whether
   * the density is drawn over the histogram.
   */
  method PlayRound(cache: SampleCache, key: int, n: nat, raw: seq<real>, input: string)
    returns (samples: seq<real>, showDensity: bool, verdict: Verdict)
    requires key in Catalog && cache.Valid() && |raw| == n
    modifies cache
    ensures cache.Valid() && (key, n) in cache.entries && samples == cache.entries[(key, n)]
    ensures (key, n) in old(cache.entries) ==> samples == old(cache.entries)[(key, n)]
    ensures (key, n) !in old(cache.entries) ==> samples == PostProcess(key, raw)
    ensures verdict == Judge(input, Catalog[key])
    ensures showDensity <==> verdict == Correct
  {
    var name := Catalog[key];
    samples := cache.GetSamples(key, n, raw);
    verdict := Judge(input, name);
    showDensity := verdict == Correct;
  }
}
