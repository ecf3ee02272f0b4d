/** Reducing learning rates when a metric stops improving
    (`ReduceLrOnPlateau`, src/optim/schedulers.rs). Rates and metrics are reals. */
module Plateau {
  import opened Wrappers

  const U64_MAX: nat := 0xffff_ffff_ffff_ffff

  datatype Mode = Minimise | Maximise
  datatype ThresholdMode = Relative | Absolute

  datatype Settings = Settings(
    mode: Mode, factor: real, patience: nat, threshold: real, thresholdMode: ThresholdMode,
    cooldown: nat, minRates: seq<real>, eps: real)

  /** What the scheduler keeps between steps, with the rates now in force. */
  datatype Progress = Progress(epoch: nat, best: Option<real>, bad: nat, cooling: nat, rates: seq<real>)

  predicate ValidSettings(s: Settings)
  {
    0.0 <= s.factor < 1.0 && s.threshold >= 0.0 && s.eps >= 0.0 && forall r | r in s.minRates :: r >= 0.0
  }

  // ---- one step ----

  predicate Improved(s: Settings, best: real, metric: real)
  {
    match (s.mode, s.thresholdMode)
    case (Minimise, Relative) => metric < best * (1.0 - s.threshold)
    case (Maximise, Relative) => metric > best * (1.0 + s.threshold)
    case (Minimise, Absolute) => metric < best - s.threshold
    case (Maximise, Absolute) => metric > best + s.threshold
  }

  predicate Improves(s: Settings, p: Progress, metric: real)
  {
    p.best.None? || Improved(s, p.best.value, metric)
  }

  /** Bad epochs counted after this metric, before any reduction. */
  function BadAfter(s: Settings, p: Progress, metric: real): nat
  {
    if p.cooling > 0 || Improves(s, p, metric) then 0 else p.bad + 1
  }

  predicate Reduces(s: Settings, p: Progress, metric: real)
  {
    BadAfter(s, p, metric) > s.patience
  }

  function Lowered(s: Settings, rate: real, minimum: real): real
  {
    var next := if rate * s.factor >= minimum then rate * s.factor else minimum;
    if rate - next > s.eps then next else rate
  }

  function LoweredAll(s: Settings, rates: seq<real>): (r: seq<real>)
    requires |rates| == |s.minRates|
    ensures |r| == |rates|
  {
    seq(|rates|, i requires 0 <= i < |rates| => Lowered(s, rates[i], s.minRates[i]))
  }

  function Next(s: Settings, p: Progress, metric: real): Progress
    requires |p.rates| == |s.minRates|
  {
    var best := if Improves(s, p, metric) then Some(metric) else p.best;
    if Reduces(s, p, metric) then Progress(p.epoch + 1, best, 0, s.cooldown, LoweredAll(s, p.rates))
    else Progress(p.epoch + 1, best, BadAfter(s, p, metric), if p.cooling > 0 then p.cooling - 1 else 0, p.rates)
  }

  // ---- the scheduler ----

  class Optimizer {
    var ids: seq<nat>
    var rates: seq<real>

    constructor (ids: seq<nat>, rates: seq<real>)
      ensures this.ids == ids && this.rates == rates
    {
      this.ids, this.rates := ids, rates;
    }
  }

  predicate Increasing(ids: seq<nat>)
  {
    forall i | 0 <= i < |ids| - 1 :: ids[i] < ids[i + 1]
  }

  predicate NonNegative(rates: seq<real>)
  {
    forall r | r in rates :: r >= 0.0
  }

  class ReduceLrOnPlateau {
    var schemaVersion: nat
    var epoch: nat
    var groupIds: seq<nat>
    var baseRates: seq<real>
    var lastRates: seq<real>
    const settings: Settings
    var coolingRemaining: nat
    var best: Option<real>
    var badEpochs: nat

    /** Starts from the optimizer's groups. */
    constructor (optimizer: Optimizer, settings: Settings)
      requires optimizer.ids != [] && Increasing(optimizer.ids) && |optimizer.rates| == |optimizer.ids|
      requires NonNegative(optimizer.rates) && ValidSettings(settings) && |settings.minRates| == |optimizer.ids|
      ensures Consistent() && Attached(optimizer) && this.settings == settings
      ensures Current(optimizer) == Progress(0, None, 0, 0, optimizer.rates) && baseRates == optimizer.rates
    {
      schemaVersion, epoch := 1, 0;
      groupIds, baseRates, lastRates := optimizer.ids, optimizer.rates, optimizer.rates;
      this.settings := settings;
      coolingRemaining, best, badEpochs := 0, None, 0;
    }

    /** The checks every step makes on the scheduler's own state. */
    predicate Consistent()
      reads this
    {
      && schemaVersion == 1 && epoch <= U64_MAX && groupIds != [] && |groupIds| == |baseRates| == |lastRates|
      && Increasing(groupIds) && NonNegative(baseRates) && NonNegative(lastRates)
      && ValidSettings(settings) && badEpochs <= epoch && coolingRemaining <= settings.cooldown
      && |settings.minRates| == |groupIds|
    }

    /** The optimizer still has the groups the scheduler was made for. */
    predicate Attached(optimizer: Optimizer)
      reads this, optimizer
    {
      optimizer.ids == groupIds && |optimizer.rates| == |groupIds|
    }

    function Current(optimizer: Optimizer): Progress
      reads this, optimizer
    {
      Progress(epoch, best, badEpochs, coolingRemaining, optimizer.rates)
    }

    /** Records a metric; `None` stands for one that is not finite. The optimizer refuses
        negative rates, which a reduction never makes of others; then nothing changes. */
    method Step(optimizer: Optimizer, metric: Option<real>) returns (ok: bool)
      modifies this, optimizer
      ensures ok <==>
        && metric.Some? && old(Consistent()) && old(epoch) < U64_MAX
        && old(Attached(optimizer)) && old(NonNegative(optimizer.rates))
      ensures ok ==> Current(optimizer) == Next(settings, old(Current(optimizer)), metric.value)
      ensures ok ==> optimizer.ids == old(optimizer.ids) && baseRates == old(baseRates) && lastRates == optimizer.rates
      ensures ok ==> Consistent() && Attached(optimizer) && NonNegative(optimizer.rates)
      ensures !ok ==> Current(optimizer) == old(Current(optimizer)) && optimizer.ids == old(optimizer.ids)
      ensures !ok ==> baseRates == old(baseRates) && lastRates == old(lastRates)
      ensures schemaVersion == old(schemaVersion) && groupIds == old(groupIds)
    {
      if !Consistent() || epoch == U64_MAX || !Attached(optimizer) || metric.None? {
        return false;
      }
      var rates := optimizer.rates;
      var improved := best.None? || Improved(settings, best.value, metric.value);
      var newBest := if improved then metric else best;
      var bad := if improved then 0 else badEpochs + 1;
      var cooling := coolingRemaining;
      if cooling > 0 {
        cooling := cooling - 1;
        bad := 0;
      }
      if bad > settings.patience {
        rates := LowerAll(settings, rates);
        cooling := settings.cooldown;
        bad := 0;
      }
      RefusedRateWasNegative(settings, Current(optimizer), metric.value);
      if exists r | r in rates :: r < 0.0 {
        return false;
      }
      optimizer.rates := rates;
      lastRates := rates;
      epoch := epoch + 1;
      best, badEpochs, coolingRemaining := newBest, bad, cooling;
      return true;
    }
  }

  /** A reduction never makes a rate negative, so only a rate that was negative is refused. */
  lemma RefusedRateWasNegative(s: Settings, p: Progress, metric: real)
    requires ValidSettings(s) && |p.rates| == |s.minRates|
    ensures NonNegative(Next(s, p, metric).rates) <==> NonNegative(p.rates)
  {
    if Reduces(s, p, metric) {
      var next := LoweredAll(s, p.rates);
      forall i | 0 <= i < |p.rates|
        ensures next[i] >= 0.0 <==> p.rates[i] >= 0.0
      {
        assert s.minRates[i] in s.minRates;
        LoweredSign(s, p.rates[i], s.minRates[i]);
      }
      assert forall i | 0 <= i < |next| :: next[i] in next && p.rates[i] in p.rates;
    }
  }

  lemma LoweredSign(s: Settings, rate: real, minimum: real)
    requires ValidSettings(s) && minimum >= 0.0
    ensures Lowered(s, rate, minimum) >= 0.0 <==> rate >= 0.0
  {
  }

  method LowerAll(s: Settings, rates: seq<real>) returns (r: seq<real>)
    requires |rates| == |s.minRates|
    ensures r == LoweredAll(s, rates)
  {
    r := rates;
    for i := 0 to |rates|
      invariant |r| == |rates|
      invariant forall k | 0 <= k < i :: r[k] == Lowered(s, rates[k], s.minRates[k])
      invariant forall k | i <= k < |r| :: r[k] == rates[k]
    {
      var next := if r[i] * s.factor >= s.minRates[i] then r[i] * s.factor else s.minRates[i];
      if r[i] - next > s.eps {
        r := r[i := next];
      }
    }
  }

  // ---- whole runs ----

  function Start(rates: seq<real>): Progress
  {
    Progress(0, None, 0, 0, rates)
  }

  /** The progress after the first `n` metrics. */
  function After(s: Settings, rates: seq<real>, metrics: seq<real>, n: nat): (p: Progress)
    requires |rates| == |s.minRates| && n <= |metrics|
    ensures |p.rates| == |rates| && p.epoch == n
  {
    if n == 0 then Start(rates) else Next(s, After(s, rates, metrics, n - 1), metrics[n - 1])
  }

  /** Step `n`, counted from one, reduces the rates. */
  predicate ReducesAt(s: Settings, rates: seq<real>, metrics: seq<real>, n: nat)
    requires |rates| == |s.minRates| && 1 <= n <= |metrics|
  {
    Reduces(s, After(s, rates, metrics, n - 1), metrics[n - 1])
  }

  lemma {:induction false} NoEarlyReduction(s: Settings, rates: seq<real>, metrics: seq<real>, n: nat)
    requires |rates| == |s.minRates| && n <= |metrics| && n <= s.patience + 1
    ensures After(s, rates, metrics, n).bad <= if n == 0 then 0 else n - 1
    ensures n >= 1 ==> !ReducesAt(s, rates, metrics, n)
  {
    if n > 0 {
      NoEarlyReduction(s, rates, metrics, n - 1);
    }
  }

  /** The first reduction comes no earlier than step patience + 2. */
  lemma FirstReduction(s: Settings, rates: seq<real>, metrics: seq<real>, n: nat)
    requires |rates| == |s.minRates| && 1 <= n <= |metrics| && ReducesAt(s, rates, metrics, n)
    ensures n >= s.patience + 2
  {
    if n <= s.patience + 1 {
      NoEarlyReduction(s, rates, metrics, n);
    }
  }

  /** After a reduction at step `i`: first the cooldown, then patience. */
  lemma {:induction false} QuietAfter(s: Settings, rates: seq<real>, metrics: seq<real>, i: nat, t: nat)
    requires |rates| == |s.minRates| && 1 <= i && i + t <= |metrics| && ReducesAt(s, rates, metrics, i)
    requires t <= s.cooldown + s.patience
    ensures After(s, rates, metrics, i + t).cooling == if t <= s.cooldown then s.cooldown - t else 0
    ensures After(s, rates, metrics, i + t).bad <= if t <= s.cooldown then 0 else t - s.cooldown
    ensures t >= 1 ==> !ReducesAt(s, rates, metrics, i + t)
  {
    if t > 0 {
      QuietAfter(s, rates, metrics, i, t - 1);
    }
  }

  /** Two reductions are at least cooldown + patience + 1 steps apart. */
  lemma ReductionSpacing(s: Settings, rates: seq<real>, metrics: seq<real>, i: nat, j: nat)
    requires |rates| == |s.minRates| && 1 <= i < j <= |metrics|
    requires ReducesAt(s, rates, metrics, i) && ReducesAt(s, rates, metrics, j)
    ensures j - i >= s.cooldown + s.patience + 1
  {
    if j - i <= s.cooldown + s.patience {
      QuietAfter(s, rates, metrics, i, j - i);
    }
  }

  lemma LoweredBounds(s: Settings, rate: real, minimum: real, floor: real)
    requires ValidSettings(s) && floor <= rate && floor <= minimum
    ensures floor <= Lowered(s, rate, minimum) <= rate
  {
  }

  /** Rates never rise. */
  lemma RatesNeverRise(s: Settings, rates: seq<real>, metrics: seq<real>, n: nat, k: nat)
    requires ValidSettings(s) && |rates| == |s.minRates| && n < |metrics| && k < |rates|
    ensures After(s, rates, metrics, n + 1).rates[k] <= After(s, rates, metrics, n).rates[k]
  {
    var p := After(s, rates, metrics, n);
    if Reduces(s, p, metrics[n]) {
      var floor := if p.rates[k] <= s.minRates[k] then p.rates[k] else s.minRates[k];
      LoweredBounds(s, p.rates[k], s.minRates[k], floor);
    }
  }

  /** No rate falls below the smaller of its base rate and its minimum. */
  lemma {:induction false} RatesBounded(s: Settings, rates: seq<real>, metrics: seq<real>, n: nat, k: nat)
    requires ValidSettings(s) && |rates| == |s.minRates| && n <= |metrics| && k < |rates|
    ensures After(s, rates, metrics, n).rates[k] >= if rates[k] <= s.minRates[k] then rates[k] else s.minRates[k]
  {
    if n > 0 {
      RatesBounded(s, rates, metrics, n - 1, k);
      var p := After(s, rates, metrics, n - 1);
      if Reduces(s, p, metrics[n - 1]) {
        LoweredBounds(s, p.rates[k], s.minRates[k], if rates[k] <= s.minRates[k] then rates[k] else s.minRates[k]);
      }
    }
  }

  // ---- what counts as an improvement ----

  predicate Better(s: Settings, best: real, metric: real)
  {
    if s.mode.Minimise? then metric < best else metric > best
  }

  /** An improvement is always a better metric, except with a relative threshold
      on a negative best value: there a worse metric can count. */
  lemma ImprovementIsBetterIff(s: Settings, best: real)
    requires ValidSettings(s)
    ensures (forall metric :: Improved(s, best, metric) ==> Better(s, best, metric)) <==>
      s.thresholdMode.Absolute? || best >= 0.0 || s.threshold == 0.0
  {
    if s.thresholdMode.Relative? {
      if best >= 0.0 || s.threshold == 0.0 {
        assert best * s.threshold >= 0.0;
        assert best * (1.0 - s.threshold) == best - best * s.threshold;
        assert best * (1.0 + s.threshold) == best + best * s.threshold;
      } else {
        assert best * s.threshold < 0.0;
        assert best * (1.0 - s.threshold) == best - best * s.threshold;
        assert best * (1.0 + s.threshold) == best + best * s.threshold;
        assert Improved(s, best, best) && !Better(s, best, best);
      }
    }
  }

  /** A concrete case: against a best loss of -1, a loss of -0.6 counts as progress. */
  lemma WorseMetricCounts() returns (s: Settings)
    ensures ValidSettings(s) && Improved(s, -1.0, -0.6) && !Better(s, -1.0, -0.6)
  {
    s := Settings(Minimise, 0.1, 10, 0.5, Relative, 0, [], 0.0);
  }
}
