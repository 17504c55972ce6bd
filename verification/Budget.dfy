/** The output budget of one request: prompt, answer and safety margin inside one window.

Numbers are exact reals. A value from the outside is `Missing`, `NotFinite` (NaN or an infinity)
or a finite number; strings have already been read as numbers. */
module Budget {
  import opened Common
  import opened RequestEstimate

  datatype Raw = Missing | NotFinite | Num(value: real)

  datatype WireBudget = Overflow(effective: int) | Send(maxTokens: int, effective: int)

  const MAX_OUTPUT_WINDOW_SHARE := 0.25
  const WIRE_SAFETY_SHARE := 0.02
  const MIN_WIRE_SAFETY_TOKENS := 1024
  const MIN_ANSWER_TOKENS := 2048
  const MIN_CALIBRATION := 0.5
  const MAX_CALIBRATION := 4.0
  const CALIBRATION_ALPHA := 0.3

  function Clamp(x: real): real {
    if x < MIN_CALIBRATION then MIN_CALIBRATION else if x > MAX_CALIBRATION then MAX_CALIBRATION else x
  }

  function OutputCeiling(window: Raw): int {
    if !window.Num? || window.value <= 0.0 then 1
    else Max(1, (window.value * MAX_OUTPUT_WINDOW_SHARE).Floor)
  }

  function WireSafety(window: int): int {
    if window <= 0 then MIN_WIRE_SAFETY_TOKENS
    else Max(MIN_WIRE_SAFETY_TOKENS, Ceil(window as real * WIRE_SAFETY_SHARE))
  }

  /** Floor of a finite positive number; a fraction below one becomes zero. */
  function PositiveInteger(v: Raw): Option<int> {
    if v.Num? && v.value > 0.0 then Some(v.value.Floor) else None
  }

  function Or(m: Option<int>, fallback: int): int {
    if m.Some? then m.value else fallback
  }

  function Window(contextWindow: Raw): int {
    Or(PositiveInteger(contextWindow), 1)
  }

  function Cap(modelMaxTokens: Raw, contextWindow: Raw): int {
    Max(1, Min(Or(PositiveInteger(modelMaxTokens), 1), Window(contextWindow)))
  }

  function Factor(calibration: Raw): real {
    if calibration.Num? then Clamp(calibration.value) else 1.0
  }

  function RawEstimate(estimate: Raw): (r: real)
    ensures r >= 0.0
  {
    if estimate.Num? && estimate.value > 0.0 then estimate.value else 0.0
  }

  function Scaled(estimate: real, factor: real): int {
    Ceil(estimate * factor)
  }

  function Effective(estimate: Raw, calibration: Raw): int {
    Scaled(RawEstimate(estimate), Factor(calibration))
  }

  function ResolveWireBudget(requested: Raw, modelMaxTokens: Raw, contextWindow: Raw, estimate: Raw, calibration: Raw)
    : WireBudget
  {
    var window := Window(contextWindow);
    var cap := Cap(modelMaxTokens, contextWindow);
    var ceiling := Min(Or(PositiveInteger(requested), cap), cap);
    var effective := Effective(estimate, calibration);
    var room := window - effective - WireSafety(window);
    if room < MIN_ANSWER_TOKENS then Overflow(effective) else Send(Min(ceiling, room), effective)
  }

  // ---- One request -------------------------------------------------------------------------

  lemma CeilBounds(r: real)
    ensures r <= Ceil(r) as real < r + 1.0
  {
  }

  /** The calibrated prompt size, in numbers: the estimate times the calibration, rounded up. */
  lemma CalibrationScales(requested: Raw, modelMaxTokens: Raw, contextWindow: Raw, e: real, c: real)
    requires e >= 0.0 && 0.5 <= c <= 4.0
    ensures var b := ResolveWireBudget(requested, modelMaxTokens, contextWindow, Num(e), Num(c));
            e * c <= b.effective as real < e * c + 1.0
  {
    hide Scaled, ResolveWireBudget;
    EffectiveOf(requested, modelMaxTokens, contextWindow, Num(e), Num(c));
    ScaledCovers(e, c);
  }

  lemma ScaledCovers(e: real, f: real)
    ensures e * f <= Scaled(e, f) as real < e * f + 1.0
  {
    CeilBounds(e * f);
  }

  lemma EffectiveOf(requested: Raw, modelMaxTokens: Raw, contextWindow: Raw, estimate: Raw, calibration: Raw)
    ensures ResolveWireBudget(requested, modelMaxTokens, contextWindow, estimate, calibration).effective
         == Effective(estimate, calibration)
  {
    hide Effective, Window, Cap, WireSafety;
  }

  /** A calibration outside the bounds acts as the nearer bound, and none at all or one that is not
  a number as one; an estimate that is negative or not a number acts as zero. */
  lemma OddInputsActAs(requested: Raw, modelMaxTokens: Raw, contextWindow: Raw, estimate: Raw, calibration: Raw)
    ensures var e := if estimate.Num? && estimate.value > 0.0 then estimate.value else 0.0;
            var c := if !calibration.Num? then 1.0
                     else if calibration.value < 0.5 then 0.5
                     else if calibration.value > 4.0 then 4.0 else calibration.value;
            && 0.5 <= c <= 4.0
            && ResolveWireBudget(requested, modelMaxTokens, contextWindow, estimate, calibration)
               == ResolveWireBudget(requested, modelMaxTokens, contextWindow, Num(e), Num(c))
  {
    hide Scaled;
    var e := if estimate.Num? && estimate.value > 0.0 then estimate.value else 0.0;
    var c := if !calibration.Num? then 1.0
             else if calibration.value < 0.5 then 0.5
             else if calibration.value > 4.0 then 4.0 else calibration.value;
    assert RawEstimate(estimate) == RawEstimate(Num(e)) && Factor(calibration) == Factor(Num(c));
    hide Factor, RawEstimate, ResolveWireBudget;
    SameEffective(requested, modelMaxTokens, contextWindow, estimate, calibration, Num(e), Num(c));
  }

  lemma SameEffective(requested: Raw, modelMaxTokens: Raw, contextWindow: Raw,
                      estimate: Raw, calibration: Raw, other: Raw, factor: Raw)
    requires Effective(estimate, calibration) == Effective(other, factor)
    ensures ResolveWireBudget(requested, modelMaxTokens, contextWindow, estimate, calibration)
         == ResolveWireBudget(requested, modelMaxTokens, contextWindow, other, factor)
  {
    hide Effective, Window, Cap, WireSafety;
  }

  /** A larger calibration never gets a larger budget, and never gets past a refusal. */
  lemma CalibrationIsAntitone(requested: Raw, modelMaxTokens: Raw, contextWindow: Raw, e: real, low: real, high: real)
    requires e >= 0.0 && 0.5 <= low <= high <= 4.0
    ensures var b := ResolveWireBudget(requested, modelMaxTokens, contextWindow, Num(e), Num(low));
            var c := ResolveWireBudget(requested, modelMaxTokens, contextWindow, Num(e), Num(high));
            && b.effective <= c.effective
            && (b.Overflow? ==> c.Overflow?)
            && (b.Send? && c.Send? ==> c.maxTokens <= b.maxTokens)
  {
    hide Window, Cap, WireSafety, Or, Scaled;
    ScaledGrowsWithFactor(e, low, high);
    assert Effective(Num(e), Num(low)) == Scaled(e, low);
    assert Effective(Num(e), Num(high)) == Scaled(e, high);
    hide Effective;
  }

  lemma ScaledGrowsWithFactor(e: real, low: real, high: real)
    requires e >= 0.0 && low <= high
    ensures Scaled(e, low) <= Scaled(e, high)
  {
    hide Ceil;
    ProductGrows(low, high, e);
    CeilGrows(e * low, e * high);
  }

  /** What calibration is for: the same request is sent before the route has reported twice its
  estimate, and refused after. */
  lemma CalibrationExample()
    ensures ResolveWireBudget(Num(8192.0), Num(32768.0), Num(131072.0), Num(100000.0), Missing) == Send(8192, 100000)
    ensures ResolveWireBudget(Num(8192.0), Num(32768.0), Num(131072.0), Num(100000.0), Num(2.0)) == Overflow(200000)
  {
    assert WireSafety(131072) == 2622;
    assert Scaled(100000.0, 1.0) == 100000 && Scaled(100000.0, 2.0) == 200000;
    hide Scaled, WireSafety;
    assert Effective(Num(100000.0), Missing) == 100000;
    assert Effective(Num(100000.0), Num(2.0)) == 200000;
  }

  /** The safety margin of a whole window: two per cent rounded up, and at least 1024. */
  lemma SafetyInNumbers(window: int)
    ensures WireSafety(window) == if window <= 0 then 1024 else Max(1024, (window + 49) / 50)
  {
    if window > 0 {
      var q := (window + 49) / 50;
      assert window as real * WIRE_SAFETY_SHARE == window as real / 50.0;
      assert (q - 1) as real < window as real / 50.0 <= q as real;
      CeilIs(window as real * WIRE_SAFETY_SHARE, q);
    }
  }

  lemma CeilIs(r: real, q: int)
    requires (q - 1) as real < r <= q as real
    ensures Ceil(r) == q
  {
  }

  /** The output ceiling of a whole window: a quarter of it, and at least one. */
  lemma CeilingInNumbers(window: int)
    ensures OutputCeiling(Num(window as real)) == if window <= 0 then 1 else Max(1, window / 4)
  {
    if window > 0 {
      assert window as real * MAX_OUTPUT_WINDOW_SHARE == window as real / 4.0;
      assert (window / 4) as real <= window as real / 4.0 < (window / 4 + 1) as real;
    }
  }

  /** The whole decision in integers: with `left` tokens beside the prompt and the margin, fewer than
  2048 are a refusal; otherwise the smallest of request, limit, window and `left` is sent. */
  lemma BudgetInNumbers(requested: Option<int>, limit: int, window: int, estimate: nat)
    requires limit >= 1 && window >= 1 && (requested.Some? ==> requested.value >= 1)
    ensures var b := ResolveWireBudget(if requested.Some? then Num(requested.value as real) else Missing,
                                       Num(limit as real), Num(window as real), Num(estimate as real), Missing);
            var left := window - estimate - Max(1024, (window + 49) / 50);
            && b.effective == estimate
            && (left < 2048 ==> b.Overflow?)
            && (left >= 2048 ==>
                  && b.Send?
                  && b.maxTokens == Min(Min(limit, window), Min(left, if requested.Some? then requested.value else limit)))
  {
    SafetyInNumbers(window);
    assert Scaled(estimate as real, 1.0) == estimate by {
      CeilIs(estimate as real * 1.0, estimate);
    }
    hide Scaled, WireSafety;
    assert Effective(Num(estimate as real), Missing) == estimate;
    hide Effective;
  }

  /** Prompt, answer and margin fit the declared window; the budget is the largest that does and
  keeps within the request and the cap; and a refusal means less than a useful answer was left. */
  lemma BudgetFits(requested: Raw, modelMaxTokens: Raw, contextWindow: Raw, estimate: Raw, calibration: Raw)
    ensures var b := ResolveWireBudget(requested, modelMaxTokens, contextWindow, estimate, calibration);
            var window := Window(contextWindow);
            var left := window - b.effective - WireSafety(window);
            && b.effective == Effective(estimate, calibration)
            && (b.Overflow? <==> left < 2048)
            && (b.Send? ==>
                  && b.maxTokens <= left
                  && b.maxTokens <= Cap(modelMaxTokens, contextWindow)
                  && (requested.Num? && requested.value > 0.0 ==> b.maxTokens as real <= requested.value)
                  && (b.maxTokens == left || b.maxTokens == Cap(modelMaxTokens, contextWindow)
                      || (requested.Num? && b.maxTokens as real > requested.value - 1.0))
                  && contextWindow.Num? && window as real <= contextWindow.value)
  {
    hide Effective;
    EffectivePositive(estimate, calibration);
  }

  lemma EffectivePositive(estimate: Raw, calibration: Raw)
    ensures Effective(estimate, calibration) >= 0
  {
    hide Factor, RawEstimate;
    FactorBounds(calibration);
    ProductGrows(0.0, RawEstimate(estimate), Factor(calibration));
  }

  /** The budget sent is zero for a fractional request below one, and positive for every other. */
  lemma BudgetIsPositiveIff(requested: Raw, modelMaxTokens: Raw, contextWindow: Raw, estimate: Raw, calibration: Raw)
    ensures var b := ResolveWireBudget(requested, modelMaxTokens, contextWindow, estimate, calibration);
            b.Send? ==> b.maxTokens >= 0
                        && (b.maxTokens >= 1 <==> !(requested.Num? && 0.0 < requested.value < 1.0))
  {
    hide Effective, WireSafety;
  }

  /** Such a request is sent with a budget of zero tokens. */
  lemma ZeroBudgetExample()
    ensures ResolveWireBudget(Num(0.5), Num(32768.0), Num(262144.0), Num(1000.0), Missing) == Send(0, 1000)
  {
    assert RawEstimate(Num(1000.0)) * Factor(Missing) == 1000.0;
    assert WireSafety(262144) == 5243;
  }

  /** A larger estimate never gets a larger budget, and never gets past a refusal. */
  lemma BudgetIsAntitone(requested: Raw, modelMaxTokens: Raw, contextWindow: Raw, calibration: Raw, low: real, high: real)
    requires low <= high
    ensures var b := ResolveWireBudget(requested, modelMaxTokens, contextWindow, Num(low), calibration);
            var c := ResolveWireBudget(requested, modelMaxTokens, contextWindow, Num(high), calibration);
            && b.effective <= c.effective
            && (b.Overflow? ==> c.Overflow?)
            && (b.Send? && c.Send? ==> c.maxTokens <= b.maxTokens)
  {
    hide Effective, Window, Cap, WireSafety, Or;
    EffectiveGrows(low, high, calibration);
  }

  lemma EffectiveGrows(low: real, high: real, calibration: Raw)
    requires low <= high
    ensures Effective(Num(low), calibration) <= Effective(Num(high), calibration)
  {
    hide Scaled, Factor, RawEstimate;
    FactorBounds(calibration);
    RawEstimateGrows(low, high);
    ScaledGrows(RawEstimate(Num(low)), RawEstimate(Num(high)), Factor(calibration));
  }

  lemma ScaledGrows(x: real, y: real, f: real)
    requires x <= y && f >= 0.0
    ensures Scaled(x, f) <= Scaled(y, f)
  {
    hide Ceil;
    ProductGrows(x, y, f);
    CeilGrows(x * f, y * f);
  }

  lemma FactorBounds(calibration: Raw)
    ensures MIN_CALIBRATION <= Factor(calibration) <= MAX_CALIBRATION
  {
  }

  lemma RawEstimateGrows(low: real, high: real)
    requires low <= high
    ensures RawEstimate(Num(low)) <= RawEstimate(Num(high))
  {
  }

  lemma ProductGrows(x: real, y: real, f: real)
    requires x <= y && f >= 0.0
    ensures x * f <= y * f
  {
  }

  lemma CeilGrows(x: real, y: real)
    requires x <= y
    ensures Ceil(x) <= Ceil(y)
  {
  }

  /** Once a conversation is refused, every longer state of it is refused at the same calibration,
  and budgets only shrink along the way. */
  lemma OverflowPersists(requested: Raw, modelMaxTokens: Raw, contextWindow: Raw, calibration: Raw, now: Request, later: Request)
    requires Extends(now, later)
    ensures var b := ResolveWireBudget(requested, modelMaxTokens, contextWindow, Num(Estimate(now) as real), calibration);
            var c := ResolveWireBudget(requested, modelMaxTokens, contextWindow, Num(Estimate(later) as real), calibration);
            && (b.Overflow? ==> c.Overflow?)
            && (b.Send? && c.Send? ==> c.maxTokens <= b.maxTokens)
  {
    hide Estimate, ResolveWireBudget;
    EstimateGrows(now, later);
    BudgetIsAntitone(requested, modelMaxTokens, contextWindow, calibration, Estimate(now) as real, Estimate(later) as real);
  }

  // ---- Calibration -------------------------------------------------------------------------

  function BlendCalibration(previous: Raw, observed: Raw): Raw {
    if !observed.Num? || observed.value <= 0.0 then (if previous.Missing? then Num(1.0) else previous)
    else
      var bounded := Clamp(observed.value);
      if !previous.Num? then Num(bounded)
      else Num(Clamp(previous.value + (bounded - previous.value) * CALIBRATION_ALPHA))
  }

  /** A sample in numbers: it moves the factor three tenths of the way to itself, the first one all
  of it, both read within the bounds; one that is not positive or not a number changes nothing. */
  lemma BlendInNumbers(previous: Raw, sample: Raw)
    ensures !(sample.Num? && sample.value > 0.0) ==>
              BlendCalibration(previous, sample) == if previous == Missing then Num(1.0) else previous
    ensures sample.Num? && sample.value > 0.0 ==>
              var x := if sample.value < 0.5 then 0.5 else if sample.value > 4.0 then 4.0 else sample.value;
              && (!previous.Num? ==> BlendCalibration(previous, sample) == Num(x))
              && (previous.Num? && 0.5 <= previous.value <= 4.0 ==>
                    BlendCalibration(previous, sample) == Num(0.7 * previous.value + 0.3 * x))
  {
  }

  predicate InBounds(c: Raw) {
    c.Num? && MIN_CALIBRATION <= c.value <= MAX_CALIBRATION
  }

  /** The factor after a run of observations, from nothing. */
  function Blended(start: Raw, observations: seq<real>): Raw {
    if observations == [] then start
    else BlendCalibration(Blended(start, observations[..|observations| - 1]), Num(observations[|observations| - 1]))
  }

  /** From positive observations the factor stays inside the bounds and inside the observations:
  whatever interval holds their clamped values holds the factor. */
  lemma {:induction false} BlendedStaysWithin(start: Raw, observations: seq<real>, low: real, high: real)
    requires observations != [] && forall o | o in observations :: o > 0.0
    requires forall o | o in observations :: low <= Clamp(o) <= high
    requires start.Missing? || (InBounds(start) && low <= start.value <= high)
    ensures InBounds(Blended(start, observations)) && low <= Blended(start, observations).value <= high
  {
    var front, last := observations[..|observations| - 1], observations[|observations| - 1];
    assert last in observations && forall o | o in front :: o in observations;
    if front != [] {
      BlendedStaysWithin(start, front, low, high);
    }
    assert Blended(start, []) == start;
    var p := Blended(start, front);
    if p.Num? {
      BlendIsAverage(p.value, Clamp(last));
    }
  }

  lemma BlendIsAverage(p: real, b: real)
    requires MIN_CALIBRATION <= p <= MAX_CALIBRATION && MIN_CALIBRATION <= b <= MAX_CALIBRATION
    ensures var x := p + (b - p) * CALIBRATION_ALPHA;
            && Clamp(x) == x
            && (p <= b ==> p <= x <= b) && (b <= p ==> b <= x <= p)
            && x - b == 0.7 * (p - b)
  {
  }

  function Power(base: real, n: nat): real {
    if n == 0 then 1.0 else base * Power(base, n - 1)
  }

  lemma BlendStep(previous: real, observation: real)
    requires MIN_CALIBRATION <= previous <= MAX_CALIBRATION && observation > 0.0
    ensures var c := BlendCalibration(Num(previous), Num(observation));
            InBounds(c) && c.value - Clamp(observation) == 0.7 * (previous - Clamp(observation))
  {
    BlendInNumbers(Num(previous), Num(observation));
  }

  /** Repeating one observation closes the distance to it by exactly 0.7 each time. */
  lemma {:induction false} RepeatedObservation(start: real, observation: real, n: nat)
    requires MIN_CALIBRATION <= start <= MAX_CALIBRATION && observation > 0.0
    ensures var c := Blended(Num(start), seq(n, _ => observation));
            InBounds(c) && c.value - Clamp(observation) == Power(0.7, n) * (start - Clamp(observation))
  {
    hide Clamp, Power, BlendCalibration;
    var all := seq(n, _ => observation);
    PowerStep(0.7, n);
    if n > 0 {
      RepeatedObservation(start, observation, n - 1);
      assert all[..n - 1] == seq(n - 1, _ => observation);
      var c := Blended(Num(start), all[..n - 1]).value;
      BlendStep(c, observation);
      Shrinks(c - Clamp(observation), Power(0.7, n - 1), start - Clamp(observation));
    }
  }

  lemma Shrinks(gap: real, p: real, d: real)
    requires gap == p * d
    ensures 0.7 * gap == (0.7 * p) * d
  {
  }

  lemma PowerStep(base: real, n: nat)
    ensures Power(base, n) == if n == 0 then 1.0 else base * Power(base, n - 1)
  {
  }
}
