/** The adapter's streams: a budget per request, and the calibration learned from usage reports.

The catalog's decision, the resolved limits and what the gateway streams back are inputs. */
module Adapter {
  import opened Common
  import opened RequestEstimate
  import opened Budget
  import opened ModelLimits

  /** Chunks of an answer as far as calibration looks at them. */
  datatype Chunk =
    | UsageChunk(input: int, cacheRead: int, cacheWrite: int)
    | FinishChunk(isError: bool)
    | OtherChunk

  /** One call of `stream`: who is asked for what, and the payload the gateway library builds.
  `replayable` is false when resolving images or converting the conversation throws; `decorate` is
  the identity where no decorator is configured. */
  datatype Turn = Turn(
    model: string, allowed: bool, replayable: bool, contextWindow: int, maxTokens: int, requested: Raw, request: Request,
    payload: Record, decorate: Record -> Record)

  /** What a stream keeps while it waits for chunks. */
  datatype Frame = Frame(model: string, rawInputTokens: int)

  /** How a stream begins: it throws, reports that nothing fits, or sends a request. */
  datatype Reply =
    | NotAllowed
    | Unreplayable
    | TooLarge(effective: int)
    | Sent(frame: Frame, budget: int, effective: int, payload: Record)

  type Calibration = map<string, real>

  function Factors(c: Calibration, model: string): Raw {
    if model in c then Num(c[model]) else Missing
  }

  function BudgetFor(c: Calibration, t: Turn): WireBudget {
    ResolveWireBudget(t.requested, Num(t.maxTokens as real), Num(t.contextWindow as real),
                      Num(Estimate(t.request) as real), Factors(c, t.model))
  }

  function Accounted(chunk: Chunk): int {
    if chunk.UsageChunk? then chunk.input + chunk.cacheRead + chunk.cacheWrite else 0
  }

  /** The last positive prompt size reported, or zero. */
  function Reported(chunks: seq<Chunk>): int {
    if chunks == [] then 0
    else if Accounted(chunks[|chunks| - 1]) > 0 then Accounted(chunks[|chunks| - 1])
    else Reported(chunks[..|chunks| - 1])
  }

  predicate Counts(chunk: Chunk) {
    chunk.UsageChunk? && chunk.input + chunk.cacheRead + chunk.cacheWrite > 0
  }

  /** The reported prompt size counts cached input: it is input + cacheRead + cacheWrite of the last
  chunk where that is positive, and zero if there is none. */
  lemma {:induction false} ReportedIs(chunks: seq<Chunk>)
    ensures if forall i | 0 <= i < |chunks| :: !Counts(chunks[i]) then Reported(chunks) == 0
            else exists i | 0 <= i < |chunks| ::
                   && Counts(chunks[i])
                   && Reported(chunks) == chunks[i].input + chunks[i].cacheRead + chunks[i].cacheWrite
                   && forall j | i < j < |chunks| :: !Counts(chunks[j])
  {
    if chunks != [] {
      var front, last := chunks[..|chunks| - 1], chunks[|chunks| - 1];
      ReportedIs(front);
      assert chunks == front + [last];
      if !Counts(last) {
        assert forall i | 0 <= i < |front| :: chunks[i] == front[i];
      }
    }
  }

  predicate HasError(chunks: seq<Chunk>) {
    exists i | 0 <= i < |chunks| :: chunks[i] == FinishChunk(true)
  }

  function Opening(c: Calibration, t: Turn): Reply {
    if !t.allowed then NotAllowed
    else if !t.replayable then Unreplayable
    else match BudgetFor(c, t)
      case Overflow(effective) => TooLarge(effective)
      case Send(maxTokens, effective) =>
        Sent(Frame(t.model, Estimate(t.request)), maxTokens, effective, t.decorate(Clamped(t.payload, maxTokens)))
  }

  /** Do these chunks, read to the end or not, make a sample for the stream? */
  predicate Samples(frame: Frame, chunks: seq<Chunk>, drained: bool) {
    drained && !HasError(chunks) && Reported(chunks) > 0 && frame.rawInputTokens > 0
  }

  function Ratio(frame: Frame, chunks: seq<Chunk>): real
    requires frame.rawInputTokens > 0
  {
    Reported(chunks) as real / frame.rawInputTokens as real
  }

  function Closing(c: Calibration, frame: Frame, chunks: seq<Chunk>, drained: bool): Calibration {
    if Samples(frame, chunks, drained)
    then c[frame.model := BlendCalibration(Factors(c, frame.model), Num(Ratio(frame, chunks))).value]
    else c
  }

  /** The adapter. A stream is a generator: `Begin` runs it up to its request and `End` from the
  first chunk on, with other streams running in between; its locals are the `Frame`. */
  class KiloAdapter {
    var calibration: Calibration

    constructor ()
      ensures calibration == map[]
    {
      calibration := map[];
    }

    method Begin(t: Turn) returns (r: Reply)
      ensures r == Opening(calibration, t)
    {
      hide Estimate, ResolveWireBudget, Clamped;
      if !t.allowed {
        return NotAllowed;
      }
      if !t.replayable {
        return Unreplayable;
      }
      var rawInputTokens := EstimateRequestTokens(t.request);
      var budget := ResolveWireBudget(t.requested, Num(t.maxTokens as real), Num(t.contextWindow as real),
                                      Num(rawInputTokens as real), Factors(calibration, t.model));
      if budget.Overflow? {
        return TooLarge(budget.effective);
      }
      var clamped := ClampPayload(t.payload, budget.maxTokens);
      r := Sent(Frame(t.model, rawInputTokens), budget.maxTokens, budget.effective, t.decorate(clamped));
    }

    /** `drained` is false when the chunks end in an exception or the consumer stops early. The
    sample is blended into the factor of this moment, not the one the stream began with. */
    method End(frame: Frame, chunks: seq<Chunk>, drained: bool)
      modifies this
      ensures calibration == Closing(old(calibration), frame, chunks, drained)
    {
      hide Reported, HasError, BlendCalibration;
      var reported, failed := Watch(chunks);
      if !drained {
        return;
      }
      if !failed && reported > 0 && frame.rawInputTokens > 0 {
        var ratio := reported as real / frame.rawInputTokens as real;
        BlendIsNumber(Factors(calibration, frame.model), ratio);
        var blended := BlendCalibration(Factors(calibration, frame.model), Num(ratio));
        calibration := calibration[frame.model := blended.value];
      }
    }

    /** The loop that forwards chunks while looking for usage and errors. */
    method Watch(chunks: seq<Chunk>) returns (reported: int, failed: bool)
      ensures reported == Reported(chunks) && failed == HasError(chunks)
    {
      reported, failed := 0, false;
      for i := 0 to |chunks|
        invariant reported == Reported(chunks[..i]) && failed == HasError(chunks[..i])
      {
        var before, after := chunks[..i], chunks[..i + 1];
        assert after[..i] == before && forall j | 0 <= j < i :: after[j] == before[j];
        if chunks[i].UsageChunk? {
          var accounted := chunks[i].input + chunks[i].cacheRead + chunks[i].cacheWrite;
          if accounted > 0 {
            reported := accounted;
          }
        }
        if chunks[i].FinishChunk? && chunks[i].isError {
          failed := true;
          assert after[i] == FinishChunk(true);
        }
      }
      assert chunks[..|chunks|] == chunks;
    }
  }

  lemma BlendIsNumber(previous: Raw, observed: real)
    requires previous.Missing? || previous.Num?
    ensures BlendCalibration(previous, Num(observed)).Num?
  {
  }

  // ---- Whole runs, streams overlapping -----------------------------------------------------

  /** A stream begins, or the n-th stream begun has its chunks read. */
  datatype Event = Begun(turn: Turn) | Ended(n: nat, chunks: seq<Chunk>, drained: bool)

  datatype State = State(calibration: Calibration, live: map<nat, Frame>, begun: nat)

  const INITIAL := State(map[], map[], 0)

  function Step(s: State, e: Event): State {
    match e
    case Begun(t) =>
      var r := Opening(s.calibration, t);
      State(s.calibration, if r.Sent? then s.live[s.begun := r.frame] else s.live, s.begun + 1)
    case Ended(n, chunks, drained) =>
      if n in s.live then State(Closing(s.calibration, s.live[n], chunks, drained), s.live - {n}, s.begun) else s
  }

  function After(events: seq<Event>): State {
    if events == [] then INITIAL else Step(After(events[..|events| - 1]), events[|events| - 1])
  }

  // ---- The same, read off the events -------------------------------------------------------

  function Begins(events: seq<Event>): nat {
    if events == [] then 0
    else Begins(events[..|events| - 1]) + (if events[|events| - 1].Begun? then 1 else 0)
  }

  /** Where the n-th stream began. */
  function Start(events: seq<Event>, n: nat): (at: Option<nat>)
    ensures at.Some? ==> at.value < |events| && events[at.value].Begun? && n < Begins(events)
  {
    if events == [] then None
    else
      var front, last := events[..|events| - 1], events[|events| - 1];
      if last.Begun? && Begins(front) == n then Some(|front|) else Start(front, n)
  }

  /** The stream that began at `j` sent a request: it was allowed, convertible, and its prompt,
  scaled by the factor of that moment, left room for an answer. */
  predicate SentAt(events: seq<Event>, j: nat)
    requires j < |events| && events[j].Begun?
  {
    var t := events[j].turn;
    t.allowed && t.replayable && BudgetFor(After(events[..j]).calibration, t).Send?
  }

  predicate Unread(events: seq<Event>, j: nat, n: nat) {
    forall k | j < k < |events| :: !(events[k].Ended? && events[k].n == n)
  }

  function FrameAt(events: seq<Event>, j: nat): Frame
    requires j < |events| && events[j].Begun?
  {
    Frame(events[j].turn.model, Estimate(events[j].turn.request))
  }

  /** The n-th stream is waiting for chunks: it sent a request and has not been read since. */
  predicate Waiting(events: seq<Event>, n: nat) {
    Start(events, n).Some? && SentAt(events, Start(events, n).value) && Unread(events, Start(events, n).value, n)
  }

  lemma WaitingSnoc(events: seq<Event>, e: Event, n: nat)
    ensures Start(events + [e], n) == if e.Begun? && Begins(events) == n then Some(|events|) else Start(events, n)
    ensures Begins(events + [e]) == Begins(events) + (if e.Begun? then 1 else 0)
    ensures Waiting(events + [e], n)
       <==> if e.Begun? && Begins(events) == n then Opening(After(events).calibration, e.turn).Sent?
            else Waiting(events, n) && !(e.Ended? && e.n == n)
  {
    hide After, Estimate, BudgetFor;
    var all := events + [e];
    assert all[..|events|] == events && all[|events|] == e;
    assert forall k | 0 <= k < |events| :: all[k] == events[k];
    if Start(events, n).Some? {
      assert all[..Start(events, n).value] == events[..Start(events, n).value];
    }
  }

  lemma AfterSnoc(events: seq<Event>, e: Event)
    ensures After(events + [e]) == Step(After(events), e)
  {
    assert (events + [e])[..|events|] == events;
  }

  /** The streams waiting after a run are those its events say, with what their requests said. */
  lemma {:induction false} LiveIffWaiting(events: seq<Event>, n: nat)
    ensures After(events).begun == Begins(events)
    ensures n in After(events).live <==> Waiting(events, n)
    ensures Waiting(events, n) ==> After(events).live[n] == FrameAt(events, Start(events, n).value)
  {
    hide After, Begins, Start, Waiting, BudgetFor, Estimate, Closing, Clamped;
    if events == [] {
      NothingBegun(n);
    } else {
      var front, last := events[..|events| - 1], events[|events| - 1];
      assert events == front + [last];
      LiveIffWaiting(front, n);
      AfterSnoc(front, last);
      WaitingSnoc(front, last, n);
      StartedBefore(front, n);
    }
  }

  lemma NothingBegun(n: nat)
    ensures After([]) == INITIAL && Begins([]) == 0 && !Waiting([], n)
  {
  }

  lemma StartedBefore(events: seq<Event>, n: nat)
    ensures Waiting(events, n) ==> Start(events, n).Some? && n < Begins(events)
  {
  }

  /** Event `i` is a lesson: it reads to the end, without an error and with a usage report, the
  chunks of a stream that was waiting for them, and the request had an estimate. */
  predicate Lesson(events: seq<Event>, i: nat)
    requires i < |events|
  {
    && events[i].Ended? && Waiting(events[..i], events[i].n)
    && Samples(FrameAt(events[..i], Start(events[..i], events[i].n).value), events[i].chunks, events[i].drained)
  }

  /** The request a lesson is about. */
  function Taught(events: seq<Event>, i: nat): Frame
    requires i < |events| && Lesson(events, i)
  {
    FrameAt(events[..i], Start(events[..i], events[i].n).value)
  }

  /** The ratios observed for one model, in order. */
  function Observations(events: seq<Event>, model: string): seq<real> {
    if events == [] then []
    else
      var before, i := Observations(events[..|events| - 1], model), |events| - 1;
      if Lesson(events, i) && Taught(events, i).model == model then before + [Ratio(Taught(events, i), events[i].chunks)]
      else before
  }

  /** An event of a run changes the factors exactly by the lesson it is, if it is one. Streams that
  are not allowed, not convertible or too large, that break off, fail or report nothing teach
  nothing, whatever else runs meanwhile. */
  lemma LearnsOnlyFromSuccess(events: seq<Event>, i: nat, model: string)
    requires i < |events|
    ensures var before, after := After(events[..i]).calibration, After(events[..i + 1]).calibration;
            && (!Lesson(events, i) ==> after == before)
            && (Lesson(events, i) ==> events[i].Ended? && events[i].drained && FinishChunk(true) !in events[i].chunks)
            && Factors(after, model) == if Lesson(events, i) && Taught(events, i).model == model
                                        then BlendCalibration(Factors(before, model),
                                                              Num(Ratio(Taught(events, i), events[i].chunks)))
                                        else Factors(before, model)
  {
    hide After, BlendCalibration, Opening, Estimate, Waiting, Reported;
    var front, e := events[..i], events[i];
    assert events[..i + 1] == front + [e];
    AfterSnoc(front, e);
    if e.Ended? {
      LiveIffWaiting(front, e.n);
      if Lesson(events, i) {
        BlendIsNumber(Factors(After(front).calibration, Taught(events, i).model), Ratio(Taught(events, i), e.chunks));
      }
    }
  }

  lemma RatioPositive(events: seq<Event>, i: nat)
    requires i < |events| && Lesson(events, i)
    ensures Ratio(Taught(events, i), events[i].chunks) > 0.0
  {
    hide Estimate, Waiting, Start;
  }

  lemma BlendNext(start: Raw, seen: seq<real>, o: real)
    ensures Blended(start, seen + [o]) == BlendCalibration(Blended(start, seen), Num(o))
  {
    assert (seen + [o])[..|seen|] == seen;
  }

  /** After any run each model's factor is the blend of that model's own observations, and there is
  one exactly when there are observations. So a stream's budget uses what had been read to the end
  before it began, and its own sample goes on top of what was learned while it ran. */
  lemma {:induction false} FactorIsBlend(events: seq<Event>, model: string)
    ensures var seen := Observations(events, model);
            && Factors(After(events).calibration, model) == Blended(Missing, seen)
            && (model in After(events).calibration <==> seen != [])
            && forall o | o in seen :: o > 0.0
  {
    hide Lesson, Taught, BlendCalibration, After, Ratio, Blended, Estimate;
    if events == [] {
      NoObservations();
    } else {
      var i := |events| - 1;
      var front := events[..i];
      FactorIsBlend(front, model);
      LearnsOnlyFromSuccess(events, i, model);
      assert events[..i + 1] == events;
      if Lesson(events, i) {
        LessonHasEstimate(events, i);
        RatioPositive(events, i);
        var o := Ratio(Taught(events, i), events[i].chunks);
        BlendNext(Missing, Observations(front, model), o);
        BlendIsNumber(Factors(After(front).calibration, model), o);
      }
    }
  }

  lemma LessonHasEstimate(events: seq<Event>, i: nat)
    requires i < |events| && Lesson(events, i)
    ensures events[i].Ended? && Taught(events, i).rawInputTokens > 0
  {
  }

  lemma NoObservations()
    ensures Blended(Missing, []) == Missing && After([]) == INITIAL
  {
  }

  /** Every factor stays in bounds and between the least and the greatest clamped observation. */
  lemma FactorStaysWithin(events: seq<Event>, model: string, low: real, high: real)
    requires model in After(events).calibration
    requires forall o | o in Observations(events, model) :: low <= Clamp(o) <= high
    ensures var f := After(events).calibration[model]; MIN_CALIBRATION <= f <= MAX_CALIBRATION && low <= f <= high
  {
    hide Observations, After, Blended, Clamp;
    FactorIsBlend(events, model);
    BlendedStaysWithin(Missing, Observations(events, model), low, high);
  }

  /** What the adapter sends fits, whatever it has learned: the estimate of the request times the
  factor stored for its model, the answer budget and the safety margin are within every context limit the directory declares;
  the budget is within the output limits, the gateway's ceiling and a quarter of the window; and
  the payload handed to the decorator names no token limit that reads as more than the budget. */
  lemma SentRequestFits(c: Calibration, t: Turn, records: seq<Record>, gateway: Gateway)
    requires Resolves(records, gateway, t.contextWindow, t.maxTokens) && Opening(c, t).Sent?
    ensures var r := Opening(c, t);
            && (t.model !in c ==> r.effective == Estimate(t.request))
            && (t.model in c && 0.5 <= c[t.model] <= 4.0 ==>
                  && Estimate(t.request) as real * c[t.model] <= r.effective as real
                  && r.effective as real < Estimate(t.request) as real * c[t.model] + 1.0)
            && (forall u | Declares(records, CONTEXT_KEYS, u) ::
                  r.effective + r.budget + WireSafety(t.contextWindow) <= u)
            && (forall u | Declares(records, OUTPUT_KEYS, u) :: r.budget <= u)
            && r.budget <= GatewayMax(gateway)
            && r.budget <= Max(1, (t.contextWindow as real / 4.0).Floor)
            && r.payload == t.decorate(Clamped(t.payload, r.budget))
            && forall field | field in ["max_tokens", "max_completion_tokens"] ::
                 Or(Limit(ModelLimits.Field(Clamped(t.payload, r.budget), field)), r.budget) <= r.budget
  {
    hide Estimate, Resolves, Declares, Limit, GatewayMax, WireSafety, Clamped;
    var requested, limit, window := t.requested, Num(t.maxTokens as real), Num(t.contextWindow as real);
    var estimate, factor := Num(Estimate(t.request) as real), Factors(c, t.model);
    PromptAndAnswerFit(records, gateway, t.contextWindow, t.maxTokens, requested, estimate, factor);
    EstimateIsPositive(t.request);
    SentIsScaled(requested, limit, window, Estimate(t.request), c, t.model);
    forall field | field in WIRE_FIELDS
      ensures var budget := Opening(c, t).budget;
              Or(Limit(ModelLimits.Field(Clamped(t.payload, budget), field)), budget) <= budget
    {
      ClampReads(t.payload, field, Opening(c, t).budget);
    }
  }

  lemma SentIsScaled(requested: Raw, limit: Raw, window: Raw, estimate: nat, c: Calibration, model: string)
    ensures var b := ResolveWireBudget(requested, limit, window, Num(estimate as real), Factors(c, model));
            && (model !in c ==> b.effective == estimate)
            && (model in c && 0.5 <= c[model] <= 4.0 ==>
                  estimate as real * c[model] <= b.effective as real < estimate as real * c[model] + 1.0)
  {
    hide ResolveWireBudget;
    var e := estimate as real;
    OddInputsActAs(requested, limit, window, Num(e), Factors(c, model));
    if model in c && 0.5 <= c[model] <= 4.0 {
      CalibrationScales(requested, limit, window, e, c[model]);
    } else if model !in c {
      CalibrationScales(requested, limit, window, e, 1.0);
      assert e * 1.0 == e;
      assert e == 0.0 ==> Num(e) == Num(0.0);
    }
  }

  /** The request a run of streams sends next is scaled by what the run has taught, which is within
  the bounds, so nothing is left of the case distinction. */
  lemma SentUsesWhatWasLearned(events: seq<Event>, t: Turn)
    requires Opening(After(events).calibration, t).Sent? && t.model in After(events).calibration
    ensures var r, f := Opening(After(events).calibration, t), After(events).calibration[t.model];
            Estimate(t.request) as real * f <= r.effective as real < Estimate(t.request) as real * f + 1.0
  {
    hide After, Estimate, Observations, Clamped, ResolveWireBudget;
    var c := After(events).calibration;
    EveryFactorInBounds(events, t.model);
    EstimateIsPositive(t.request);
    SentIsScaled(t.requested, Num(t.maxTokens as real), Num(t.contextWindow as real), Estimate(t.request), c, t.model);
  }

  lemma EveryFactorInBounds(events: seq<Event>, model: string)
    requires model in After(events).calibration
    ensures 0.5 <= After(events).calibration[model] <= 4.0
  {
    hide After, Observations;
    forall o | o in Observations(events, model) ensures 0.5 <= Clamp(o) <= 4.0 {
    }
    FactorStaysWithin(events, model, 0.5, 4.0);
  }

  /** The first lesson about a model is stored as it is: prompt tokens reported over tokens
  estimated, if that is within the bounds. */
  lemma FirstLessonIsTheRatio(t: Turn, chunks: seq<Chunk>, ratio: real)
    requires t.allowed && t.replayable && BudgetFor(map[], t).Send?
    requires FinishChunk(true) !in chunks && Reported(chunks) > 0
    requires 0.5 <= ratio <= 4.0 && ratio * Estimate(t.request) as real == Reported(chunks) as real
    ensures After([Begun(t), Ended(0, chunks, true)]).calibration == map[t.model := ratio]
  {
    hide Estimate, Reported, BudgetFor, Clamped;
    assert !HasError(chunks);
    EstimateIsPositive(t.request);
    var begun := [Begun(t)];
    assert Ratio(FrameAt([Begun(t)], 0), chunks) == ratio;
    AfterSnoc([], Begun(t));
    assert [] + begun == begun;
    AfterSnoc(begun, Ended(0, chunks, true));
    assert begun + [Ended(0, chunks, true)] == [Begun(t), Ended(0, chunks, true)];
    NoObservations();
  }

  lemma ClampReads(payload: Record, field: string, cap: int)
    requires field in WIRE_FIELDS
    ensures Or(Limit(ModelLimits.Field(Clamped(payload, cap), field)), cap) <= cap
  {
  }
}
