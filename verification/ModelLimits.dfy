/** Limits of a model as its directory record declares them, and the last clamp on a payload. */
module ModelLimits {
  import opened Common
  import opened Budget

  const MAX_SAFE_INTEGER := 9007199254740991
  const DEFAULT_CONTEXT_WINDOW := 262144
  const DEFAULT_MAX_TOKENS := 32768
  const GATEWAY_MAX_OUTPUT_TOKENS := 524288

  const CONTEXT_KEYS := ["context_length", "contextWindow", "context_window", "max_context_tokens", "context"]
  const OUTPUT_KEYS := ["max_completion_tokens", "maxTokens", "max_tokens", "max_output_tokens", "output_tokens", "output"]

  type Record = map<string, Raw>

  /** A gateway ceiling switched off, or whatever value was configured. */
  datatype Gateway = Uncapped | Configured(value: Raw)

  function Field(r: Record, key: string): Raw {
    if key in r then r[key] else Missing
  }

  /** Finite positive numbers as integers between 1 and 2^53 - 1. */
  function Limit(v: Raw): Option<int> {
    if v.Num? && v.value > 0.0 then Some(Min(MAX_SAFE_INTEGER, Max(1, v.value.Floor))) else None
  }

  function GatewayMax(g: Gateway): int {
    match g
    case Uncapped => MAX_SAFE_INTEGER
    case Configured(v) => Or(Limit(v), GATEWAY_MAX_OUTPUT_TOKENS)
  }

  /** What counts as a limit: positive finite numbers, floored, at least one and at most 2^53 - 1. */
  lemma LimitInNumbers(v: Raw)
    ensures var l := Limit(v);
            && (l.Some? <==> v.Num? && v.value > 0.0)
            && (l.Some? ==>
                  && 1 <= l.value <= 9007199254740991
                  && (v.value < 1.0 ==> l.value == 1)
                  && (1.0 <= v.value <= 9007199254740991.0 ==> l.value as real <= v.value < l.value as real + 1.0)
                  && (v.value >= 9007199254740991.0 ==> l.value == 9007199254740991))
  {
  }

  /** The gateway's ceiling: none when switched off, the configured number, or 524288. */
  lemma GatewayInNumbers(v: Raw, n: int)
    ensures GatewayMax(Uncapped) == 9007199254740991
    ensures 1 <= n <= 9007199254740991 ==> GatewayMax(Configured(Num(n as real))) == n
    ensures !(v.Num? && v.value > 0.0) ==> GatewayMax(Configured(v)) == 524288
  {
  }

  /** Some record declares the limit `v` under one of the keys. */
  ghost predicate Declares(records: seq<Record>, keys: seq<string>, v: int) {
    exists r, key | r in records && key in keys :: Limit(Field(r, key)) == Some(v)
  }

  /** The smallest declared limit, or the fallback when none is declared. */
  ghost predicate IsSmallest(records: seq<Record>, keys: seq<string>, fallback: int, v: int) {
    if exists u :: Declares(records, keys, u)
    then Declares(records, keys, v) && forall u | Declares(records, keys, u) :: v <= u
    else v == fallback
  }

  /** What modelInfo resolves: the window, and an output limit within everything that bounds it. */
  ghost predicate Resolves(records: seq<Record>, gateway: Gateway, contextWindow: int, maxTokens: int) {
    && IsSmallest(records, CONTEXT_KEYS, DEFAULT_CONTEXT_WINDOW, contextWindow)
    && exists advertised ::
         && IsSmallest(records, OUTPUT_KEYS, DEFAULT_MAX_TOKENS, advertised)
         && maxTokens == Min(Min(advertised, contextWindow),
                             Min(GatewayMax(gateway), OutputCeiling(Num(contextWindow as real))))
  }

  method PositiveLimits(records: seq<Record>, keys: seq<string>) returns (values: seq<int>)
    ensures forall v :: v in values <==> Declares(records, keys, v)
  {
    hide Limit;
    values := [];
    for i := 0 to |records|
      invariant forall v :: v in values <==> Declares(records[..i], keys, v)
    {
      ghost var before := values;
      for j := 0 to |keys|
        invariant forall v :: v in values <==> v in before || Declares([records[i]], keys[..j], v)
      {
        var limit := Limit(Field(records[i], keys[j]));
        if limit.Some? {
          values := values + [limit.value];
        }
        DeclaresNextKey(records[i], keys, j);
      }
      assert keys[..|keys|] == keys;
      DeclaresNextRecord(records, keys, i);
    }
    assert records[..|records|] == records;
  }

  lemma DeclaresNextKey(r: Record, keys: seq<string>, j: nat)
    requires j < |keys|
    ensures forall v :: Declares([r], keys[..j + 1], v)
              <==> Declares([r], keys[..j], v) || Limit(Field(r, keys[j])) == Some(v)
  {
    hide Limit, Field;
    assert keys[..j + 1] == keys[..j] + [keys[j]];
    assert r in [r] && keys[j] in keys[..j + 1];
  }

  lemma DeclaresNextRecord(records: seq<Record>, keys: seq<string>, i: nat)
    requires i < |records|
    ensures forall v :: Declares(records[..i + 1], keys, v)
              <==> Declares(records[..i], keys, v) || Declares([records[i]], keys, v)
  {
    hide Limit, Field;
    assert records[..i + 1] == records[..i] + [records[i]];
  }

  method Smallest(records: seq<Record>, keys: seq<string>, fallback: int) returns (v: int)
    ensures IsSmallest(records, keys, fallback, v)
  {
    hide Declares;
    var values := PositiveLimits(records, keys);
    if |values| == 0 {
      return fallback;
    }
    v := values[0];
    for i := 1 to |values|
      invariant v in values && forall j | 0 <= j < i :: v <= values[j]
    {
      v := Min(v, values[i]);
    }
    assert Declares(records, keys, v);
  }

  method ResolveLimits(records: seq<Record>, gateway: Gateway) returns (contextWindow: int, maxTokens: int)
    ensures Resolves(records, gateway, contextWindow, maxTokens)
  {
    hide IsSmallest, OutputCeiling, GatewayMax;
    contextWindow := Smallest(records, CONTEXT_KEYS, DEFAULT_CONTEXT_WINDOW);
    var advertised := Smallest(records, OUTPUT_KEYS, DEFAULT_MAX_TOKENS);
    maxTokens := Min(Min(advertised, contextWindow),
                     Min(GatewayMax(gateway), OutputCeiling(Num(contextWindow as real))));
  }

  // ---- From directory record to wire -------------------------------------------------------

  lemma ResolvedBounds(records: seq<Record>, gateway: Gateway, contextWindow: int, maxTokens: int)
    requires Resolves(records, gateway, contextWindow, maxTokens)
    ensures 1 <= maxTokens <= contextWindow
    ensures maxTokens <= GatewayMax(gateway) && maxTokens <= Max(1, (contextWindow as real / 4.0).Floor)
    ensures forall u | Declares(records, CONTEXT_KEYS, u) :: contextWindow <= u
    ensures forall u | Declares(records, OUTPUT_KEYS, u) :: maxTokens <= u
  {
    hide Declares;
    DeclaredIsPositive(records, CONTEXT_KEYS);
    DeclaredIsPositive(records, OUTPUT_KEYS);
    assert contextWindow as real * 0.25 == contextWindow as real / 4.0;
  }

  /** One record with a whole window and a whole output limit, under any of the keys: the window is
  kept, and so is the limit as far as a quarter of the window and the gateway's ceiling, which is
  524288 unless configured or switched off, allow; a prompt that leaves room for it gets all of it. */
  lemma DeclaredIsKept(r: Record, windowKey: string, window: int, limitKey: string, limit: int,
                       gateway: Gateway, ceiling: int, contextWindow: int, maxTokens: int, estimate: nat)
    requires windowKey in CONTEXT_KEYS && limitKey in OUTPUT_KEYS
    requires r == map[windowKey := Num(window as real), limitKey := Num(limit as real)]
    requires 4 <= window <= 9007199254740991 && 1 <= limit <= 9007199254740991
    requires match gateway
             case Uncapped => ceiling == 9007199254740991
             case Configured(Num(n)) => 1 <= ceiling <= 9007199254740991 && n == ceiling as real
             case Configured(_) => ceiling == 524288
    requires Resolves([r], gateway, contextWindow, maxTokens)
    ensures contextWindow == window && maxTokens == Min(limit, Min(window / 4, ceiling))
    ensures estimate + Max(maxTokens, 2048) + Max(1024, (window + 49) / 50) <= window ==>
              ResolveWireBudget(Missing, Num(maxTokens as real), Num(contextWindow as real), Num(estimate as real), Missing)
              == Send(maxTokens, estimate)
  {
    BothResolve(r, windowKey, window, limitKey, limit, contextWindow, maxTokens, gateway);
    GatewayInNumbers(if gateway.Configured? then gateway.value else Missing, ceiling);
    CeilingInNumbers(window);
    hide OutputCeiling, ResolveWireBudget, GatewayMax;
    assert maxTokens == Min(Min(limit, window), Min(ceiling, window / 4));
    BudgetInNumbers(None, maxTokens, window, estimate);
  }

  lemma BothResolve(r: Record, windowKey: string, window: int, limitKey: string, limit: int,
                    contextWindow: int, maxTokens: int, gateway: Gateway)
    requires windowKey in CONTEXT_KEYS && limitKey in OUTPUT_KEYS
    requires r == map[windowKey := Num(window as real), limitKey := Num(limit as real)]
    requires 1 <= window <= 9007199254740991 && 1 <= limit <= 9007199254740991
    requires Resolves([r], gateway, contextWindow, maxTokens)
    ensures contextWindow == window
    ensures maxTokens == Min(Min(limit, window), Min(GatewayMax(gateway), OutputCeiling(Num(window as real))))
  {
    KeysDiffer();
    assert Limit(Field(r, windowKey)) == Some(window) && Limit(Field(r, limitKey)) == Some(limit);
    SingleLimit(r, CONTEXT_KEYS, windowKey, window);
    SingleLimit(r, OUTPUT_KEYS, limitKey, limit);
    SmallestIsUnique([r], CONTEXT_KEYS, DEFAULT_CONTEXT_WINDOW);
    SmallestIsUnique([r], OUTPUT_KEYS, DEFAULT_MAX_TOKENS);
    hide IsSmallest, GatewayMax, OutputCeiling;
    assert IsSmallest([r], CONTEXT_KEYS, DEFAULT_CONTEXT_WINDOW, window);
    assert IsSmallest([r], OUTPUT_KEYS, DEFAULT_MAX_TOKENS, limit);
  }

  lemma KeysDiffer()
    ensures forall key | key in CONTEXT_KEYS :: key !in OUTPUT_KEYS
  {
  }

  lemma SmallestIsUnique(records: seq<Record>, keys: seq<string>, fallback: int)
    ensures forall u, v | IsSmallest(records, keys, fallback, u) && IsSmallest(records, keys, fallback, v) :: u == v
  {
    hide Declares;
  }

  lemma DeclaredIsPositive(records: seq<Record>, keys: seq<string>)
    ensures forall v | Declares(records, keys, v) :: v >= 1
  {
  }

  /** The number `raw` is declared under one of the keys. */
  ghost predicate DeclaresRaw(records: seq<Record>, keys: seq<string>, raw: real) {
    raw > 0.0 && exists r, key | r in records && key in keys :: Field(r, key) == Num(raw)
  }

  lemma RawIsDeclared(records: seq<Record>, keys: seq<string>, raw: real)
    requires DeclaresRaw(records, keys, raw)
    ensures Declares(records, keys, Limit(Num(raw)).value)
  {
    var r, key :| r in records && key in keys && Field(r, key) == Num(raw);
    assert Limit(Field(r, key)) == Some(Limit(Num(raw)).value);
  }

  /** Prompt, answer and safety margin fit every context limit the directory declares, as declared;
  the answer is within every output limit read as an integer, the gateway's ceiling and a quarter
  of the window. */
  lemma PromptAndAnswerFit(records: seq<Record>, gateway: Gateway, contextWindow: int, maxTokens: int,
                           requested: Raw, estimate: Raw, calibration: Raw)
    requires Resolves(records, gateway, contextWindow, maxTokens)
    ensures var b := ResolveWireBudget(requested, Num(maxTokens as real), Num(contextWindow as real), estimate, calibration);
            b.Send? ==>
              && (forall u | Declares(records, CONTEXT_KEYS, u) ::
                    b.effective + b.maxTokens + WireSafety(contextWindow) <= u)
              && (forall raw | DeclaresRaw(records, CONTEXT_KEYS, raw) ::
                    (b.effective + b.maxTokens + WireSafety(contextWindow)) as real <= raw)
              && (forall u | Declares(records, OUTPUT_KEYS, u) :: b.maxTokens <= u)
              && b.maxTokens <= GatewayMax(gateway)
              && b.maxTokens <= Max(1, (contextWindow as real / 4.0).Floor)
  {
    hide Resolves, Declares, Effective, GatewayMax, DeclaresRaw;
    ResolvedBounds(records, gateway, contextWindow, maxTokens);
    var b := ResolveWireBudget(requested, Num(maxTokens as real), Num(contextWindow as real), estimate, calibration);
    BudgetFits(requested, Num(maxTokens as real), Num(contextWindow as real), estimate, calibration);
    EffectivePositive(estimate, calibration);
    BudgetIsPositiveIff(requested, Num(maxTokens as real), Num(contextWindow as real), estimate, calibration);
    forall raw | b.Send? && DeclaresRaw(records, CONTEXT_KEYS, raw)
      ensures (b.effective + b.maxTokens + WireSafety(contextWindow)) as real <= raw
    {
      RawIsDeclared(records, CONTEXT_KEYS, raw);
      PositiveRaw(records, CONTEXT_KEYS, raw);
      LimitOfLarge(raw);
    }
  }

  lemma LimitOfLarge(raw: real)
    requires raw > 0.0
    ensures Limit(Num(raw)).value >= 2 ==> Limit(Num(raw)).value as real <= raw
    ensures raw >= 1.0 ==> Limit(Num(raw)).value as real <= raw
    ensures raw < 1.0 ==> Limit(Num(raw)).value == 1
  {
    LimitInNumbers(Num(raw));
  }

  /** An output limit is also kept as declared, unless it is a fraction of one token: that reads as
  one, so it is exceeded exactly when the request is not itself such a fraction. */
  lemma RawOutputLimitIff(records: seq<Record>, gateway: Gateway, contextWindow: int, maxTokens: int,
                          requested: Raw, estimate: Raw, calibration: Raw, raw: real)
    requires Resolves(records, gateway, contextWindow, maxTokens)
    requires DeclaresRaw(records, OUTPUT_KEYS, raw)
    ensures var b := ResolveWireBudget(requested, Num(maxTokens as real), Num(contextWindow as real), estimate, calibration);
            b.Send? ==>
              (b.maxTokens as real <= raw <==> raw >= 1.0 || (requested.Num? && 0.0 < requested.value < 1.0))
  {
    hide Declares, Effective, GatewayMax, DeclaresRaw, ResolveWireBudget, Resolves;
    ResolvedBounds(records, gateway, contextWindow, maxTokens);
    PromptAndAnswerFit(records, gateway, contextWindow, maxTokens, requested, estimate, calibration);
    BudgetIsPositiveIff(requested, Num(maxTokens as real), Num(contextWindow as real), estimate, calibration);
    RawIsDeclared(records, OUTPUT_KEYS, raw);
    PositiveRaw(records, OUTPUT_KEYS, raw);
    LimitOfLarge(raw);
  }

  /** Half a token declared as the output limit: the directory resolves it to one, and one is sent. */
  lemma HalfTokenExample()
    ensures var records := [map["context_length" := Num(8192.0), "max_tokens" := Num(0.5)]];
            && Resolves(records, Uncapped, 8192, 1) && DeclaresRaw(records, OUTPUT_KEYS, 0.5)
            && ResolveWireBudget(Missing, Num(1.0), Num(8192.0), Missing, Missing) == Send(1, 0)
  {
    var r: Record := map["context_length" := Num(8192.0), "max_tokens" := Num(0.5)];
    assert CONTEXT_KEYS[0] == "context_length" && OUTPUT_KEYS[2] == "max_tokens";
    assert "max_tokens" !in CONTEXT_KEYS && "context_length" !in OUTPUT_KEYS;
    SingleLimit(r, CONTEXT_KEYS, "context_length", 8192);
    SingleLimit(r, OUTPUT_KEYS, "max_tokens", 1);
    hide IsSmallest, Declares;
    assert r in [r] && "max_tokens" in OUTPUT_KEYS && Field(r, "max_tokens") == Num(0.5);
    assert OutputCeiling(Num(8192 as real)) == 2048 && GatewayMax(Uncapped) == MAX_SAFE_INTEGER;
    assert IsSmallest([r], OUTPUT_KEYS, DEFAULT_MAX_TOKENS, 1);
    assert RawEstimate(Missing) * Factor(Missing) == 0.0;
    assert WireSafety(8192) == 1024;
  }

  lemma SingleLimit(r: Record, keys: seq<string>, key: string, v: int)
    requires key in keys && Limit(Field(r, key)) == Some(v)
    requires forall other | other in keys && other != key :: other !in r
    ensures forall fallback :: IsSmallest([r], keys, fallback, v)
  {
    MissingHasNoLimit();
    assert r in [r];
    assert Declares([r], keys, v);
    forall u | Declares([r], keys, u) ensures u == v {
      var s, k :| s in [r] && k in keys && Limit(Field(s, k)) == Some(u);
      assert s == r;
    }
  }

  lemma PositiveRaw(records: seq<Record>, keys: seq<string>, raw: real)
    requires DeclaresRaw(records, keys, raw)
    ensures raw > 0.0
  {
  }

  // ---- The last clamp ----------------------------------------------------------------------

  const WIRE_FIELDS := ["max_tokens", "max_completion_tokens"]

  function ClampedValue(v: Raw, cap: int): Raw {
    if Or(Limit(v), cap) > cap then Num(cap as real) else v
  }

  /** The payload with its token fields cut to the cap, and nothing else touched. */
  function Clamped(payload: Record, cap: int): Record {
    map key | key in payload :: if key in WIRE_FIELDS then ClampedValue(payload[key], cap) else payload[key]
  }

  method ClampPayload(payload: Record, cap: int) returns (next: Record)
    ensures next == Clamped(payload, cap)
  {
    hide Limit;
    next := payload;
    for i := 0 to |WIRE_FIELDS|
      invariant next.Keys == payload.Keys
      invariant forall key | key in payload ::
                  next[key] == if key in WIRE_FIELDS[..i] && Or(Limit(payload[key]), cap) > cap then Num(cap as real)
                               else payload[key]
    {
      var field := WIRE_FIELDS[i];
      assert WIRE_FIELDS[..i + 1] == WIRE_FIELDS[..i] + [field];
      assert i == 1 ==> WIRE_FIELDS[..1] == ["max_tokens"];
      MissingHasNoLimit();
      var value := Limit(Field(payload, field));
      if value.Some? && value.value > cap {
        next := next[field := Num(cap as real)];
      }
    }
    assert WIRE_FIELDS[..|WIRE_FIELDS|] == WIRE_FIELDS;
  }

  lemma MissingHasNoLimit()
    ensures Limit(Missing) == None
  {
  }

  /** What the clamp leaves behind reads, as an integer, as at most the cap; as written it exceeds
  the cap exactly when it came in as a fraction between the cap and the next integer. */
  lemma ClampedField(before: Raw, after: Raw, cap: int)
    requires 0 <= cap < MAX_SAFE_INTEGER
    requires after == ClampedValue(before, cap)
    ensures Or(Limit(after), cap) <= cap
    ensures after.Num? && after.value > cap as real
        <==> before.Num? && cap >= 1 && cap as real < before.value < cap as real + 1.0
  {
  }

  /** A fraction just above the cap gets through. */
  method FractionExample() returns (next: Record)
    ensures next == map["max_tokens" := Num(100.5)] && next["max_tokens"].value > 100.0
  {
    var payload: Record := map["max_tokens" := Num(100.5)];
    next := ClampPayload(payload, 100);
    assert Limit(payload["max_tokens"]) == Some(100);
  }
}
