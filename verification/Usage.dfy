/** Token usage as one upstream report carries it, and the merge that folds a run of reports. */
module Usage {
  import opened Common
  import opened Json

  datatype BridgeUsage = BridgeUsage(
    input: int, output: int, total: int, cached: int, cacheCreation: int, reasoning: int)

  const ZERO := BridgeUsage(0, 0, 0, 0, 0, 0)

  function FirstNonZero(values: seq<int>): int {
    if values == [] then 0
    else if values[0] != 0 then values[0]
    else FirstNonZero(values[1..])
  }

  function DecodeUsage(u: Fields): BridgeUsage {
    var input := FirstNonZero([IntAt(u, ["prompt_tokens"]), IntAt(u, ["input_tokens"])]);
    var output := FirstNonZero([IntAt(u, ["completion_tokens"]), IntAt(u, ["output_tokens"])]);
    var total := IntAt(u, ["total_tokens"]);
    BridgeUsage(
      input,
      output,
      if total == 0 then input + output else total,
      FirstNonZero([IntAt(u, ["prompt_tokens_details", "cached_tokens"]),
                    IntAt(u, ["input_tokens_details", "cached_tokens"])]),
      FirstNonZero([IntAt(u, ["cache_creation_input_tokens"]),
                    IntAt(u, ["prompt_tokens_details", "cache_creation_input_tokens"]),
                    IntAt(u, ["prompt_tokens_details", "cache_write_tokens"]),
                    IntAt(u, ["input_tokens_details", "cache_creation_input_tokens"])]),
      FirstNonZero([IntAt(u, ["completion_tokens_details", "reasoning_tokens"]),
                    IntAt(u, ["output_tokens_details", "reasoning_tokens"])]))
  }

  // ---- The spellings of a usage object -----------------------------------------------------

  function Num(n: int): Value {
    Number(n as real)
  }

  /** A usage object as the Chat protocol spells it. */
  function ChatUsage(u: BridgeUsage): Fields {
    map["prompt_tokens" := Num(u.input), "completion_tokens" := Num(u.output), "total_tokens" := Num(u.total),
        "prompt_tokens_details" := Object(map["cached_tokens" := Num(u.cached),
                                              "cache_creation_input_tokens" := Num(u.cacheCreation)]),
        "completion_tokens_details" := Object(map["reasoning_tokens" := Num(u.reasoning)])]
  }

  /** The same numbers as the Responses protocol spells them. */
  function ResponsesUsage(u: BridgeUsage): Fields {
    map["input_tokens" := Num(u.input), "output_tokens" := Num(u.output), "total_tokens" := Num(u.total),
        "input_tokens_details" := Object(map["cached_tokens" := Num(u.cached),
                                             "cache_creation_input_tokens" := Num(u.cacheCreation)]),
        "output_tokens_details" := Object(map["reasoning_tokens" := Num(u.reasoning)])]
  }

  /** Both spellings at once, and two more places for cache writes. */
  function BothUsages(chat: BridgeUsage, other: BridgeUsage, created: int, written: int): Fields {
    map["prompt_tokens" := Num(chat.input), "completion_tokens" := Num(chat.output), "total_tokens" := Num(chat.total),
        "input_tokens" := Num(other.input), "output_tokens" := Num(other.output),
        "cache_creation_input_tokens" := Num(created),
        "prompt_tokens_details" := Object(map["cached_tokens" := Num(chat.cached),
                                              "cache_creation_input_tokens" := Num(chat.cacheCreation),
                                              "cache_write_tokens" := Num(written)]),
        "input_tokens_details" := Object(map["cached_tokens" := Num(other.cached),
                                             "cache_creation_input_tokens" := Num(other.cacheCreation)]),
        "completion_tokens_details" := Object(map["reasoning_tokens" := Num(chat.reasoning)]),
        "output_tokens_details" := Object(map["reasoning_tokens" := Num(other.reasoning)])]
  }

  /** A number at the top of an object is read as it was written; anything else there is zero. */
  lemma TopLevel(o: Fields, key: string, n: int)
    requires if key in o then o[key] == Num(n) else n == 0
    ensures IntAt(o, [key]) == n
  {
    assert [key][1..] == [];
    if key in o {
      assert AnyAt(Object(o), [key]) == AnyAt(o[key], []);
      WholeIsKept(n);
    }
  }

  /** The same one object further down. */
  lemma Nested(o: Fields, outer: string, inner: string, n: int)
    requires if outer in o && o[outer].Object? && inner in o[outer].fields then o[outer].fields[inner] == Num(n)
             else n == 0
    ensures IntAt(o, [outer, inner]) == n
  {
    assert [outer, inner][1..] == [inner];
    if outer in o {
      assert AnyAt(Object(o), [outer, inner]) == AnyAt(o[outer], [inner]);
      if o[outer].Object? {
        TopLevel(o[outer].fields, inner, n);
      } else {
        assert AnyAt(o[outer], [inner]) == Null;
      }
    }
  }

  lemma WholeIsKept(n: int)
    ensures Truncate(n as real) == n
  {
    assert -(n as real) == (-n) as real;
  }

  /** Numbers are cut toward zero. */
  lemma TruncateTowardZero(r: real)
    ensures r >= 0.0 ==> Truncate(r) as real <= r < Truncate(r) as real + 1.0
    ensures r <= 0.0 ==> Truncate(r) as real - 1.0 < r <= Truncate(r) as real
  {
    if r < 0.0 {
      var t := (-r).Floor;
      assert Truncate(r) == -t && Truncate(r) as real == -(t as real);
    }
  }

  lemma FirstOfTwo(a: int, b: int)
    ensures FirstNonZero([a, b]) == if a != 0 then a else b
  {
    assert [a, b][1..] == [b] && [b][1..] == [];
    assert FirstNonZero([b]) == b;
  }

  lemma FirstOfFour(a: int, b: int, c: int, d: int)
    ensures FirstNonZero([a, b, c, d]) == if a != 0 then a else if b != 0 then b else if c != 0 then c else d
  {
    assert [a, b, c, d][1..] == [b, c, d] && [b, c, d][1..] == [c, d];
    FirstOfTwo(c, d);
  }

  /** Decoding when all eleven places are known. */
  lemma Decoded(o: Fields, chat: BridgeUsage, other: BridgeUsage, created: int, written: int)
    requires IntAt(o, ["prompt_tokens"]) == chat.input && IntAt(o, ["input_tokens"]) == other.input
    requires IntAt(o, ["completion_tokens"]) == chat.output && IntAt(o, ["output_tokens"]) == other.output
    requires IntAt(o, ["total_tokens"]) == chat.total
    requires IntAt(o, ["prompt_tokens_details", "cached_tokens"]) == chat.cached
    requires IntAt(o, ["input_tokens_details", "cached_tokens"]) == other.cached
    requires IntAt(o, ["cache_creation_input_tokens"]) == created
    requires IntAt(o, ["prompt_tokens_details", "cache_creation_input_tokens"]) == chat.cacheCreation
    requires IntAt(o, ["prompt_tokens_details", "cache_write_tokens"]) == written
    requires IntAt(o, ["input_tokens_details", "cache_creation_input_tokens"]) == other.cacheCreation
    requires IntAt(o, ["completion_tokens_details", "reasoning_tokens"]) == chat.reasoning
    requires IntAt(o, ["output_tokens_details", "reasoning_tokens"]) == other.reasoning
    ensures Preferred(DecodeUsage(o), chat, other, created, written)
  {
    hide IntAt, FirstNonZero;
    FirstOfTwo(chat.input, other.input);
    FirstOfTwo(chat.output, other.output);
    FirstOfTwo(chat.cached, other.cached);
    FirstOfTwo(chat.reasoning, other.reasoning);
    FirstOfFour(created, chat.cacheCreation, written, other.cacheCreation);
  }

  /** The Chat spelling wins unless it is zero. Cache writes are looked for at the top, then in the
  prompt details under two names, then in the input details. */
  ghost predicate Preferred(u: BridgeUsage, chat: BridgeUsage, other: BridgeUsage, created: int, written: int) {
    && u.input == (if chat.input != 0 then chat.input else other.input)
    && u.output == (if chat.output != 0 then chat.output else other.output)
    && u.total == (if chat.total != 0 then chat.total else u.input + u.output)
    && u.cached == (if chat.cached != 0 then chat.cached else other.cached)
    && u.cacheCreation == (if created != 0 then created
                           else if chat.cacheCreation != 0 then chat.cacheCreation
                           else if written != 0 then written else other.cacheCreation)
    && u.reasoning == (if chat.reasoning != 0 then chat.reasoning else other.reasoning)
  }

  lemma TopPlaces(o: Fields, chat: BridgeUsage, other: BridgeUsage, created: int)
    requires if "prompt_tokens" in o then o["prompt_tokens"] == Num(chat.input) else chat.input == 0
    requires if "completion_tokens" in o then o["completion_tokens"] == Num(chat.output) else chat.output == 0
    requires if "total_tokens" in o then o["total_tokens"] == Num(chat.total) else chat.total == 0
    requires if "input_tokens" in o then o["input_tokens"] == Num(other.input) else other.input == 0
    requires if "output_tokens" in o then o["output_tokens"] == Num(other.output) else other.output == 0
    requires if "cache_creation_input_tokens" in o then o["cache_creation_input_tokens"] == Num(created) else created == 0
    ensures IntAt(o, ["prompt_tokens"]) == chat.input && IntAt(o, ["input_tokens"]) == other.input
    ensures IntAt(o, ["completion_tokens"]) == chat.output && IntAt(o, ["output_tokens"]) == other.output
    ensures IntAt(o, ["total_tokens"]) == chat.total && IntAt(o, ["cache_creation_input_tokens"]) == created
  {
    hide IntAt, Num;
    TopLevel(o, "prompt_tokens", chat.input);
    TopLevel(o, "completion_tokens", chat.output);
    TopLevel(o, "total_tokens", chat.total);
    TopLevel(o, "input_tokens", other.input);
    TopLevel(o, "output_tokens", other.output);
    TopLevel(o, "cache_creation_input_tokens", created);
  }

  /** With both spellings present the Chat one wins unless it is zero. */
  lemma BothSpellings(chat: BridgeUsage, other: BridgeUsage, created: int, written: int)
    ensures Preferred(DecodeUsage(BothUsages(chat, other, created, written)), chat, other, created, written)
  {
    hide IntAt, Num, DecodeUsage, Preferred;
    var o := BothUsages(chat, other, created, written);
    TopPlaces(o, chat, other, created);
    Nested(o, "prompt_tokens_details", "cached_tokens", chat.cached);
    Nested(o, "prompt_tokens_details", "cache_creation_input_tokens", chat.cacheCreation);
    Nested(o, "prompt_tokens_details", "cache_write_tokens", written);
    Nested(o, "input_tokens_details", "cached_tokens", other.cached);
    Nested(o, "input_tokens_details", "cache_creation_input_tokens", other.cacheCreation);
    Nested(o, "completion_tokens_details", "reasoning_tokens", chat.reasoning);
    Nested(o, "output_tokens_details", "reasoning_tokens", other.reasoning);
    Decoded(o, chat, other, created, written);
  }

  /** What a report reads as: its numbers, with the sum for a missing or zero total. */
  function WithTotal(u: BridgeUsage): BridgeUsage {
    if u.total == 0 then u.(total := u.input + u.output) else u
  }

  /** Round trip: a usage object in either spelling reads back as the numbers it was written from. */
  lemma UsageRoundTrip(u: BridgeUsage)
    ensures DecodeUsage(ChatUsage(u)) == WithTotal(u)
    ensures DecodeUsage(ResponsesUsage(u)) == WithTotal(u)
  {
    ChatRoundTrip(u);
    ResponsesRoundTrip(u);
  }

  lemma ChatRoundTrip(u: BridgeUsage)
    ensures DecodeUsage(ChatUsage(u)) == WithTotal(u)
  {
    hide IntAt, Num, DecodeUsage;
    var o := ChatUsage(u);
    TopPlaces(o, u, ZERO, 0);
    Nested(o, "prompt_tokens_details", "cached_tokens", u.cached);
    Nested(o, "prompt_tokens_details", "cache_creation_input_tokens", u.cacheCreation);
    Nested(o, "prompt_tokens_details", "cache_write_tokens", 0);
    Nested(o, "input_tokens_details", "cached_tokens", 0);
    Nested(o, "input_tokens_details", "cache_creation_input_tokens", 0);
    Nested(o, "completion_tokens_details", "reasoning_tokens", u.reasoning);
    Nested(o, "output_tokens_details", "reasoning_tokens", 0);
    Decoded(o, u, ZERO, 0, 0);
  }

  lemma ResponsesRoundTrip(u: BridgeUsage)
    ensures DecodeUsage(ResponsesUsage(u)) == WithTotal(u)
  {
    hide IntAt, Num, DecodeUsage;
    var o := ResponsesUsage(u);
    TopPlaces(o, ZERO.(total := u.total), u, 0);
    Nested(o, "prompt_tokens_details", "cached_tokens", 0);
    Nested(o, "prompt_tokens_details", "cache_creation_input_tokens", 0);
    Nested(o, "prompt_tokens_details", "cache_write_tokens", 0);
    Nested(o, "input_tokens_details", "cached_tokens", u.cached);
    Nested(o, "input_tokens_details", "cache_creation_input_tokens", u.cacheCreation);
    Nested(o, "completion_tokens_details", "reasoning_tokens", 0);
    Nested(o, "output_tokens_details", "reasoning_tokens", u.reasoning);
    Decoded(o, ZERO.(total := u.total), u, 0, 0);
  }

  /** A report of three numbers, or of two and no total. */
  lemma PlainRoundTrip(input: int, output: int, total: int)
    ensures DecodeUsage(map["prompt_tokens" := Num(input), "completion_tokens" := Num(output), "total_tokens" := Num(total)])
         == BridgeUsage(input, output, if total == 0 then input + output else total, 0, 0, 0)
    ensures DecodeUsage(map["prompt_tokens" := Num(input), "completion_tokens" := Num(output)])
         == BridgeUsage(input, output, input + output, 0, 0, 0)
  {
    hide Num, DecodeUsage;
    WithoutDetails(map["prompt_tokens" := Num(input), "completion_tokens" := Num(output), "total_tokens" := Num(total)],
                   input, output, total);
    WithoutDetails(map["prompt_tokens" := Num(input), "completion_tokens" := Num(output)], input, output, 0);
  }

  /** Counts that are not whole are cut toward zero, on the way in. */
  lemma FractionsAreCut(prompt: real, completion: real)
    ensures var u := DecodeUsage(map["prompt_tokens" := Number(prompt), "completion_tokens" := Number(completion)]);
            && (prompt >= 0.0 ==> u.input as real <= prompt < u.input as real + 1.0)
            && (prompt <= 0.0 ==> u.input as real - 1.0 < prompt <= u.input as real)
            && (completion >= 0.0 ==> u.output as real <= completion < u.output as real + 1.0)
            && u.total == u.input + u.output
  {
    TruncateTowardZero(prompt);
    TruncateTowardZero(completion);
    var o := map["prompt_tokens" := Number(prompt), "completion_tokens" := Number(completion)];
    var u := BridgeUsage(Truncate(prompt), Truncate(completion), 0, 0, 0, 0);
    hide Truncate, IntAt, Num, DecodeUsage;
    TopFraction(o, "prompt_tokens");
    TopFraction(o, "completion_tokens");
    TopLevel(o, "total_tokens", 0);
    TopLevel(o, "input_tokens", 0);
    TopLevel(o, "output_tokens", 0);
    TopLevel(o, "cache_creation_input_tokens", 0);
    NoDetails(o);
    Decoded(o, u, ZERO, 0, 0);
  }

  lemma TopFraction(o: Fields, key: string)
    requires key in o && o[key].Number?
    ensures IntAt(o, [key]) == Truncate(o[key].n)
  {
    assert [key][1..] == [];
    assert AnyAt(Object(o), [key]) == AnyAt(o[key], []);
  }

  lemma NoDetails(o: Fields)
    requires o.Keys <= {"prompt_tokens", "completion_tokens", "total_tokens"}
    ensures IntAt(o, ["prompt_tokens_details", "cached_tokens"]) == 0
    ensures IntAt(o, ["prompt_tokens_details", "cache_creation_input_tokens"]) == 0
    ensures IntAt(o, ["prompt_tokens_details", "cache_write_tokens"]) == 0
    ensures IntAt(o, ["input_tokens_details", "cached_tokens"]) == 0
    ensures IntAt(o, ["input_tokens_details", "cache_creation_input_tokens"]) == 0
    ensures IntAt(o, ["completion_tokens_details", "reasoning_tokens"]) == 0
    ensures IntAt(o, ["output_tokens_details", "reasoning_tokens"]) == 0
  {
    hide IntAt, Num;
    Nested(o, "prompt_tokens_details", "cached_tokens", 0);
    Nested(o, "prompt_tokens_details", "cache_creation_input_tokens", 0);
    Nested(o, "prompt_tokens_details", "cache_write_tokens", 0);
    Nested(o, "input_tokens_details", "cached_tokens", 0);
    Nested(o, "input_tokens_details", "cache_creation_input_tokens", 0);
    Nested(o, "completion_tokens_details", "reasoning_tokens", 0);
    Nested(o, "output_tokens_details", "reasoning_tokens", 0);
  }

  lemma WithoutDetails(o: Fields, input: int, output: int, total: int)
    requires o.Keys <= {"prompt_tokens", "completion_tokens", "total_tokens"}
    requires "prompt_tokens" in o && o["prompt_tokens"] == Num(input)
    requires "completion_tokens" in o && o["completion_tokens"] == Num(output)
    requires if "total_tokens" in o then o["total_tokens"] == Num(total) else total == 0
    ensures DecodeUsage(o) == WithTotal(BridgeUsage(input, output, total, 0, 0, 0))
  {
    hide IntAt, Num, DecodeUsage;
    var u := BridgeUsage(input, output, total, 0, 0, 0);
    TopPlaces(o, u, ZERO, 0);
    NoDetails(o);
    Decoded(o, u, ZERO, 0, 0);
  }

  // ---- Merging -----------------------------------------------------------------------------

  function Keep(current: int, reported: int): int {
    if reported != 0 then reported else current
  }

  /** mergeBridgeUsage: non-zero fields overwrite, Total only ever rises. */
  function Merge(d: BridgeUsage, s: BridgeUsage): BridgeUsage {
    var input := Keep(d.input, s.input);
    var output := Keep(d.output, s.output);
    var total := if s.total != 0 then Max(d.total, s.total) else d.total;
    BridgeUsage(input, output, Max(total, input + output), Keep(d.cached, s.cached),
                Keep(d.cacheCreation, s.cacheCreation), Keep(d.reasoning, s.reasoning))
  }

  function MergeAll(d: BridgeUsage, reports: seq<BridgeUsage>): BridgeUsage {
    if reports == [] then d
    else Merge(MergeAll(d, reports[..|reports| - 1]), reports[|reports| - 1])
  }

  /** The last non-zero value of a sequence, or zero: what "latest non-zero report" means. */
  ghost predicate IsLastNonZero(values: seq<int>, v: int) {
    if v == 0 then forall i | 0 <= i < |values| :: values[i] == 0
    else exists i | 0 <= i < |values| ::
           values[i] == v && forall j | i < j < |values| :: values[j] == 0
  }

  /** The fields a report overwrites; Total is the one that is not among them. */
  datatype Field = Input | Output | Cached | CacheCreation | Reasoning

  function Get(u: BridgeUsage, f: Field): int {
    match f
    case Input => u.input
    case Output => u.output
    case Cached => u.cached
    case CacheCreation => u.cacheCreation
    case Reasoning => u.reasoning
  }

  ghost function Column(reports: seq<BridgeUsage>, f: Field): seq<int> {
    seq(|reports|, i requires 0 <= i < |reports| => Get(reports[i], f))
  }

  /** `t` is the least number that is non-negative, at least every report's non-zero total, and
  at least Input + Output as merged after each report. */
  ghost predicate IsHighWater(reports: seq<BridgeUsage>, t: int) {
    && t >= 0
    && (forall i | 0 <= i < |reports| ::
          (reports[i].total != 0 ==> t >= reports[i].total) && t >= RunningSum(reports, i))
    && (t == 0 || exists i | 0 <= i < |reports| ::
          t == reports[i].total || t == RunningSum(reports, i))
  }

  ghost function RunningSum(reports: seq<BridgeUsage>, n: nat): int
    requires n < |reports|
  {
    var u := MergeAll(ZERO, reports[..n + 1]);
    u.input + u.output
  }

  lemma KeepIsLast(values: seq<int>, v: int, x: int)
    requires IsLastNonZero(values, v)
    ensures IsLastNonZero(values + [x], Keep(v, x))
  {
    var all := values + [x];
    if x != 0 {
      assert all[|values|] == x;
    } else if v != 0 {
      var i :| 0 <= i < |values| && values[i] == v && forall j | i < j < |values| :: values[j] == 0;
      assert all[i] == v;
    }
  }

  /** Every overwritten field ends as its last non-zero report. */
  lemma {:induction false} MergeAllFields(reports: seq<BridgeUsage>, f: Field)
    ensures IsLastNonZero(Column(reports, f), Get(MergeAll(ZERO, reports), f))
  {
    if reports != [] {
      var front, last := reports[..|reports| - 1], reports[|reports| - 1];
      MergeAllFields(front, f);
      KeepIsLast(Column(front, f), Get(MergeAll(ZERO, front), f), Get(last, f));
      assert Column(reports, f) == Column(front, f) + [Get(last, f)];
    }
  }

  /** Total after a run is exactly the high-water mark of the reports. */
  lemma {:induction false} MergeAllTotal(reports: seq<BridgeUsage>)
    ensures IsHighWater(reports, MergeAll(ZERO, reports).total)
    ensures MergeAll(ZERO, reports).total >= MergeAll(ZERO, reports).input + MergeAll(ZERO, reports).output
  {
    if reports != [] {
      var n := |reports| - 1;
      var front := reports[..n];
      MergeAllTotal(front);
      forall i | 0 <= i < n ensures RunningSum(front, i) == RunningSum(reports, i) {
        assert front[..i + 1] == reports[..i + 1];
      }
      assert reports[..n + 1] == reports;
      var before, t := MergeAll(ZERO, front).total, MergeAll(ZERO, reports).total;
      assert t == before || t == reports[n].total || t == RunningSum(reports, n);
      if t == before && t != 0 {
        var i :| 0 <= i < n && (t == front[i].total || t == RunningSum(front, i));
        assert t == reports[i].total || t == RunningSum(reports, i);
      }
    }
  }

  /** Total never decreases while reports arrive, from whatever value it had. */
  lemma {:induction false} TotalNeverDecreases(d: BridgeUsage, reports: seq<BridgeUsage>, n: nat)
    requires n <= |reports|
    ensures MergeAll(d, reports[..n]).total <= MergeAll(d, reports).total
    decreases |reports| - n
  {
    if n == |reports| {
      assert reports[..n] == reports;
    } else {
      assert reports[..n + 1][..n] == reports[..n];
      TotalNeverDecreases(d, reports, n + 1);
    }
  }
}
