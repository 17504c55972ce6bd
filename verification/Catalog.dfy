/** The live model directory: decoding, refreshing with a cache to fall back on, and listing.

Fetching, the clock and the cache file are inputs of a refresh; refreshes run one at a time. */
module Catalog {
  import opened Common
  import opened JsText

  const CACHE_TTL_MS := 7 * 24 * 60 * 60 * 1000

  /** One entry of a directory answer; `rest` is everything that is passed through. */
  datatype Row = NotARecord | Record(id: Option<string>, name: Option<string>, rest: map<string, string>)

  datatype Model = Model(id: string, name: string, rest: map<string, string>)

  // ---- Decoding ----------------------------------------------------------------------------

  function Normalize(row: Row): Option<Model> {
    if row.NotARecord? || row.id.None? || Trim(row.id.value) == "" then None
    else
      var id := Trim(row.id.value);
      Some(Model(id, if row.name.Some? && Trim(row.name.value) != "" then Trim(row.name.value) else id, row.rest))
  }

  function Ids(models: seq<Model>): set<string> {
    set m | m in models :: m.id
  }

  function Decode(rows: seq<Row>): seq<Model> {
    if rows == [] then []
    else
      var front, last := Decode(rows[..|rows| - 1]), Normalize(rows[|rows| - 1]);
      if last.Some? && last.value.id !in Ids(front) then front + [last.value] else front
  }

  method DecodeKiloModels(rows: seq<Row>) returns (models: seq<Model>)
    ensures models == Decode(rows)
  {
    hide Normalize;
    models := [];
    var seen: set<string> := {};
    for i := 0 to |rows|
      invariant models == Decode(rows[..i]) && seen == Ids(models)
    {
      assert rows[..i + 1][..i] == rows[..i];
      var model := Normalize(rows[i]);
      if model.Some? && model.value.id !in seen {
        seen := seen + {model.value.id};
        models := models + [model.value];
      }
    }
    assert rows[..|rows|] == rows;
  }

  /** A row with an id: a record whose id is not blank. */
  predicate HasId(row: Row) {
    row.Record? && row.id.Some? && Trim(row.id.value) != ""
  }

  /** The row at `i` survives decoding: it has an id that no row before it has. */
  predicate Survives(rows: seq<Row>, i: nat)
    requires i < |rows|
  {
    HasId(rows[i]) && forall j | 0 <= j < i && HasId(rows[j]) :: Trim(rows[j].id.value) != Trim(rows[i].id.value)
  }

  /** The model is the row's: trimmed id, trimmed name or the id where that is blank, the rest as is. */
  predicate IsModelOf(m: Model, row: Row)
    requires HasId(row)
  {
    && m.id == Trim(row.id.value) && m.rest == row.rest
    && m.name == if row.name.Some? && Trim(row.name.value) != "" then Trim(row.name.value) else m.id
  }

  ghost predicate DecodedFrom(rows: seq<Row>, models: seq<Model>, at: seq<nat>) {
    && |at| == |models|
    && (forall k | 0 <= k < |at| :: at[k] < |rows| && Survives(rows, at[k]) && IsModelOf(models[k], rows[at[k]]))
    && (forall k, l | 0 <= k < l < |at| :: at[k] < at[l])
    && (forall i: nat | i < |rows| && Survives(rows, i) :: i in at)
  }

  /** By position: exactly the surviving rows are decoded, in their order. */
  lemma {:induction false} DecodeByPosition(rows: seq<Row>) returns (at: seq<nat>)
    ensures DecodedFrom(rows, Decode(rows), at)
  {
    hide Normalize, DecodedFrom, Survives;
    at := [];
    if rows == [] {
      NoRows();
    } else {
      var n := |rows| - 1;
      var front := rows[..n];
      at := DecodeByPosition(front);
      IdsSeen(front, Decode(front), at);
      SurvivesIff(rows, Decode(front));
      SurvivorsHaveIds(rows);
      if Survives(rows, n) {
        KeepRow(rows, Decode(front), at, Normalize(rows[n]).value);
        at := at + [n];
      } else {
        SkipRow(rows, Decode(front), at);
      }
    }
  }

  lemma NoRows()
    ensures DecodedFrom([], [], [])
  {
  }

  lemma SurvivesIff(rows: seq<Row>, models: seq<Model>)
    requires rows != []
    requires var front := rows[..|rows| - 1];
             && (forall j | 0 <= j < |front| && HasId(front[j]) :: Trim(front[j].id.value) in Ids(models))
             && (forall id | id in Ids(models) :: exists j | 0 <= j < |front| :: HasId(front[j]) && Trim(front[j].id.value) == id)
    ensures var n := |rows| - 1;
            && (Survives(rows, n) <==> Normalize(rows[n]).Some? && Normalize(rows[n]).value.id !in Ids(models))
            && (HasId(rows[n]) ==> Normalize(rows[n]).Some? && IsModelOf(Normalize(rows[n]).value, rows[n]))
  {
    hide Trim, Ids;
    var n := |rows| - 1;
    assert forall j | 0 <= j < n :: rows[..n][j] == rows[j];
  }

  lemma KeepRow(rows: seq<Row>, models: seq<Model>, at: seq<nat>, m: Model)
    requires rows != [] && DecodedFrom(rows[..|rows| - 1], models, at)
    requires Survives(rows, |rows| - 1) && IsModelOf(m, rows[|rows| - 1])
    ensures DecodedFrom(rows, models + [m], at + [|rows| - 1])
  {
    hide Survives, IsModelOf, HasId;
    SurvivesInFront(rows);
    SurvivorsHaveIds(rows);
    var n := |rows| - 1;
    assert forall j | 0 <= j < n :: rows[..n][j] == rows[j];
    var all := at + [n];
    forall i: nat | i < |rows| && Survives(rows, i) ensures i in all {
      if i == n {
        assert all[|at|] == n;
      } else {
        assert Survives(rows[..n], i);
      }
    }
  }

  lemma SkipRow(rows: seq<Row>, models: seq<Model>, at: seq<nat>)
    requires rows != [] && DecodedFrom(rows[..|rows| - 1], models, at) && !Survives(rows, |rows| - 1)
    ensures DecodedFrom(rows, models, at)
  {
    hide Survives, IsModelOf, HasId;
    SurvivesInFront(rows);
    SurvivorsHaveIds(rows);
    var n := |rows| - 1;
    assert forall j | 0 <= j < n :: rows[..n][j] == rows[j];
    forall i: nat | i < |rows| && Survives(rows, i) ensures i in at {
      assert i != n && Survives(rows[..n], i);
    }
  }

  lemma SurvivorsHaveIds(rows: seq<Row>)
    ensures forall i: nat | i < |rows| && Survives(rows, i) :: HasId(rows[i])
  {
    hide HasId;
  }

  lemma SurvivesInFront(rows: seq<Row>)
    requires rows != []
    ensures forall i: nat | i < |rows| - 1 :: Survives(rows[..|rows| - 1], i) <==> Survives(rows, i)
  {
    hide HasId, Trim;
    var front := rows[..|rows| - 1];
    assert forall i | 0 <= i < |front| :: front[i] == rows[i];
  }

  /** The decoded ids are the ids of the rows. */
  lemma IdsSeen(rows: seq<Row>, models: seq<Model>, at: seq<nat>)
    requires DecodedFrom(rows, models, at)
    ensures forall j | 0 <= j < |rows| && HasId(rows[j]) :: Trim(rows[j].id.value) in Ids(models)
    ensures forall id | id in Ids(models) :: exists j | 0 <= j < |rows| :: HasId(rows[j]) && Trim(rows[j].id.value) == id
  {
    hide Trim;
    forall j: nat | j < |rows| && HasId(rows[j]) ensures Trim(rows[j].id.value) in Ids(models) {
      var i := FirstWithId(rows, j);
      var k :| 0 <= k < |at| && at[k] == i;
      assert models[k] in models;
    }
    forall id | id in Ids(models)
      ensures exists j | 0 <= j < |rows| :: HasId(rows[j]) && Trim(rows[j].id.value) == id
    {
      var k :| 0 <= k < |models| && models[k].id == id;
      assert HasId(rows[at[k]]);
    }
  }

  lemma {:induction false} FirstWithId(rows: seq<Row>, j: nat) returns (i: nat)
    requires j < |rows| && HasId(rows[j])
    ensures i <= j && Survives(rows, i) && Trim(rows[i].id.value) == Trim(rows[j].id.value)
  {
    hide Trim;
    i := j;
    if !Survives(rows, j) {
      var k :| 0 <= k < j && HasId(rows[k]) && Trim(rows[k].id.value) == Trim(rows[j].id.value);
      i := FirstWithId(rows, k);
    }
  }

  /** Decoded models have distinct, trimmed, non-empty ids. */
  ghost predicate Clean(models: seq<Model>) {
    && (forall m | m in models :: m.id != "" && m.name != "" && Trim(m.id) == m.id && Trim(m.name) == m.name)
    && (forall i, j | 0 <= i < j < |models| :: models[i].id != models[j].id)
  }

  lemma NormalizeIsClean(row: Row)
    ensures var m := Normalize(row);
            m.Some? ==> && m.value.id != "" && m.value.name != ""
                        && Trim(m.value.id) == m.value.id && Trim(m.value.name) == m.value.name
  {
    hide Trim;
    if row.Record? && row.id.Some? {
      TrimTwice(row.id.value);
    }
    if row.Record? && row.name.Some? {
      TrimTwice(row.name.value);
    }
  }

  lemma {:induction false} DecodeIsClean(rows: seq<Row>)
    ensures Clean(Decode(rows))
  {
    hide Normalize, Trim;
    if rows != [] {
      DecodeIsClean(rows[..|rows| - 1]);
      NormalizeIsClean(rows[|rows| - 1]);
    }
  }

  function AsRow(m: Model): Row {
    Record(Some(m.id), Some(m.name), m.rest)
  }

  function AsRows(models: seq<Model>): seq<Row> {
    seq(|models|, i requires 0 <= i < |models| => AsRow(models[i]))
  }

  lemma CleanParts(models: seq<Model>)
    requires Clean(models) && models != []
    ensures var front, last := models[..|models| - 1], models[|models| - 1];
            Clean(front) && last.id !in Ids(front) && Normalize(AsRow(last)) == Some(last)
  {
    hide Trim;
    var front, last := models[..|models| - 1], models[|models| - 1];
    assert last in models && forall m | m in front :: m in models;
  }

  lemma {:induction false} CleanDecodesToItself(models: seq<Model>)
    requires Clean(models)
    ensures Decode(AsRows(models)) == models
  {
    hide Clean, Normalize, Ids, AsRow;
    if models != [] {
      var front, last := models[..|models| - 1], models[|models| - 1];
      CleanParts(models);
      CleanDecodesToItself(front);
      var rows := AsRows(models);
      assert rows[..|rows| - 1] == AsRows(front);
      assert rows[|rows| - 1] == AsRow(last);
      assert models == front + [last];
    }
  }

  /** Cache round trip: decoding what was decoded and written out changes nothing. */
  lemma DecodeTwice(rows: seq<Row>)
    ensures Decode(AsRows(Decode(rows))) == Decode(rows)
  {
    DecodeIsClean(rows);
    CleanDecodesToItself(Decode(rows));
  }

  // ---- The directory -----------------------------------------------------------------------

  datatype Fetch = Fetched(models: seq<Model>) | Threw(error: string)

  datatype CacheFile = Unreadable | File(updatedAt: Option<int>, rows: seq<Row>)

  /** One refresh: what the fetch gives, when, whether writing the cache fails, and what reading it
  would give. */
  datatype Refresh = Refresh(fetch: Fetch, now: int, saveError: Option<string>, cache: CacheFile, later: int)

  datatype Rules = Rules(
    cached: bool, title: string, staticModels: seq<string>, staticCandidates: seq<string>,
    free: Model -> bool, freeName: string -> bool, textOutput: Model -> bool, tools: Model -> bool, requireTools: bool)

  datatype State = State(models: map<string, Model>, updatedAt: int, lastError: string)

  const PENDING := State(map[], 0, "")

  /** A map filled in order: later entries with an id win. */
  function Indexed(models: seq<Model>): map<string, Model> {
    if models == [] then map[]
    else Indexed(models[..|models| - 1])[models[|models| - 1].id := models[|models| - 1]]
  }

  /** The models a readable, fresh, non-empty cache holds. */
  function Usable(cache: CacheFile, now: int): seq<Model> {
    if cache.Unreadable? || cache.updatedAt.None? || now - cache.updatedAt.value > CACHE_TTL_MS then []
    else Decode(cache.rows)
  }

  function Recovered(rules: Rules, s: State, r: Refresh, error: string): State {
    if rules.cached && s.models == map[] && Usable(r.cache, r.later) != [] then
      State(Indexed(Usable(r.cache, r.later)), r.cache.updatedAt.value, error)
    else s.(lastError := error)
  }

  function Refreshed(rules: Rules, s: State, r: Refresh): State {
    match r.fetch
    case Threw(error) => Recovered(rules, s, r, error)
    case Fetched(models) =>
      if models == [] then Recovered(rules, s, r, rules.title + " models endpoint returned an empty list")
      else
        var live := State(Indexed(models), r.now, "");
        if rules.cached && r.saveError.Some? then Recovered(rules, live, r, r.saveError.value) else live
  }

  datatype Verdict = Verdict(allowed: bool, source: string, known: bool)

  function Judge(rules: Rules, m: Model): Verdict {
    if !rules.free(m) then Verdict(false, "catalog_paid", true)
    else if !rules.textOutput(m) then Verdict(false, "catalog_output_unsupported", true)
    else if rules.requireTools && !rules.tools(m) then Verdict(false, "catalog_tools_unsupported", true)
    else Verdict(true, "catalog_free", true)
  }

  function Decide(rules: Rules, s: State, model: string): Verdict {
    var id := Trim(model);
    if id in s.models then Judge(rules, s.models[id])
    else if s.models == map[] then
      if id in rules.staticModels || id in rules.staticCandidates then Verdict(true, "static_verified", false)
      else if rules.freeName(id) then Verdict(true, "name_free_pending", false)
      else Verdict(false, "catalog_pending", false)
    else Verdict(false, "catalog_missing", false)
  }

  /** A decision allows a model exactly when its trimmed name is a snapshot id whose record is free,
  answers text and has the tools required; or, while there is no snapshot, when it is on one of the
  static lists or its name says free. A model the snapshot does not have is refused as missing. */
  lemma DecisionIs(rules: Rules, s: State, model: string)
    ensures var id, d := Trim(model), Decide(rules, s, model);
            && (d.allowed <==>
                  if s.models != map[] then
                    && id in s.models && rules.free(s.models[id]) && rules.textOutput(s.models[id])
                    && (rules.requireTools ==> rules.tools(s.models[id]))
                  else id in rules.staticModels || id in rules.staticCandidates || rules.freeName(id))
            && (s.models != map[] && id !in s.models ==> d == Verdict(false, "catalog_missing", false))
            && (d.known <==> id in s.models)
  {
    hide Trim;
  }

  /** The static list while nothing is known, then the allowed snapshot ids in order. */
  ghost predicate IsListing(rules: Rules, s: State, ids: seq<string>) {
    if s.models == map[] then ids == rules.staticModels
    else Sorted(ids) && forall id :: id in ids <==> id in s.models && Decide(rules, s, id).allowed
  }

  ghost predicate Keyed(models: map<string, Model>) {
    forall id | id in models :: models[id].id == id
  }

  lemma {:induction false} IndexedIsKeyed(models: seq<Model>)
    ensures Keyed(Indexed(models))
  {
    if models != [] {
      IndexedIsKeyed(models[..|models| - 1]);
    }
  }

  lemma RefreshIsKeyed(rules: Rules, s: State, r: Refresh)
    requires Keyed(s.models)
    ensures Keyed(Refreshed(rules, s, r).models)
  {
    hide Indexed, Usable, Keyed;
    IndexedIsKeyed(Usable(r.cache, r.later));
    if r.fetch.Fetched? {
      IndexedIsKeyed(r.fetch.models);
    }
  }

  class ModelCatalog {
    const rules: Rules
    var models: map<string, Model>
    var updatedAt: int
    var lastError: string

    constructor (rules: Rules)
      ensures Valid() && this.rules == rules && Snapshot() == PENDING
    {
      this.rules, models, updatedAt, lastError := rules, map[], 0, "";
    }

    function Snapshot(): State
      reads this
    {
      State(models, updatedAt, lastError)
    }

    /** Every record is filed under its own id. */
    ghost predicate Valid()
      reads this
    {
      Keyed(models)
    }

    method RefreshGateway(r: Refresh)
      requires Valid()
      modifies this
      ensures Valid()
      ensures Snapshot() == Refreshed(rules, old(Snapshot()), r)
    {
      hide Indexed, Decode;
      RefreshIsKeyed(rules, Snapshot(), r);
      var error := "";
      if r.fetch.Threw? {
        error := r.fetch.error;
      } else if r.fetch.models == [] {
        error := rules.title + " models endpoint returned an empty list";
      } else {
        models := Indexed(r.fetch.models);
        updatedAt := r.now;
        lastError := "";
        if !rules.cached || r.saveError.None? {
          return;
        }
        error := r.saveError.value;
      }
      if rules.cached && models == map[] {
        var stored := LoadModelCache(r.cache, r.later);
        if |stored| > 0 {
          models := Indexed(stored);
          updatedAt := r.cache.updatedAt.value;
        }
      }
      lastError := error;
    }

    method LoadModelCache(cache: CacheFile, now: int) returns (stored: seq<Model>)
      ensures stored == Usable(cache, now)
    {
      if cache.Unreadable? || cache.updatedAt.None? || now - cache.updatedAt.value > CACHE_TTL_MS {
        return [];
      }
      stored := DecodeKiloModels(cache.rows);
    }

    /** Exposed ids. The loop may visit the snapshot in any order. */
    method List() returns (ids: seq<string>)
      requires Valid()
      ensures IsListing(rules, Snapshot(), ids)
    {
      if models == map[] {
        return rules.staticModels;
      }
      ids := [];
      var left := models.Keys;
      while left != {}
        invariant left <= models.Keys
        invariant Sorted(ids)
        invariant forall id :: id in ids <==> id in models && id !in left && Decide(rules, Snapshot(), id).allowed
        decreases left
      {
        hide Decide, Insert;
        var key :| key in left;
        left := left - {key};
        var model := models[key];
        if Decide(rules, Snapshot(), model.id).allowed {
          InsertKeepsSorted(ids, model.id);
          ids := Insert(ids, model.id);
        }
      }
    }
  }

  // ---- Whole runs --------------------------------------------------------------------------

  function After(rules: Rules, refreshes: seq<Refresh>): State {
    if refreshes == [] then PENDING
    else Refreshed(rules, After(rules, refreshes[..|refreshes| - 1]), refreshes[|refreshes| - 1])
  }

  /** A refresh that brings no models. */
  predicate Fails(r: Refresh) {
    r.fetch.Threw? || r.fetch.models == []
  }

  lemma IndexedIsFilled(models: seq<Model>)
    requires models != []
    ensures Indexed(models) != map[]
  {
    assert models[|models| - 1].id in Indexed(models);
  }

  lemma RefreshKeeps(rules: Rules, s: State, r: Refresh)
    ensures s.models != map[] ==> Refreshed(rules, s, r).models != map[]
    ensures s.models != map[] && Fails(r) ==>
              Refreshed(rules, s, r).models == s.models && Refreshed(rules, s, r).updatedAt == s.updatedAt
    ensures !Fails(r) ==> Refreshed(rules, s, r).models == Indexed(r.fetch.models) && Refreshed(rules, s, r).updatedAt == r.now
    ensures Fails(r) && Refreshed(rules, s, r).models != s.models ==>
              s.models == map[] && Refreshed(rules, s, r).models == Indexed(Usable(r.cache, r.later))
  {
    hide Indexed, Usable;
    if r.fetch.Fetched? && r.fetch.models != [] {
      IndexedIsFilled(r.fetch.models);
    }
  }

  /** A failed refresh of an empty directory takes what the cache holds, if there is one that is no
  older than seven days, and otherwise leaves it empty. */
  lemma CacheRescues(rules: Rules, s: State, r: Refresh)
    requires s.models == map[] && Fails(r)
    ensures Refreshed(rules, s, r).models
         == if rules.cached && r.cache.File? && r.cache.updatedAt.Some? && r.later - r.cache.updatedAt.value <= 604_800_000
            then Indexed(Decode(r.cache.rows)) else map[]
  {
    hide Decode;
  }

  /** What a refresh reports: nothing after a success; what was thrown, that the answer was empty, or
  that the cache could not be written; and the cache's own time when that is where the models
  come from. */
  lemma RefreshReports(rules: Rules, s: State, r: Refresh)
    ensures var t := Refreshed(rules, s, r);
            && (r.fetch.Threw? ==> t.lastError == r.fetch.error)
            && (r.fetch.Fetched? && r.fetch.models == [] ==>
                  t.lastError == rules.title + " models endpoint returned an empty list")
            && (!Fails(r) ==> t.lastError == if rules.cached && r.saveError.Some? then r.saveError.value else "")
            && (Fails(r) && t.models != s.models ==> r.cache.File? && r.cache.updatedAt == Some(t.updatedAt))
  {
    hide Indexed, Decode;
    if r.fetch.Fetched? && r.fetch.models != [] {
      IndexedIsFilled(r.fetch.models);
    }
  }

  /** Once filled, the snapshot stays filled; and it is that of the last fetch that brought models,
  if there has been one. */
  lemma {:induction false} SnapshotOverRuns(rules: Rules, refreshes: seq<Refresh>, n: nat)
    requires n <= |refreshes|
    ensures After(rules, refreshes[..n]).models != map[] ==> After(rules, refreshes).models != map[]
    ensures n < |refreshes| && !Fails(refreshes[n]) && (forall i | n < i < |refreshes| :: Fails(refreshes[i])) ==>
              After(rules, refreshes).models == Indexed(refreshes[n].fetch.models)
    decreases |refreshes|
  {
    hide Indexed, Refreshed, Fails;
    if n == |refreshes| {
      assert refreshes[..n] == refreshes;
    } else {
      var front, last := refreshes[..|refreshes| - 1], refreshes[|refreshes| - 1];
      assert front[..n] == refreshes[..n];
      SnapshotOverRuns(rules, front, n);
      RefreshKeeps(rules, After(rules, front), last);
      if !Fails(refreshes[n]) {
        LiveIsFilled(refreshes[n]);
      }
    }
  }

  lemma LiveIsFilled(r: Refresh)
    requires !Fails(r)
    ensures Indexed(r.fetch.models) != map[]
  {
    IndexedIsFilled(r.fetch.models);
  }

  // ---- What is listed after a run ----------------------------------------------------------

  /** Free, answering text, and able to use tools where that is required. */
  predicate Exposed(rules: Rules, m: Model) {
    rules.free(m) && rules.textOutput(m) && (rules.requireTools ==> rules.tools(m))
  }

  /** The built-in fetcher answers with decoded rows. */
  ghost predicate Decoded(r: Refresh) {
    r.fetch.Fetched? ==> exists rows :: r.fetch.models == Decode(rows)
  }

  /** The snapshot files the models of one clean list. */
  ghost predicate Files(s: State, models: seq<Model>) {
    Clean(models) && s.models == Indexed(models)
  }

  lemma {:induction false} IndexedHolds(models: seq<Model>)
    requires Clean(models)
    ensures forall m | m in models :: m.id in Indexed(models) && Indexed(models)[m.id] == m
    ensures forall id | id in Indexed(models) :: Indexed(models)[id] in models && Indexed(models)[id].id == id
  {
    hide Trim;
    if models != [] {
      var front, last := models[..|models| - 1], models[|models| - 1];
      CleanParts(models);
      IndexedHolds(front);
      assert models == front + [last];
    }
  }

  lemma UsableIsClean(cache: CacheFile, now: int)
    ensures Clean(Usable(cache, now))
  {
    hide Clean, Decode;
    if cache.File? {
      DecodeIsClean(cache.rows);
    }
    assert Clean([]) by {
      DecodeIsClean([]);
      NothingDecoded();
    }
  }

  lemma NothingDecoded()
    ensures Decode([]) == []
  {
  }

  /** After any run of decoded answers the snapshot files one decoded list. */
  lemma {:induction false} SnapshotFiles(rules: Rules, refreshes: seq<Refresh>) returns (models: seq<Model>)
    requires forall r | r in refreshes :: Decoded(r)
    ensures Files(After(rules, refreshes), models)
  {
    hide Clean, Decode, Refreshed, Usable;
    models := [];
    if refreshes == [] {
      DecodeIsClean([]);
      NothingDecoded();
    } else {
      var front, last := refreshes[..|refreshes| - 1], refreshes[|refreshes| - 1];
      assert last in refreshes && forall r | r in front :: r in refreshes;
      models := SnapshotFiles(rules, front);
      models := RefreshFiles(rules, After(rules, front), last, models);
    }
  }

  lemma RefreshFiles(rules: Rules, s: State, r: Refresh, before: seq<Model>) returns (models: seq<Model>)
    requires Files(s, before) && Decoded(r)
    ensures Files(Refreshed(rules, s, r), models)
  {
    hide Clean, Decode, Indexed, Usable;
    RefreshKeeps(rules, s, r);
    UsableIsClean(r.cache, r.later);
    if r.fetch.Fetched? {
      var rows :| r.fetch.models == Decode(rows);
      DecodeIsClean(rows);
    }
    models := if !Fails(r) then r.fetch.models
              else if Refreshed(rules, s, r).models == s.models then before else Usable(r.cache, r.later);
  }

  /** A listing of a snapshot that files a clean list: exactly the ids of its exposed models. */
  lemma FiledListing(rules: Rules, s: State, models: seq<Model>, ids: seq<string>)
    requires Files(s, models) && models != [] && IsListing(rules, s, ids)
    ensures Sorted(ids) && forall id :: id in ids <==> exists m :: m in models && m.id == id && Exposed(rules, m)
  {
    hide Trim, Indexed, Sorted;
    IndexedHolds(models);
    IndexedIsFilled(models);
    forall id ensures id in ids <==> exists m :: m in models && m.id == id && Exposed(rules, m) {
      if id in s.models {
        assert Trim(id) == id;
        assert Decide(rules, s, id) == Judge(rules, s.models[id]);
      }
    }
  }

  /** Whatever was fetched, failed or read from the cache before, the listing after a run is the
  sorted ids of the exposed models of the last fetch that brought any. */
  lemma ListingOfLastFetch(rules: Rules, refreshes: seq<Refresh>, n: nat, ids: seq<string>)
    requires n < |refreshes| && !Fails(refreshes[n]) && forall i | n < i < |refreshes| :: Fails(refreshes[i])
    requires Decoded(refreshes[n])
    requires IsListing(rules, After(rules, refreshes), ids)
    ensures Sorted(ids)
    ensures forall id :: id in ids
              <==> exists m :: m in refreshes[n].fetch.models && m.id == id && Exposed(rules, m)
  {
    hide After, Sorted, IsListing;
    SnapshotOverRuns(rules, refreshes, n);
    var rows :| refreshes[n].fetch.models == Decode(rows);
    DecodeIsClean(rows);
    FiledListing(rules, After(rules, refreshes), refreshes[n].fetch.models, ids);
  }

  /** A decision after any run depends on the last fetch that brought models alone: allowed is a name
  that, trimmed, is the id of one of its exposed models; what it does not have is refused as missing. */
  lemma DecisionAfterRuns(rules: Rules, refreshes: seq<Refresh>, n: nat, model: string)
    requires n < |refreshes| && !Fails(refreshes[n]) && forall i | n < i < |refreshes| :: Fails(refreshes[i])
    requires Decoded(refreshes[n])
    ensures var d, models := Decide(rules, After(rules, refreshes), model), refreshes[n].fetch.models;
            && (d.allowed <==> exists m :: m in models && m.id == Trim(model) && Exposed(rules, m))
            && (d.known <==> exists m :: m in models && m.id == Trim(model))
            && (!d.known ==> d.source == "catalog_missing")
  {
    hide After, Clean, Trim, Decide, Indexed;
    var s := After(rules, refreshes);
    SnapshotOverRuns(rules, refreshes, n);
    var rows :| refreshes[n].fetch.models == Decode(rows);
    DecodeIsClean(rows);
    IndexedHolds(refreshes[n].fetch.models);
    IndexedIsFilled(refreshes[n].fetch.models);
    DecisionIs(rules, s, model);
    assert s.models == Indexed(refreshes[n].fetch.models);
  }

  /** After any run of decoded answers that has left a snapshot: a listed id is one whose own
  record is exposed, no two listings of it differ, and the listing is sorted. */
  lemma ListingOverRuns(rules: Rules, refreshes: seq<Refresh>, ids: seq<string>, again: seq<string>)
    requires forall r | r in refreshes :: Decoded(r)
    requires After(rules, refreshes).models != map[]
    requires IsListing(rules, After(rules, refreshes), ids) && IsListing(rules, After(rules, refreshes), again)
    ensures var models := After(rules, refreshes).models;
            forall id :: id in ids <==> id in models && models[id].id == id && Exposed(rules, models[id])
    ensures Sorted(ids) && again == ids
  {
    hide After, Sorted, IsListing, Exposed, Clean;
    var s := After(rules, refreshes);
    var models := SnapshotFiles(rules, refreshes);
    FiledListing(rules, s, models, ids);
    FiledListing(rules, s, models, again);
    IndexedHolds(models);
    SortedIsUnique(ids, again);
  }
}
