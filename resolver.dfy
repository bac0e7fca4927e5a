/**
 * The older staged resolver (`MasterDataResolver`): a field, crop or
 * material text is matched against the master rows in four stages, exact
 * (1.0), partial (length ratio capped at 0.8), fuzzy (similarity above 0.6)
 * and no match (0.0).  The master rows are cached for 300 seconds in
 * fields of the resolver; the clock and the database answer are
 * parameters.
 */
module Resolver {
  import opened Common
  import opened Sorting

  const CacheTimeout: real := 300.0
  /** `to_list(1000)`: at most this many rows are read per query. */
  const FetchLimit: nat := 1000
  const PartialCap: real := 0.8
  const FuzzyThreshold: real := 0.6

  /** The `method` key of a resolution. */
  datatype Via = ExactMatch | VarietyMatch | AliasMatch | PartialMatch | FuzzyMatch | NoMatchFound | Failure

  /** The dictionary `resolve_*` returns: id, name, the variety for a variety match, confidence, method, error text. */
  datatype Resolution = Resolution(id: Option<string>, name: Option<string>, variety: Option<string>,
                                   confidence: real, via: Via, error: Option<string>)

  /** A row of `fields` (`_id`, `name`, `field_code`; an absent key is None). */
  datatype FieldRow = FieldRow(id: string, name: Option<string>, code: Option<string>)
  /** A row of `crops`, with the `name` of each variety. */
  datatype CropRow = CropRow(id: string, name: Option<string>, varieties: seq<Option<string>>)
  /** A row of `materials`, with its aliases. */
  datatype MaterialRow = MaterialRow(id: string, name: Option<string>, aliases: seq<string>)

  // ---------------------------------------------------------------------
  // The TTL cache of `_get_*_data`
  // ---------------------------------------------------------------------

  /** The cached rows are returned when present and younger than the timeout. */
  predicate CacheFresh<T>(cache: Option<seq<T>>, cachedAt: real, now: real)
  {
    cache.Some? && now - cachedAt < CacheTimeout
  }

  /** What `_get_*_data` returns: the cache, or the first 1000 rows of the query, or the query's failure. */
  function Load<T>(cache: Option<seq<T>>, cachedAt: real, now: real, db: Fetch<T>): (r: Fetch<T>)
    ensures CacheFresh(cache, cachedAt, now) ==> r == Fetched(cache.value)
    ensures !CacheFresh(cache, cachedAt, now) && db.Failed? ==> r == db
    ensures r.Fetched? && !CacheFresh(cache, cachedAt, now) ==> |r.rows| <= FetchLimit && r.rows <= db.rows
  {
    if CacheFresh(cache, cachedAt, now) then Fetched(cache.value)
    else if db.Failed? then db
    else Fetched(Take(db.rows, FetchLimit))
  }

  /** The cache and its timestamp after `_get_*_data`. */
  function CacheAfter<T>(cache: Option<seq<T>>, cachedAt: real, now: real, db: Fetch<T>): (Option<seq<T>>, real)
  {
    if CacheFresh(cache, cachedAt, now) || db.Failed? then (cache, cachedAt)
    else (Some(Take(db.rows, FetchLimit)), now)
  }

  /**
   * After a load that returned rows, the cache holds exactly those rows and
   * is fresh; a failed query leaves the cache as it was.
   */
  lemma LoadLeavesFreshCache<T>(cache: Option<seq<T>>, cachedAt: real, now: real, db: Fetch<T>)
    ensures var r, after := Load(cache, cachedAt, now, db), CacheAfter(cache, cachedAt, now, db);
            (r.Fetched? ==> after.0 == Some(r.rows) && CacheFresh(after.0, after.1, now))
            && (r.Failed? ==> after == (cache, cachedAt))
  {
  }

  /**
   * Within 300 seconds of a refresh from the database, every later load
   * returns the rows of that refresh, whatever the database would now answer.
   */
  lemma CacheReusedWithinTimeout<T>(cache: Option<seq<T>>, cachedAt: real, now: real, db: Fetch<T>,
                                    later: real, db': Fetch<T>)
    requires !CacheFresh(cache, cachedAt, now) && db.Fetched?
    requires now <= later < now + CacheTimeout
    ensures var after := CacheAfter(cache, cachedAt, now, db);
            Load(after.0, after.1, later, db') == Load(cache, cachedAt, now, db)
  {
  }

  // ---------------------------------------------------------------------
  // Scores shared by the three entities
  // ---------------------------------------------------------------------

  lemma RatioAtLeastOne(a: nat, b: nat)
    requires 0 < b <= a
    ensures a as real / b as real >= 1.0
  {
    var br := b as real;
    var q := a as real / br;
    assert (q - 1.0) * br == a as real - br;
    NonnegativeFactor(q - 1.0, br);
  }

  lemma NonnegativeFactor(x: real, y: real)
    requires y > 0.0 && x * y >= 0.0
    ensures x >= 0.0
  {
  }

  /**
   * Partial-stage score: `max(len(text)/len(name) if name else 0,
   * len(name)/len(text) if text else 0)`.  One of the two quotients is at
   * least 1 whenever both strings are non-empty.
   */
  function LengthRatio(text: string, name: string): (s: real)
    ensures |text| > 0 && |name| > 0 ==> s >= 1.0
    ensures |text| == 0 || |name| == 0 ==> s == 0.0
  {
    if |text| > 0 && |name| > 0 then
      if |text| >= |name| then RatioAtLeastOne(|text|, |name|); MaxReal(|text| as real / |name| as real, |name| as real / |text| as real)
      else RatioAtLeastOne(|name|, |text|); MaxReal(|text| as real / |name| as real, |name| as real / |text| as real)
    else 0.0
  }

  /**
   * `min(score, 0.8)` on a length ratio is therefore 0.8 exactly when both
   * strings are non-empty, and 0.0 otherwise: the partial stage never
   * grades its matches.
   */
  lemma PartialConfidenceIsCapOrZero(text: string, name: string)
    ensures MinReal(LengthRatio(text, name), PartialCap) == if |text| > 0 && |name| > 0 then PartialCap else 0.0
  {
  }

  /** Partial stage of crops and materials: the text and the name ('' when absent) contain one another. */
  predicate NamePartial(text: string, name: Option<string>)
  {
    Contains(OrEmpty(name), text) || Contains(text, OrEmpty(name))
  }

  function NamePartialEntry<T>(text: string, row: T, name: Option<string>): (e: Option<Scored<T>>)
    ensures e.Some? <==> NamePartial(text, name)
    ensures e.Some? ==> e.value.row == row && e.value.score == LengthRatio(text, OrEmpty(name))
  {
    if NamePartial(text, name) then Some(Scored(row, LengthRatio(text, OrEmpty(name)))) else None
  }

  /** Fuzzy stage for one row: a non-empty name whose similarity to the text exceeds 0.6. */
  function FuzzyEntry<T>(text: string, row: T, name: Option<string>, ratio: Ratio): (e: Option<Scored<T>>)
    ensures e.Some? <==> Truthy(name) && ratio(text, name.value) > FuzzyThreshold
    ensures e.Some? ==> e.value.row == row && e.value.score == ratio(text, name.value)
    ensures e.Some? ==> FuzzyThreshold < e.value.score <= 1.0
  {
    if Truthy(name) && ratio(text, name.value) > FuzzyThreshold then Some(Scored(row, ratio(text, name.value)))
    else None
  }

  /** The no-match dictionary: no id, the input echoed as the name, confidence 0.0. */
  function NoMatchResolution(text: string): (r: Resolution)
    ensures r.id.None? && r.name == Some(text) && r.confidence == 0.0 && r.via == NoMatchFound
  {
    Resolution(None, Some(text), None, 0.0, NoMatchFound, None)
  }

  /** The dictionary of the `except` branch of `resolve_*`. */
  function ErrorResolution(text: string, message: string): (r: Resolution)
    ensures r.id.None? && r.name == Some(text) && r.confidence == 0.0 && r.via == Failure
    ensures r.error == Some(message)
  {
    Resolution(None, Some(text), None, 0.0, Failure, Some(message))
  }

  // ---------------------------------------------------------------------
  // Fields
  // ---------------------------------------------------------------------

  /** Stage 1: the name or the code equals the text. */
  predicate FieldExact(text: string, f: FieldRow)
  {
    f.name == Some(text) || f.code == Some(text)
  }

  /** `field.get('name', field.get('field_code'))`. */
  function FieldLabel(f: FieldRow): (r: Option<string>)
    ensures f.name.Some? ==> r == f.name
    ensures f.name.None? ==> r == f.code
  {
    if f.name.Some? then f.name else f.code
  }

  /** Stage 2: the text and the name or the code contain one another, an absent key reading as ''. */
  predicate FieldPartial(text: string, f: FieldRow)
  {
    NamePartial(text, f.name) || Contains(OrEmpty(f.code), text) || Contains(text, OrEmpty(f.code))
  }

  function FieldPartialEntry(text: string, f: FieldRow): (e: Option<Scored<FieldRow>>)
    ensures e.Some? <==> FieldPartial(text, f)
    ensures e.Some? ==> e.value.row == f && e.value.score == LengthRatio(text, OrEmpty(f.name))
  {
    if FieldPartial(text, f) then Some(Scored(f, LengthRatio(text, OrEmpty(f.name)))) else None
  }

  function FieldPartials(text: string, rows: seq<FieldRow>): (es: seq<Option<Scored<FieldRow>>>)
    ensures |es| == |rows| && forall i :: 0 <= i < |rows| ==> es[i] == FieldPartialEntry(text, rows[i])
  {
    seq(|rows|, i requires 0 <= i < |rows| => FieldPartialEntry(text, rows[i]))
  }

  function FieldFuzzies(text: string, rows: seq<FieldRow>, ratio: Ratio): (es: seq<Option<Scored<FieldRow>>>)
    ensures |es| == |rows| && forall i :: 0 <= i < |rows| ==> es[i] == FuzzyEntry(text, rows[i], rows[i].name, ratio)
  {
    seq(|rows|, i requires 0 <= i < |rows| => FuzzyEntry(text, rows[i], rows[i].name, ratio))
  }

  /** Position of the first row that stage 1 accepts. */
  function FieldExactIndex(text: string, rows: seq<FieldRow>): (k: Option<nat>)
    ensures k.Some? ==> k.value < |rows| && FieldExact(text, rows[k.value])
    ensures k.Some? ==> forall j :: 0 <= j < k.value ==> !FieldExact(text, rows[j])
    ensures k.None? <==> forall j :: 0 <= j < |rows| ==> !FieldExact(text, rows[j])
  {
    FirstIndex(rows, (f: FieldRow) => FieldExact(text, f))
  }

  /** `_multi_stage_field_matching` as a value. */
  function FieldResolution(text: string, rows: seq<FieldRow>, ratio: Ratio): Resolution
  {
    var exact := FieldExactIndex(text, rows);
    if exact.Some? then
      var f := rows[exact.value];
      Resolution(Some(f.id), FieldLabel(f), None, 1.0, ExactMatch, None)
    else
      var partial := Somes(FieldPartials(text, rows));
      if |partial| > 0 then
        var best := Best(partial);
        Resolution(Some(best.row.id), FieldLabel(best.row), None, MinReal(best.score, PartialCap), PartialMatch, None)
      else
        var fuzzy := Somes(FieldFuzzies(text, rows, ratio));
        if |fuzzy| > 0 then
          var best := Best(fuzzy);
          Resolution(Some(best.row.id), best.row.name, None, best.score, FuzzyMatch, None)
        else
          NoMatchResolution(text)
  }

  /** The four stages of `_multi_stage_field_matching` and what each promises. */
  lemma FieldResolutionStages(text: string, rows: seq<FieldRow>, ratio: Ratio)
    ensures var r := FieldResolution(text, rows, ratio);
            (r.via == ExactMatch || r.via == PartialMatch || r.via == FuzzyMatch || r.via == NoMatchFound)
            && (r.id.Some? <==> r.via != NoMatchFound)
            && (r.via == ExactMatch ==> r.confidence == 1.0)
            && (r.via == PartialMatch ==> r.confidence == 0.0 || r.confidence == PartialCap)
            && (r.via == FuzzyMatch ==> FuzzyThreshold < r.confidence <= 1.0)
            && (r.via == NoMatchFound ==> r == NoMatchResolution(text))
  {
    if FieldExactIndex(text, rows).None? {
      var partial := Somes(FieldPartials(text, rows));
      if |partial| > 0 {
        PartialConfidenceIsCapOrZero(text, OrEmpty(Best(partial).row.name));
      } else {
        SomesAll(FieldFuzzies(text, rows, ratio), (s: Scored<FieldRow>) => FuzzyThreshold < s.score <= 1.0);
      }
    }
  }

  /** An exact name or code match takes the first such field in list order, at confidence 1.0. */
  lemma FieldExactTakesFirst(text: string, rows: seq<FieldRow>, ratio: Ratio, k: nat)
    requires k < |rows| && FieldExact(text, rows[k])
    requires forall j :: 0 <= j < k ==> !FieldExact(text, rows[j])
    ensures var r := FieldResolution(text, rows, ratio);
            r.via == ExactMatch && r.id == Some(rows[k].id) && r.name == FieldLabel(rows[k]) && r.confidence == 1.0
  {
    var exact := FieldExactIndex(text, rows);
    assert exact.Some?;
    assert exact.value == k;
  }

  /** The fuzzy stage is reached only when no field matched exactly or partially. */
  lemma FieldFuzzyOnlyWithoutPartial(text: string, rows: seq<FieldRow>, ratio: Ratio)
    requires FieldResolution(text, rows, ratio).via == FuzzyMatch
    ensures forall f | f in rows :: !FieldExact(text, f) && !FieldPartial(text, f)
  {
    SomesEmpty(FieldPartials(text, rows));
  }

  /**
   * A field without a `field_code` reads as code '', which every text
   * contains: unless some field matches exactly, the partial stage always
   * answers.
   */
  lemma FieldWithoutCodeMatchesPartially(text: string, rows: seq<FieldRow>, ratio: Ratio, k: nat)
    requires k < |rows| && rows[k].code.None?
    requires forall f | f in rows :: !FieldExact(text, f)
    ensures FieldResolution(text, rows, ratio).via == PartialMatch
  {
    ContainsEmpty(text);
    assert FieldPartials(text, rows)[k].Some?;
    SomesKeeps(FieldPartials(text, rows), k);
  }

  // ---------------------------------------------------------------------
  // Crops
  // ---------------------------------------------------------------------

  /** Stage 1 for one crop: its name, then one of its varieties, equals the text. */
  predicate CropExact(text: string, c: CropRow)
  {
    c.name == Some(text) || Some(text) in c.varieties
  }

  function CropPartials(text: string, rows: seq<CropRow>): (es: seq<Option<Scored<CropRow>>>)
    ensures |es| == |rows| && forall i :: 0 <= i < |rows| ==> es[i] == NamePartialEntry(text, rows[i], rows[i].name)
  {
    seq(|rows|, i requires 0 <= i < |rows| => NamePartialEntry(text, rows[i], rows[i].name))
  }

  function CropFuzzies(text: string, rows: seq<CropRow>, ratio: Ratio): (es: seq<Option<Scored<CropRow>>>)
    ensures |es| == |rows| && forall i :: 0 <= i < |rows| ==> es[i] == FuzzyEntry(text, rows[i], rows[i].name, ratio)
  {
    seq(|rows|, i requires 0 <= i < |rows| => FuzzyEntry(text, rows[i], rows[i].name, ratio))
  }

  /** Position of the first row that stage 1 accepts. */
  function CropExactIndex(text: string, rows: seq<CropRow>): (k: Option<nat>)
    ensures k.Some? ==> k.value < |rows| && CropExact(text, rows[k.value])
    ensures k.Some? ==> forall j :: 0 <= j < k.value ==> !CropExact(text, rows[j])
    ensures k.None? <==> forall j :: 0 <= j < |rows| ==> !CropExact(text, rows[j])
  {
    FirstIndex(rows, (c: CropRow) => CropExact(text, c))
  }

  /** `_multi_stage_crop_matching` as a value. */
  function CropResolution(text: string, rows: seq<CropRow>, ratio: Ratio): Resolution
  {
    var exact := CropExactIndex(text, rows);
    if exact.Some? then
      var c := rows[exact.value];
      if c.name == Some(text) then Resolution(Some(c.id), c.name, None, 1.0, ExactMatch, None)
      else Resolution(Some(c.id), c.name, Some(text), 1.0, VarietyMatch, None)
    else
      var partial := Somes(CropPartials(text, rows));
      if |partial| > 0 then
        var best := Best(partial);
        Resolution(Some(best.row.id), best.row.name, None, MinReal(best.score, PartialCap), PartialMatch, None)
      else
        var fuzzy := Somes(CropFuzzies(text, rows, ratio));
        if |fuzzy| > 0 then
          var best := Best(fuzzy);
          Resolution(Some(best.row.id), best.row.name, None, best.score, FuzzyMatch, None)
        else
          NoMatchResolution(text)
  }

  /** The four stages of `_multi_stage_crop_matching` and what each promises. */
  lemma CropResolutionStages(text: string, rows: seq<CropRow>, ratio: Ratio)
    ensures var r := CropResolution(text, rows, ratio);
            (r.via == ExactMatch || r.via == VarietyMatch || r.via == PartialMatch || r.via == FuzzyMatch || r.via == NoMatchFound)
            && (r.id.Some? <==> r.via != NoMatchFound)
            && (r.via == ExactMatch || r.via == VarietyMatch ==> r.confidence == 1.0)
            && (r.via == VarietyMatch <==> r.variety.Some?)
            && (r.via == PartialMatch ==> (r.confidence == PartialCap <==> |text| > 0 && Truthy(r.name)))
            && (r.via == PartialMatch ==> (r.confidence == 0.0 <==> !(|text| > 0 && Truthy(r.name))))
            && (r.via == FuzzyMatch ==> FuzzyThreshold < r.confidence <= 1.0)
            && (r.via == NoMatchFound ==> r == NoMatchResolution(text))
  {
    if CropExactIndex(text, rows).None? {
      var partial := Somes(CropPartials(text, rows));
      if |partial| > 0 {
        PartialConfidenceIsCapOrZero(text, OrEmpty(Best(partial).row.name));
        SomesAll(CropPartials(text, rows),
                 (s: Scored<CropRow>) => s.score == LengthRatio(text, OrEmpty(s.row.name)));
      } else {
        SomesAll(CropFuzzies(text, rows, ratio), (s: Scored<CropRow>) => FuzzyThreshold < s.score <= 1.0);
      }
    }
  }

  /**
   * The first crop whose name or one of whose varieties equals the text
   * answers; when it is a variety, the method is variety_match and the
   * variety is reported.
   */
  lemma CropExactTakesFirst(text: string, rows: seq<CropRow>, ratio: Ratio, k: nat)
    requires k < |rows| && CropExact(text, rows[k])
    requires forall j :: 0 <= j < k ==> !CropExact(text, rows[j])
    ensures var r := CropResolution(text, rows, ratio);
            r.id == Some(rows[k].id) && r.name == rows[k].name && r.confidence == 1.0
            && (rows[k].name == Some(text) ==> r.via == ExactMatch)
            && (rows[k].name != Some(text) ==> r.via == VarietyMatch && r.variety == Some(text))
  {
    var exact := CropExactIndex(text, rows);
    assert exact.Some?;
    assert exact.value == k;
  }

  lemma CropFuzzyOnlyWithoutPartial(text: string, rows: seq<CropRow>, ratio: Ratio)
    requires CropResolution(text, rows, ratio).via == FuzzyMatch
    ensures forall c | c in rows :: !CropExact(text, c) && !NamePartial(text, c.name)
  {
    SomesEmpty(CropPartials(text, rows));
  }

  // ---------------------------------------------------------------------
  // Materials
  // ---------------------------------------------------------------------

  /** Stage 1 for one material: its name equals the text, or the text is one of its aliases. */
  predicate MaterialExact(text: string, m: MaterialRow)
  {
    m.name == Some(text) || text in m.aliases
  }

  function MaterialPartials(text: string, rows: seq<MaterialRow>): (es: seq<Option<Scored<MaterialRow>>>)
    ensures |es| == |rows| && forall i :: 0 <= i < |rows| ==> es[i] == NamePartialEntry(text, rows[i], rows[i].name)
  {
    seq(|rows|, i requires 0 <= i < |rows| => NamePartialEntry(text, rows[i], rows[i].name))
  }

  function MaterialFuzzies(text: string, rows: seq<MaterialRow>, ratio: Ratio): (es: seq<Option<Scored<MaterialRow>>>)
    ensures |es| == |rows| && forall i :: 0 <= i < |rows| ==> es[i] == FuzzyEntry(text, rows[i], rows[i].name, ratio)
  {
    seq(|rows|, i requires 0 <= i < |rows| => FuzzyEntry(text, rows[i], rows[i].name, ratio))
  }

  /** Position of the first row that stage 1 accepts. */
  function MaterialExactIndex(text: string, rows: seq<MaterialRow>): (k: Option<nat>)
    ensures k.Some? ==> k.value < |rows| && MaterialExact(text, rows[k.value])
    ensures k.Some? ==> forall j :: 0 <= j < k.value ==> !MaterialExact(text, rows[j])
    ensures k.None? <==> forall j :: 0 <= j < |rows| ==> !MaterialExact(text, rows[j])
  {
    FirstIndex(rows, (m: MaterialRow) => MaterialExact(text, m))
  }

  /** `_multi_stage_material_matching` as a value. */
  function MaterialResolution(text: string, rows: seq<MaterialRow>, ratio: Ratio): Resolution
  {
    var exact := MaterialExactIndex(text, rows);
    if exact.Some? then
      var m := rows[exact.value];
      Resolution(Some(m.id), m.name, None, 1.0, if m.name == Some(text) then ExactMatch else AliasMatch, None)
    else
      var partial := Somes(MaterialPartials(text, rows));
      if |partial| > 0 then
        var best := Best(partial);
        Resolution(Some(best.row.id), best.row.name, None, MinReal(best.score, PartialCap), PartialMatch, None)
      else
        var fuzzy := Somes(MaterialFuzzies(text, rows, ratio));
        if |fuzzy| > 0 then
          var best := Best(fuzzy);
          Resolution(Some(best.row.id), best.row.name, None, best.score, FuzzyMatch, None)
        else
          NoMatchResolution(text)
  }

  /** The four stages of `_multi_stage_material_matching` and what each promises. */
  lemma MaterialResolutionStages(text: string, rows: seq<MaterialRow>, ratio: Ratio)
    ensures var r := MaterialResolution(text, rows, ratio);
            (r.via == ExactMatch || r.via == AliasMatch || r.via == PartialMatch || r.via == FuzzyMatch || r.via == NoMatchFound)
            && (r.id.Some? <==> r.via != NoMatchFound)
            && (r.via == ExactMatch || r.via == AliasMatch ==> r.confidence == 1.0)
            && (r.via == PartialMatch ==> (r.confidence == PartialCap <==> |text| > 0 && Truthy(r.name)))
            && (r.via == PartialMatch ==> (r.confidence == 0.0 <==> !(|text| > 0 && Truthy(r.name))))
            && (r.via == FuzzyMatch ==> FuzzyThreshold < r.confidence <= 1.0)
            && (r.via == NoMatchFound ==> r == NoMatchResolution(text))
  {
    if MaterialExactIndex(text, rows).None? {
      var partial := Somes(MaterialPartials(text, rows));
      if |partial| > 0 {
        PartialConfidenceIsCapOrZero(text, OrEmpty(Best(partial).row.name));
        SomesAll(MaterialPartials(text, rows),
                 (s: Scored<MaterialRow>) => s.score == LengthRatio(text, OrEmpty(s.row.name)));
      } else {
        SomesAll(MaterialFuzzies(text, rows, ratio), (s: Scored<MaterialRow>) => FuzzyThreshold < s.score <= 1.0);
      }
    }
  }

  /** The first material named by the text or carrying it as an alias answers, at confidence 1.0. */
  lemma MaterialExactTakesFirst(text: string, rows: seq<MaterialRow>, ratio: Ratio, k: nat)
    requires k < |rows| && MaterialExact(text, rows[k])
    requires forall j :: 0 <= j < k ==> !MaterialExact(text, rows[j])
    ensures var r := MaterialResolution(text, rows, ratio);
            r.id == Some(rows[k].id) && r.name == rows[k].name && r.confidence == 1.0
            && (rows[k].name == Some(text) ==> r.via == ExactMatch)
            && (rows[k].name != Some(text) ==> r.via == AliasMatch)
  {
    var exact := MaterialExactIndex(text, rows);
    assert exact.Some?;
    assert exact.value == k;
  }

  lemma MaterialFuzzyOnlyWithoutPartial(text: string, rows: seq<MaterialRow>, ratio: Ratio)
    requires MaterialResolution(text, rows, ratio).via == FuzzyMatch
    ensures forall m | m in rows :: !MaterialExact(text, m) && !NamePartial(text, m.name)
  {
    SomesEmpty(MaterialPartials(text, rows));
  }

  // ---------------------------------------------------------------------
  // The resolver object
  // ---------------------------------------------------------------------

  class MasterDataResolver {
    var fieldsCache: Option<seq<FieldRow>>
    var cropsCache: Option<seq<CropRow>>
    var materialsCache: Option<seq<MaterialRow>>
    var fieldsCacheTime: real
    var cropsCacheTime: real
    var materialsCacheTime: real

    /** Empty caches stamped at time 0. */
    constructor()
      ensures fieldsCache.None? && cropsCache.None? && materialsCache.None?
      ensures fieldsCacheTime == 0.0 && cropsCacheTime == 0.0 && materialsCacheTime == 0.0
    {
      fieldsCache, cropsCache, materialsCache := None, None, None;
      fieldsCacheTime, cropsCacheTime, materialsCacheTime := 0.0, 0.0, 0.0;
    }

    /** `_get_fields_data` at clock `now`, with `db` the answer the fields query would give. */
    method GetFieldsData(now: real, db: Fetch<FieldRow>) returns (r: Fetch<FieldRow>)
      modifies this
      ensures r == Load(old(fieldsCache), old(fieldsCacheTime), now, db)
      ensures (fieldsCache, fieldsCacheTime) == CacheAfter(old(fieldsCache), old(fieldsCacheTime), now, db)
      ensures cropsCache == old(cropsCache) && cropsCacheTime == old(cropsCacheTime)
      ensures materialsCache == old(materialsCache) && materialsCacheTime == old(materialsCacheTime)
    {
      if fieldsCache.Some? && now - fieldsCacheTime < CacheTimeout {
        return Fetched(fieldsCache.value);
      }
      if db.Failed? {
        return db;
      }
      var rows := Take(db.rows, FetchLimit);
      fieldsCache := Some(rows);
      fieldsCacheTime := now;
      r := Fetched(rows);
    }

    /** `_get_crops_data`. */
    method GetCropsData(now: real, db: Fetch<CropRow>) returns (r: Fetch<CropRow>)
      modifies this
      ensures r == Load(old(cropsCache), old(cropsCacheTime), now, db)
      ensures (cropsCache, cropsCacheTime) == CacheAfter(old(cropsCache), old(cropsCacheTime), now, db)
      ensures fieldsCache == old(fieldsCache) && fieldsCacheTime == old(fieldsCacheTime)
      ensures materialsCache == old(materialsCache) && materialsCacheTime == old(materialsCacheTime)
    {
      if cropsCache.Some? && now - cropsCacheTime < CacheTimeout {
        return Fetched(cropsCache.value);
      }
      if db.Failed? {
        return db;
      }
      var rows := Take(db.rows, FetchLimit);
      cropsCache := Some(rows);
      cropsCacheTime := now;
      r := Fetched(rows);
    }

    /** `_get_materials_data`. */
    method GetMaterialsData(now: real, db: Fetch<MaterialRow>) returns (r: Fetch<MaterialRow>)
      modifies this
      ensures r == Load(old(materialsCache), old(materialsCacheTime), now, db)
      ensures (materialsCache, materialsCacheTime) == CacheAfter(old(materialsCache), old(materialsCacheTime), now, db)
      ensures fieldsCache == old(fieldsCache) && fieldsCacheTime == old(fieldsCacheTime)
      ensures cropsCache == old(cropsCache) && cropsCacheTime == old(cropsCacheTime)
    {
      if materialsCache.Some? && now - materialsCacheTime < CacheTimeout {
        return Fetched(materialsCache.value);
      }
      if db.Failed? {
        return db;
      }
      var rows := Take(db.rows, FetchLimit);
      materialsCache := Some(rows);
      materialsCacheTime := now;
      r := Fetched(rows);
    }

    /**
     * `resolve_field_data`: load the rows, then match; a failed query gives
     * the error dictionary.
     */
    method ResolveFieldData(text: string, now: real, db: Fetch<FieldRow>, ratio: Ratio) returns (r: Resolution)
      modifies this
      ensures var data := Load(old(fieldsCache), old(fieldsCacheTime), now, db);
              r == if data.Failed? then ErrorResolution(text, data.message) else FieldResolution(text, data.rows, ratio)
      ensures (fieldsCache, fieldsCacheTime) == CacheAfter(old(fieldsCache), old(fieldsCacheTime), now, db)
      ensures cropsCache == old(cropsCache) && cropsCacheTime == old(cropsCacheTime)
      ensures materialsCache == old(materialsCache) && materialsCacheTime == old(materialsCacheTime)
    {
      var data := GetFieldsData(now, db);
      if data.Failed? {
        return ErrorResolution(text, data.message);
      }
      r := MultiStageFieldMatching(text, data.rows, ratio);
    }

    /** `resolve_crop_data`. */
    method ResolveCropData(text: string, now: real, db: Fetch<CropRow>, ratio: Ratio) returns (r: Resolution)
      modifies this
      ensures var data := Load(old(cropsCache), old(cropsCacheTime), now, db);
              r == if data.Failed? then ErrorResolution(text, data.message) else CropResolution(text, data.rows, ratio)
      ensures (cropsCache, cropsCacheTime) == CacheAfter(old(cropsCache), old(cropsCacheTime), now, db)
      ensures fieldsCache == old(fieldsCache) && fieldsCacheTime == old(fieldsCacheTime)
      ensures materialsCache == old(materialsCache) && materialsCacheTime == old(materialsCacheTime)
    {
      var data := GetCropsData(now, db);
      if data.Failed? {
        return ErrorResolution(text, data.message);
      }
      r := MultiStageCropMatching(text, data.rows, ratio);
    }

    /** `resolve_material_data`. */
    method ResolveMaterialData(text: string, now: real, db: Fetch<MaterialRow>, ratio: Ratio) returns (r: Resolution)
      modifies this
      ensures var data := Load(old(materialsCache), old(materialsCacheTime), now, db);
              r == if data.Failed? then ErrorResolution(text, data.message) else MaterialResolution(text, data.rows, ratio)
      ensures (materialsCache, materialsCacheTime) == CacheAfter(old(materialsCache), old(materialsCacheTime), now, db)
      ensures fieldsCache == old(fieldsCache) && fieldsCacheTime == old(fieldsCacheTime)
      ensures cropsCache == old(cropsCache) && cropsCacheTime == old(cropsCacheTime)
    {
      var data := GetMaterialsData(now, db);
      if data.Failed? {
        return ErrorResolution(text, data.message);
      }
      r := MultiStageMaterialMatching(text, data.rows, ratio);
    }
  }

  // ---------------------------------------------------------------------
  // The staged loops
  // ---------------------------------------------------------------------

  /** Stage 1 of `_multi_stage_field_matching`: the loop that returns at the first exact name or code. */
  method FieldExactStage(text: string, rows: seq<FieldRow>) returns (k: Option<nat>)
    ensures k == FieldExactIndex(text, rows)
  {
    for i := 0 to |rows|
      invariant forall j :: 0 <= j < i ==> !FieldExact(text, rows[j])
    {
      if rows[i].name == Some(text) || rows[i].code == Some(text) {
        return Some(i);
      }
    }
    return None;
  }

  /** Stage 2 of `_multi_stage_field_matching`: the loop that appends `(field, score)` to `partial_matches`. */
  method CollectFieldPartials(text: string, rows: seq<FieldRow>) returns (partial: seq<Scored<FieldRow>>)
    ensures partial == Somes(FieldPartials(text, rows))
  {
    ghost var entries := FieldPartials(text, rows);
    partial := [];
    for i := 0 to |rows|
      invariant partial == Somes(entries[..i])
    {
      SomesStep(entries, i);
      var entry := FieldPartialEntry(text, rows[i]);
      assert entries[i] == entry;
      if entry.Some? {
        partial := partial + [entry.value];
      }
    }
    assert entries[..|rows|] == entries;
  }

  /** Stage 3 of `_multi_stage_field_matching`: the loop that appends `(field, similarity)` to `fuzzy_matches`. */
  method CollectFieldFuzzies(text: string, rows: seq<FieldRow>, ratio: Ratio) returns (fuzzy: seq<Scored<FieldRow>>)
    ensures fuzzy == Somes(FieldFuzzies(text, rows, ratio))
  {
    ghost var entries := FieldFuzzies(text, rows, ratio);
    fuzzy := [];
    for i := 0 to |rows|
      invariant fuzzy == Somes(entries[..i])
    {
      SomesStep(entries, i);
      var entry := FuzzyEntry(text, rows[i], rows[i].name, ratio);
      assert entries[i] == entry;
      if entry.Some? {
        fuzzy := fuzzy + [entry.value];
      }
    }
    assert entries[..|rows|] == entries;
  }

  /** `_multi_stage_field_matching`: the three stages in order, each returning as soon as it finds something. */
  method MultiStageFieldMatching(text: string, rows: seq<FieldRow>, ratio: Ratio) returns (r: Resolution)
    ensures r == FieldResolution(text, rows, ratio)
  {
    var exact := FieldExactStage(text, rows);
    if exact.Some? {
      var f := rows[exact.value];
      return Resolution(Some(f.id), FieldLabel(f), None, 1.0, ExactMatch, None);
    }
    var partial := CollectFieldPartials(text, rows);
    if |partial| > 0 {
      var best := Best(partial);
      return Resolution(Some(best.row.id), FieldLabel(best.row), None, MinReal(best.score, PartialCap),
                        PartialMatch, None);
    }
    var fuzzy := CollectFieldFuzzies(text, rows, ratio);
    if |fuzzy| > 0 {
      var best := Best(fuzzy);
      return Resolution(Some(best.row.id), best.row.name, None, best.score, FuzzyMatch, None);
    }
    r := NoMatchResolution(text);
  }

  /** The inner loop of the crop exact stage: does a variety carry the text as its name? */
  method HasVariety(varieties: seq<Option<string>>, text: string) returns (found: bool)
    ensures found <==> Some(text) in varieties
  {
    for v := 0 to |varieties|
      invariant forall w :: 0 <= w < v ==> varieties[w] != Some(text)
    {
      if varieties[v] == Some(text) {
        return true;
      }
    }
    return false;
  }

  /** Stage 1 of `_multi_stage_crop_matching`: for each crop its name, then its varieties. */
  method CropExactStage(text: string, rows: seq<CropRow>) returns (k: Option<nat>)
    ensures k == CropExactIndex(text, rows)
  {
    for i := 0 to |rows|
      invariant forall j :: 0 <= j < i ==> !CropExact(text, rows[j])
    {
      if rows[i].name == Some(text) {
        return Some(i);
      }
      var isVariety := HasVariety(rows[i].varieties, text);
      if isVariety {
        return Some(i);
      }
    }
    return None;
  }

  method CollectCropPartials(text: string, rows: seq<CropRow>) returns (partial: seq<Scored<CropRow>>)
    ensures partial == Somes(CropPartials(text, rows))
  {
    ghost var entries := CropPartials(text, rows);
    partial := [];
    for i := 0 to |rows|
      invariant partial == Somes(entries[..i])
    {
      SomesStep(entries, i);
      var entry := NamePartialEntry(text, rows[i], rows[i].name);
      assert entries[i] == entry;
      if entry.Some? {
        partial := partial + [entry.value];
      }
    }
    assert entries[..|rows|] == entries;
  }

  method CollectCropFuzzies(text: string, rows: seq<CropRow>, ratio: Ratio) returns (fuzzy: seq<Scored<CropRow>>)
    ensures fuzzy == Somes(CropFuzzies(text, rows, ratio))
  {
    ghost var entries := CropFuzzies(text, rows, ratio);
    fuzzy := [];
    for i := 0 to |rows|
      invariant fuzzy == Somes(entries[..i])
    {
      SomesStep(entries, i);
      var entry := FuzzyEntry(text, rows[i], rows[i].name, ratio);
      assert entries[i] == entry;
      if entry.Some? {
        fuzzy := fuzzy + [entry.value];
      }
    }
    assert entries[..|rows|] == entries;
  }

  /** `_multi_stage_crop_matching`. */
  method MultiStageCropMatching(text: string, rows: seq<CropRow>, ratio: Ratio) returns (r: Resolution)
    ensures r == CropResolution(text, rows, ratio)
  {
    var exact := CropExactStage(text, rows);
    if exact.Some? {
      var c := rows[exact.value];
      if c.name == Some(text) {
        return Resolution(Some(c.id), c.name, None, 1.0, ExactMatch, None);
      }
      return Resolution(Some(c.id), c.name, Some(text), 1.0, VarietyMatch, None);
    }
    var partial := CollectCropPartials(text, rows);
    if |partial| > 0 {
      var best := Best(partial);
      return Resolution(Some(best.row.id), best.row.name, None, MinReal(best.score, PartialCap), PartialMatch, None);
    }
    var fuzzy := CollectCropFuzzies(text, rows, ratio);
    if |fuzzy| > 0 {
      var best := Best(fuzzy);
      return Resolution(Some(best.row.id), best.row.name, None, best.score, FuzzyMatch, None);
    }
    r := NoMatchResolution(text);
  }

  /** Stage 1 of `_multi_stage_material_matching`: for each material its name, then its aliases. */
  method MaterialExactStage(text: string, rows: seq<MaterialRow>) returns (k: Option<nat>)
    ensures k == MaterialExactIndex(text, rows)
  {
    for i := 0 to |rows|
      invariant forall j :: 0 <= j < i ==> !MaterialExact(text, rows[j])
    {
      if rows[i].name == Some(text) || text in rows[i].aliases {
        return Some(i);
      }
    }
    return None;
  }

  method CollectMaterialPartials(text: string, rows: seq<MaterialRow>) returns (partial: seq<Scored<MaterialRow>>)
    ensures partial == Somes(MaterialPartials(text, rows))
  {
    ghost var entries := MaterialPartials(text, rows);
    partial := [];
    for i := 0 to |rows|
      invariant partial == Somes(entries[..i])
    {
      SomesStep(entries, i);
      var entry := NamePartialEntry(text, rows[i], rows[i].name);
      assert entries[i] == entry;
      if entry.Some? {
        partial := partial + [entry.value];
      }
    }
    assert entries[..|rows|] == entries;
  }

  method CollectMaterialFuzzies(text: string, rows: seq<MaterialRow>, ratio: Ratio) returns (fuzzy: seq<Scored<MaterialRow>>)
    ensures fuzzy == Somes(MaterialFuzzies(text, rows, ratio))
  {
    ghost var entries := MaterialFuzzies(text, rows, ratio);
    fuzzy := [];
    for i := 0 to |rows|
      invariant fuzzy == Somes(entries[..i])
    {
      SomesStep(entries, i);
      var entry := FuzzyEntry(text, rows[i], rows[i].name, ratio);
      assert entries[i] == entry;
      if entry.Some? {
        fuzzy := fuzzy + [entry.value];
      }
    }
    assert entries[..|rows|] == entries;
  }

  /** `_multi_stage_material_matching`. */
  method MultiStageMaterialMatching(text: string, rows: seq<MaterialRow>, ratio: Ratio) returns (r: Resolution)
    ensures r == MaterialResolution(text, rows, ratio)
  {
    var exact := MaterialExactStage(text, rows);
    if exact.Some? {
      var m := rows[exact.value];
      return Resolution(Some(m.id), m.name, None, 1.0, if m.name == Some(text) then ExactMatch else AliasMatch, None);
    }
    var partial := CollectMaterialPartials(text, rows);
    if |partial| > 0 {
      var best := Best(partial);
      return Resolution(Some(best.row.id), best.row.name, None, MinReal(best.score, PartialCap), PartialMatch, None);
    }
    var fuzzy := CollectMaterialFuzzies(text, rows, ratio);
    if |fuzzy| > 0 {
      var best := Best(fuzzy);
      return Resolution(Some(best.row.id), best.row.name, None, best.score, FuzzyMatch, None);
    }
    r := NoMatchResolution(text);
  }
}
