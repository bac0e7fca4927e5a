/**
 * The field-name extractor: finds the name of a field (圃場) in a free-text
 * query, first against the names and codes stored in the database (exact,
 * partial and fuzzy matching, in that order), then with a list of regular
 * expressions.  The names are cached for five minutes.
 */
module FieldNameExtraction {
  import opened Common
  import opened Sorting
  import opened Patterns

  const CacheTimeout: real := 300.0
  const FetchLimit: nat := 1000
  const CandidateLimit: nat := 3
  const FuzzyKeep: real := 0.3
  const FuzzyAccept: real := 0.6

  /** The `method` field of the result. */
  datatype Stage = ExactStage | PartialStage | FuzzyStage | RegexStage | NoMatchStage | ErrorStage

  /** The result dictionary of `extract_field_name`. */
  datatype Extraction = Extraction(fieldName: string, confidence: real, stage: Stage,
                                   candidates: seq<string>, originalQuery: string,
                                   error: Option<string>)

  /** A document of the `fields` collection, projected on `name` and `field_code`. */
  datatype FieldDoc = FieldDoc(name: Option<string>, code: Option<string>)

  // ---------------------------------------------------------------------
  // The list of names and its cache
  // ---------------------------------------------------------------------

  /** The names one document contributes: its name, then its code, each only when truthy. */
  function DocNames(d: FieldDoc): seq<string>
  {
    (if Truthy(d.name) then [d.name.value] else []) + (if Truthy(d.code) then [d.code.value] else [])
  }

  /** The list `_get_all_field_names` builds from the documents, in order. */
  function NamesOf(docs: seq<FieldDoc>): (names: seq<string>)
    ensures |names| <= 2 * |docs|
    ensures forall n | n in names :: |n| > 0
    decreases |docs|
  {
    if |docs| == 0 then [] else NamesOf(docs[..|docs| - 1]) + DocNames(docs[|docs| - 1])
  }

  /** A string is listed exactly when some document has it as a truthy name or code. */
  lemma {:induction false} NamesOfExactly(docs: seq<FieldDoc>, n: string)
    ensures n in NamesOf(docs) <==>
            exists k :: 0 <= k < |docs| && (docs[k].name == Some(n) || docs[k].code == Some(n)) && |n| > 0
    decreases |docs|
  {
    if |docs| > 0 {
      var m := |docs| - 1;
      NamesOfExactly(docs[..m], n);
      assert forall k :: 0 <= k < m ==> docs[..m][k] == docs[k];
      if n in NamesOf(docs) && n !in NamesOf(docs[..m]) {
        assert n in DocNames(docs[m]);
      }
    }
  }

  predicate CacheFresh(cache: Option<seq<string>>, cachedAt: real, now: real)
  {
    cache.Some? && now - cachedAt < CacheTimeout
  }

  /** What `_get_all_field_names` returns: the cache, the names of the first 1000 documents, or the failure. */
  function LoadNames(cache: Option<seq<string>>, cachedAt: real, now: real, db: Fetch<FieldDoc>): (r: Fetch<string>)
    ensures CacheFresh(cache, cachedAt, now) ==> r == Fetched(cache.value)
    ensures !CacheFresh(cache, cachedAt, now) && db.Failed? ==> r == Failed(db.message)
    ensures r.Fetched? && !CacheFresh(cache, cachedAt, now) ==>
              |r.rows| <= 2 * FetchLimit && forall n | n in r.rows :: |n| > 0
  {
    if CacheFresh(cache, cachedAt, now) then Fetched(cache.value)
    else if db.Failed? then Failed(db.message)
    else Fetched(NamesOf(Take(db.rows, FetchLimit)))
  }

  /** The cache and its timestamp after `_get_all_field_names`. */
  function CacheAfter(cache: Option<seq<string>>, cachedAt: real, now: real, db: Fetch<FieldDoc>): (Option<seq<string>>, real)
  {
    if CacheFresh(cache, cachedAt, now) || db.Failed? then (cache, cachedAt)
    else (Some(NamesOf(Take(db.rows, FetchLimit))), now)
  }

  /**
   * A refresh stores what it returns; within 300 seconds of it every later
   * call returns the same names whatever the database would now answer.
   */
  lemma NamesReusedWithinTimeout(cache: Option<seq<string>>, cachedAt: real, now: real, db: Fetch<FieldDoc>,
                                 later: real, db': Fetch<FieldDoc>)
    requires !CacheFresh(cache, cachedAt, now) && db.Fetched?
    requires now <= later < now + CacheTimeout
    ensures var after := CacheAfter(cache, cachedAt, now, db);
            after.0 == Some(LoadNames(cache, cachedAt, now, db).rows)
            && LoadNames(after.0, after.1, later, db') == LoadNames(cache, cachedAt, now, db)
  {
  }

  // ---------------------------------------------------------------------
  // Stage 1: exact match
  // ---------------------------------------------------------------------

  /** Position of the first name that occurs in the query. */
  function ExactIndex(query: string, names: seq<string>): (k: Option<nat>)
    ensures k.Some? ==> k.value < |names| && Contains(query, names[k.value])
    ensures k.Some? ==> forall j :: 0 <= j < k.value ==> !Contains(query, names[j])
    ensures k.None? <==> forall j :: 0 <= j < |names| ==> !Contains(query, names[j])
  {
    FirstIndex(names, (n: string) => Contains(query, n))
  }

  /** `_exact_match`: the first name that occurs in the query. */
  method ExactMatch(query: string, names: seq<string>) returns (r: Option<string>)
    ensures r.Some? <==> ExactIndex(query, names).Some?
    ensures r.Some? ==> r.value == names[ExactIndex(query, names).value]
  {
    for i := 0 to |names|
      invariant forall j :: 0 <= j < i ==> !Contains(query, names[j])
    {
      if Contains(query, names[i]) {
        return Some(names[i]);
      }
    }
    return None;
  }

  // ---------------------------------------------------------------------
  // Stage 2: partial match
  // ---------------------------------------------------------------------

  /** A word of the name occurs in the query, or a word of the query occurs in the name. */
  predicate PartialHit(query: string, name: string)
  {
    ContainsAny(query, Words(name)) || ContainsAny(name, Words(query))
  }

  /** The names that hit, in list order, repeats included. */
  function PartialHits(query: string, names: seq<string>): (hits: seq<string>)
    ensures forall n :: n in hits <==> n in names && PartialHit(query, n)
    decreases |names|
  {
    if |names| == 0 then []
    else
      var m := |names| - 1;
      assert names == names[..m] + [names[m]];
      PartialHits(query, names[..m]) + (if PartialHit(query, names[m]) then [names[m]] else [])
  }

  /** `set(xs)`, listed in order of first occurrence. */
  function Distinct(xs: seq<string>): (r: seq<string>)
    ensures forall x :: x in r <==> x in xs
    ensures forall x | x in r :: multiset(r)[x] == 1
    decreases |xs|
  {
    if |xs| == 0 then []
    else
      var m := |xs| - 1;
      var prev := Distinct(xs[..m]);
      assert xs == xs[..m] + [xs[m]];
      if xs[m] in prev then prev else prev + [xs[m]]
  }

  function NameLength(name: string): real
  {
    |name| as real
  }

  /** What `_partial_match` returns: the distinct hits, longest first. */
  function PartialMatches(query: string, names: seq<string>): seq<string>
  {
    SortDesc(Distinct(PartialHits(query, names)), NameLength)
  }

  /**
   * The partial matches are exactly the names that hit, each once, and no
   * later one is longer than an earlier one.
   */
  lemma PartialMatchesAreHits(query: string, names: seq<string>)
    ensures var r := PartialMatches(query, names);
            (forall n :: n in r <==> n in names && PartialHit(query, n))
            && (forall n | n in r :: multiset(r)[n] == 1)
            && (forall i, j :: 0 <= i < j < |r| ==> |r[i]| >= |r[j]|)
  {
    var d := Distinct(PartialHits(query, names));
    SortDescPerm(d, NameLength);
    SortDescSorted(d, NameLength);
    var r := PartialMatches(query, names);
    forall n ensures n in r <==> n in d {
      assert n in r <==> n in multiset(r);
      assert n in d <==> n in multiset(d);
    }
    forall i, j | 0 <= i < j < |r| ensures |r[i]| >= |r[j]| {
      assert NameLength(r[i]) >= NameLength(r[j]);
    }
  }

  /** A name with no words hits only through a query word it contains. */
  lemma EmptyNameNeverHits(query: string)
    ensures !PartialHit(query, "")
  {
    assert Words("") == [];
    forall i | 0 <= i < |Words(query)| ensures !Contains("", Words(query)[i]) {
      assert |Words(query)[i]| > 0;
    }
  }

  /** `_partial_match`: the loop that appends every hit, then the sort. */
  method PartialMatch(query: string, names: seq<string>) returns (matches: seq<string>)
    ensures matches == PartialMatches(query, names)
  {
    var hits: seq<string> := [];
    for i := 0 to |names|
      invariant hits == PartialHits(query, names[..i])
    {
      assert names[..i + 1][..i] == names[..i];
      if ContainsAny(query, Words(names[i])) {
        hits := hits + [names[i]];
      } else if ContainsAny(names[i], Words(query)) {
        hits := hits + [names[i]];
      }
    }
    assert names[..|names|] == names;
    matches := SortDesc(Distinct(hits), NameLength);
  }

  // ---------------------------------------------------------------------
  // Stage 3: fuzzy match
  // ---------------------------------------------------------------------

  /** The running maximum of `ratio(q, f)` for f in fs, starting from m. */
  function RowMax(m: real, q: string, fs: seq<string>, ratio: Ratio): (r: real)
    ensures m <= r && (r == m || r <= 1.0)
    decreases |fs|
  {
    if |fs| == 0 then m
    else
      var n := |fs| - 1;
      MaxReal(RowMax(m, q, fs[..n], ratio), ratio(q, fs[n]))
  }

  /** The running maximum bounds every ratio of the row and is the start or one of them. */
  lemma {:induction false} RowMaxIsMax(m: real, q: string, fs: seq<string>, ratio: Ratio)
    ensures forall j :: 0 <= j < |fs| ==> ratio(q, fs[j]) <= RowMax(m, q, fs, ratio)
    ensures RowMax(m, q, fs, ratio) == m || exists j :: 0 <= j < |fs| && RowMax(m, q, fs, ratio) == ratio(q, fs[j])
    decreases |fs|
  {
    if |fs| > 0 {
      var n := |fs| - 1;
      RowMaxIsMax(m, q, fs[..n], ratio);
      assert forall j :: 0 <= j < n ==> fs[..n][j] == fs[j];
    }
  }

  /** `max_word_similarity`: the largest ratio between a query word and a name word, 0.0 when there is none. */
  function GridMax(qs: seq<string>, fs: seq<string>, ratio: Ratio): (r: real)
    ensures 0.0 <= r <= 1.0
    decreases |qs|
  {
    if |qs| == 0 then 0.0
    else
      var n := |qs| - 1;
      RowMax(GridMax(qs[..n], fs, ratio), qs[n], fs, ratio)
  }

  /** `max_word_similarity` bounds every word-pair ratio and is 0.0 or one of them. */
  lemma {:induction false} GridMaxIsMax(qs: seq<string>, fs: seq<string>, ratio: Ratio)
    ensures forall i, j :: 0 <= i < |qs| && 0 <= j < |fs| ==> ratio(qs[i], fs[j]) <= GridMax(qs, fs, ratio)
    ensures GridMax(qs, fs, ratio) == 0.0
            || exists i, j :: 0 <= i < |qs| && 0 <= j < |fs| && GridMax(qs, fs, ratio) == ratio(qs[i], fs[j])
    decreases |qs|
  {
    if |qs| > 0 {
      var n := |qs| - 1;
      var prev := GridMax(qs[..n], fs, ratio);
      GridMaxIsMax(qs[..n], fs, ratio);
      RowMaxIsMax(prev, qs[n], fs, ratio);
      assert forall i :: 0 <= i < n ==> qs[..n][i] == qs[i];
    }
  }

  /** `final_score`: the mean of the whole-string ratio and the best word ratio. */
  function FuzzyScore(query: string, name: string, ratio: Ratio): (s: real)
    ensures 0.0 <= s <= 1.0
    ensures s >= ratio(query, name) / 2.0
  {
    (ratio(query, name) + GridMax(Words(query), Words(name), ratio)) / 2.0
  }

  /** The pair `_fuzzy_match` appends for one name, if its score passes 0.3. */
  function FuzzyEntry(query: string, name: string, ratio: Ratio): Option<Scored<string>>
  {
    var s := FuzzyScore(query, name, ratio);
    if s > FuzzyKeep then Some(Scored(name, s)) else None
  }

  function FuzzyEntries(query: string, names: seq<string>, ratio: Ratio): (es: seq<Option<Scored<string>>>)
    ensures |es| == |names|
  {
    seq(|names|, k requires 0 <= k < |names| => FuzzyEntry(query, names[k], ratio))
  }

  /** What `_fuzzy_match` returns: the kept pairs, best score first. */
  function FuzzyMatches(query: string, names: seq<string>, ratio: Ratio): seq<Scored<string>>
  {
    SortDesc(Somes(FuzzyEntries(query, names, ratio)), Score)
  }

  /**
   * The fuzzy matches are in descending score order; each pairs a listed
   * name with its score, above 0.3; and every name scoring above 0.3 is there.
   */
  lemma FuzzyMatchesScored(query: string, names: seq<string>, ratio: Ratio)
    ensures var r := FuzzyMatches(query, names, ratio);
            SortedDesc(r, Score)
            && (forall p | p in r :: p.row in names && p.score == FuzzyScore(query, p.row, ratio) && FuzzyKeep < p.score <= 1.0)
            && (forall k :: 0 <= k < |names| && FuzzyScore(query, names[k], ratio) > FuzzyKeep ==>
                  Scored(names[k], FuzzyScore(query, names[k], ratio)) in r)
  {
    var es := FuzzyEntries(query, names, ratio);
    var kept := Somes(es);
    var r := FuzzyMatches(query, names, ratio);
    SortDescPerm(kept, Score);
    SortDescSorted(kept, Score);
    assert forall p :: p in r <==> p in kept by {
      forall p ensures p in r <==> p in kept {
        assert p in r <==> p in multiset(r);
        assert p in kept <==> p in multiset(kept);
      }
    }
    forall p | p in kept
      ensures p.row in names && p.score == FuzzyScore(query, p.row, ratio) && FuzzyKeep < p.score <= 1.0
    {
      var k :| 0 <= k < |es| && es[k] == Some(p);
    }
    forall k | 0 <= k < |names| && FuzzyScore(query, names[k], ratio) > FuzzyKeep
      ensures Scored(names[k], FuzzyScore(query, names[k], ratio)) in r
    {
      SomesKeeps(es, k);
    }
  }

  /** The two nested loops of `_fuzzy_match` that compute `max_word_similarity`. */
  method MaxWordSimilarity(qs: seq<string>, fs: seq<string>, ratio: Ratio) returns (m: real)
    ensures m == GridMax(qs, fs, ratio)
  {
    m := 0.0;
    for a := 0 to |qs|
      invariant m == GridMax(qs[..a], fs, ratio)
    {
      var rowStart := m;
      for b := 0 to |fs|
        invariant m == RowMax(rowStart, qs[a], fs[..b], ratio)
      {
        assert fs[..b + 1][..b] == fs[..b];
        m := MaxReal(m, ratio(qs[a], fs[b]));
      }
      assert fs[..|fs|] == fs;
      assert qs[..a + 1][..a] == qs[..a];
    }
    assert qs[..|qs|] == qs;
  }

  /** The body of `_fuzzy_match`'s loop for one name: its score, kept when above 0.3. */
  method ScoreName(query: string, name: string, ratio: Ratio) returns (e: Option<Scored<string>>)
    ensures e == FuzzyEntry(query, name, ratio)
  {
    var similarity := ratio(query, name);
    var wordSimilarity := MaxWordSimilarity(Words(query), Words(name), ratio);
    var finalScore := (similarity + wordSimilarity) / 2.0;
    e := if finalScore > FuzzyKeep then Some(Scored(name, finalScore)) else None;
  }

  /** `_fuzzy_match`: the loop over the names, then the sort. */
  method FuzzyMatch(query: string, names: seq<string>, ratio: Ratio) returns (matches: seq<Scored<string>>)
    ensures matches == FuzzyMatches(query, names, ratio)
  {
    ghost var entries := FuzzyEntries(query, names, ratio);
    var similarities: seq<Scored<string>> := [];
    for i := 0 to |names|
      invariant similarities == Somes(entries[..i])
    {
      SomesStep(entries, i);
      var e := ScoreName(query, names[i], ratio);
      assert entries[i] == e;
      if e.Some? {
        similarities := similarities + [e.value];
      }
    }
    assert entries[..|names|] == entries;
    matches := SortDesc(similarities, Score);
  }

  // ---------------------------------------------------------------------
  // Stage 4: regular-expression fallback
  // ---------------------------------------------------------------------

  /** `[^のを\s]` */
  predicate IsNameChar(c: char)
  {
    c != 'の' && c != 'を' && !IsSpace(c)
  }

  /** `[一-龯]` */
  predicate IsKanji(c: char)
  {
    '一' <= c <= '龯'
  }

  /** `[畑田圃場ハウス]` */
  predicate IsPlaceChar(c: char)
  {
    c == '畑' || c == '田' || c == '圃' || c == '場' || c == 'ハ' || c == 'ウ' || c == 'ス'
  }

  predicate NotCloseQuote(c: char)
  {
    c != '」'
  }

  const InfoWords: seq<string> := ["面積", "情報", "詳細", "状況"]
  const RegisterWords: seq<string> := ["登録", "追加"]
  const WhereWords: seq<string> := ["どこ", "何"]

  /** `「([^」]+)」` tried at i. */
  function QuotedAt(s: string, i: nat): Option<Span>
  {
    GreedyAt(s, i, "「", NotCloseQuote, 1,
             (t: string, k: nat) => k < |t| && t[k] == '」',
             (t: string, k: nat) => 1)
  }

  /** `([^のを\s]{2,})<particle>(?:w1|w2|…)` tried at i. */
  function BeforeParticleAt(s: string, i: nat, particle: string, words: seq<string>): Option<Span>
  {
    GreedyAt(s, i, "", IsNameChar, 2,
             (t: string, k: nat) => OccursAt(t, particle, k) && AnyAt(t, words, k + |particle|),
             (t: string, k: nat) => ParticleSkip(t, k, particle, words))
  }

  /** The particle and the first listed word after it, which the match consumes. */
  function ParticleSkip(t: string, k: nat, particle: string, words: seq<string>): nat
  {
    |particle| + FirstAtLen(t, words, k + |particle|)
  }

  /** Length of the `[畑田圃場ハウス]+\d*` tail that starts at k. */
  function PlaceTail(t: string, k: nat): nat
  {
    if k <= |t| then RunEnd(t, RunEnd(t, k, IsPlaceChar), IsDigit) - k else 0
  }

  /**
   * `([<lead>]+[畑田圃場ハウス]+\d*)` tried at i: the lead run backtracks to
   * the last place character it can give up, and the group runs through
   * the place characters and digits that follow.
   */
  function PlaceNameAt(s: string, i: nat, lead: char -> bool): Option<Span>
  {
    match GreedyAt(s, i, "", lead, 1, (t: string, k: nat) => k < |t| && IsPlaceChar(t[k]), PlaceTail)
    case Some(m) => Some(Span(m.start, m.next, m.next))
    case None => None
  }

  const PatternCount: nat := 6

  /** The n-th pattern of `_regex_fallback`, tried at i. */
  function PatternAt(n: nat, s: string, i: nat): Option<Span>
  {
    if n == 0 then QuotedAt(s, i)
    else if n == 1 then BeforeParticleAt(s, i, "の", InfoWords)
    else if n == 2 then BeforeParticleAt(s, i, "を", RegisterWords)
    else if n == 3 then BeforeParticleAt(s, i, "は", WhereWords)
    else if n == 4 then PlaceNameAt(s, i, IsKanji)
    else PlaceNameAt(s, i, IsAsciiLetter)
  }

  /** The n-th pattern as a matcher for `Search`. */
  function Matcher(n: nat): (string, nat) -> Option<Span>
  {
    (s: string, i: nat) => PatternAt(n, s, i)
  }

  /** `re.search(pattern, query).group(1)` for the n-th pattern. */
  function SearchGroup(query: string, n: nat): (g: Option<string>)
    ensures g.Some? ==> Contains(query, g.value)
  {
    match Search(query, 0, Matcher(n))
    case Some(m) =>
      ContainsAt(query, Group(query, m), m.start);
      Some(Group(query, m))
    case None => None
  }

  /** The group each of the six patterns finds in the query, in pattern order. */
  function Groups(query: string): (gs: seq<Option<string>>)
    ensures |gs| == PatternCount
    ensures forall p :: 0 <= p < PatternCount ==> gs[p] == SearchGroup(query, p)
    ensures forall p :: 0 <= p < PatternCount && gs[p].Some? ==> Contains(query, gs[p].value)
  {
    seq(PatternCount, p requires 0 <= p < PatternCount => SearchGroup(query, p))
  }

  /** The groups from the n-th up to (not including) the stop-th: the first of length at least 2. */
  function FirstLong(gs: seq<Option<string>>, n: nat, stop: nat): (r: Option<string>)
    requires stop <= |gs|
    ensures r.Some? ==> |r.value| >= 2 && exists p :: n <= p < stop && gs[p] == r
    decreases stop - n
  {
    if n >= stop then None
    else if gs[n].Some? && |gs[n].value| >= 2 then gs[n]
    else FirstLong(gs, n + 1, stop)
  }

  /**
   * Trying the groups up to k first: a group found before k is the group
   * found among all groups up to stop, and when none is found before k the
   * search goes on from k.
   */
  lemma {:induction false} FirstLongPrefix(gs: seq<Option<string>>, n: nat, k: nat, stop: nat)
    requires n <= k <= stop <= |gs|
    ensures FirstLong(gs, n, k).Some? ==> FirstLong(gs, n, stop) == FirstLong(gs, n, k)
    ensures FirstLong(gs, n, k).None? ==> FirstLong(gs, n, stop) == FirstLong(gs, k, stop)
    decreases k - n
  {
    if n < k {
      FirstLongPrefix(gs, n + 1, k, stop);
    }
  }

  /** The patterns from the n-th up to the stop-th, applied to the query. */
  function RegexFrom(query: string, n: nat, stop: nat): (r: Option<string>)
    requires stop <= PatternCount
    ensures r.Some? ==> |r.value| >= 2 && Contains(query, r.value)
  {
    FirstLong(Groups(query), n, stop)
  }

  /** What `_regex_fallback` returns. */
  function RegexFallback(query: string): (r: Option<string>)
    ensures r.Some? ==> |r.value| >= 2 && Contains(query, r.value)
  {
    RegexFrom(query, 0, PatternCount)
  }

  /** `_regex_fallback`: the loop over the six patterns. */
  method RegexFallbackSearch(query: string) returns (r: Option<string>)
    ensures r == RegexFallback(query)
  {
    for n := 0 to PatternCount
      invariant RegexFrom(query, n, PatternCount) == RegexFallback(query)
    {
      var g := SearchGroup(query, n);
      if g.Some? && |g.value| >= 2 {
        return g;
      }
    }
    return None;
  }

  /** A quoted name of two or more characters is found whatever the rest of the query says. */
  lemma QuotedNameFound(query: string, i: nat, j: nat)
    requires i + 3 <= j < |query| && query[i] == '「' && query[j] == '」'
    requires forall k :: i < k < j ==> query[k] != '」'
    requires forall k :: 0 <= k < i ==> query[k] != '「'
    ensures RegexFallback(query) == Some(query[i + 1..j])
  {
    forall p | 0 <= p < i ensures Matcher(0)(query, p).None? {
      NoQuoteNoMatch(query, p);
    }
    SearchSkips(query, 0, i, Matcher(0));
    QuotedAtOpen(query, i, j);
    assert Matcher(0)(query, i) == Some(Span(i + 1, j, j + 1));
    assert Search(query, i, Matcher(0)) == Some(Span(i + 1, j, j + 1));
  }

  /** No match starts where there is no opening bracket. */
  lemma NoQuoteNoMatch(query: string, p: nat)
    requires p < |query| && query[p] != '「'
    ensures QuotedAt(query, p).None?
  {
    assert query[p..p + 1] != "「" by {
      assert query[p..p + 1][0] == query[p];
    }
  }

  /** At an opening bracket, the group runs to the first closing one. */
  lemma QuotedAtOpen(query: string, i: nat, j: nat)
    requires i + 1 < j < |query| && query[i] == '「' && query[j] == '」'
    requires forall k :: i < k < j ==> query[k] != '」'
    ensures QuotedAt(query, i) == Some(Span(i + 1, j, j + 1))
  {
    assert OccursAt(query, "「", i) by {
      assert query[i..i + 1] == "「";
    }
    RunEndStops(query, i + 1, j, NotCloseQuote);
    assert LastWhere(query, i + 2, j, (t: string, k: nat) => k < |t| && t[k] == '」') == Some(j);
  }

  /** The run from i stops at the first character outside the class. */
  lemma {:induction false} RunEndStops(s: string, i: nat, j: nat, inClass: char -> bool)
    requires i <= j < |s| && !inClass(s[j])
    requires forall k :: i <= k < j ==> inClass(s[k])
    ensures RunEnd(s, i, inClass) == j
    decreases j - i
  {
    if i < j {
      RunEndStops(s, i + 1, j, inClass);
    }
  }

  /** A search passes over positions where the matcher fails. */
  lemma {:induction false} SearchSkips(s: string, from: nat, i: nat, at: (string, nat) -> Option<Span>)
    requires from <= i <= |s|
    requires forall p :: from <= p < i ==> at(s, p).None?
    ensures Search(s, from, at) == Search(s, i, at)
    decreases i - from
  {
    if from < i {
      SearchSkips(s, from + 1, i, at);
    }
  }

  // ---------------------------------------------------------------------
  // The stages together
  // ---------------------------------------------------------------------

  /** The names of the pairs, in order. */
  function Rows(ps: seq<Scored<string>>): (r: seq<string>)
    ensures |r| == |ps|
    ensures forall i :: 0 <= i < |ps| ==> r[i] == ps[i].row
  {
    seq(|ps|, i requires 0 <= i < |ps| => ps[i].row)
  }

  /** The first exact match, or None (`_exact_match` as a value). */
  function ExactName(query: string, names: seq<string>): Option<string>
  {
    match ExactIndex(query, names)
    case Some(k) => Some(names[k])
    case None => None
  }

  /** What every result of the stages satisfies: no error, at most three candidates, a confidence in [0, 1]. */
  predicate StageResult(r: Extraction, query: string)
  {
    r.originalQuery == query && r.error.None? && r.stage != ErrorStage
    && |r.candidates| <= CandidateLimit && 0.0 <= r.confidence <= 1.0
  }

  /** Stages 4 and 5: the regular expressions, else no match. */
  function FromFallback(query: string): (r: Extraction)
    ensures StageResult(r, query)
    ensures r.stage == RegexStage || r.stage == NoMatchStage
  {
    match RegexFallback(query)
    case Some(g) => Extraction(g, 0.5, RegexStage, [g], query, None)
    case None => Extraction("", 0.0, NoMatchStage, [], query, None)
  }

  /** Stage 3 when its best score passes 0.6, else the later stages. */
  function FromFuzzy(query: string, names: seq<string>, ratio: Ratio): (r: Extraction)
    ensures StageResult(r, query)
    ensures r.stage in {FuzzyStage, RegexStage, NoMatchStage}
  {
    var fuzzy := FuzzyMatches(query, names, ratio);
    if |fuzzy| > 0 && fuzzy[0].score > FuzzyAccept then
      FuzzyMatchesScored(query, names, ratio);
      assert fuzzy[0] in fuzzy;
      Extraction(fuzzy[0].row, fuzzy[0].score, FuzzyStage, Rows(Take(fuzzy, CandidateLimit)), query, None)
    else FromFallback(query)
  }

  /** Stage 2 when some name hits, else the later stages. */
  function FromPartial(query: string, names: seq<string>, ratio: Ratio): (r: Extraction)
    ensures StageResult(r, query)
    ensures r.stage != ExactStage
  {
    var partial := PartialMatches(query, names);
    if |partial| > 0 then
      Extraction(partial[0], 0.8, PartialStage, Take(partial, CandidateLimit), query, None)
    else FromFuzzy(query, names, ratio)
  }

  /** `_multi_stage_extraction` followed by `result['original_query'] = query`. */
  function Extracted(query: string, names: seq<string>, ratio: Ratio): (r: Extraction)
    ensures StageResult(r, query)
  {
    var exact := ExactName(query, names);
    if exact.Some? && |exact.value| > 0 then
      Extraction(exact.value, 1.0, ExactStage, [exact.value], query, None)
    else FromPartial(query, names, ratio)
  }

  /** The result when loading the names raised. */
  function ErrorExtraction(query: string, message: string): Extraction
  {
    Extraction("", 0.0, ErrorStage, [], query, Some(message))
  }

  /** Stage 1 is taken exactly when a non-empty name occurs in the query, and it returns that name. */
  lemma ExtractedExact(query: string, names: seq<string>, ratio: Ratio)
    ensures var r := Extracted(query, names, ratio);
            (r.stage == ExactStage <==> ExactName(query, names).Some? && |ExactName(query, names).value| > 0)
            && (r.stage == ExactStage ==>
                  r.fieldName in names && Contains(query, r.fieldName) && r.confidence == 1.0
                  && r.candidates == [r.fieldName])
  {
  }

  /**
   * Stage 2 returns a listed name that hits, no shorter than any other
   * name that hits, with confidence 0.8 and itself as first candidate.
   */
  lemma ExtractedPartial(query: string, names: seq<string>, ratio: Ratio)
    ensures var r := Extracted(query, names, ratio);
            r.stage == PartialStage ==>
              r.fieldName in names && PartialHit(query, r.fieldName) && r.confidence == 0.8
              && |r.candidates| > 0 && r.candidates[0] == r.fieldName
              && forall n | n in names && PartialHit(query, n) :: |n| <= |r.fieldName|
  {
    var partial := PartialMatches(query, names);
    if |partial| > 0 {
      PartialMatchesAreHits(query, names);
      assert partial[0] in partial;
      forall n | n in names && PartialHit(query, n) ensures |n| <= |partial[0]| {
        var j :| 0 <= j < |partial| && partial[j] == n;
      }
    }
  }

  /**
   * Stage 3 is reached only when no name hits partially, and returns a
   * listed name whose score, above 0.6, is the confidence.
   */
  lemma ExtractedFuzzy(query: string, names: seq<string>, ratio: Ratio)
    ensures var r := Extracted(query, names, ratio);
            r.stage == FuzzyStage ==>
              r.fieldName in names && FuzzyAccept < r.confidence
              && r.confidence == FuzzyScore(query, r.fieldName, ratio)
              && forall n | n in names :: !PartialHit(query, n)
  {
    var r := Extracted(query, names, ratio);
    if r.stage == FuzzyStage {
      var partial := PartialMatches(query, names);
      var fuzzy := FuzzyMatches(query, names, ratio);
      PartialMatchesAreHits(query, names);
      FuzzyMatchesScored(query, names, ratio);
      assert fuzzy[0] in fuzzy;
    }
  }

  /**
   * Stage 4 returns a piece of the query of at least two characters with
   * confidence 0.5; when it finds nothing the result is empty.
   */
  lemma ExtractedFallback(query: string, names: seq<string>, ratio: Ratio)
    ensures var r := Extracted(query, names, ratio);
            (r.stage == RegexStage ==>
               |r.fieldName| >= 2 && Contains(query, r.fieldName) && r.confidence == 0.5
               && r.candidates == [r.fieldName])
            && (r.stage == NoMatchStage ==>
                  r.fieldName == "" && r.confidence == 0.0 && r.candidates == []
                  && RegexFallback(query).None?)
  {
  }

  /** The loops of the four stages, in order: `_multi_stage_extraction`. */
  method MultiStageExtraction(query: string, names: seq<string>, ratio: Ratio) returns (r: Extraction)
    ensures r == Extracted(query, names, ratio)
  {
    var exact := ExactMatch(query, names);
    assert exact == ExactName(query, names);
    if exact.Some? && |exact.value| > 0 {
      return Extraction(exact.value, 1.0, ExactStage, [exact.value], query, None);
    }
    var partial := PartialMatch(query, names);
    if |partial| > 0 {
      return Extraction(partial[0], 0.8, PartialStage, Take(partial, CandidateLimit), query, None);
    }
    var fuzzy := FuzzyMatch(query, names, ratio);
    if |fuzzy| > 0 {
      var best := fuzzy[0];
      if best.score > FuzzyAccept {
        return Extraction(best.row, best.score, FuzzyStage, Rows(Take(fuzzy, CandidateLimit)), query, None);
      }
    }
    var regex := RegexFallbackSearch(query);
    if regex.Some? {
      return Extraction(regex.value, 0.5, RegexStage, [regex.value], query, None);
    }
    return Extraction("", 0.0, NoMatchStage, [], query, None);
  }

  /** The statistics `get_extraction_stats` reports. */
  datatype Stats = Stats(cachedFields: nat, cacheAge: real, cacheTimeout: real)

  class FieldNameExtractor {
    var fieldCache: Option<seq<string>>
    var lastCacheTime: real

    /** No cache, stamped at time 0. */
    constructor()
      ensures fieldCache.None? && lastCacheTime == 0.0
    {
      fieldCache := None;
      lastCacheTime := 0.0;
    }

    /** `_get_all_field_names` at clock `now`, with db the answer the `fields` query would give. */
    method GetAllFieldNames(now: real, db: Fetch<FieldDoc>) returns (r: Fetch<string>)
      modifies this
      ensures r == LoadNames(old(fieldCache), old(lastCacheTime), now, db)
      ensures (fieldCache, lastCacheTime) == CacheAfter(old(fieldCache), old(lastCacheTime), now, db)
    {
      if fieldCache.Some? && now - lastCacheTime < CacheTimeout {
        return Fetched(fieldCache.value);
      }
      if db.Failed? {
        return Failed(db.message);
      }
      var docs := Take(db.rows, FetchLimit);
      var names: seq<string> := [];
      for i := 0 to |docs|
        invariant names == NamesOf(docs[..i])
      {
        assert docs[..i + 1][..i] == docs[..i];
        if Truthy(docs[i].name) {
          names := names + [docs[i].name.value];
        }
        if Truthy(docs[i].code) {
          names := names + [docs[i].code.value];
        }
      }
      assert docs[..|docs|] == docs;
      fieldCache := Some(names);
      lastCacheTime := now;
      return Fetched(names);
    }

    /** `extract_field_name`: load the names, then run the stages; a failed load gives the error result. */
    method ExtractFieldName(query: string, now: real, db: Fetch<FieldDoc>, ratio: Ratio) returns (r: Extraction)
      modifies this
      ensures var loaded := LoadNames(old(fieldCache), old(lastCacheTime), now, db);
              r == if loaded.Failed? then ErrorExtraction(query, loaded.message) else Extracted(query, loaded.rows, ratio)
      ensures (fieldCache, lastCacheTime) == CacheAfter(old(fieldCache), old(lastCacheTime), now, db)
    {
      var names := GetAllFieldNames(now, db);
      if names.Failed? {
        return ErrorExtraction(query, names.message);
      }
      r := MultiStageExtraction(query, names.rows, ratio);
    }

    /** `get_extraction_stats` at clock `now`; an empty cache and a zero timestamp both count as absent. */
    function ExtractionStats(now: real): (s: Stats)
      reads this
      ensures s.cacheTimeout == CacheTimeout
      ensures s.cachedFields > 0 <==> fieldCache.Some? && |fieldCache.value| > 0
      ensures lastCacheTime == 0.0 ==> s.cacheAge == 0.0
    {
      Stats(if fieldCache.Some? && |fieldCache.value| > 0 then |fieldCache.value| else 0,
            if lastCacheTime != 0.0 then now - lastCacheTime else 0.0,
            CacheTimeout)
    }
  }
}
