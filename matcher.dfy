/**
 * MasterDataMatcher: normalises the extracted names, scores them against
 * the field, crop and material reference lists and picks the best match,
 * flagging ambiguity and tagging the match quality.
 */
module Matcher {
  import opened Common
  import opened Records
  import opened Sorting

  const ExactThreshold: real := 1.0
  const HighThreshold: real := 0.8
  const MediumThreshold: real := 0.6
  const LowThreshold: real := 0.4

  // ---------------------------------------------------------------------
  // Normalisation
  // ---------------------------------------------------------------------

  /** The punctuation class removed by `_normalize_text`. */
  predicate IsPunctuation(c: char)
  {
    c in "。、.,!?！？-()（）[]「」"
  }

  /** ord('ア') - ord('あ'). */
  const KanaOffset: int := 'ア' as int - 'あ' as int

  function ToKatakanaChar(c: char): (d: char)
    ensures IsHiragana(c) ==> d as int == c as int + KanaOffset
    ensures !IsHiragana(c) ==> d == c
    ensures !IsHiragana(d)
  {
    if IsHiragana(c) then (c as int + KanaOffset) as char else c
  }

  /** The character-wise conversion `_hiragana_to_katakana` performs. */
  function Katakana(s: string): (r: string)
    ensures |r| == |s|
    ensures forall i :: 0 <= i < |s| ==> r[i] == ToKatakanaChar(s[i])
  {
    seq(|s|, i requires 0 <= i < |s| => ToKatakanaChar(s[i]))
  }

  /** `_hiragana_to_katakana`: builds the result one character at a time. */
  method HiraganaToKatakana(text: string) returns (r: string)
    ensures |r| == |text|
    ensures forall i :: 0 <= i < |text| && IsHiragana(text[i]) ==> r[i] as int == text[i] as int + KanaOffset
    ensures forall i :: 0 <= i < |text| && !IsHiragana(text[i]) ==> r[i] == text[i]
    ensures forall i :: 0 <= i < |r| ==> !IsHiragana(r[i])
    ensures r == Katakana(text)
  {
    r := "";
    var i := 0;
    while i < |text|
      invariant 0 <= i <= |text|
      invariant r == Katakana(text[..i])
    {
      if IsHiragana(text[i]) {
        r := r + [(text[i] as int + KanaOffset) as char];
      } else {
        r := r + [text[i]];
      }
      assert Katakana(text[..i + 1]) == Katakana(text[..i]) + [ToKatakanaChar(text[i])];
      i := i + 1;
    }
    assert text[..i] == text;
  }

  /** `re.sub(<class>, '', s)` for a character class. */
  function RemoveWhere(s: string, drop: char -> bool): (r: string)
    ensures |r| <= |s|
    ensures forall i :: 0 <= i < |r| ==> !drop(r[i])
  {
    if |s| == 0 then ""
    else (if drop(s[0]) then "" else [s[0]]) + RemoveWhere(s[1..], drop)
  }

  /**
   * RemoveWhere drops exactly the characters `drop` selects: a character is
   * kept iff it occurs and is not dropped, as many times as it occurs.
   */
  lemma {:induction false} RemoveWhereKeeps(s: string, drop: char -> bool)
    ensures forall c :: c in RemoveWhere(s, drop) <==> c in s && !drop(c)
    ensures forall c :: !drop(c) ==> multiset(RemoveWhere(s, drop))[c] == multiset(s)[c]
    decreases |s|
  {
    if |s| > 0 {
      RemoveWhereKeeps(s[1..], drop);
      assert s == [s[0]] + s[1..];
      var head: string := if drop(s[0]) then "" else [s[0]];
      assert RemoveWhere(s, drop) == head + RemoveWhere(s[1..], drop);
      assert multiset(RemoveWhere(s, drop)) == multiset(head) + multiset(RemoveWhere(s[1..], drop));
    }
  }

  /**
   * Removal works piece by piece, so it keeps the order of what it keeps:
   * removing from a concatenation is concatenating the removals.
   */
  lemma {:induction false} RemoveWhereConcat(a: string, b: string, drop: char -> bool)
    ensures RemoveWhere(a + b, drop) == RemoveWhere(a, drop) + RemoveWhere(b, drop)
    decreases |a|
  {
    if |a| > 0 {
      var head: string := if drop(a[0]) then "" else [a[0]];
      assert (a + b)[0] == a[0] && (a + b)[1..] == a[1..] + b;
      assert RemoveWhere(a + b, drop) == head + RemoveWhere(a[1..] + b, drop);
      RemoveWhereConcat(a[1..], b, drop);
      assert RemoveWhere(a, drop) == head + RemoveWhere(a[1..], drop);
    } else {
      assert a + b == b;
    }
  }

  /**
   * Removing whitespace and then the punctuation class leaves exactly the
   * characters in neither, so the two substitutions are one removal.
   */
  predicate IsSpaceOrPunctuation(c: char)
  {
    IsSpace(c) || IsPunctuation(c)
  }

  lemma KatakanaKeepsCleanChars(c: char)
    requires !IsSpace(c) && !IsPunctuation(c) && !IsAsciiUpper(c) && !IsFullWidthUpper(c)
    ensures var d := ToKatakanaChar(c);
      !IsSpace(d) && !IsPunctuation(d) && !IsAsciiUpper(d) && !IsFullWidthUpper(d)
  {
  }

  /** Every character RemoveWhere keeps comes from its input. */
  lemma {:induction false} RemoveWhereFrom(s: string, drop: char -> bool)
    ensures forall c | c in RemoveWhere(s, drop) :: c in s
    decreases |s|
  {
    if |s| > 0 {
      RemoveWhereFrom(s[1..], drop);
    }
  }

  /** RemoveWhere changes nothing when no character is to be dropped. */
  lemma {:induction false} RemoveWhereNothing(s: string, drop: char -> bool)
    requires forall i :: 0 <= i < |s| ==> !drop(s[i])
    ensures RemoveWhere(s, drop) == s
    decreases |s|
  {
    if |s| > 0 {
      RemoveWhereNothing(s[1..], drop);
      assert s == [s[0]] + s[1..];
    }
  }

  /** `_normalize_text` is idempotent: a normalised name normalises to itself. */
  lemma NormalizeIdempotent(text: string)
    ensures Normalize(Normalize(text)) == Normalize(text)
  {
    var n := Normalize(text);
    if n != "" {
      assert Lower(n) == n;
      RemoveWhereNothing(n, IsSpaceOrPunctuation);
      assert Katakana(n) == n;
    }
  }

  /** `_normalize_text`: lower-case, drop whitespace and punctuation, hiragana to katakana. */
  function Normalize(text: string): (r: string)
    ensures text == "" ==> r == ""
    ensures r == Katakana(RemoveWhere(Lower(text), IsSpaceOrPunctuation))
    ensures |r| <= |text|
    ensures forall i :: 0 <= i < |r| ==> !IsSpace(r[i]) && !IsPunctuation(r[i]) && !IsHiragana(r[i])
    ensures forall i :: 0 <= i < |r| ==> !IsAsciiUpper(r[i]) && !IsFullWidthUpper(r[i])
  {
    if text == "" then ""
    else
      var u := RemoveWhere(Lower(text), IsSpaceOrPunctuation);
      var r := Katakana(u);
      RemoveWhereFrom(Lower(text), IsSpaceOrPunctuation);
      forall i | 0 <= i < |r|
        ensures !IsSpace(r[i]) && !IsPunctuation(r[i]) && !IsAsciiUpper(r[i]) && !IsFullWidthUpper(r[i])
      {
        assert u[i] in u;
        var k :| 0 <= k < |text| && Lower(text)[k] == u[i];
        KatakanaKeepsCleanChars(u[i]);
      }
      r
  }

  // ---------------------------------------------------------------------
  // Similarity
  // ---------------------------------------------------------------------

  /**
   * `_calculate_similarity`: 0 for an empty side, 1 for equal strings,
   * otherwise the library ratio raised by a containment bonus and capped at 1.
   */
  function Similarity(t1: string, t2: string, ratio: Ratio): (r: real)
    ensures 0.0 <= r <= 1.0
    ensures (t1 == "" || t2 == "") ==> r == 0.0
    ensures t1 != "" && t1 == t2 ==> r == 1.0
    ensures t1 != "" && t2 != "" && t1 != t2 ==> r >= ratio(t1, t2)
    ensures t1 != "" && t2 != "" && t1 != t2 && !Contains(t2, t1) && !Contains(t1, t2) ==> r == ratio(t1, t2)
  {
    if t1 == "" || t2 == "" then 0.0
    else if t1 == t2 then 1.0
    else
      var sim := ratio(t1, t2);
      if Contains(t2, t1) || Contains(t1, t2) then
        var shorter := if |t1| <= |t2| then |t1| else |t2|;
        var longer := if |t1| <= |t2| then |t2| else |t1|;
        MinReal(1.0, sim + (shorter as real) / (longer as real) * 0.2)
      else sim
  }

  // ---------------------------------------------------------------------
  // Best-match selection
  // ---------------------------------------------------------------------

  function Conf(m: Matched): real
  {
    m.confidence
  }

  /** `_assess_match_quality`. */
  function AssessQuality(c: real): (q: Quality)
    ensures q == Exact <==> c >= ExactThreshold
    ensures q == High <==> HighThreshold <= c < ExactThreshold
    ensures q == Medium <==> MediumThreshold <= c < HighThreshold
    ensures q == Low <==> LowThreshold <= c < MediumThreshold
    ensures q == NoMatch <==> c < LowThreshold
  {
    if c >= ExactThreshold then Exact
    else if c >= HighThreshold then High
    else if c >= MediumThreshold then Medium
    else if c >= LowThreshold then Low
    else NoMatch
  }

  /** `_create_no_match_result`. */
  function NoMatchResult(): (r: Check)
    ensures r.Matching? && r.matched.None? && r.candidates == [] && !r.ambiguous && r.quality == NoMatch
  {
    Matching(None, [], false, NoMatch)
  }

  /**
   * `_select_best_match`: the best match is the first of the matches in
   * stable descending confidence order (the first maximum), and its quality
   * tags the result.
   */
  function SelectBest(matches: seq<Matched>): (r: Check)
    ensures r.Matching?
    ensures |matches| == 0 ==> r == NoMatchResult()
    ensures |matches| > 0 ==> r.matched == Some(FirstMax(matches, Conf))
    ensures |matches| > 0 ==> r.quality == AssessQuality(r.matched.value.confidence)
  {
    if |matches| == 0 then NoMatchResult()
    else
      var sorted := SortDesc(matches, Conf);
      SortDescHead(matches, Conf);
      var best := sorted[0];
      var ambiguous := |sorted| >= 2 && best.confidence - sorted[1].confidence < 0.1;
      Matching(Some(best), Take(sorted, 3), ambiguous, AssessQuality(best.confidence))
  }

  /**
   * The candidates of `_select_best_match` are the top three matches in
   * descending order, headed by the best one, with no match left out
   * scoring above the last of them; the result is ambiguous
   * exactly when the top two are less than 0.1 apart.
   */
  lemma SelectBestCandidates(matches: seq<Matched>)
    ensures var r := SelectBest(matches);
      && |r.candidates| == (if |matches| < 3 then |matches| else 3)
      && SortedDesc(r.candidates, Conf)
      && multiset(r.candidates) <= multiset(matches)
      && (|matches| > 0 ==> r.candidates[0] == r.matched.value)
      && (r.ambiguous <==> |r.candidates| >= 2 && r.candidates[0].confidence - r.candidates[1].confidence < 0.1)
    ensures var r := SelectBest(matches);
      |r.candidates| > 0 ==>
        forall m :: m in multiset(matches) - multiset(r.candidates) ==> m.confidence <= r.candidates[|r.candidates| - 1].confidence
  {
    if |matches| > 0 {
      var sorted := SortDesc(matches, Conf);
      var top := Take(sorted, 3);
      assert SelectBest(matches).candidates == top;
      SortDescSorted(matches, Conf);
      SortDescPerm(matches, Conf);
      PrefixSortedDesc(sorted, |top|, Conf);
      TopOfSortDesc(matches, |top|, Conf);
    }
  }

  /** When some match is certain (1.0) and none exceeds 1.0, the selected match is certain and exact. */
  lemma SelectBestOfCertain(ms: seq<Matched>, m: Matched)
    requires m in ms && m.confidence == 1.0
    requires forall x | x in ms :: x.confidence <= 1.0
    ensures SelectBest(ms).matched.Some?
    ensures SelectBest(ms).matched.value.confidence == 1.0
    ensures SelectBest(ms).quality == Exact
  {
    var b := FirstMax(ms, Conf);
    assert b == ms[FirstMaxIndex(ms, Conf)];
    var k :| 0 <= k < |ms| && ms[k] == m;
    assert Conf(ms[k]) <= Conf(b);
  }

  // ---------------------------------------------------------------------
  // Fields
  // ---------------------------------------------------------------------

  /** A field document: `field_id` (possibly absent), `field_name` and `field_code` (default ''). */
  datatype MasterField = MasterField(fieldId: Option<string>, fieldName: string, fieldCode: string)

  /** The code score: 0.9 when the code and the input contain one another, case-insensitively. */
  function CodeScore(input: string, code: string): (r: real)
    ensures r == 0.9 <==> code != "" && (Contains(Lower(input), Lower(code)) || Contains(Lower(code), Lower(input)))
    ensures r != 0.9 ==> r == 0.0
  {
    if code != "" && (Contains(Lower(input), Lower(code)) || Contains(Lower(code), Lower(input))) then 0.9 else 0.0
  }

  /** The entry `match_field_data` appends for one field, when its best score reaches the low threshold. */
  function FieldEntry(input: string, f: MasterField, ratio: Ratio): (r: Option<Matched>)
    ensures r.Some? ==> r.value.confidence >= LowThreshold && r.value.confidence <= 1.0
    ensures r.Some? ==> r.value.id == f.fieldId && r.value.name == Some(f.fieldName) && r.value.code == Some(f.fieldCode)
    ensures r.Some? ==> r.value.via == "name_similarity" || r.value.via == "code_match"
  {
    var nameScore := Similarity(input, Normalize(f.fieldName), ratio);
    var codeScore := CodeScore(input, f.fieldCode);
    var best := MaxReal(nameScore, codeScore);
    if best >= LowThreshold then
      Some(Matched(f.fieldId, Some(f.fieldName), Some(f.fieldCode), best,
                   if nameScore > codeScore then "name_similarity" else "code_match"))
    else None
  }

  /** A field whose code contains the input, or is contained in it, scores at least 0.9. */
  lemma CodeMatchScoresHigh(input: string, f: MasterField, ratio: Ratio)
    requires f.fieldCode != ""
    requires Contains(Lower(input), Lower(f.fieldCode)) || Contains(Lower(f.fieldCode), Lower(input))
    ensures FieldEntry(input, f, ratio).Some?
    ensures FieldEntry(input, f, ratio).value.confidence >= 0.9
  {
  }

  /** The per-field entries, in master-list order. */
  function FieldEntries(input: string, fields: seq<MasterField>, ratio: Ratio): (es: seq<Option<Matched>>)
    ensures |es| == |fields|
    ensures forall i :: 0 <= i < |fields| ==> es[i] == FieldEntry(input, fields[i], ratio)
  {
    seq(|fields|, i requires 0 <= i < |fields| => FieldEntry(input, fields[i], ratio))
  }

  /** The `matches` list: the entries that reached the low threshold, in master-list order. */
  function FieldMatches(input: string, fields: seq<MasterField>, ratio: Ratio): (ms: seq<Matched>)
    ensures |ms| <= |fields|
    ensures forall m | m in ms :: LowThreshold <= m.confidence <= 1.0
  {
    var es := FieldEntries(input, fields, ratio);
    SomesBounded(es, Conf, LowThreshold, 1.0);
    Somes(es)
  }

  /** `match_field_data`, as a value. */
  function MatchField(name: string, fields: seq<MasterField>, ratio: Ratio): (r: Check)
    ensures r.Matching?
    ensures (name == "" || fields == []) ==> r == NoMatchResult()
    ensures r.matched.Some? ==> LowThreshold <= r.matched.value.confidence <= 1.0
  {
    if name == "" || fields == [] then NoMatchResult()
    else SelectBest(FieldMatches(Normalize(name), fields, ratio))
  }

  /** `match_field_data`: scores every field in a loop, then selects. */
  method MatchFieldData(name: string, fields: seq<MasterField>, ratio: Ratio) returns (r: Check)
    ensures r == MatchField(name, fields, ratio)
  {
    if name == "" || fields == [] {
      return NoMatchResult();
    }
    var input := Normalize(name);
    var matches: seq<Matched> := [];
    var i := 0;
    while i < |fields|
      invariant 0 <= i <= |fields|
      invariant matches == Somes(FieldEntries(input, fields, ratio)[..i])
    {
      var entry := FieldEntry(input, fields[i], ratio);
      SomesStep(FieldEntries(input, fields, ratio), i);
      if entry.Some? {
        matches := matches + [entry.value];
      }
      i := i + 1;
    }
    assert FieldEntries(input, fields, ratio)[..i] == FieldEntries(input, fields, ratio);
    r := SelectBest(matches);
  }

  /**
   * A field whose name normalises to the same text as the input is
   * matched with confidence 1.0 and quality exact.
   */
  lemma ExactFieldNameMatches(name: string, fields: seq<MasterField>, j: nat, ratio: Ratio)
    requires j < |fields|
    requires Normalize(name) != "" && Normalize(fields[j].fieldName) == Normalize(name)
    ensures MatchField(name, fields, ratio).matched.Some?
    ensures MatchField(name, fields, ratio).matched.value.confidence == 1.0
    ensures MatchField(name, fields, ratio).quality == Exact
  {
    var input := Normalize(name);
    var e := FieldEntry(input, fields[j], ratio);
    assert e.Some? && e.value.confidence == 1.0;
    SomesKeeps(FieldEntries(input, fields, ratio), j);
    var ms := FieldMatches(input, fields, ratio);
    SelectBestOfCertain(ms, e.value);
    assert MatchField(name, fields, ratio) == SelectBest(ms);
  }

  // ---------------------------------------------------------------------
  // Crops
  // ---------------------------------------------------------------------

  datatype MasterCrop = MasterCrop(cropId: Option<string>, cropName: string, scientificName: string, aliases: seq<string>)

  /** The similarity of the input to one normalised alias. */
  function AliasScore(input: string, alias: string, ratio: Ratio): (r: real)
    ensures 0.0 <= r <= 1.0
  {
    Similarity(input, Normalize(alias), ratio)
  }

  /** The similarity of the input to each alias, in order. */
  function AliasScores(input: string, aliases: seq<string>, ratio: Ratio): (ss: seq<real>)
    ensures |ss| == |aliases|
    ensures forall i :: 0 <= i < |aliases| ==> ss[i] == AliasScore(input, aliases[i], ratio)
  {
    seq(|aliases|, i requires 0 <= i < |aliases| => AliasScore(input, aliases[i], ratio))
  }

  /** `score = max(score, s)` over the scores, starting from 0. */
  function RunningMax(ss: seq<real>): (r: real)
    ensures r >= 0.0
    ensures (forall i :: 0 <= i < |ss| ==> ss[i] <= 1.0) ==> r <= 1.0
  {
    if |ss| == 0 then 0.0
    else
      var front := ss[..|ss| - 1];
      assert forall i :: 0 <= i < |front| ==> front[i] == ss[i];
      MaxReal(RunningMax(front), ss[|ss| - 1])
  }

  /** The running maximum bounds every score and is 0 or one of them. */
  lemma {:induction false} RunningMaxIsMax(ss: seq<real>)
    ensures forall i :: 0 <= i < |ss| ==> ss[i] <= RunningMax(ss)
    ensures RunningMax(ss) == 0.0 || exists i :: 0 <= i < |ss| && RunningMax(ss) == ss[i]
  {
    if |ss| > 0 {
      var front := ss[..|ss| - 1];
      RunningMaxIsMax(front);
      assert forall i :: 0 <= i < |front| ==> front[i] == ss[i];
    }
  }

  /** The alias score of `_match_crop` and `_match_material`: the running maximum over the aliases. */
  function BestAliasScore(input: string, aliases: seq<string>, ratio: Ratio): (r: real)
    ensures 0.0 <= r <= 1.0
  {
    RunningMax(AliasScores(input, aliases, ratio))
  }

  /** The alias score is the largest alias similarity, or 0 when there is none. */
  lemma BestAliasScoreIsMax(input: string, aliases: seq<string>, ratio: Ratio)
    ensures forall i :: 0 <= i < |aliases| ==> AliasScore(input, aliases[i], ratio) <= BestAliasScore(input, aliases, ratio)
    ensures var r := BestAliasScore(input, aliases, ratio);
            r == 0.0 || exists i :: 0 <= i < |aliases| && r == AliasScore(input, aliases[i], ratio)
  {
    RunningMaxIsMax(AliasScores(input, aliases, ratio));
  }

  function CropEntry(input: string, c: MasterCrop, ratio: Ratio): (r: Option<Matched>)
    ensures r.Some? ==> LowThreshold <= r.value.confidence <= 1.0
    ensures r.Some? ==> r.value.id == c.cropId && r.value.name == Some(c.cropName) && r.value.code.None?
    ensures r.Some? ==> r.value.via in ["main_name", "scientific_name", "alias"]
  {
    var mainScore := Similarity(input, Normalize(c.cropName), ratio);
    var sciScore := if c.scientificName != "" then Similarity(input, Normalize(c.scientificName), ratio) else 0.0;
    var aliasScore := BestAliasScore(input, c.aliases, ratio);
    var best := MaxReal(MaxReal(mainScore, sciScore), aliasScore);
    if best >= LowThreshold then
      var via := if sciScore == best then "scientific_name" else if aliasScore == best then "alias" else "main_name";
      Some(Matched(c.cropId, Some(c.cropName), None, best, via))
    else None
  }

  /** The per-crop entries, in master-list order. */
  function CropEntries(input: string, crops: seq<MasterCrop>, ratio: Ratio): (es: seq<Option<Matched>>)
    ensures |es| == |crops|
    ensures forall i :: 0 <= i < |crops| ==> es[i] == CropEntry(input, crops[i], ratio)
  {
    seq(|crops|, i requires 0 <= i < |crops| => CropEntry(input, crops[i], ratio))
  }

  /** The `matches` list: the entries that reached the low threshold, in master-list order. */
  function CropMatches(input: string, crops: seq<MasterCrop>, ratio: Ratio): (ms: seq<Matched>)
    ensures |ms| <= |crops|
    ensures forall m | m in ms :: LowThreshold <= m.confidence <= 1.0
  {
    var es := CropEntries(input, crops, ratio);
    SomesBounded(es, Conf, LowThreshold, 1.0);
    Somes(es)
  }

  /** `match_crop_data`, as a value. */
  function MatchCrop(name: string, crops: seq<MasterCrop>, ratio: Ratio): (r: Check)
    ensures r.Matching?
    ensures (name == "" || crops == []) ==> r == NoMatchResult()
    ensures r.matched.Some? ==> LowThreshold <= r.matched.value.confidence <= 1.0
  {
    if name == "" || crops == [] then NoMatchResult()
    else SelectBest(CropMatches(Normalize(name), crops, ratio))
  }

  /** `match_crop_data`: scores every crop in a loop, then selects. */
  method MatchCropData(name: string, crops: seq<MasterCrop>, ratio: Ratio) returns (r: Check)
    ensures r == MatchCrop(name, crops, ratio)
  {
    if name == "" || crops == [] {
      return NoMatchResult();
    }
    var input := Normalize(name);
    var matches: seq<Matched> := [];
    var i := 0;
    while i < |crops|
      invariant 0 <= i <= |crops|
      invariant matches == Somes(CropEntries(input, crops, ratio)[..i])
    {
      var entry := CropEntry(input, crops[i], ratio);
      SomesStep(CropEntries(input, crops, ratio), i);
      if entry.Some? {
        matches := matches + [entry.value];
      }
      i := i + 1;
    }
    assert CropEntries(input, crops, ratio)[..i] == CropEntries(input, crops, ratio);
    r := SelectBest(matches);
  }

  /**
   * A crop whose main name normalises to the same text as the input is
   * matched with confidence 1.0 and quality exact.
   */
  lemma ExactCropNameMatches(name: string, crops: seq<MasterCrop>, j: nat, ratio: Ratio)
    requires j < |crops|
    requires Normalize(name) != "" && Normalize(crops[j].cropName) == Normalize(name)
    ensures MatchCrop(name, crops, ratio).matched.Some?
    ensures MatchCrop(name, crops, ratio).matched.value.confidence == 1.0
    ensures MatchCrop(name, crops, ratio).quality == Exact
  {
    var input := Normalize(name);
    var e := CropEntry(input, crops[j], ratio);
    assert e.Some? && e.value.confidence == 1.0;
    SomesKeeps(CropEntries(input, crops, ratio), j);
    var ms := CropMatches(input, crops, ratio);
    SelectBestOfCertain(ms, e.value);
    assert MatchCrop(name, crops, ratio) == SelectBest(ms);
  }

  // ---------------------------------------------------------------------
  // Materials
  // ---------------------------------------------------------------------

  datatype MasterMaterial = MasterMaterial(materialId: Option<string>, materialName: string, brandName: string,
                                           ingredients: seq<string>)

  /** The substring score for inputs of at least three characters: 0.7, 0.6 or 0. */
  function PartialScore(input: string, name: string): (r: real)
    ensures r == 0.7 <==> |input| >= 3 && Contains(Normalize(name), input)
    ensures r == 0.6 <==> |input| >= 3 && !Contains(Normalize(name), input) && Contains(input, Normalize(name))
    ensures r == 0.0 || r == 0.6 || r == 0.7
  {
    if |input| >= 3 then
      if Contains(Normalize(name), input) then 0.7
      else if Contains(input, Normalize(name)) then 0.6
      else 0.0
    else 0.0
  }

  function MaterialEntry(input: string, m: MasterMaterial, ratio: Ratio): (r: Option<Matched>)
    ensures r.Some? ==> LowThreshold <= r.value.confidence <= 1.0
    ensures r.Some? ==> r.value.id == m.materialId && r.value.name == Some(m.materialName)
    ensures r.Some? ==> r.value.via in ["material_name", "brand_name", "active_ingredient", "partial_match"]
  {
    var nameScore := Similarity(input, Normalize(m.materialName), ratio);
    var brandScore := if m.brandName != "" then Similarity(input, Normalize(m.brandName), ratio) else 0.0;
    var ingredientScore := BestAliasScore(input, m.ingredients, ratio);
    var partialScore := PartialScore(input, m.materialName);
    var best := MaxReal(MaxReal(nameScore, brandScore), MaxReal(ingredientScore, partialScore));
    if best >= LowThreshold then
      var via := if brandScore == best then "brand_name"
                 else if ingredientScore == best then "active_ingredient"
                 else if partialScore == best then "partial_match"
                 else "material_name";
      Some(Matched(m.materialId, Some(m.materialName), None, best, via))
    else None
  }

  /** The per-material entries, in master-list order. */
  function MaterialEntries(input: string, materials: seq<MasterMaterial>, ratio: Ratio): (es: seq<Option<Matched>>)
    ensures |es| == |materials|
    ensures forall i :: 0 <= i < |materials| ==> es[i] == MaterialEntry(input, materials[i], ratio)
  {
    seq(|materials|, i requires 0 <= i < |materials| => MaterialEntry(input, materials[i], ratio))
  }

  /** The `matches` list: the entries that reached the low threshold, in master-list order. */
  function MaterialMatches(input: string, materials: seq<MasterMaterial>, ratio: Ratio): (ms: seq<Matched>)
    ensures |ms| <= |materials|
    ensures forall m | m in ms :: LowThreshold <= m.confidence <= 1.0
  {
    var es := MaterialEntries(input, materials, ratio);
    SomesBounded(es, Conf, LowThreshold, 1.0);
    Somes(es)
  }

  /** `_match_single_material`, as a value. */
  function MatchOneMaterial(name: string, materials: seq<MasterMaterial>, ratio: Ratio): (r: Check)
    ensures r.Matching?
    ensures name == "" ==> r == NoMatchResult()
    ensures r.matched.Some? ==> LowThreshold <= r.matched.value.confidence <= 1.0
  {
    if name == "" then NoMatchResult()
    else SelectBest(MaterialMatches(Normalize(name), materials, ratio))
  }

  /** `_match_single_material`: scores every material in a loop, then selects. */
  method MatchSingleMaterial(name: string, materials: seq<MasterMaterial>, ratio: Ratio) returns (r: Check)
    ensures r == MatchOneMaterial(name, materials, ratio)
  {
    if name == "" {
      return NoMatchResult();
    }
    var input := Normalize(name);
    var matches: seq<Matched> := [];
    var i := 0;
    while i < |materials|
      invariant 0 <= i <= |materials|
      invariant matches == Somes(MaterialEntries(input, materials, ratio)[..i])
    {
      var entry := MaterialEntry(input, materials[i], ratio);
      SomesStep(MaterialEntries(input, materials, ratio), i);
      if entry.Some? {
        matches := matches + [entry.value];
      }
      i := i + 1;
    }
    assert MaterialEntries(input, materials, ratio)[..i] == MaterialEntries(input, materials, ratio);
    r := SelectBest(matches);
  }

  /**
   * A material whose name normalises to the same text as the input is
   * matched with confidence 1.0 and quality exact.
   */
  lemma ExactMaterialNameMatches(name: string, materials: seq<MasterMaterial>, j: nat, ratio: Ratio)
    requires j < |materials|
    requires Normalize(name) != "" && Normalize(materials[j].materialName) == Normalize(name)
    ensures MatchOneMaterial(name, materials, ratio).matched.Some?
    ensures MatchOneMaterial(name, materials, ratio).matched.value.confidence == 1.0
    ensures MatchOneMaterial(name, materials, ratio).quality == Exact
  {
    var input := Normalize(name);
    var e := MaterialEntry(input, materials[j], ratio);
    assert e.Some? && e.value.confidence == 1.0;
    SomesKeeps(MaterialEntries(input, materials, ratio), j);
    var ms := MaterialMatches(input, materials, ratio);
    SelectBestOfCertain(ms, e.value);
    assert MatchOneMaterial(name, materials, ratio) == SelectBest(ms);
  }

  /** Whether a result names a matched entity. */
  predicate Hit(c: Check)
  {
    c.Matching? && c.matched.Some?
  }

  /** The results of `f` on each name that are hits, in input order. */
  function KeepHits(names: seq<string>, f: string -> Check): (rs: seq<Check>)
    ensures |rs| <= |names|
    ensures forall c | c in rs :: Hit(c)
    decreases |names|
  {
    if |names| == 0 then []
    else
      var prev := KeepHits(names[..|names| - 1], f);
      var r := f(names[|names| - 1]);
      if Hit(r) then prev + [r] else prev
  }

  lemma KeepHitsStep(names: seq<string>, i: nat, f: string -> Check)
    requires i < |names|
    ensures KeepHits(names[..i + 1], f) == KeepHits(names[..i], f) + (if Hit(f(names[i])) then [f(names[i])] else [])
  {
    assert names[..i + 1][..i] == names[..i];
  }

  /**
   * The kept results are exactly the hits among the results: there is one
   * exactly when some name gives a hit, and each is the result of some name.
   */
  lemma {:induction false} KeepHitsMembers(names: seq<string>, f: string -> Check)
    ensures |KeepHits(names, f)| > 0 <==> exists i :: 0 <= i < |names| && Hit(f(names[i]))
    ensures forall c | c in KeepHits(names, f) :: exists i :: 0 <= i < |names| && c == f(names[i])
    decreases |names|
  {
    if |names| > 0 {
      var n := |names| - 1;
      var init := names[..n];
      KeepHitsMembers(init, f);
      assert forall i :: 0 <= i < n ==> init[i] == names[i];
    }
  }

  /** Matching one name against the material list, as a function value. */
  function MaterialMatcher(materials: seq<MasterMaterial>, ratio: Ratio): string -> Check
  {
    name => MatchOneMaterial(name, materials, ratio)
  }

  /** The results `match_material_data` keeps: those with a matched material, in input order. */
  function ResolvedMaterials(names: seq<string>, materials: seq<MasterMaterial>, ratio: Ratio): (rs: seq<Check>)
    ensures |rs| <= |names|
    ensures forall c | c in rs :: c.Matching? && c.matched.Some?
  {
    KeepHits(names, MaterialMatcher(materials, ratio))
  }

  lemma ResolvedMaterialsStep(names: seq<string>, i: nat, materials: seq<MasterMaterial>, ratio: Ratio)
    requires i < |names|
    ensures var r := MatchOneMaterial(names[i], materials, ratio);
            ResolvedMaterials(names[..i + 1], materials, ratio)
            == ResolvedMaterials(names[..i], materials, ratio) + (if r.matched.Some? then [r] else [])
  {
    KeepHitsStep(names, i, MaterialMatcher(materials, ratio));
  }

  /** Whether one material name resolves to a master material. */
  predicate Resolves(name: string, materials: seq<MasterMaterial>, ratio: Ratio)
  {
    MatchOneMaterial(name, materials, ratio).matched.Some?
  }

  /**
   * At least one material result is kept exactly when some name resolves,
   * and every kept result is the match of one of the names, so its
   * confidence is at least the low threshold.
   */
  lemma ResolvedMaterialsMembers(names: seq<string>, materials: seq<MasterMaterial>, ratio: Ratio)
    ensures |ResolvedMaterials(names, materials, ratio)| > 0 <==>
            exists i :: 0 <= i < |names| && Resolves(names[i], materials, ratio)
    ensures forall c | c in ResolvedMaterials(names, materials, ratio) ::
              LowThreshold <= c.matched.value.confidence <= 1.0
  {
    var f := MaterialMatcher(materials, ratio);
    KeepHitsMembers(names, f);
    forall c | c in ResolvedMaterials(names, materials, ratio)
      ensures LowThreshold <= c.matched.value.confidence <= 1.0
    {
      var i :| 0 <= i < |names| && c == f(names[i]);
    }
  }

  /** `match_material_data`, as a value: nothing for an empty name list or an empty master list. */
  function MatchMaterials(names: seq<string>, materials: seq<MasterMaterial>, ratio: Ratio): (rs: seq<Check>)
    ensures |rs| <= |names|
    ensures (names == [] || materials == []) ==> rs == []
    ensures forall c | c in rs :: c.Matching? && c.matched.Some?
    ensures forall c | c in rs :: LowThreshold <= c.matched.value.confidence <= 1.0
    ensures |rs| > 0 <==> materials != [] && exists i :: 0 <= i < |names| && Resolves(names[i], materials, ratio)
  {
    ResolvedMaterialsMembers(names, materials, ratio);
    if names == [] || materials == [] then [] else ResolvedMaterials(names, materials, ratio)
  }

  /** The loop of `match_material_data`: matches every name in turn and keeps the resolved ones. */
  method ResolveMaterials(names: seq<string>, materials: seq<MasterMaterial>, ratio: Ratio) returns (rs: seq<Check>)
    ensures rs == ResolvedMaterials(names, materials, ratio)
  {
    rs := [];
    for i := 0 to |names|
      invariant rs == ResolvedMaterials(names[..i], materials, ratio)
    {
      var r := MatchSingleMaterial(names[i], materials, ratio);
      ResolvedMaterialsStep(names, i, materials, ratio);
      if r.matched.Some? {
        rs := rs + [r];
      }
    }
    assert names[..|names|] == names;
  }

  /** `match_material_data`: nothing for an empty name list or an empty master list, else the loop. */
  method MatchMaterialData(names: seq<string>, materials: seq<MasterMaterial>, ratio: Ratio) returns (rs: seq<Check>)
    ensures rs == MatchMaterials(names, materials, ratio)
  {
    if names == [] || materials == [] {
      return [];
    }
    rs := ResolveMaterials(names, materials, ratio);
  }
}
