# Farm work-report pipeline, modelled in Dafny

This project models the core of an agricultural assistant. A farmer sends a
free-text work report, for example "昨日トマトハウスにダコニールを散布". The
pipeline turns it into a work record.

- **Extraction.** Relative dates, work types, field, crop and material names
  are read from the report, and an extraction record is built (the
  keyword-only fallback has a fixed confidence of 0.3).
- **Scoring.** A confidence score is a clamped weighted sum of seven
  evaluators.
- **Reconciliation.** Names are matched against the field, crop and material
  master lists: exact, then partial, then fuzzy, then no match. The older
  resolver and the field-name extractor keep a five-minute cache of the
  master data.
- **Validation.** Two validators decide validity, missing information,
  suggestions and a quality score.
- **Confirmation.** Confirmation messages and option lists are built for the
  user.
- **Strategy routing.** An ordered list of registration strategies picks the
  first that can handle the record, falling back to the last. The
  automatic, confirmation and intelligent strategies and the decision
  service that triggers the intelligent pass are modelled.
- **Helpers around the pipeline.** Date and field query parsing; the query
  analyser and the field agent's gate; the field registration and task
  update tools (current and older versions); the registration agent; the
  search agent with its statistics, interval and rotation analysis.

Each source file is one Dafny module. `Common`, `Patterns`, `Records` and
`Sorting` hold the shared string helpers, regular-expression scanners,
record types and sorting. State updated in place is modelled as classes:
the resolver and extractor caches, the strategy context, the scheduled-task, field
and work-log collections. Loops in the source are methods with loop
invariants, each proved against a specification function. Database and
language-model answers, the clock, identifiers and `dateparser` are
parameters.

The pipeline follows the code as written, including where it departs from
what its comments and names promise (see the findings below). For each such
place the intended behaviour is a separate reference definition with its
own lemmas: `WorkLogRegistration.IntendedWorkDate`,
`WorkLogSearch.IntendedDateRange`, `WorkLogSearch.LatestThree` and
`DecisionService.AnalyzeContext`. No operation of the pipeline uses them.

## Model

| member | source | states |
|---|---|---|
| Matcher.ToKatakanaChar | src/agri_ai/domain/master_data_matcher.py:308-312 | a character in あ..ん moves by the fixed offset ア−あ, any other character is kept, and the result is never hiragana |
| Matcher.Katakana | src/agri_ai/domain/master_data_matcher.py:304-313 | the conversion keeps the length and converts each character independently of the others |
| Matcher.HiraganaToKatakana | src/agri_ai/domain/master_data_matcher.py:304-313 | the character loop keeps the length, shifts every あ..ん character by ア−あ, leaves every other character alone, leaves no hiragana, and agrees with `Katakana` |
| Matcher.KatakanaKeepsCleanChars | src/agri_ai/domain/master_data_matcher.py:298-313 | the kana conversion, which runs last, cannot bring back whitespace, punctuation or an upper-case letter |
| Matcher.Normalize | src/agri_ai/domain/master_data_matcher.py:271-302 | the result is the lower-cased text with whitespace and the punctuation class removed and hiragana turned to katakana; empty input gives "", and the result is no longer than the input and holds no whitespace, no character of the punctuation class, no hiragana and no upper-case Latin letter |
| Matcher.RemoveWhereKeeps | src/agri_ai/domain/master_data_matcher.py:292-296 | a character is kept by the substitution exactly when it occurs in the text and is not removed, as many times as it occurs |
| Matcher.RemoveWhereConcat | src/agri_ai/domain/master_data_matcher.py:292-296 | removal goes piece by piece, so the kept characters stay in their order |
| Matcher.NormalizeIdempotent | src/agri_ai/domain/master_data_matcher.py:271-302 | normalising a normalised text changes nothing |
| Matcher.Similarity | src/agri_ai/domain/master_data_matcher.py:241-269 | the score lies in [0,1]; it is 0 when either text is empty and 1 for equal texts; otherwise it is at least the library ratio, and exactly that ratio when neither text contains the other (the containment bonus is capped at 1) |
| Matcher.AssessQuality | src/agri_ai/domain/master_data_matcher.py:356-367 | exact for confidence ≥ 1.0, high for [0.8,1.0), medium for [0.6,0.8), low for [0.4,0.6), no_match below 0.4, each band as an if-and-only-if |
| Matcher.NoMatchResult | src/agri_ai/domain/master_data_matcher.py:347-354 | no matched entity, no candidates, no ambiguity, quality no_match |
| Matcher.SelectBest | src/agri_ai/domain/master_data_matcher.py:315-345 | no matches give the no-match result; otherwise the matched entity is the first one of highest confidence (what a stable descending sort puts first) and the quality is assessed from its confidence |
| Matcher.SelectBestCandidates | src/agri_ai/domain/master_data_matcher.py:329-343 | the candidates are min(3, n) of the matches in non-increasing confidence order, headed by the selected match, and no match left out scores above the last candidate, so they are the top three; the result is ambiguous exactly when there are two candidates less than 0.1 apart, so one match is never ambiguous |
| Matcher.SelectBestOfCertain | src/agri_ai/domain/master_data_matcher.py:326-345 | when some match has confidence 1.0 and none exceeds it, the selected match has confidence 1.0 and quality exact |
| Matcher.CodeScore | src/agri_ai/domain/master_data_matcher.py:73-77 | the code score is 0.9 exactly when the code is non-empty and it and the input contain one another case-insensitively, and 0 otherwise |
| Matcher.FieldEntry | src/agri_ai/domain/master_data_matcher.py:66-89 | a field is kept only with a score in [0.4,1]; the entry carries that field's id, name and code, and its method is name_similarity or code_match |
| Matcher.CodeMatchScoresHigh | src/agri_ai/domain/master_data_matcher.py:73-89 | a field whose code contains the input, or is contained in it, is always kept and scores at least 0.9 |
| Matcher.FieldMatches | src/agri_ai/domain/master_data_matcher.py:65-90 | at most one match per field, each with confidence in [0.4,1] |
| Matcher.MatchField | src/agri_ai/domain/master_data_matcher.py:44-91 | an empty name or an empty field list gives the no-match result; a matched field always has confidence in [0.4,1] |
| Matcher.MatchFieldData | src/agri_ai/domain/master_data_matcher.py:44-91 | the scoring loop followed by the selection gives exactly `MatchField` |
| Matcher.ExactFieldNameMatches | src/agri_ai/domain/master_data_matcher.py:63-91 | a field whose name normalises to the normalised input is matched with confidence 1.0 and quality exact |
| Matcher.BestAliasScore | src/agri_ai/domain/master_data_matcher.py:128-130 | the alias score lies in [0,1] |
| Matcher.RunningMaxIsMax | src/agri_ai/domain/master_data_matcher.py:128-130 | the running maximum `max(score, s)` from 0 bounds every score and is 0 or one of them |
| Matcher.BestAliasScoreIsMax | src/agri_ai/domain/master_data_matcher.py:128-130 | the alias score bounds the similarity of every normalised alias and is 0 or the similarity of one alias |
| Matcher.CropEntry | src/agri_ai/domain/master_data_matcher.py:114-147 | a crop is kept only with a score in [0.4,1]; the entry carries that crop's id and name, and its method is main_name, scientific_name or alias |
| Matcher.CropMatches | src/agri_ai/domain/master_data_matcher.py:113-148 | at most one match per crop, each with confidence in [0.4,1] |
| Matcher.MatchCrop | src/agri_ai/domain/master_data_matcher.py:93-149 | an empty name or an empty crop list gives the no-match result; a matched crop always has confidence in [0.4,1] |
| Matcher.MatchCropData | src/agri_ai/domain/master_data_matcher.py:93-149 | the scoring loop followed by the selection gives exactly `MatchCrop` |
| Matcher.ExactCropNameMatches | src/agri_ai/domain/master_data_matcher.py:111-149 | a crop whose main name normalises to the normalised input is matched with confidence 1.0 and quality exact |
| Matcher.PartialScore | src/agri_ai/domain/master_data_matcher.py:212-218 | for an input of at least three characters, 0.7 when the normalised name contains it, otherwise 0.6 when it contains the normalised name, otherwise 0 |
| Matcher.MaterialEntry | src/agri_ai/domain/master_data_matcher.py:191-237 | a material is kept only with a score in [0.4,1]; the entry carries that material's id and name, and its method is one of the four named methods |
| Matcher.MaterialMatches | src/agri_ai/domain/master_data_matcher.py:190-238 | at most one match per material, each with confidence in [0.4,1] |
| Matcher.MatchOneMaterial | src/agri_ai/domain/master_data_matcher.py:177-239 | an empty name gives the no-match result; a matched material always has confidence in [0.4,1] |
| Matcher.MatchSingleMaterial | src/agri_ai/domain/master_data_matcher.py:177-239 | the scoring loop followed by the selection gives exactly `MatchOneMaterial` |
| Matcher.ExactMaterialNameMatches | src/agri_ai/domain/master_data_matcher.py:188-239 | a material whose name normalises to the normalised input is matched with confidence 1.0 and quality exact |
| Matcher.KeepHitsMembers | src/agri_ai/domain/master_data_matcher.py:169-175 | something is kept exactly when some name gives a hit, and every kept result is the result of one of the names |
| Matcher.ResolvedMaterials | src/agri_ai/domain/master_data_matcher.py:169-175 | at most one result per name, and every kept result names a matched material |
| Matcher.ResolvedMaterialsMembers | src/agri_ai/domain/master_data_matcher.py:169-175 | a result is kept exactly when some name resolves, and every kept result has confidence in [0.4,1] |
| Matcher.MatchMaterials | src/agri_ai/domain/master_data_matcher.py:151-175 | an empty name list or an empty master list gives []; otherwise only resolved entries are returned, at most one per name, each with confidence in [0.4,1], and the list is non-empty exactly when some name resolves |
| Matcher.ResolveMaterials | src/agri_ai/domain/master_data_matcher.py:169-175 | the loop over the names keeps exactly `ResolvedMaterials` |
| Matcher.MatchMaterialData | src/agri_ai/domain/master_data_matcher.py:151-175 | the method returns exactly `MatchMaterials` |
| Scorer.WeightsSumToOne | src/agri_ai/domain/work_info_scorer.py:28-36 | the seven weights add up to exactly 1 |
| Scorer.EvaluateWorkDate | src/agri_ai/domain/work_info_scorer.py:70-96 | 0 for an absent or empty date; 0.9 for a relative form, which is tried first; 1.0 for a concrete date that is not relative; 0.6 for another text with 日, 月 or 週; 0.3 otherwise, each case an if-and-only-if |
| Scorer.EvaluateFieldName | src/agri_ai/domain/work_info_scorer.py:98-124 | on the stripped name: 0 when absent or empty, 1.0 for a specific pattern, 0.8 for a field keyword, 0.5 for two or more characters, 0.2 otherwise, each an if-and-only-if |
| Scorer.EvaluateCropName | src/agri_ai/domain/work_info_scorer.py:126-152 | on the stripped name: 0 when absent or empty, 1.0 for a common crop, 0.8 for a name related to one, 0.6 for two or more characters that are not all digits, 0.3 otherwise |
| Scorer.BlankCropNameIsRelated | src/agri_ai/domain/work_info_scorer.py:126-152 | a name made only of whitespace strips to "", which every common crop contains, so it scores 0.8 |
| Scorer.EvaluateWorkCategory | src/agri_ai/domain/work_info_scorer.py:154-182 | on the raw text: 0 when absent or empty, 1.0 for a standard category, 0.8 for a related keyword, 0.5 for two or more characters, 0.2 otherwise |
| Scorer.OtherCategoryScoresHalf | src/agri_ai/domain/work_info_scorer.py:154-182 | その他, although a valid category, is not a standard one and scores 0.5 |
| Scorer.MaterialItemScore | src/agri_ai/domain/work_info_scorer.py:191-205 | a non-string item adds exactly 0; a stripped string adds 1.0 for a coded product name, 0.8 for a form keyword, 0.6 for three or more characters and 0.3 otherwise |
| Scorer.MaterialsTotal | src/agri_ai/domain/work_info_scorer.py:189-205 | the running total lies between 0 and the number of items |
| Scorer.EvaluateMaterials | src/agri_ai/domain/work_info_scorer.py:184-208 | the score lies in [0,1] and is 0 for a missing or empty list |
| Scorer.EvaluateMaterialsLoop | src/agri_ai/domain/work_info_scorer.py:184-208 | the accumulating loop followed by the average gives exactly `EvaluateMaterials` |
| Scorer.NonStringItemAddsNothing | src/agri_ai/domain/work_info_scorer.py:191-193 | appending a non-string item leaves the total unchanged, although the item still counts in the denominator |
| Scorer.StringItemsTotalAtLeast | src/agri_ai/domain/work_info_scorer.py:191-205 | a list of strings totals at least 0.3 per item |
| Scorer.StringMaterialsScoreAtLeast | src/agri_ai/domain/work_info_scorer.py:184-208 | a non-empty list of strings scores at least 0.3 |
| Scorer.NoStringItemsTotalZero | src/agri_ai/domain/work_info_scorer.py:191-193 | a list without any string totals 0 |
| Scorer.EvaluateQuantity | src/agri_ai/domain/work_info_scorer.py:210-226 | the score lies in [0,1]; it reaches 0.6 exactly when the quantity is positive, is 0 exactly when there is neither a positive quantity nor a unit, is 1.0 exactly for a positive quantity with a common unit, and another unit adds 0.2 |
| Scorer.CoreValues | src/agri_ai/domain/work_info_scorer.py:233 | the specificity loop visits exactly five core values |
| Scorer.PresentCountAll | src/agri_ai/domain/work_info_scorer.py:233-242 | when every core value is present, all of them count |
| Scorer.PresentCountNone | src/agri_ai/domain/work_info_scorer.py:233-242 | when no core value is present, the count is 0 |
| Scorer.Extras | src/agri_ai/domain/work_info_scorer.py:244-248 | notes and a work count add 0, 0.5 or 1 together |
| Scorer.EvaluateSpecificity | src/agri_ai/domain/work_info_scorer.py:228-250 | the score lies in [0,1] and is 0 exactly when no core value is present and neither notes nor a work count is given |
| Scorer.CountPresent | src/agri_ai/domain/work_info_scorer.py:233-242 | the counting loop gives exactly `PresentCount` |
| Scorer.EvaluateSpecificityLoop | src/agri_ai/domain/work_info_scorer.py:228-250 | the method gives exactly `EvaluateSpecificity` |
| Scorer.AllPresentIsFullySpecific | src/agri_ai/domain/work_info_scorer.py:228-250 | five present core values already give the maximum 1 |
| Scorer.GetScoreBreakdown | src/agri_ai/domain/work_info_scorer.py:252-264 | every part lies in [0,1]; date, field, crop and category are 0 exactly when absent or empty, and materials are 0 when missing or empty |
| Scorer.WeightedSumInUnit | src/agri_ai/domain/work_info_scorer.py:48-61 | with every part in [0,1] and the weights summing to 1, the weighted sum lies in [0,1] |
| Scorer.ConfidenceScore | src/agri_ai/domain/work_info_scorer.py:38-68 | the score always lies in [0,1] |
| Scorer.ScoreIsWeightedBreakdown | src/agri_ai/domain/work_info_scorer.py:48-61 | the clamp never changes anything: the score is the weighted sum of the breakdown |
| Scorer.CalculateConfidenceScore | src/agri_ai/domain/work_info_scorer.py:38-68 | adding the weighted evaluators one by one and clamping gives `ConfidenceScore`, a value in [0,1] |
| Scorer.EmptyReportScoresZero | src/agri_ai/domain/work_info_scorer.py:38-68 | a report with nothing extracted scores 0 |
| Resolver.Load | src/agri_ai/services/master_data_resolver.py:144-172 | a fresh cache (younger than 300 s) is returned as it is; otherwise a failed query is passed on, and fetched rows are at most the first 1000 of the query's answer |
| Resolver.LoadLeavesFreshCache | src/agri_ai/services/master_data_resolver.py:150-166 | after a load that returned rows, the cache holds exactly those rows and is fresh; a failed query leaves the cache and its time untouched |
| Resolver.CacheReusedWithinTimeout | src/agri_ai/services/master_data_resolver.py:150-152 | within 300 s of a refresh, every later load returns the rows of that refresh, whatever the database would answer now |
| Resolver.LengthRatio | src/agri_ai/services/master_data_resolver.py:255-258 | the partial score is at least 1 when both strings are non-empty, and 0 when either is empty |
| Resolver.PartialConfidenceIsCapOrZero | src/agri_ai/services/master_data_resolver.py:266 | capping the partial score at 0.8 gives exactly 0.8 for two non-empty strings and 0 otherwise, so the partial stage never grades its matches |
| Resolver.NamePartialEntry | src/agri_ai/services/master_data_resolver.py:323-331 | a crop or material row is taken exactly when the text and its name ('' when absent) contain one another, scored by the length ratio |
| Resolver.FuzzyEntry | src/agri_ai/services/master_data_resolver.py:272-277 | a row is taken exactly when it has a non-empty name whose similarity exceeds 0.6, and is scored by that similarity, a value in (0.6,1] |
| Resolver.NoMatchResolution | src/agri_ai/services/master_data_resolver.py:288-294 | no id, the input echoed as the name, confidence 0, method no_match |
| Resolver.ErrorResolution | src/agri_ai/services/master_data_resolver.py:58-66 | no id, the input echoed as the name, confidence 0, method error, and the exception's text |
| Resolver.FieldLabel | src/agri_ai/services/master_data_resolver.py:242 | a field's label is its name, or its code when the name key is absent |
| Resolver.FieldPartialEntry | src/agri_ai/services/master_data_resolver.py:249-259 | a field is taken exactly when the text and its name or code ('' when absent) contain one another, scored by the name's length ratio |
| Resolver.FieldExactIndex | src/agri_ai/services/master_data_resolver.py:238-239 | the position of the first field whose name or code equals the text, or none exactly when no field does |
| Resolver.FieldResolutionStages | src/agri_ai/services/master_data_resolver.py:234-294 | the method is exact, partial, fuzzy or no_match; an id is returned exactly when something matched; exact gives 1.0, partial 0 or 0.8, fuzzy a value in (0.6,1], and no match gives the no-match dictionary |
| Resolver.FieldExactTakesFirst | src/agri_ai/services/master_data_resolver.py:237-245 | the first field named or coded by the text answers, with its id, its label and confidence 1.0 |
| Resolver.FieldFuzzyOnlyWithoutPartial | src/agri_ai/services/master_data_resolver.py:247-286 | the fuzzy stage answers only when no field matched exactly or partially |
| Resolver.FieldWithoutCodeMatchesPartially | src/agri_ai/services/master_data_resolver.py:250-254 | a field without a code reads as code '', which every text contains, so unless some field matches exactly the partial stage always answers |
| Resolver.CropExactIndex | src/agri_ai/services/master_data_resolver.py:300-319 | the position of the first crop whose name or one of whose varieties equals the text, or none exactly when no crop does |
| Resolver.CropResolutionStages | src/agri_ai/services/master_data_resolver.py:296-366 | the method is exact, variety, partial, fuzzy or no_match; an id exactly when something matched; exact and variety give 1.0; a variety is reported exactly for a variety match; partial gives 0.8 exactly when text and name are non-empty and 0 otherwise; fuzzy lies in (0.6,1] |
| Resolver.CropExactTakesFirst | src/agri_ai/services/master_data_resolver.py:299-319 | the first crop named by the text, or carrying it as a variety, answers at 1.0; by name it is exact_match, otherwise variety_match with the variety reported |
| Resolver.CropFuzzyOnlyWithoutPartial | src/agri_ai/services/master_data_resolver.py:321-358 | the fuzzy stage answers only when no crop matched exactly or partially |
| Resolver.MaterialExactIndex | src/agri_ai/services/master_data_resolver.py:372-389 | the position of the first material whose name equals the text or that carries it as an alias, or none exactly when none does |
| Resolver.MaterialResolutionStages | src/agri_ai/services/master_data_resolver.py:368-436 | the method is exact, alias, partial, fuzzy or no_match; an id exactly when something matched; exact and alias give 1.0; partial gives 0.8 exactly when text and name are non-empty and 0 otherwise; fuzzy lies in (0.6,1] |
| Resolver.MaterialExactTakesFirst | src/agri_ai/services/master_data_resolver.py:371-389 | the first material named by the text, or carrying it as an alias, answers at 1.0; by name it is exact_match, otherwise alias_match |
| Resolver.MaterialFuzzyOnlyWithoutPartial | src/agri_ai/services/master_data_resolver.py:391-428 | the fuzzy stage answers only when no material matched exactly or partially |
| Resolver.MasterDataResolver.GetFieldsData | src/agri_ai/services/master_data_resolver.py:144-172 | returns `Load` of the old cache and leaves the fields cache as `CacheAfter` says; the crop and material caches are untouched |
| Resolver.MasterDataResolver.GetCropsData | src/agri_ai/services/master_data_resolver.py:174-202 | the same for crops, leaving the other two caches untouched |
| Resolver.MasterDataResolver.GetMaterialsData | src/agri_ai/services/master_data_resolver.py:204-232 | the same for materials, leaving the other two caches untouched |
| Resolver.MasterDataResolver.ResolveFieldData | src/agri_ai/services/master_data_resolver.py:30-66 | a failed load gives the error dictionary, otherwise the staged match over the loaded rows; only the fields cache changes |
| Resolver.MasterDataResolver.ResolveCropData | src/agri_ai/services/master_data_resolver.py:68-104 | a failed load gives the error dictionary, otherwise the staged crop match; only the crops cache changes |
| Resolver.MasterDataResolver.ResolveMaterialData | src/agri_ai/services/master_data_resolver.py:106-142 | a failed load gives the error dictionary, otherwise the staged material match; only the materials cache changes |
| Resolver.FieldExactStage | src/agri_ai/services/master_data_resolver.py:237-245 | the loop returns at the first exact field, exactly `FieldExactIndex` |
| Resolver.CollectFieldPartials | src/agri_ai/services/master_data_resolver.py:247-259 | the loop appends the entries of exactly the partially matching fields, in list order |
| Resolver.CollectFieldFuzzies | src/agri_ai/services/master_data_resolver.py:270-277 | the loop appends the entries of exactly the fields above the fuzzy threshold, in list order |
| Resolver.MultiStageFieldMatching | src/agri_ai/services/master_data_resolver.py:234-294 | the three stages in order, each returning at its first success, give exactly `FieldResolution` |
| Resolver.HasVariety | src/agri_ai/services/master_data_resolver.py:310-312 | the inner loop finds a variety exactly when one carries the text as its name |
| Resolver.CropExactStage | src/agri_ai/services/master_data_resolver.py:299-319 | the loop returns at the first crop matched by name or variety, exactly `CropExactIndex` |
| Resolver.CollectCropPartials | src/agri_ai/services/master_data_resolver.py:321-331 | the loop appends the entries of exactly the partially matching crops, in list order |
| Resolver.CollectCropFuzzies | src/agri_ai/services/master_data_resolver.py:342-349 | the loop appends the entries of exactly the crops above the fuzzy threshold, in list order |
| Resolver.MultiStageCropMatching | src/agri_ai/services/master_data_resolver.py:296-366 | the method gives exactly `CropResolution` |
| Resolver.MaterialExactStage | src/agri_ai/services/master_data_resolver.py:371-389 | the loop returns at the first material matched by name or alias, exactly `MaterialExactIndex` |
| Resolver.CollectMaterialPartials | src/agri_ai/services/master_data_resolver.py:391-401 | the loop appends the entries of exactly the partially matching materials, in list order |
| Resolver.CollectMaterialFuzzies | src/agri_ai/services/master_data_resolver.py:412-419 | the loop appends the entries of exactly the materials above the fuzzy threshold, in list order |
| Resolver.MultiStageMaterialMatching | src/agri_ai/services/master_data_resolver.py:368-436 | the method gives exactly `MaterialResolution` |
| Resolver.MasterDataResolver.constructor | src/agri_ai/services/master_data_resolver.py:19-28 | a new resolver starts with all three caches empty and their times at 0, so the first lookup of each kind reads the database |
| FieldNameExtraction.NamesOf | src/agri_ai/services/field_name_extractor.py:89-94 | at most two names per document, and every listed name is non-empty |
| FieldNameExtraction.NamesOfExactly | src/agri_ai/services/field_name_extractor.py:89-94 | a string is listed exactly when some document has it as a truthy name or code |
| FieldNameExtraction.LoadNames | src/agri_ai/services/field_name_extractor.py:67-104 | a fresh cache is returned as it is; otherwise a failed query is passed on, and a refresh lists at most 2000 non-empty names |
| FieldNameExtraction.NamesReusedWithinTimeout | src/agri_ai/services/field_name_extractor.py:72-98 | a refresh stores exactly what it returns, and within 300 s every later call returns the same names whatever the database would answer |
| FieldNameExtraction.ExactIndex | src/agri_ai/services/field_name_extractor.py:160-165 | the position of the first name contained in the query, or none exactly when no name is contained |
| FieldNameExtraction.ExactMatch | src/agri_ai/services/field_name_extractor.py:160-165 | the loop returns the first name contained in the query, or None exactly when there is none |
| FieldNameExtraction.PartialHits | src/agri_ai/services/field_name_extractor.py:169-176 | a name is appended exactly when it is listed and one of its words occurs in the query or one of the query's words occurs in it |
| FieldNameExtraction.Distinct | src/agri_ai/services/field_name_extractor.py:179 | `set(matches)` holds the same names, each once |
| FieldNameExtraction.PartialMatchesAreHits | src/agri_ai/services/field_name_extractor.py:167-179 | the partial matches are exactly the listed names that hit, each once, longest first |
| FieldNameExtraction.EmptyNameNeverHits | src/agri_ai/services/field_name_extractor.py:172-175 | the empty name has no words and contains no query word, so it never hits |
| FieldNameExtraction.PartialMatch | src/agri_ai/services/field_name_extractor.py:167-179 | the loop followed by the sort gives exactly `PartialMatches` |
| FieldNameExtraction.RowMax | src/agri_ai/services/field_name_extractor.py:195-197 | the inner running maximum never decreases and stays within [0,1] once it has taken a ratio |
| FieldNameExtraction.RowMaxIsMax | src/agri_ai/services/field_name_extractor.py:195-197 | the inner running maximum bounds every ratio of its row and is either the starting value or one of those ratios |
| FieldNameExtraction.GridMax | src/agri_ai/services/field_name_extractor.py:193-197 | the largest word-pair ratio lies in [0,1] |
| FieldNameExtraction.GridMaxIsMax | src/agri_ai/services/field_name_extractor.py:193-197 | it bounds every word-pair ratio and is 0.0 or the ratio of one pair |
| FieldNameExtraction.FuzzyScore | src/agri_ai/services/field_name_extractor.py:187-200 | the mean of the whole ratio and the best word ratio lies in [0,1] and is at least half the whole ratio |
| FieldNameExtraction.FuzzyMatchesScored | src/agri_ai/services/field_name_extractor.py:181-206 | the fuzzy matches are in non-increasing score order; each pairs a listed name with its own score above 0.3; and every name scoring above 0.3 is there |
| FieldNameExtraction.MaxWordSimilarity | src/agri_ai/services/field_name_extractor.py:193-197 | the two nested loops compute exactly `GridMax` |
| FieldNameExtraction.ScoreName | src/agri_ai/services/field_name_extractor.py:185-203 | the loop body for one name gives exactly its `FuzzyEntry` |
| FieldNameExtraction.FuzzyMatch | src/agri_ai/services/field_name_extractor.py:181-206 | the loop followed by the sort gives exactly `FuzzyMatches` |
| FieldNameExtraction.SearchGroup | src/agri_ai/services/field_name_extractor.py:221-223 | a group found by a pattern is a piece of the query |
| FieldNameExtraction.Groups | src/agri_ai/services/field_name_extractor.py:211-221 | one group per pattern, six in all, each a piece of the query when found |
| FieldNameExtraction.FirstLong | src/agri_ai/services/field_name_extractor.py:220-226 | the group returned has at least two characters and is the group of one of the patterns tried |
| FieldNameExtraction.FirstLongPrefix | src/agri_ai/services/field_name_extractor.py:220-228 | trying the patterns in order is the same as trying a first block and, only when it finds nothing, the rest |
| FieldNameExtraction.RegexFrom | src/agri_ai/services/field_name_extractor.py:220-228 | what a run of the patterns returns is a piece of the query of at least two characters |
| FieldNameExtraction.RegexFallback | src/agri_ai/services/field_name_extractor.py:208-228 | what `_regex_fallback` returns is a piece of the query of at least two characters |
| FieldNameExtraction.RegexFallbackSearch | src/agri_ai/services/field_name_extractor.py:220-228 | the loop over the six patterns gives exactly `RegexFallback` |
| FieldNameExtraction.QuotedNameFound | src/agri_ai/services/field_name_extractor.py:212 | a name of two or more characters in the first 「…」 of the query is returned, whatever the rest of the query says |
| FieldNameExtraction.NoQuoteNoMatch | src/agri_ai/services/field_name_extractor.py:212 | the quoted pattern never matches where there is no opening bracket |
| FieldNameExtraction.QuotedAtOpen | src/agri_ai/services/field_name_extractor.py:212 | at an opening bracket, the group runs to the first closing bracket |
| FieldNameExtraction.FromFallback | src/agri_ai/services/field_name_extractor.py:142-158 | stages 4 and 5 give regex_fallback or no_match, with no error, at most three candidates and confidence in [0,1] |
| FieldNameExtraction.FromFuzzy | src/agri_ai/services/field_name_extractor.py:130-158 | from stage 3 on the result is fuzzy, regex or no match, with at most three candidates and confidence in [0,1] |
| FieldNameExtraction.FromPartial | src/agri_ai/services/field_name_extractor.py:119-158 | from stage 2 on the result is never an exact match |
| FieldNameExtraction.Extracted | src/agri_ai/services/field_name_extractor.py:106-158 | every result carries no error, at most three candidates and a confidence in [0,1] |
| FieldNameExtraction.ExtractedExact | src/agri_ai/services/field_name_extractor.py:109-117 | stage 1 is taken exactly when a non-empty listed name occurs in the query; it returns that name at confidence 1.0 as its only candidate |
| FieldNameExtraction.ExtractedPartial | src/agri_ai/services/field_name_extractor.py:119-128 | stage 2 returns a listed name that hits and is no shorter than any other hit, at confidence 0.8, heading the candidates |
| FieldNameExtraction.ExtractedFuzzy | src/agri_ai/services/field_name_extractor.py:130-140 | stage 3 is reached only when no name hits partially, and returns a listed name whose score, above 0.6, is the confidence |
| FieldNameExtraction.ExtractedFallback | src/agri_ai/services/field_name_extractor.py:142-158 | stage 4 returns a piece of the query of at least two characters at 0.5 as its only candidate; stage 5 returns "" at 0.0 with no candidates, and only when the patterns find nothing |
| FieldNameExtraction.MultiStageExtraction | src/agri_ai/services/field_name_extractor.py:106-158 | the stages in order give exactly `Extracted` |
| FieldNameExtraction.FieldNameExtractor.GetAllFieldNames | src/agri_ai/services/field_name_extractor.py:67-104 | returns `LoadNames` of the old cache and leaves the cache and its time as `CacheAfter` says |
| FieldNameExtraction.FieldNameExtractor.ExtractFieldName | src/agri_ai/services/field_name_extractor.py:28-65 | a failed load gives the error result, otherwise the staged extraction over the loaded names |
| FieldNameExtraction.FieldNameExtractor.ExtractionStats | src/agri_ai/services/field_name_extractor.py:230-237 | reports the timeout of 300 s, a non-zero count exactly when the cache holds names, and age 0 when nothing was ever loaded |
| FieldNameExtraction.FieldNameExtractor.constructor | src/agri_ai/services/field_name_extractor.py:23-26 | a new extractor starts with no field cache and cache time 0 |
| Records.CategoryName | src/agri_ai/agents/models/work_log_extraction.py:30-33 | every category has a non-empty name, one of the six literals 防除, 施肥, 栽培, 収穫, 管理, その他 |
| Records.ParseCategory | src/agri_ai/agents/models/work_log_extraction.py:30-33 | the `Literal[...]` annotation accepts a string only when it is the name of a category, and gives that category |
| Records.ParseCategoryName | src/agri_ai/agents/models/work_log_extraction.py:30-33 | every category name is accepted and parses back to its own category (round trip) |
| Records.CategoryNameInjective | src/agri_ai/agents/models/work_log_extraction.py:30 | two categories with the same name are the same category |
| Records.EmptyWorkInfo | src/agri_ai/agents/models/work_log_extraction.py:12-63 | a default extraction has every optional field unset and an empty materials list |
| Records.Texts | src/agri_ai/agents/models/work_log_extraction.py:35-38 | a materials list made of strings keeps its length and each string in place |
| Records.ToWorkInfo | src/agri_ai/agents/models/work_log_extraction.py:12-63 | building the model succeeds exactly when the category is absent or one of the six literals and every material is a string; the date, field, crop and quantity are kept and the given confidence is stored |
| Records.IsValidKey | src/agri_ai/agents/models/work_log_extraction.py:66-74 | the `is_valid` key is present exactly for resolved, unresolved and errored checks, and true exactly for a resolved one |
| Records.MatchedOf | src/agri_ai/agents/models/work_log_extraction.py:66-74 | a `matched_...` entry exists only on a matching or resolved check, and is the resolved entity of a resolved check |
| Records.MatchedOfEach | src/agri_ai/agents/models/work_log_extraction.py:72 | the entries of a list of material checks are taken one by one, in order |
| Records.Actions | src/agri_ai/agents/models/work_log_extraction.py:83 | the actions of the option buttons are listed one per button, in order |
| Sorting.InsertDescPerm | src/agri_ai/domain/master_data_matcher.py:330 | inserting one element adds exactly that element to the multiset |
| Sorting.InsertDescSorted | src/agri_ai/domain/master_data_matcher.py:330 | inserting into a descending list keeps it descending |
| Sorting.SortDescPerm | src/agri_ai/domain/master_data_matcher.py:330 | `sorted(..., reverse=True)` returns a permutation of its input |
| Sorting.SortDescSorted | src/agri_ai/domain/master_data_matcher.py:330 | `sorted(..., reverse=True)` returns its input in descending key order |
| Sorting.FirstMaxIndex | src/agri_ai/services/master_data_resolver.py:262 | `max(..., key=...)` picks a position whose key is at least every other key and strictly above every key before it |
| Sorting.SortDescHead | src/agri_ai/domain/master_data_matcher.py:330-331 | the head of the stable descending sort is the element `max` would return |
| Sorting.PrefixSortedDesc | src/agri_ai/agents/work_log_search_agent.py:457 | a prefix of a descending list is descending and holds only elements of the list |
| Sorting.Best | src/agri_ai/services/master_data_resolver.py:262 | the best `(item, score)` tuple is one of the candidates and no candidate scores higher |
| Patterns.RunEnd | src/agri_ai/langchain_tools/field_registration_tool.py:65-69 | a greedy character class stops at the first character outside it, or at the end |
| Patterns.GreedyAt | src/agri_ai/langchain_tools/field_registration_tool.py:65-69 | a greedy group tried at one position, when it matches, captures the longest run that the rest of the pattern accepts; when it does not match, no run works |
| Patterns.Search | src/agri_ai/langchain_tools/field_registration_tool.py:65-69 | `re.search` returns the match at the leftmost position where the pattern matches, and no match only when it matches nowhere |
| Patterns.SearchFinds | src/agri_ai/langchain_tools/field_registration_tool.py:65-69 | a pattern that matches at some position is found by the search |
| Patterns.FindAll | src/agri_ai/agents/work_log_registration_agent.py:144 | `re.findall` returns valid matches, each found by the pattern at a position at or after the start |
| Patterns.DigitsBeforeAt | src/agri_ai/strategies/auto_registration_strategy.py:203 | `(\d+)日前` matches at a position only when a whole run of digits there is followed by the suffix |
| Patterns.NumberBefore | src/agri_ai/strategies/auto_registration_strategy.py:203-205 | a number is read only from a text that holds a digit |
| Patterns.NumberBeforeRoundTrip | src/agri_ai/strategies/auto_registration_strategy.py:203-205 | writing N in front of 日前 and reading it back with the pattern gives N |
| Patterns.FirstSearch | src/agri_ai/langchain_tools/field_registration_tool.py:65-69 | a list of patterns tried in order until one is found gives the match of the first pattern that matches, and nothing exactly when none matches |
| Patterns.FindFirst | src/agri_ai/langchain_tools/field_registration_tool.py:65-69 | the loop with `break` over the patterns returns the first pattern's match, as specified by `FirstSearch` |
| Patterns.DecimalBeforeAt | src/agri_ai/langchain_tools/field_registration_tool.py:83-87 | `(\d+\.?\d*)unit` matches only on a digit, with the unit right after the number |
| Patterns.DecimalValue | src/agri_ai/langchain_tools/field_registration_tool.py:85 | `float()` of the captured number is never negative |
| ValidatorV1.ViaName | src/agri_ai/services/work_log_validator.py:114 | every resolution method has a non-empty name |
| ValidatorV1.FoundCandidates | src/agri_ai/services/work_log_validator.py:231-310 | a candidate search gives at most five rows, a prefix of what the database returned, and none when the search raised |
| ValidatorV1.EntityCheck | src/agri_ai/services/work_log_validator.py:95-229 | an entity is valid exactly when the resolver gave it an id, and then stores the resolved id, name and confidence (and the input name for a material); otherwise it keeps the input and the candidates, unless one of the first three candidates has no name, when the check fails with the `TypeError` text naming the first such item |
| ValidatorV1.MaterialChecks | src/agri_ai/services/work_log_validator.py:66-72 | one check per material name, in the order of the names |
| ValidatorV1.Validated | src/agri_ai/services/work_log_validator.py:23-93 | the result stores the field check, the crop check and the material checks |
| ValidatorV1.ValidIffAllResolve | src/agri_ai/services/work_log_validator.py:44-72 | the report is valid exactly when the field (if named), the crop (if named) and every material resolved to an id |
| ValidatorV1.ValidityIgnoresOtherFields | src/agri_ai/services/work_log_validator.py:74-78 | the required-field and consistency checks never change validity: date, category, quantity and unit do not matter |
| ValidatorV1.MissingKeys | src/agri_ai/services/work_log_validator.py:44-63 | a missing field is both a missing key and a question, a missing crop only a question, the date and category keys appear exactly when those are missing, and at most three keys are listed |
| ValidatorV1.KeysDiffer | src/agri_ai/services/work_log_validator.py:51-63 | the keys and questions appended are pairwise different texts, so membership identifies the check that added them |
| ValidatorV1.ErrorVerdict | src/agri_ai/services/work_log_validator.py:82-93 | an exception gives an invalid result with the error in the field entry, one error key and one retry suggestion |
| ValidatorV1.CheckRequiredFields | src/agri_ai/services/work_log_validator.py:312-323 | appends a key and a question for a missing date and for a missing category, and changes nothing else |
| ValidatorV1.CheckLogicalConsistency | src/agri_ai/services/work_log_validator.py:325-338 | appends the three consistency questions under their conditions, and changes only the suggestions |
| ValidatorV1.ValidateMaterials | src/agri_ai/services/work_log_validator.py:66-72 | the material loop builds one check per name, in order, and reports whether all of them pass |
| ValidatorV1.ValidateEntities | src/agri_ai/services/work_log_validator.py:44-63 | each present name's check is stored and clears validity when it fails; a missing field adds a key and a question, a missing crop only a question |
| ValidatorV1.ValidateWorkLog | src/agri_ai/services/work_log_validator.py:23-80 | the whole validation returns exactly the result specified by `Validated` |
| ValidatorV2.FieldResult | src/agri_ai/services/work_log_validator_v2.py:83-88 | the field entry is the matcher's result, a no-match when no field name is given, and any matched confidence lies in [0.4, 1] |
| ValidatorV2.CropResult | src/agri_ai/services/work_log_validator_v2.py:91-96 | the crop entry is the matcher's result, a no-match when no crop name is given, and any matched confidence lies in [0.4, 1] |
| ValidatorV2.MaterialResults | src/agri_ai/services/work_log_validator_v2.py:99-104 | only matched materials are stored, with confidences in [0.4, 1]; there is at least one exactly when the master list is non-empty and some material name resolves |
| ValidatorV2.MatchingResults | src/agri_ai/services/work_log_validator_v2.py:72-106 | the stored results hold a field and a crop entry, material entries exactly when some material resolves, and confidences in [0, 1] |
| ValidatorV2.ExecuteMatchingLogic | src/agri_ai/services/work_log_validator_v2.py:72-106 | the matching step stores exactly the results specified by `MatchingResults` |
| ValidatorV2.ValidityOfReport | src/agri_ai/services/work_log_validator_v2.py:139-149 | a report is valid exactly when its field resolves, or its crop resolves and one of its materials resolves; with neither field nor crop it is never valid |
| ValidatorV2.MissingInfoExactly | src/agri_ai/services/work_log_validator_v2.py:151-180 | each of the five keys is listed exactly when its own check fails, nothing else is listed, and at most four are listed because materials and quantity belong to different categories |
| ValidatorV2.IdentifyMissingInformation | src/agri_ai/services/work_log_validator_v2.py:151-180 | the five appending checks build exactly the list specified by `MissingInfo` |
| ValidatorV2.FirstTwoNames | src/agri_ai/services/work_log_validator_v2.py:190-201 | the ambiguity line names the first two candidates (fewer if there are fewer), with "" for a candidate without a name |
| ValidatorV2.MaterialLinesCount | src/agri_ai/services/work_log_validator_v2.py:203-208 | every material found by substring gets exactly one line, and no other material does |
| ValidatorV2.SuggestionsCount | src/agri_ai/services/work_log_validator_v2.py:182-210 | the suggestions are one line per ambiguous field or crop plus one per material found by substring; with an unambiguous field and crop only the material lines remain |
| ValidatorV2.GenerateSuggestions | src/agri_ai/services/work_log_validator_v2.py:182-210 | the two ambiguity checks and the material loop build exactly `Suggestions` |
| ValidatorV2.MaterialSuggestions | src/agri_ai/services/work_log_validator_v2.py:203-208 | the material loop builds exactly `MaterialLines` |
| ValidatorV2.QualityScoreBounds | src/agri_ai/services/work_log_validator_v2.py:212-240 | the quality score is 0.0 when nothing matched and lies in [0, 1] whenever the confidences do; at most three scores are averaged, the materials counting as one |
| ValidatorV2.MaterialScoresInUnit | src/agri_ai/services/work_log_validator_v2.py:229-237 | material confidences in [0, 1] give material scores in [0, 1] |
| ValidatorV2.CollectMaterialScores | src/agri_ai/services/work_log_validator_v2.py:229-237 | the loop collects exactly the matched materials' confidences, in order |
| ValidatorV2.CalculateQualityScore | src/agri_ai/services/work_log_validator_v2.py:212-240 | the method computes exactly `QualityScore` |
| ValidatorV2.BuildVerdict | src/agri_ai/services/work_log_validator_v2.py:108-137 | the verdict stores the field, crop and material entries as matched |
| ValidatorV2.ErrorVerdict | src/agri_ai/services/work_log_validator_v2.py:242-255 | an error gives an invalid verdict with the single key `validation_error`, one suggestion and no entries |
| ValidatorV2.EmptyReportInvalid | src/agri_ai/services/work_log_validator_v2.py:139-180 | a report with no field name, no crop and no materials is never valid and always misses its field name |
| ValidatorV2.ValidateWorkLog | src/agri_ai/services/work_log_validator_v2.py:33-55 | the whole validation returns `Validated`; the quality score lies in [0, 1] after a load and is 0.0 when the load failed |
| Confirmation.FormatWorkDate | src/agri_ai/services/work_log_confirmation.py:355-363 | every branch gives the date back unchanged, so the formatting is the identity |
| Confirmation.CategoryEmoji | src/agri_ai/services/work_log_confirmation.py:365-375 | a text that is not one of the six categories gets the default emoji 📋 |
| Confirmation.CategoryEmojiDefault | src/agri_ai/services/work_log_confirmation.py:365-375 | among the six categories exactly その他 shows the default emoji |
| Confirmation.Truncate | src/agri_ai/services/work_log_confirmation.py:112 | Python's `int()` on a float truncates toward zero, for positive and for negative values |
| Confirmation.PercentBounds | src/agri_ai/services/work_log_confirmation.py:111-113 | a confidence in [0, 1] is shown as a whole percentage in [0, 100] |
| Confirmation.MatchedMaterialNames | src/agri_ai/services/work_log_confirmation.py:90-94 | one name is taken per material entry that has a matched material |
| Confirmation.FinalConfirmation | src/agri_ai/services/work_log_confirmation.py:51-147 | the final confirmation passes the report and the verdict through and offers exactly confirm, modify and cancel |
| Confirmation.GenerateFinalConfirmation | src/agri_ai/services/work_log_confirmation.py:51-147 | the line-by-line construction builds exactly `FinalConfirmation` |
| Confirmation.Pick | src/agri_ai/services/work_log_confirmation.py:177-187 | every candidate button is a selection of a field, a crop or a material |
| Confirmation.CandidateLines | src/agri_ai/services/work_log_confirmation.py:177-178 | at most three candidates are listed, one line each |
| Confirmation.CandidateChoices | src/agri_ai/services/work_log_confirmation.py:177-187 | one selection button per listed candidate, at most three |
| Confirmation.ListCandidates | src/agri_ai/services/work_log_confirmation.py:177-187 | the `enumerate(candidates[:3], 1)` loop builds exactly those lines and buttons |
| Confirmation.EntityChoices | src/agri_ai/services/work_log_confirmation.py:167-212 | a field or crop section offers at most three selection buttons |
| Confirmation.FailingMaterials | src/agri_ai/services/work_log_confirmation.py:215-218 | only material entries that explicitly failed are kept, and never more than there were |
| Confirmation.MaterialBlockChoices | src/agri_ai/services/work_log_confirmation.py:224-245 | one failing material offers at most three selection buttons |
| Confirmation.MaterialBlocksChoices | src/agri_ai/services/work_log_confirmation.py:224-245 | a list of failing materials offers at most three selection buttons each |
| Confirmation.CandidateButtons | src/agri_ai/services/work_log_confirmation.py:149-262 | at most twelve candidate buttons are offered, every one a selection |
| Confirmation.AmbiguityOptionsShape | src/agri_ai/services/work_log_confirmation.py:149-295 | a question list has between 3 and 15 buttons: selections first, then exactly manual input, register as is and cancel |
| Confirmation.ListMaterialBlock | src/agri_ai/services/work_log_confirmation.py:224-245 | the block of one failing material is built exactly as `MaterialBlock` and `MaterialBlockChoices` say |
| Confirmation.ListMaterialBlocks | src/agri_ai/services/work_log_confirmation.py:224-245 | the loop over the first two failing materials builds exactly `MaterialBlocks` and `MaterialBlocksChoices` |
| Confirmation.ListBullets | src/agri_ai/services/work_log_confirmation.py:248-261 | the heading-and-bullets loop builds exactly `Bullets` |
| Confirmation.ListEntity | src/agri_ai/services/work_log_confirmation.py:167-212 | the field or crop section is built exactly as `EntityLines` and `EntityChoices` say |
| Confirmation.GenerateAmbiguityResolution | src/agri_ai/services/work_log_confirmation.py:149-295 | the sections and buttons are appended to give exactly `AmbiguityResolution` |
| Confirmation.ErrorConfirmation | src/agri_ai/services/work_log_confirmation.py:297-353 | an error gives an empty report, an empty invalid verdict, the retry, manual-input and contact-support buttons, and a line with the error text |
| Confirmation.ConfirmShape | src/agri_ai/services/work_log_confirmation.py:24-49 | a valid verdict gets confirm, modify and cancel (the error buttons when a matched material lacks its name); an invalid verdict always ends with manual input, register as is and cancel; the report and verdict pass through except on error |
| Confirmation.GenerateConfirmationMessage | src/agri_ai/services/work_log_confirmation.py:24-49 | the dispatcher returns exactly `Confirm` |
| DecisionService.Validate | src/agri_ai/services/intelligent_decision_service.py:20-28 | the analysis record is built exactly when all six declared fields, `missing_info_inference` included, are given, and then holds what was given |
| DecisionService.ConfidenceOrZero | src/agri_ai/services/intelligent_decision_service.py:59 | the extraction confidence, or 0.0 when there is none |
| DecisionService.FailedKinds | src/agri_ai/services/intelligent_decision_service.py:74-85 | at most three kinds of failure are counted: field, crop and materials |
| DecisionService.ShouldUseIntelligentDecision | src/agri_ai/services/intelligent_decision_service.py:47-96 | the four checks in order return exactly `UsesIntelligentDecision` |
| DecisionService.TriggerConditions | src/agri_ai/services/intelligent_decision_service.py:47-96 | the language model is consulted exactly when the confidence lies strictly between 0.4 and 0.8, the message has an urgent word or a contextual clue, or at least two kinds of entity failed; an urgent word always consults it, and with field and crop resolved the failure count stays below two |
| DecisionService.RecommendationOf | src/agri_ai/services/intelligent_decision_service.py:220-239 | the recommendation follows the priority urgent, inferred, suggestions, more information, confirmation: each one is chosen exactly when its hint holds and no earlier one does |
| DecisionService.UrgencyOf | src/agri_ai/services/intelligent_decision_service.py:242-249 | critical, high and medium urgency are chosen exactly when their words occur and no higher level's do |
| DecisionService.ParseLlmResponse | src/agri_ai/services/intelligent_decision_service.py:199-264 | the analysis carries the recommendation and urgency read from the lower-cased reply, the confidence of that recommendation, overriding exactly when it is not plain confirmation, exactly the reply's first min(500, length) characters as reasoning, and an empty inference exactly when the reply mentions 推測 and information is missing |
| DecisionService.ConfidenceFollowsPriority | src/agri_ai/services/intelligent_decision_service.py:220-239 | the confidence is 0.8 exactly for an urgent registration and 0.3 exactly for plain confirmation, and always lies in [0.3, 0.8] |
| DecisionService.RecentHistory | src/agri_ai/services/intelligent_decision_service.py:163 | `user_history[-5:]` keeps the last five entries, or all of them when there are fewer |
| DecisionService.AnalyzeContext | src/agri_ai/services/intelligent_decision_service.py:98-197 | the corrected definition, a reference only (the strategies use `AnalyzeContextAsWritten`): a failed call gives the safe choice (plain confirmation, confidence 0.0, no override, low urgency, no inference); an answered call gives the same analysis as the code as written |
| DecisionService.FallbackRaisesAsWritten | src/agri_ai/services/intelligent_decision_service.py:188-197 | as written, the fallback record lacks the required `missing_info_inference`, so building it raises and no analysis is returned |
| RegistrationStrategy.Select | src/agri_ai/strategies/registration_strategy.py:100-107 | a strategy is chosen exactly when the list is non-empty, and the choice is one of the listed strategies |
| RegistrationStrategy.SelectFirstMatch | src/agri_ai/strategies/registration_strategy.py:100-107 | the first strategy that can handle the report is chosen, and the last one when none can |
| RegistrationStrategy.StrategyContext.ExecuteBestStrategy | src/agri_ai/strategies/registration_strategy.py:81-108 | the context runs the selected strategy and returns its result, and has nothing to run when it holds no strategies |
| AutoRegistration.CanHandleConditions | src/agri_ai/strategies/auto_registration_strategy.py:34-62 | automatic registration is taken only for a valid report with confidence ≥ 0.8, a category, a field (named or matched) and at most one missing item, and is always taken when all of these hold |
| AutoRegistration.ParseWorkDate | src/agri_ai/strategies/auto_registration_strategy.py:187-209 | a reported work date is never later than today |
| AutoRegistration.ParseWorkDateWords | src/agri_ai/strategies/auto_registration_strategy.py:187-209 | no date and 今日 give today, 昨日 yesterday and 一昨日 the day before |
| AutoRegistration.ParseWorkDateDaysAgo | src/agri_ai/strategies/auto_registration_strategy.py:201-206 | N日前 gives the date N days before today, for every N |
| AutoRegistration.ParseWorkDateOfFallbackLiteral | src/agri_ai/strategies/auto_registration_strategy.py:201-209 | the literal `\1日前` that the fallback extractor stores is read as one day back, whatever number the report gave |
| AutoRegistration.Ref | src/agri_ai/strategies/auto_registration_strategy.py:117-133 | a matched field or crop is stored with its id, name and confidence, and nothing is stored when there is no match |
| AutoRegistration.Ids | src/agri_ai/strategies/auto_registration_strategy.py:145-148 | one material id per validated material, in order |
| AutoRegistration.MaterialNames | src/agri_ai/strategies/auto_registration_strategy.py:145-148 | one material name per validated material, in order |
| AutoRegistration.CategoryOrOther | src/agri_ai/strategies/auto_registration_strategy.py:172-173 | the record's category is the report's, or その他 when it has none |
| AutoRegistration.RecordShape | src/agri_ai/strategies/auto_registration_strategy.py:96-185 | the record stores the matched field and crop with their ids, one id and name per matched material (each from a matched entry), the category as its only tag, the message, the user, the confidence and quantity, a date no later than today, and a unit or notes only when they are non-empty |
| AutoRegistration.CollectMaterials | src/agri_ai/strategies/auto_registration_strategy.py:141-153 | the loop over the validated materials collects exactly their ids and names |
| AutoRegistration.AddExtras | src/agri_ai/strategies/auto_registration_strategy.py:156-163 | the quantity is added when present, and the unit, work count and notes only when truthy; nothing else changes |
| AutoRegistration.BuildData | src/agri_ai/strategies/auto_registration_strategy.py:104-163 | the stored data is exactly `LogDataOf` |
| AutoRegistration.BuildRecord | src/agri_ai/strategies/auto_registration_strategy.py:96-178 | the record is exactly `RecordOf` |
| AutoRegistration.AutoRun | src/agri_ai/strategies/auto_registration_strategy.py:64-94 | the strategy either registers or raises, writing at most one record; it registers exactly when the insert succeeds and a confidence is present (formatting a missing confidence raises), and then writes exactly the built record |
| AutoRegistration.Execute | src/agri_ai/strategies/auto_registration_strategy.py:64-94 | the execution gives exactly `AutoRun` |
| ConfirmationFlow.BasicCanHandle | src/agri_ai/strategies/confirmation_strategy.py:32-58 | the basic confirmation flow accepts every report, so it can always serve as the default |
| ConfirmationFlow.BasicRun | src/agri_ai/strategies/confirmation_strategy.py:60-103 | the basic flow writes nothing; it asks for confirmation with the confirmation service's message, the message, the user and the confidence exactly when the service does not fail, and reports the failure otherwise |
| ConfirmationFlow.EnhancedCanHandleConditions | src/agri_ai/strategies/confirmation_strategy.py:120-141 | the enhanced flow is taken exactly for a confidence in [0.4, 0.7), at most three missing items and at least one suggestion |
| ConfirmationFlow.SummaryOf | src/agri_ai/strategies/confirmation_strategy.py:178-183 | the analysis summary keeps the urgency, confidence and recommendation and the first 200 characters of the reasoning (all of a shorter reasoning) |
| ConfirmationFlow.EnhancedRun | src/agri_ai/strategies/confirmation_strategy.py:143-195 | the enhanced flow writes nothing; when a service fails, or the analysis raises because the model call failed, it falls back to the basic flow; otherwise it asks for confirmation and attaches the summary of the analysis |
| ConfirmationFlow.EnhancedExtendsBasic | src/agri_ai/strategies/confirmation_strategy.py:143-195 | for an answered model call the enhanced confirmation is the basic one with only the summary of the parsed reply and the strategy name added; a failed model call gives exactly the basic flow |
| IntelligentRegistration.CanHandleConditions | src/agri_ai/strategies/intelligent_strategy.py:33-54 | the intelligent strategy is taken exactly for a valid report with confidence in [0.4, 0.8) and one or two missing items, and never together with automatic registration |
| IntelligentRegistration.CategoryText | src/agri_ai/strategies/intelligent_strategy.py:211 | the category appears in the report's dictionary exactly when the report has one |
| IntelligentRegistration.Put | src/agri_ai/strategies/intelligent_strategy.py:214 | storing a value under one text key sets that key and leaves every other key and field alone |
| IntelligentRegistration.FillAll | src/agri_ai/strategies/intelligent_strategy.py:213-215 | applying inferences to the modelled keys (the text keys and the materials) never changes the quantity, work count or confidence |
| IntelligentRegistration.Finish | src/agri_ai/strategies/intelligent_strategy.py:218 | a rebuilt report holds exactly the text values of the updated dictionary |
| IntelligentRegistration.FillAllText | src/agri_ai/strategies/intelligent_strategy.py:213-215 | a truthy value is never overwritten; a key ends up either unchanged or with one of the inferred values, and a non-empty inferred value for it always leaves it truthy |
| IntelligentRegistration.FillAllMaterials | src/agri_ai/strategies/intelligent_strategy.py:213-215 | the materials list is replaced by an inferred text exactly when it was empty and a materials inference is given |
| IntelligentRegistration.FillAllIgnoresOtherKeys | src/agri_ai/strategies/intelligent_strategy.py:213-215 | inferences for keys outside the text keys and the materials change nothing |
| IntelligentRegistration.ApplyLlmInferencesSpec | src/agri_ai/strategies/intelligent_strategy.py:202-218 | inferences fill only falsy text fields, a non-empty inference leaves its field truthy, the quantity, work count and confidence are unchanged, and rebuilding fails exactly when an empty materials list gets a text or the category becomes an unknown text |
| IntelligentRegistration.ApplyLlmInferencesIgnoresOtherKeys | src/agri_ai/strategies/intelligent_strategy.py:202-218 | inferences only for keys outside the text keys and the materials give the report back unchanged |
| IntelligentRegistration.ApplyInferences | src/agri_ai/strategies/intelligent_strategy.py:202-218 | the loop over the inferences computes exactly `ApplyLlmInferences` |
| IntelligentRegistration.Recover | src/agri_ai/strategies/intelligent_strategy.py:86-90 | the fallback keeps what was already written and never registers or raises |
| IntelligentRegistration.Commit | src/agri_ai/strategies/intelligent_strategy.py:130-186 | a registration keeps its record and gains the strategy tag and the analysis note; a failure falls back to the basic flow, keeping what was written |
| IntelligentRegistration.IntelligentRun | src/agri_ai/strategies/intelligent_strategy.py:56-90 | the strategy never raises and writes at most one record; a failing service, or an analysis that raises on a failed model call, gives the basic flow; a registration is tagged urgent or inferred, carries a note of at most 150 characters of reasoning, and writes its own record |
| IntelligentRegistration.FailedCallGivesBasic | src/agri_ai/strategies/intelligent_strategy.py:66-90 | a failed model call makes the analysis raise and the `except` branch give the basic flow, which is also where the intended safe value would lead |
| IntelligentRegistration.DispatchFollowsRecommendation | src/agri_ai/strategies/intelligent_strategy.py:92-128 | suggestions lead to the enhanced flow run on the model's second reply, more information or plain confirmation (or a failed model call) to the basic flow, and an urgent recommendation to the automatic registration's record, or to the basic flow when that raises |
| IntelligentRegistration.RegistrationUsesReport | src/agri_ai/strategies/intelligent_strategy.py:130-186 | whatever path registers, the record written is the one the automatic strategy builds from the report |
| StrategyFactory.CreateOrderedStrategies | src/agri_ai/strategies/strategy_factory.py:51-70 | the strategies are ordered automatic, intelligent, enhanced confirmation, basic confirmation |
| StrategyFactory.CreateStrategyContext | src/agri_ai/strategies/strategy_factory.py:35-49 | a new context holds the default order |
| StrategyFactory.Names | src/agri_ai/strategies/strategy_factory.py:88-91 | one name per strategy, in order |
| StrategyFactory.GetStrategyNames | src/agri_ai/strategies/strategy_factory.py:88-91 | the four strategy names in the default order |
| StrategyFactory.ByName | src/agri_ai/strategies/strategy_factory.py:103-108 | a name is recognised exactly when it is one of the four strategy names, and gives the strategy of that name |
| StrategyFactory.KnownNames | src/agri_ai/strategies/strategy_factory.py:93-122 | the kept names are requested names that are strategy names |
| StrategyFactory.KnownKeepsOrder | src/agri_ai/strategies/strategy_factory.py:110-115 | the custom strategies are the recognised names, in the order requested |
| StrategyFactory.CustomOrderShape | src/agri_ai/strategies/strategy_factory.py:93-122 | a custom context is never empty: it holds the recognised strategies in the requested order, or the default order when none is recognised |
| StrategyFactory.CreateCustomStrategyContext | src/agri_ai/strategies/strategy_factory.py:93-122 | a new custom context holds exactly `CustomOrder` |
| StrategyFactory.Route | src/agri_ai/strategies/strategy_factory.py:51-70 | the routed strategy can handle the report |
| StrategyFactory.DefaultRouting | src/agri_ai/strategies/registration_strategy.py:100-103 | with the default order some strategy always handles the report, and the one chosen is automatic if it can, else intelligent, else enhanced, else basic |
| StrategyFactory.RegistrationOutcomes | src/agri_ai/strategies/strategy_factory.py:35-49 | a registration writes at most one record, raises only on the automatic route, and writes only on the automatic or intelligent route |
| StrategyFactory.RegisterWithDefaultContext | src/agri_ai/strategies/registration_strategy.py:81-108 | running the default context gives exactly `Registration` |
| WorkLogExtraction.DateFrom | src/agri_ai/services/work_log_extractor.py:108-118 | a date word is stored exactly when one of the remaining patterns matches, and it is the replacement of the first pattern that matches |
| WorkLogExtraction.DayBeforeYesterdayShadowed | src/agri_ai/services/work_log_extractor.py:108-118 | as written, 昨日 is tried before 一昨日 and is a substring of it, so a report saying 一昨日 is dated 昨日 |
| WorkLogExtraction.DaysAgoIgnoresNumber | src/agri_ai/services/work_log_extractor.py:112 | as written, the replacement `\1日前` is stored literally, so every N日前 report gets the same text whatever N is |
| WorkLogExtraction.FallbackCategory | src/agri_ai/services/work_log_extractor.py:120-130 | the category follows the priority pest control, fertilising, harvest, cultivation, management: each is chosen exactly when its keywords occur and no earlier group's do; その他 is never chosen |
| WorkLogExtraction.SprayingWinsOverFertilizer | src/agri_ai/services/work_log_extractor.py:121-124 | a report mentioning 散布 is pest control even when it also mentions fertiliser |
| WorkLogExtraction.FallbackExtraction | src/agri_ai/services/work_log_extractor.py:92-135 | the fallback extraction fills only the date and the category, with confidence 0.3, leaving the field, crop, materials, quantity, unit, work count and notes unset |
| WorkLogExtraction.ExtractedConfidence | src/agri_ai/services/work_log_extractor.py:51-84 | the result always has a confidence in [0, 1]; no answer or an answer the model rejects gives the fallback, and an accepted answer keeps its date, field, crop and quantity with the scorer's confidence |
| WorkLogExtraction.ExtractWorkInformation | src/agri_ai/services/work_log_extractor.py:51-84 | the extraction returns exactly `ExtractedInfo` |
| QueryParsing.Weekday | src/agri_ai/utils/query_parser.py:185 | `weekday()` is a number from 0 (Monday) to 6 |
| QueryParsing.CalendarAnchors | src/agri_ai/utils/query_parser.py:181-227 | the day numbering used for dates agrees with the calendar: 1970-01-01 is day 0 and a Thursday, 2024-01-01 is a Monday, February has 29 days in 2024 and 28 in 2023, December has 31 |
| QueryParsing.DayRange | src/agri_ai/utils/query_parser.py:68-76 | a single day's range starts at midnight of that day and ends at the next midnight |
| QueryParsing.ThisWeekRange | src/agri_ai/utils/query_parser.py:181-188 | this week's range starts on a Monday, lasts seven days and contains today |
| QueryParsing.NextWeekRange | src/agri_ai/utils/query_parser.py:190-195 | next week is this week shifted by seven days, starts on a Monday and begins where this week ends |
| QueryParsing.LastWeekRange | src/agri_ai/utils/query_parser.py:197-202 | last week is the seven days before this week's Monday, starting on a Monday |
| QueryParsing.FollowingMonth | src/agri_ai/utils/query_parser.py:209-212 | the month after December is January of the next year; any other month is followed by the next month of the same year |
| QueryParsing.ThisMonthRange | src/agri_ai/utils/query_parser.py:204-213 | this month's range starts no later than today |
| QueryParsing.MonthRanges | src/agri_ai/utils/query_parser.py:204-227 | this month's range is the whole current month, next month's is the whole following month (across a year end too), and next month starts where this month ends |
| QueryParsing.ParseDateQuery | src/agri_ai/utils/query_parser.py:52-93 | a keyword result is the first date keyword (in table order) that the query contains, with that keyword's range (`KeywordRange`: today, tomorrow, yesterday or the Monday-start weeks); the parser is used only when no keyword occurs and then gives the parsed day; no result exactly when no keyword occurs and nothing parses |
| QueryParsing.DateKeywordRanges | src/agri_ai/utils/query_parser.py:19-28 | 今日, 明日 and 昨日 are today, tomorrow and yesterday; 今週 contains today; 来週 starts on a Monday; 先週 ends where 今週 starts |
| QueryParsing.FindDateKeyword | src/agri_ai/utils/query_parser.py:56-57 | the keyword loop returns the first keyword the query contains, and nothing exactly when it contains none |
| QueryParsing.FieldPatternAt | src/agri_ai/utils/query_parser.py:31-37 | a field pattern matches a name of at least two characters at the position tried |
| QueryParsing.FirstFieldMatch | src/agri_ai/utils/query_parser.py:103-117 | a field name found by the patterns occurs in the query and has at least two characters |
| QueryParsing.ParseFieldQuery | src/agri_ai/utils/query_parser.py:95-121 | the query is about all fields exactly when it has one of the all-fields words; a named field occurs in the query and has at least two characters |
| QueryParsing.FindFieldName | src/agri_ai/utils/query_parser.py:103-117 | the pattern loop returns exactly `FirstFieldMatch` |
| QueryParsing.FoundKeysMembers | src/agri_ai/utils/query_parser.py:128-130 | a work type is listed exactly when the query contains one of its keywords |
| QueryParsing.ParseWorkTypeQuery | src/agri_ai/utils/query_parser.py:123-136 | a work-type filter is never an empty list |
| QueryParsing.WorkTypeQueryMembers | src/agri_ai/utils/query_parser.py:123-136 | a work type is in the filter exactly when one of its keywords occurs, and no work type is listed twice |
| QueryParsing.DistinctFoundKeys | src/agri_ai/utils/query_parser.py:40-50 | a table with distinct keys gives a list without duplicates |
| QueryParsing.CollectWorkTypes | src/agri_ai/utils/query_parser.py:123-136 | the loop over the work types returns exactly `ParseWorkTypeQuery` |
| QueryParsing.ParsePriorityQuery | src/agri_ai/utils/query_parser.py:138-150 | the priority is high, medium or low, checked in that order: high exactly when a high keyword occurs, medium exactly when no high keyword does and a medium one does, none exactly when no keyword occurs |
| QueryParsing.FindPriority | src/agri_ai/utils/query_parser.py:146-150 | the loop over the priorities returns exactly `ParsePriorityQuery` |
| QueryParsing.ParseComprehensiveQuery | src/agri_ai/utils/query_parser.py:152-179 | the combined parse holds exactly the date, field, work-type and priority parses of the same query |
| QueryAnalysis.AnalyzeBasicIntent | src/agri_ai/services/query_analyzer.py:63-90 | a registration word together with a field word means field registration (confidence 0.9, the registration agent); everything else is a field-information query for the field agent, with 0.8 when an information word occurs and 0.5 otherwise; the intent is never unknown here |
| QueryAnalysis.FieldWordRaisesConfidence | src/agri_ai/services/query_analyzer.py:63-90 | a message naming 圃場, ハウス or 畑 always gets confidence at least 0.8 |
| QueryAnalysis.InfoQueryTypeOf | src/agri_ai/services/query_analyzer.py:298-307 | the query type is area, list, detail or general, checked in that order, each exactly when its words occur and no earlier type's do |
| QueryAnalysis.AcceptedName | src/agri_ai/services/query_analyzer.py:221-237 | the extracted name is kept when its confidence reaches the threshold and dropped otherwise |
| QueryAnalysis.ThresholdNeverRejects | src/agri_ai/services/query_analyzer.py:221-237 | every successful extraction passes the threshold, so the name is always kept; the error path gives "" |
| QueryAnalysis.FallbackFrom | src/agri_ai/services/query_analyzer.py:239-256 | a fallback name is empty or occurs in the message with at least two characters |
| QueryAnalysis.FallbackAgrees | src/agri_ai/services/query_analyzer.py:239-256 | the fallback's patterns are the first four of the field-name extractor's, so a name it finds is the one the extractor's regular-expression stage finds |
| QueryAnalysis.FallbackSearch | src/agri_ai/services/query_analyzer.py:239-256 | the pattern loop returns exactly `FallbackName` |
| QueryAnalysis.AreaSpan | src/agri_ai/services/query_analyzer.py:258-272 | an area match starts with a digit and ends with the unit |
| QueryAnalysis.AreaSearch | src/agri_ai/services/query_analyzer.py:258-272 | an area text found for a unit starts with a digit, ends with that unit and occurs in the message |
| QueryAnalysis.AreaFrom | src/agri_ai/services/query_analyzer.py:267-272 | the units are tried in order and the first one found gives the area; none exactly when no unit matches |
| QueryAnalysis.ExtractArea | src/agri_ai/services/query_analyzer.py:258-272 | an area starts with a digit, occurs in the message and ends with one of the units; no area exactly when no unit's pattern matches |
| QueryAnalysis.ExtractAreaSearch | src/agri_ai/services/query_analyzer.py:267-272 | the loop over the units returns exactly `ExtractArea` |
| QueryAnalysis.AreaName | src/agri_ai/services/query_analyzer.py:274-280 | 豊糠 gives 豊糠エリア, else 豊緑 gives 豊緑エリア, else no area name |
| QueryAnalysis.NonEmpty | src/agri_ai/services/query_analyzer.py:98-122 | an empty string is stored as no value, any other string as itself |
| QueryAnalysis.ExtractDetailedData | src/agri_ai/services/query_analyzer.py:92-140 | the field name is always stored; registration adds the area and area name, an information query adds the query type, an unknown intent adds nothing |
| QueryAnalysis.AnalyzeQueryIntent | src/agri_ai/services/query_analyzer.py:22-61 | without an exception the analysis carries the basic intent, agent and confidence and the detailed data; an exception gives the unknown intent with confidence 0.0 and the error; the intent is unknown exactly on an exception |
| QueryAnalysis.RegistrationPlan | src/agri_ai/services/query_analyzer.py:167-179 | a named field other than 新しい圃場 is registered directly; otherwise the registration agent is asked |
| QueryAnalysis.InfoPlan | src/agri_ai/services/query_analyzer.py:181-212 | with a field name, area and detail queries get their own research plans and other queries a general field search; without one, a list query lists an area or all fields and anything else goes to the field agent |
| QueryAnalysis.QueryTopic | src/agri_ai/services/query_analyzer.py:214-219 | weather, pests, harvest and general are chosen in that order, each exactly when its words occur and no earlier topic's do |
| QueryAnalysis.CreateExecutionPlan | src/agri_ai/services/query_analyzer.py:142-165 | registration, information and unknown intents get the registration, information and general plans |
| QueryAnalysis.PlanText | src/agri_ai/services/query_analyzer.py:142-165 | every plan text starts with the plan header |
| QueryAnalysis.AreaListPlanUnreachable | src/agri_ai/services/query_analyzer.py:200-204 | the area-list plan is never produced, because an information query never stores an area name |
| QueryAnalysis.PlanForReport | src/agri_ai/services/query_analyzer.py:22-212 | a registration with an accepted name other than 新しい圃場 registers that name, an exception gives a general plan, and an information query without a name that is not a list query goes to the field agent |
| FieldRegistration.DecimalLaterOnLine | src/agri_ai/langchain_tools/field_registration_tool.py:79-80 | `面積.*?(\d+\.?\d*)ha` finds a number that is itself a match of the plain area pattern |
| FieldRegistration.PlainLaterOnLine | src/agri_ai/langchain_tools/field_registration_tool.py:120 | the soil word's capture starts at a character that is neither 、 nor whitespace |
| FieldRegistration.DefaultRegion | src/agri_ai/langchain_tools/field_registration_tool.py:108-115 | a name with 豊糠/とよぬか gives 豊糠エリア, else one with 豊緑/とよみどり gives 豊緑エリア, else 未設定エリア, each as an if-and-only-if |
| FieldRegistration.RegionName | src/agri_ai/langchain_tools/field_registration_tool.py:103-105 | a region ending in に has the に replaced by エリア; any other region is kept |
| FieldRegistration.ParseQuery | src/agri_ai/langchain_tools/field_registration_tool.py:46-136 | a query is refused exactly when no name, an empty name or no area is found; an accepted query keeps that name and area, has a non-empty name and region and a non-negative area, falls back to the default region when no region pattern matches and to 不明 soil when no soil pattern matches |
| FieldRegistration.AfterAreaNeedsNumber | src/agri_ai/langchain_tools/field_registration_tool.py:76-81 | whenever a `面積.*?` pattern matches, the plain pattern for the same unit matches too |
| FieldRegistration.AreaWordNumber | src/agri_ai/langchain_tools/field_registration_tool.py:76-81 | a `面積.*?` match contains a position where the plain area pattern matches |
| FieldRegistration.AreaWordPatternsNeverDecide | src/agri_ai/langchain_tools/field_registration_tool.py:76-87 | the last two area patterns never change the result: the first two always decide the area |
| FieldRegistration.ParseRegistrationQuery | src/agri_ai/langchain_tools/field_registration_tool.py:46-136 | the four extraction loops compute exactly `ParseQuery` |
| FieldRegistration.FindName | src/agri_ai/langchain_tools/field_registration_tool.py:65-69 | the name loop returns exactly `NameOf` |
| FieldRegistration.FindArea | src/agri_ai/langchain_tools/field_registration_tool.py:83-87 | the area loop returns exactly `AreaOf` |
| FieldRegistration.FindRegion | src/agri_ai/langchain_tools/field_registration_tool.py:100-115 | the region loop and its default return exactly `RegionOf` |
| FieldRegistration.FindSoil | src/agri_ai/langchain_tools/field_registration_tool.py:117-129 | the soil loop returns exactly `SoilOf` |
| FieldRegistration.RegionPrefix | src/agri_ai/langchain_tools/field_registration_tool.py:190-197 | the three known regions map to TOYONUKA, TOYOMIDORI and UNSET, any other to OTHER, and no prefix contains a dash |
| FieldRegistration.SecondPiece | src/agri_ai/langchain_tools/field_registration_tool.py:207 | `code.split("-")[1]` contains no dash |
| FieldRegistration.IntOf | src/agri_ai/langchain_tools/field_registration_tool.py:207 | `int()` of a non-empty digit string is its decimal value (digits grouped by single underscores are read as well) |
| FieldRegistration.IntOfUnderscore | src/agri_ai/langchain_tools/field_registration_tool.py:207 | `int("1_0")` is ten |
| FieldRegistration.IntOfBadUnderscores | src/agri_ai/langchain_tools/field_registration_tool.py:207 | `int()` refuses a doubled or a leading underscore |
| FieldRegistration.NumbersMembers | src/agri_ai/langchain_tools/field_registration_tool.py:204-210 | the collected numbers are exactly the numbers of the codes that parse |
| FieldRegistration.MaxOf | src/agri_ai/langchain_tools/field_registration_tool.py:213 | `max` returns an element at least as large as every element |
| FieldRegistration.NextNumber | src/agri_ai/langchain_tools/field_registration_tool.py:213 | the next number is at least 1, larger than every existing number, and 1 when no code parses |
| FieldRegistration.Pad3 | src/agri_ai/langchain_tools/field_registration_tool.py:214 | `{n:03d}` gives at least three digits whose value is n |
| FieldRegistration.LeadingZeros | src/agri_ai/langchain_tools/field_registration_tool.py:214 | zeros in front of a digit string do not change its value |
| FieldRegistration.PrefixCodes | src/agri_ai/langchain_tools/field_registration_tool.py:201-203 | every code returned starts with the prefix and a dash |
| FieldRegistration.ExaminedCodes | src/agri_ai/langchain_tools/field_registration_tool.py:201-203 | at most 1000 codes are examined, each starting with the prefix and a dash |
| FieldRegistration.FieldCodeIsNew | src/agri_ai/langchain_tools/field_registration_tool.py:187-214 | the new code starts with the region's prefix, its number is one more than the largest examined number, and it differs from every examined code |
| FieldRegistration.CodeOfPrefix | src/agri_ai/langchain_tools/field_registration_tool.py:207-214 | a generated code starts with its prefix and parses back to its number (round trip) |
| FieldRegistration.SecondPieceAfterDash | src/agri_ai/langchain_tools/field_registration_tool.py:207 | the second piece of prefix-digits is the digits |
| FieldRegistration.CollectNumbers | src/agri_ai/langchain_tools/field_registration_tool.py:204-211 | the loop over the codes collects exactly `Numbers` |
| FieldRegistration.GenerateFieldCode | src/agri_ai/langchain_tools/field_registration_tool.py:187-214 | the method returns exactly `FieldCode` |
| FieldRegistration.FieldCollection.Insert | src/agri_ai/langchain_tools/field_registration_tool.py:172 | an insert appends the document with the next id and returns that id |
| FieldRegistration.NewDoc | src/agri_ai/langchain_tools/field_registration_tool.py:153-170 | the new document has the code, the name and the area in hectares, and the area in square metres is 10000 times that |
| FieldRegistration.RegisterField | src/agri_ai/langchain_tools/field_registration_tool.py:141-183 | a name already present is refused and nothing changes; otherwise exactly one document with the generated code is appended |
| FieldRegistration.Execute | src/agri_ai/langchain_tools/field_registration_tool.py:28-44 | an unparsable query changes nothing; a parsed one is a duplicate, with nothing changed, exactly when its name is taken, and is otherwise registered: the document `NewDoc` under the next id and the next code of its region is appended, a code new among the examined codes |
| FieldAgent.InfoAndRegistrationExclusive | src/agri_ai/agents/field_agent.py:174-224 | no report is both a field information query and a registration query |
| FieldAgent.FieldWordsAreInfoWords | src/agri_ai/agents/field_agent.py:184-219 | every field keyword of the registration check is also an information keyword |
| FieldAgent.FieldReportsSplit | src/agri_ai/agents/field_agent.py:174-224 | a report naming a field is an information query exactly when it has no registration word and a registration query exactly when it has one, so it is always exactly one of the two |
| FieldAgent.ProcessQuery | src/agri_ai/agents/field_agent.py:120-172 | success exactly for an information query the agent answered, with the agent's answer; a redirect exactly for a registration query; out of scope exactly for neither; an error exactly when the agent raised on an information query |
| FieldAgent.GateIgnoresAgent | src/agri_ai/agents/field_agent.py:134-148 | a report the gate turns away gets the same reply whatever the agent would have done |
| FieldAgent.RegistrationRedirected | src/agri_ai/agents/field_agent.py:134-141 | a report with a field word and a registration word is always redirected to the registration agent |
| TaskUpdate.DetermineAction | src/agri_ai/langchain_tools/task_update_tool.py:45-55 | complete exactly when a completion word occurs; postpone exactly when none does and a postponement word does; update otherwise |
| TaskUpdate.WithoutMembers | src/agri_ai/langchain_tools/task_update_tool.py:74 | after the delete the collection holds exactly the tasks with another id |
| TaskUpdate.WithoutAbsent | src/agri_ai/langchain_tools/task_update_tool.py:74 | deleting an id that is not present changes nothing |
| TaskUpdate.WithoutAt | src/agri_ai/langchain_tools/task_update_tool.py:74 | with distinct ids, `delete_one` removes exactly the one task with that id and keeps the order of the rest |
| TaskUpdate.WithoutDistinct | src/agri_ai/langchain_tools/task_update_tool.py:74 | deleting keeps the ids distinct |
| TaskUpdate.FieldLabel | src/agri_ai/langchain_tools/task_update_tool.py:223-231 | a stored field with a name shows that name, and a field that is not stored shows 不明な圃場 |
| TaskUpdate.TaskDatabase.DeleteOne | src/agri_ai/langchain_tools/task_update_tool.py:74 | `delete_one` removes the scheduled task with that id and touches nothing else |
| TaskUpdate.TaskDatabase.UpdateOne | src/agri_ai/langchain_tools/task_update_tool.py:141-150 | `update_one` sets the date and notes of the scheduled task with that id and touches nothing else |
| TaskUpdate.TaskDatabase.InsertTask | src/agri_ai/langchain_tools/task_update_tool.py:280 | an inserted task is appended under the next id |
| TaskUpdate.TaskDatabase.InsertRecord | src/agri_ai/langchain_tools/task_update_tool.py:97 | an inserted work record is appended and the tasks are untouched |
| TaskUpdate.TaskDatabase.RescheduleAll | src/agri_ai/langchain_tools/task_update_tool.py:140-150 | the update loop sets the date and notes of every found task and leaves the others alone |
| TaskUpdate.DefaultWindow | src/agri_ai/langchain_tools/task_update_tool.py:187-193 | without a date the search window is from today's midnight to seven days later, both ends included |
| TaskUpdate.FilterOf | src/agri_ai/langchain_tools/task_update_tool.py:174-211 | the filter uses the parsed date range (or the default window), filters by field only when a field name was parsed and some field matched, and filters by the parsed work types |
| TaskUpdate.Filtered | src/agri_ai/langchain_tools/task_update_tool.py:180-206 | a task is found exactly when it is in the collection and meets the filter (pending, in the window, on a listed field, of a listed work type) |
| TaskUpdate.MatchingTasks | src/agri_ai/langchain_tools/task_update_tool.py:206 | at most 100 tasks are returned, each matching; all matching tasks are returned when there are at most 100 |
| TaskUpdate.MinIndex | src/agri_ai/langchain_tools/task_update_tool.py:244 | `min(..., key=...)` picks the first task with the smallest key |
| TaskUpdate.BestMatch | src/agri_ai/langchain_tools/task_update_tool.py:233-244 | a single task is chosen; otherwise the first high-priority task; otherwise the first task with the earliest scheduled date |
| TaskUpdate.PostponeDay | src/agri_ai/langchain_tools/task_update_tool.py:246-256 | the new date is between tomorrow and a week ahead: 明日 gives tomorrow, else 来週 a week later, 3日後 gives three days exactly when neither of those occurs, and with none of the three words the date is tomorrow |
| TaskUpdate.ThreeDaysNeedsPostponeWord | src/agri_ai/langchain_tools/task_update_tool.py:45-55 | a three-day postponement is reached only when the report also says 延期, 後回し or 遅らせる, because 3日後 alone is not a postponement word |
| TaskUpdate.NextTask | src/agri_ai/langchain_tools/task_update_tool.py:266-278 | the follow-up task is pest control on the same field seven days later, pending, medium priority and auto-generated |
| TaskUpdate.NextWorkOf | src/agri_ai/langchain_tools/task_update_tool.py:258-293 | a follow-up is scheduled exactly after a pest-control task |
| TaskUpdate.ScheduleNextWork | src/agri_ai/langchain_tools/task_update_tool.py:258-293 | after pest control one follow-up task is appended under the next id; otherwise nothing changes |
| TaskUpdate.CompleteTask | src/agri_ai/langchain_tools/task_update_tool.py:57-123 | nothing found changes nothing; otherwise the best task is deleted, its follow-up added after pest control, one work record appended with the follow-up, and the completion reported |
| TaskUpdate.PostponedEntries | src/agri_ai/langchain_tools/task_update_tool.py:152-157 | one entry per found task, with its field label, work type and the new date |
| TaskUpdate.PostponeTasks | src/agri_ai/langchain_tools/task_update_tool.py:125-168 | nothing found changes nothing; otherwise every found task is moved to the postponement date with the note, and nothing else changes |
| TaskUpdate.Execute | src/agri_ai/langchain_tools/task_update_tool.py:25-43 | an update changes nothing; a completion with nothing found changes nothing, and otherwise removes exactly the best-matching pending task, appends the follow-up of a pest control and the record of the work, and answers with them; a postponement with nothing found changes nothing, and otherwise moves exactly the found tasks to midnight of the postponement day with a note quoting the report, keeps every other task, all records and the next id, and answers with one entry per moved task and the day |
| TaskUpdate.FoundIds | src/agri_ai/langchain_tools/task_update_tool.py:140-142 | with distinct ids, a task is among the found tasks exactly when its id is among their ids |
| TaskUpdateOld.Handler | src/agri_ai/langchain_tools/task_update_tool_old.py:183-186 | an update is handled as a completion, and completion and postponement keep their own handler |
| TaskUpdateOld.OldDefaultWindow | src/agri_ai/langchain_tools/task_update_tool_old.py:195-201 | without a date the window runs from a week before today's midnight to tomorrow's midnight, both ends included |
| TaskUpdateOld.SortedMatches | src/agri_ai/langchain_tools/task_update_tool_old.py:213-217 | at most 100 tasks, each matching the filter, in ascending date order; all matching tasks when there are no more than 100 |
| TaskUpdateOld.EarliestFirst | src/agri_ai/langchain_tools/task_update_tool_old.py:215 | ascending date order is a permutation of the tasks and is sorted by date |
| TaskUpdateOld.TodayTasks | src/agri_ai/langchain_tools/task_update_tool_old.py:257 | exactly the tasks scheduled on today's date |
| TaskUpdateOld.FromPool | src/agri_ai/langchain_tools/task_update_tool_old.py:263-271 | from the pool the first high-priority task is chosen, or else the first of the tasks closest in time to now, as `min` picks it |
| TaskUpdateOld.OldBestMatch | src/agri_ai/langchain_tools/task_update_tool_old.py:246-271 | no task gives none; one task is chosen alone; a single task due today wins; with several due today the first high-priority one among them, else the first of today's tasks closest to now; with none due today the same rules over all tasks |
| TaskUpdateOld.OldPostponeAt | src/agri_ai/langchain_tools/task_update_tool_old.py:273-286 | a date the parser reads wins at its midnight; else 明後日 gives the day after tomorrow at 9:00; no date at all exactly when the parser reads none and 明後日 is absent |
| TaskUpdateOld.OldPostponeShadowed | src/agri_ai/langchain_tools/task_update_tool_old.py:275-282 | a report with 明日 or 来週 always gets a midnight date from the parser, so the 9:00 branches for those words are never reached |
| TaskUpdateOld.OldPostponeTasks | src/agri_ai/langchain_tools/task_update_tool_old.py:134-181 | nothing found or no date changes nothing; otherwise every found task moves to the date with the dated note, records untouched |
| TaskUpdateOld.OldNextTask | src/agri_ai/langchain_tools/task_update_tool_old.py:290-300 | the follow-up is pest control on the same field a week later, pending, medium priority and not marked auto-generated |
| TaskUpdateOld.OldScheduleNextWork | src/agri_ai/langchain_tools/task_update_tool_old.py:288-305 | a follow-up is inserted under the next id exactly after pest control; records untouched |
| WorkLogRegistration.DayBeforeYesterdayAsWritten | src/agri_ai/agents/work_log_registration_agent.py:82-92 | as written, a report with 一昨日 is dated yesterday, because 昨日 is tried first and matches inside 一昨日 |
| WorkLogRegistration.LiteralBackReference | src/agri_ai/agents/work_log_registration_agent.py:86 | the stored replacement is the literal text `\1日前`, which the date parser reads as one day back |
| WorkLogRegistration.DaysAgoAsWritten | src/agri_ai/agents/work_log_registration_agent.py:86-92 | as written, any `N日前` report without another date word is dated one day back, whatever N is |
| WorkLogRegistration.DaysAgoReadBack | src/agri_ai/agents/work_log_registration_agent.py:188-193 | the date parser reads `N日前` back as N days before today |
| WorkLogRegistration.WorkDateOfReport | src/agri_ai/agents/work_log_registration_agent.py:176-196 | the corrected reference, with the date rules in the intended order: 一昨日 gives two days back, 昨日 one, 今日 today, `N日前` N days back, anything else today; the work date is never in the future |
| WorkLogRegistration.RelativeDateCases | src/agri_ai/agents/work_log_registration_agent.py:82-92 | the corrected reference: the intended relative date is the first date rule (一昨日 before 昨日) whose pattern occurs in the report |
| WorkLogRegistration.WorkDateAsWrittenCases | src/agri_ai/agents/work_log_registration_agent.py:176-196 | the work date as written: the first of 昨日, 一昨日, 今日, `N日前` found decides, 昨日 one day back, 一昨日 two, 今日 today, `N日前` one day back whatever N is, nothing found today; never in the future |
| WorkLogRegistration.FindRelativeDate | src/agri_ai/agents/work_log_registration_agent.py:89-92 | the loop tries 昨日, 一昨日, 今日 and `N日前` in the order written, stops at the first found and stores its replacement, exactly `RelativeDateAsWritten` |
| WorkLogRegistration.NamedMaterial | src/agri_ai/agents/work_log_registration_agent.py:139 | a material-name match starts where it is tried and stays inside the report |
| WorkLogRegistration.WorkTypesIn | src/agri_ai/agents/work_log_registration_agent.py:95-105 | a work type is listed exactly when one of its keywords occurs, once, in the order of the table |
| WorkLogRegistration.FindWorkTypes | src/agri_ai/agents/work_log_registration_agent.py:103-105 | the loop collects exactly the work types whose keywords occur |
| WorkLogRegistration.FindMaterials | src/agri_ai/agents/work_log_registration_agent.py:143-145 | the loop collects every match of every material pattern, pattern by pattern |
| WorkLogRegistration.ExtractWorkInfo | src/agri_ai/agents/work_log_registration_agent.py:67-147 | the extracted information is the relative date as the code as written stores it, the work types, work count, field, crop and material names the patterns give |
| WorkLogRegistration.RawFieldNameShape | src/agri_ai/agents/work_log_registration_agent.py:114-123 | the field name is empty exactly when no field pattern matches; otherwise it occurs in the report and holds no 、, 。 or space |
| WorkLogRegistration.FieldWordNamesField | src/agri_ai/agents/work_log_registration_agent.py:115 | a field word (ハウス, 畑, 田, 圃場) right after a name character always yields a field name |
| WorkLogRegistration.AnyOfCapturesKeyword | src/agri_ai/agents/work_log_registration_agent.py:127 | an alternation of words captures one of those words |
| WorkLogRegistration.MainCropNamed | src/agri_ai/agents/work_log_registration_agent.py:126-135 | a report naming a main crop gets that kind of crop as its crop name |
| WorkLogRegistration.RawMaterialNames | src/agri_ai/agents/work_log_registration_agent.py:138-145 | every material name found is non-empty and occurs in the report |
| WorkLogRegistration.WorkCountRoundTrip | src/agri_ai/agents/work_log_registration_agent.py:108-110 | `N回目` is read back as the work count N |
| WorkLogRegistration.ResolvedFrom | src/agri_ai/agents/work_log_registration_agent.py:149-174 | a field or crop is resolved exactly when a name was extracted, and one material answer is produced per material name |
| WorkLogRegistration.LoadStable | src/agri_ai/agents/work_log_registration_agent.py:170-172 | once the cache is loaded, loading again at the same moment reads the same data and keeps the cache, so every material is resolved against one snapshot |
| WorkLogRegistration.ResolveMasterData | src/agri_ai/agents/work_log_registration_agent.py:149-174 | the resolution is the one the master data defines, and each cache is refreshed only when its kind of name was extracted |
| WorkLogRegistration.ResolveMaterialNames | src/agri_ai/agents/work_log_registration_agent.py:170-172 | one answer per material name, in order, all against the same data; only the material cache changes |
| WorkLogRegistration.MaterialHint | src/agri_ai/agents/work_log_registration_agent.py:207-214 | a resolved material hints pest control or fertilizing by its name; an unresolved one gives no hint |
| WorkLogRegistration.MaterialsCategory | src/agri_ai/agents/work_log_registration_agent.py:205-216 | the category is the first material hint; other work when no material hints; no category (an error) when a resolved material without a name comes before any hint |
| WorkLogRegistration.ClassifyWorkType | src/agri_ai/agents/work_log_registration_agent.py:198-216 | the first work-type keyword decides; without one the materials decide |
| WorkLogRegistration.UnresolvedMaterialIgnored | src/agri_ai/agents/work_log_registration_agent.py:207-208 | removing an unresolved material never changes the category |
| WorkLogRegistration.ClassifyWork | src/agri_ai/agents/work_log_registration_agent.py:198-216 | the loop returns the category of the classification rule |
| WorkLogRegistration.EntityOf | src/agri_ai/agents/work_log_registration_agent.py:228-234 | a field or crop is stored exactly when it was resolved to an id, with that id and name |
| WorkLogRegistration.MaterialListsPaired | src/agri_ai/agents/work_log_registration_agent.py:236-246 | the stored ids and names are paired, each id with the name of a material that resolved to it, and every resolved material's id is stored |
| WorkLogRegistration.MaterialListsConcat | src/agri_ai/agents/work_log_registration_agent.py:236-246 | the ids and names keep the order of the materials |
| WorkLogRegistration.CollectMaterials | src/agri_ai/agents/work_log_registration_agent.py:237-242 | the loop collects the ids and names of the resolved materials |
| WorkLogRegistration.RecordOf | src/agri_ai/agents/work_log_registration_agent.py:226-260 | the record is confirmed, tagged with its category, holds the field and crop exactly when resolved, and pairs material ids with names |
| WorkLogRegistration.WorkLogStore.InsertOne | src/agri_ai/agents/work_log_registration_agent.py:268 | an inserted record is appended to the work logs |
| WorkLogRegistration.SaveWorkLog | src/agri_ai/agents/work_log_registration_agent.py:218-274 | a failing insert stores nothing and reports the error; otherwise exactly the record is appended |
| WorkLogRegistration.Confidences | src/agri_ai/agents/work_log_registration_agent.py:280-286 | one confidence per resolved field, crop and material |
| WorkLogRegistration.OverallConfidenceBounds | src/agri_ai/agents/work_log_registration_agent.py:288 | the overall confidence is between 0 and 1, and 0 when nothing was resolved |
| WorkLogRegistration.AnswersInRange | src/agri_ai/agents/work_log_registration_agent.py:149-174 | every confidence the resolver gives is between 0 and 1 |
| WorkLogRegistration.FormatResult | src/agri_ai/agents/work_log_registration_agent.py:276-298 | the reply carries the record's id, date, category and extracted data |
| WorkLogRegistration.WorkLogRegistrationAgent.RegisterWorkLog | src/agri_ai/agents/work_log_registration_agent.py:27-65 | no category or a failing insert stores nothing and reports failure; otherwise exactly one record with the work date as the code as written computes it and the report's category is appended, and the reported confidence is between 0 and 1 |
| WorkLogRegistration.WorkLogRegistrationAgent.constructor | src/agri_ai/agents/work_log_registration_agent.py:22-23 | a new agent owns a fresh resolver with empty caches |
| WorkLogSearch.DayOfBounds | src/agri_ai/agents/work_log_search_agent.py:410 | a moment falls on day d exactly when it lies between that day's midnight and the next |
| WorkLogSearch.PreviousMonth | src/agri_ai/agents/work_log_search_agent.py:216-217 | the month before a month is a valid month whose following month is the given one |
| WorkLogSearch.PreviousMonthFirst | src/agri_ai/agents/work_log_search_agent.py:216-217 | the previous month starts at least 28 days before the current one |
| WorkLogSearch.PastAt | src/agri_ai/agents/work_log_search_agent.py:229-231 | a `過去N<unit>` match starts at 過去 and spans a run of digits followed by the unit |
| WorkLogSearch.YesterdayIsWholeDay | src/agri_ai/agents/work_log_search_agent.py:209-214 | with 昨日 the range holds exactly the moments of yesterday |
| WorkLogSearch.LastMonthIsWholeMonth | src/agri_ai/agents/work_log_search_agent.py:215-221 | the corrected reference: with the range starting at midnight, 先月 or 前月 (without 昨日) selects exactly the moments of last month |
| WorkLogSearch.LastMonthAsWrittenRange | src/agri_ai/agents/work_log_search_agent.py:215-221 | as written, 先月 or 前月 (without 昨日) selects the moments of last month from the current time of day on its first day |
| WorkLogSearch.LastMonthAsWrittenMissesFirstMorning | src/agri_ai/agents/work_log_search_agent.py:215-221 | as written, a 先月 query made after midnight starts the range at the current time of day on the 1st, so midnight of the 1st is left out |
| WorkLogSearch.ThisMonthUpToNow | src/agri_ai/agents/work_log_search_agent.py:222-227 | with 今月 or 当月 the range runs from the first of this month to now |
| WorkLogSearch.PastDaysReadBack | src/agri_ai/agents/work_log_search_agent.py:229-238 | `過去N日` is read back as N days |
| WorkLogSearch.DateRangeInPast | src/agri_ai/agents/work_log_search_agent.py:206-250 | every date range starts no later than it ends and ends no later than now |
| WorkLogSearch.CropsIn | src/agri_ai/agents/work_log_search_agent.py:263-266 | a crop is listed exactly when its name occurs in the query |
| WorkLogSearch.LimitOf | src/agri_ai/agents/work_log_search_agent.py:281-285 | all (全て or すべて) gives 1000; otherwise 最新 gives 10; otherwise 50 |
| WorkLogSearch.SearchParamsDefaults | src/agri_ai/agents/work_log_search_agent.py:196-204 | results are newest first, no material filter is parsed, and the limit is 10, 50 or 1000 |
| WorkLogSearch.FieldNamesInQuery | src/agri_ai/agents/work_log_search_agent.py:252-260 | every field name found is non-empty and occurs in the query |
| WorkLogSearch.CategoriesFound | src/agri_ai/agents/work_log_search_agent.py:268-279 | a work category is listed exactly when one of its keywords occurs, and none twice |
| WorkLogSearch.ParseSearchQuery | src/agri_ai/agents/work_log_search_agent.py:191-287 | the loops build exactly the search parameters the query defines, with the date range the code as written computes |
| WorkLogSearch.FindFieldNames | src/agri_ai/agents/work_log_search_agent.py:258-260 | the loop collects every match of every field pattern |
| WorkLogSearch.CollectCrops | src/agri_ai/agents/work_log_search_agent.py:264-266 | the loop collects exactly the crops named |
| WorkLogSearch.CollectCategories | src/agri_ai/agents/work_log_search_agent.py:277-279 | the loop collects exactly the categories whose keywords occur |
| WorkLogSearch.Matching | src/agri_ai/agents/work_log_search_agent.py:296-323 | a log is found exactly when it is the user's and meets the date, field and category conditions |
| WorkLogSearch.NewestFirst | src/agri_ai/agents/work_log_search_agent.py:326-327 | newest-first order is a permutation sorted by descending date |
| WorkLogSearch.OldestFirst | src/agri_ai/agents/work_log_search_agent.py:404 | oldest-first order is a permutation sorted by ascending date |
| WorkLogSearch.SearchResults | src/agri_ai/agents/work_log_search_agent.py:289-340 | at most the limit, each a matching log, in the requested date order; all matching logs when there are no more than the limit |
| WorkLogSearch.SearchResultsAreFirst | src/agri_ai/agents/work_log_search_agent.py:323-332 | the results are min(limit, n) of the matching logs, and none left out is newer (descending) or older (ascending) than the last result |
| WorkLogSearch.CropNamesUnused | src/agri_ai/agents/work_log_search_agent.py:289-340 | the crop names parsed never change what is found |
| WorkLogSearch.MatchingIgnoresCrops | src/agri_ai/agents/work_log_search_agent.py:296-320 | no search condition depends on the crop names |
| WorkLogSearch.Occurrences | src/agri_ai/agents/work_log_search_agent.py:361 | a key is counted at least once exactly when it occurs |
| WorkLogSearch.Tally | src/agri_ai/agents/work_log_search_agent.py:358-372 | the counting dictionary has exactly the keys that occur, each with its number of occurrences |
| WorkLogSearch.TallySnoc | src/agri_ai/agents/work_log_search_agent.py:361 | counting one more key bumps its count by one |
| WorkLogSearch.Distinct | src/agri_ai/agents/work_log_search_agent.py:354-372 | the distinct keys are the keys that occur, each once |
| WorkLogSearch.SumCountsBump | src/agri_ai/agents/work_log_search_agent.py:361 | bumping a key raises the total over a key list by one exactly when the key is listed |
| WorkLogSearch.TallySum | src/agri_ai/agents/work_log_search_agent.py:354-372 | the counts add up to the number of keys counted |
| WorkLogSearch.CategoryKeys | src/agri_ai/agents/work_log_search_agent.py:360 | one category key per log; a log without a category counts as その他 |
| WorkLogSearch.FieldKeys | src/agri_ai/agents/work_log_search_agent.py:364-367 | only non-empty field names are counted, and every log's non-empty field name is |
| WorkLogSearch.MaterialKeys | src/agri_ai/agents/work_log_search_agent.py:370-372 | every material name of every log is counted |
| WorkLogSearch.StatisticsTotals | src/agri_ai/agents/work_log_search_agent.py:353-372 | the category counts add up to the number of logs, the field and material counts to the names counted, and a log without a category shows up under その他 |
| WorkLogSearch.CountNames | src/agri_ai/agents/work_log_search_agent.py:371-372 | the loop adds each name's occurrences to the counts |
| WorkLogSearch.CountStatistics | src/agri_ai/agents/work_log_search_agent.py:354-372 | the loop computes exactly the statistics of the logs |
| WorkLogSearch.PestControlLogs | src/agri_ai/agents/work_log_search_agent.py:395-398 | exactly the pest-control logs |
| WorkLogSearch.Gaps | src/agri_ai/agents/work_log_search_agent.py:406-411 | one gap per consecutive pair, in whole days |
| WorkLogSearch.IntervalPattern | src/agri_ai/agents/work_log_search_agent.py:392-423 | no pattern exactly when fewer than two pest-control logs; otherwise the whole-day gaps between consecutive pest-control logs in date order, each non-negative, their mean as the average, and 適切 exactly when that mean lies in [7, 14] |
| WorkLogSearch.MaxOf | src/agri_ai/agents/work_log_search_agent.py:406-420 | the largest interval bounds every interval |
| WorkLogSearch.IntervalAssessment | src/agri_ai/agents/work_log_search_agent.py:420 | the logs are judged appropriate exactly when the mean interval lies in [7, 14]: intervals all between 7 and 14 days are appropriate, all shorter than 7 or all longer than 14 are not |
| WorkLogSearch.AnalyzeWorkIntervals | src/agri_ai/agents/work_log_search_agent.py:392-423 | the method computes the interval pattern |
| WorkLogSearch.ComputeGaps | src/agri_ai/agents/work_log_search_agent.py:406-411 | the loop computes the gaps between consecutive logs |
| WorkLogSearch.RotationLogs | src/agri_ai/agents/work_log_search_agent.py:427-431 | exactly the pest-control logs that name materials |
| WorkLogSearch.ReusesUpTo | src/agri_ai/agents/work_log_search_agent.py:443-451 | a reuse is recorded only on a log's date, and none exactly when no log shares a material with the log before it |
| WorkLogSearch.ReusesAscending | src/agri_ai/agents/work_log_search_agent.py:443-451 | in date order the reuses come in date order |
| WorkLogSearch.DetailsAsWritten | src/agri_ai/agents/work_log_search_agent.py:457 | as written, the details are the first (at most three) reuses |
| WorkLogSearch.LatestThree | src/agri_ai/agents/work_log_search_agent.py:457 | the corrected reference for the details: the latest three reuses, or all when fewer |
| WorkLogSearch.RotationPattern | src/agri_ai/agents/work_log_search_agent.py:425-458 | no pattern exactly when fewer than three such logs; otherwise the number of reuses, good exactly when none, and, as written, the first min(3, n) reuses in date order as details |
| WorkLogSearch.RotationReusesAscending | src/agri_ai/agents/work_log_search_agent.py:437-451 | the reuses are in date order |
| WorkLogSearch.RotationDetailsLatest | src/agri_ai/agents/work_log_search_agent.py:457 | with the corrected details, every reuse left out is no later than those kept |
| WorkLogSearch.FirstThreeOldest | src/agri_ai/agents/work_log_search_agent.py:457 | the first three of date-ordered reuses are the oldest, and with a later fourth the newest reuse is left out |
| WorkLogSearch.RotationDetailsAsWrittenOldest | src/agri_ai/agents/work_log_search_agent.py:457 | as written, the details keep the oldest reuses and can drop the newest |
| WorkLogSearch.AnalyzeMaterialRotation | src/agri_ai/agents/work_log_search_agent.py:425-458 | the method computes the rotation pattern, with the details as written |
| WorkLogSearch.ScanReuses | src/agri_ai/agents/work_log_search_agent.py:440-451 | the loop records each log that shares a material with the previous one |
| WorkLogSearch.StaleAdvice | src/agri_ai/agents/work_log_search_agent.py:473 | the stale-work advice starts with 最, unlike the other texts |
| WorkLogSearch.Latest | src/agri_ai/agents/work_log_search_agent.py:469 | the latest log is one of the logs and no log is later |
| WorkLogSearch.Recommendations | src/agri_ai/agents/work_log_search_agent.py:460-484 | no logs gives the not-found advice; otherwise at most two pieces: stale-work advice first exactly when the latest log is more than 14 days old, and balance advice exactly when pest control is more than twice fertilizing |
| WorkLogSearch.AdviceTextsDiffer | src/agri_ai/agents/work_log_search_agent.py:465-482 | the three advice texts differ |
| WorkLogSearch.StaleMeansNothingRecent | src/agri_ai/agents/work_log_search_agent.py:469-472 | the latest log is more than 14 days old exactly when no log is from the last 15 days |
| WorkLogSearch.CountCategories | src/agri_ai/agents/work_log_search_agent.py:476-479 | the loop counts each category |
| WorkLogSearch.GenerateRecommendations | src/agri_ai/agents/work_log_search_agent.py:460-484 | the method computes the recommendations |
| WorkLogSearch.PatternsOf | src/agri_ai/agents/work_log_search_agent.py:374-378 | patterns only with three or more logs, at most two, each the interval or rotation pattern |
| WorkLogSearch.AnalysisOf | src/agri_ai/agents/work_log_search_agent.py:342-390 | the total is the number of results; no results give no statistics, patterns or advice; otherwise the statistics and advice of the results |
| WorkLogSearch.AnalyzeResults | src/agri_ai/agents/work_log_search_agent.py:342-390 | the method computes the analysis |
| WorkLogSearch.SearchWorkLogs | src/agri_ai/agents/work_log_search_agent.py:157-189 | a database failure is reported; otherwise the parameters as written and, newest first, the limit's worth of the user's matching logs (all when fewer), none left out newer than the last one, with their analysis |

## Left out

- Database, language-model and network I/O: every read is a parameter of the operation and every write is a state change of a collection class; connection handling, `disconnect` and logging are not modelled.
- `_execute_with_db`, called by the field registration tool and the older task update tool, is not defined in the base tool class (`langchain_tools/base_tool.py` is not part of this model); the model takes it to run the given operation against the database, as its callers expect.
- `dateparser`, the clock (`datetime.now`), `uuid` and log identifiers are parameters; a date is a day number counted from 1970-01-01 and a moment is a number of seconds.
- `difflib.SequenceMatcher.ratio` is an arbitrary function into [0, 1]; no particular algorithm is assumed.
- Regular expressions are written as explicit scanners: `\d` covers ASCII and full-width digits, `\s` and `strip` cover the whitespace set of Python's `isspace`, `\w` covers letters, digits and `_` of the scripts the reports use. A MongoDB `$regex` filter on a plain name is a case-insensitive substring test.
- `.lower()` is modelled for ASCII and full-width Latin letters only.
- Floating point: scores and confidences are exact reals; `round(x, 1)`, float rendering and percentage formatting in messages are not modelled.
- Message texts, `_format_result`, `_format_search_results`, emoji rendering and timestamps (`created_at`, `updated_at`, microseconds) are not modelled beyond the option lists and the fields the contracts name.
- The order of equal keys in a MongoDB sort is not specified; the model sorts stably.
- `quantities` in the registration agent is never filled by the source and is not modelled.
- The older task update tool's `_complete_task` refers to names defined only inside its nested function, so it always fails; only its action rule, window, selection, postponement and follow-up are modelled.
- The field registration tool examines only the first 1000 codes of a prefix; codes beyond those are not read, as in the source.
- The query analyser's `_extract_material_name` and the field agent's `intermediate_steps`, `get_capabilities` and `_setup_*` are not modelled: they only relay the language model's output.
- The search agent's `prev_materials` starts as `None`; the model uses the empty list, which behaves the same in the test `prev_materials and ...`.
- The strategy factory's individual `create_*` builders are modelled only through the contexts they assemble.
- The master-data resolver's `get_cache_stats` refers to a nonexistent attribute and is not modelled.
- The scorer's `except Exception: return 0.0` path is not modelled: no evaluator raises on a well-formed record.
- The resolver's `crop.get('name', '')` on a document whose `name` is present but null is not modelled; names are strings.
- The mock user history of the decision service is a parameter.
- The quality score and method name that the v2 validator passes to its result record are dropped, because the record declares neither field.
- The analyser's field-name fallback patterns are the first four of the field-name extractor's; `QueryAnalysis.FallbackAgrees` states that they agree.
- A test case of the registration agent's classifier expects an unresolved material to decide the category; the code ignores it, and the model follows the code (`WorkLogRegistration.UnresolvedMaterialIgnored`).
- The search agent parses crop names but never uses them in the search (`WorkLogSearch.CropNamesUnused`).
- The search agent's `return None` after a non-empty interval list is unreachable and is not modelled.
- IntelligentRegistration.FillAll: only the text keys and `materials` are filled; an inference for `quantity`, `work_count` or `confidence_score`, which pydantic would coerce or reject when the report is rebuilt, is not modelled. The decision service only ever infers an empty dictionary, so the path is not reached.
- IntelligentRegistration.FillAllIgnoresOtherKeys: "other keys" excludes `quantity`, `work_count` and `confidence_score`, for the reason given for `FillAll`.
- IntelligentRegistration.ApplyLlmInferencesSpec: the quantity, work count and confidence are promised unchanged only because inferences for their keys are not modelled (see `FillAll`).
- IntelligentRegistration.ApplyLlmInferencesIgnoresOtherKeys: as for `FillAllIgnoresOtherKeys`.
- IntelligentRegistration.ApplyInferences: computes the modelled `ApplyLlmInferences`, so it does not apply the typed keys either.
- FieldNameExtraction.Distinct: `list(set(matches))` has an order that depends on string hashing; the model keeps first occurrences in order and promises only the same names, each once.
- Only the reported `average_days` is rounded to one decimal in the source (`round(…, 1)`), and that rounding is not modelled; the 適切/要注意 judgement uses the exact mean in both.

## Findings

Each row's as-written member is what the pipeline uses; the corrected member
is the reference definition, with the intended property proved about it.

| source | as written | input that shows it | evidently intended | confidence | as-written member | corrected member |
|---|---|---|---|---|---|---|
| src/agri_ai/services/intelligent_decision_service.py:188-197 | the fallback analysis omits the required `missing_info_inference` field, so building it raises instead of returning | a failing language-model call | a fallback analysis with an empty inference | not executed | DecisionService.FallbackRaisesAsWritten | DecisionService.AnalyzeContext |
| src/agri_ai/agents/work_log_registration_agent.py:82-92 | 昨日 is tried before 一昨日 and occurs inside it, so 一昨日 is dated yesterday | "一昨日トマトに散布" | two days before today | not executed | WorkLogRegistration.DayBeforeYesterdayAsWritten | WorkLogRegistration.WorkDateOfReport |
| src/agri_ai/agents/work_log_registration_agent.py:86 | the replacement `r'\1日前'` is stored literally, and the date parser reads it as one day back | "3日前に散布" | three days before today | not executed | WorkLogRegistration.DaysAgoAsWritten | WorkLogRegistration.WorkDateOfReport |
| src/agri_ai/agents/work_log_search_agent.py:457 | `consecutive_materials[:3]` keeps the three oldest reuses although the comment says the latest three | pest control with the same material on days 1, 8, 15, 22 and 29 | the three latest reuses | not executed | WorkLogSearch.RotationDetailsAsWrittenOldest | WorkLogSearch.RotationDetailsLatest |
| src/agri_ai/agents/work_log_search_agent.py:215-221 | the range for 先月 starts at the current time of day on the 1st of last month | a 先月 query at 12:00 misses logs from 00:00 to 11:59 on the 1st | the whole of last month from midnight | not executed | WorkLogSearch.LastMonthAsWrittenMissesFirstMorning | WorkLogSearch.LastMonthIsWholeMonth |
