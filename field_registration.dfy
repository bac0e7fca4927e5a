/**
 * The field registration tool: a report such as 「橋向こう①を1.2haで登録」
 * is parsed into a field's name, area, region and soil type, and the field
 * is added to the `fields` collection under a new code PREFIX-NNN, unless
 * a field of that name exists already.
 */
module FieldRegistration {
  import opened Common
  import opened Patterns

  // ---------------------------------------------------------------------
  // The patterns of `_parse_registration_query`
  // ---------------------------------------------------------------------

  /** `[^を、\s]` */
  predicate NameChar(c: char)
  {
    c != 'を' && c != '、' && !IsSpace(c)
  }

  /** `[^、\s]` */
  predicate PlainChar(c: char)
  {
    c != '、' && !IsSpace(c)
  }

  /** `sep.*?verb` after the group. */
  function Then(sep: string, verb: string): (string, nat) -> bool
  {
    (s: string, k: nat) => OccursAt(s, sep, k) && LaterOnLine(s, k + |sep|, verb)
  }

  /** The group itself ends with `tail`. */
  function EndsIn(tail: string): (string, nat) -> bool
  {
    (s: string, k: nat) => k >= |tail| && OccursAt(s, tail, k - |tail|)
  }

  /** The group ends with `tail` and `next` follows it. */
  function EndsInThen(tail: string, next: string): (string, nat) -> bool
  {
    (s: string, k: nat) => k >= |tail| && OccursAt(s, tail, k - |tail|) && OccursAt(s, next, k)
  }

  /** `([^を、\s]+)を.*?登録`, `([^を、\s]+)を.*?追加`, `([^、\s]+)、.*?登録`, `([^、\s]+)、.*?追加` */
  const NamePatterns: seq<(string, nat) -> Option<Span>> := [
    Greedy(NameChar, 1, Then("を", "登録")),
    Greedy(NameChar, 1, Then("を", "追加")),
    Greedy(PlainChar, 1, Then("、", "登録")),
    Greedy(PlainChar, 1, Then("、", "追加"))
  ]

  function Decimal(unit: string): (string, nat) -> Option<Span>
  {
    (s: string, i: nat) => DecimalBeforeAt(s, i, unit)
  }

  /** `.*?(\d+\.?\d*)unit` from j: the first position on the line where the number pattern matches. */
  function DecimalLaterOnLine(s: string, j: nat, unit: string): (r: Option<Span>)
    ensures r.Some? ==> exists q :: j <= q <= |s| && DecimalBeforeAt(s, q, unit) == r
    decreases |s| - j
  {
    if j > |s| then None
    else match DecimalBeforeAt(s, j, unit)
      case Some(m) => Some(m)
      case None => if j < |s| && s[j] != '\n' then DecimalLaterOnLine(s, j + 1, unit) else None
  }

  /** `面積.*?(\d+\.?\d*)unit` tried at i. */
  function AfterAreaWord(unit: string): (string, nat) -> Option<Span>
  {
    (s: string, i: nat) => if OccursAt(s, "面積", i) then DecimalLaterOnLine(s, i + 2, unit) else None
  }

  const AreaPatterns: seq<(string, nat) -> Option<Span>> := [
    Decimal("ha"), Decimal("ヘクタール"), AfterAreaWord("ha"), AfterAreaWord("ヘクタール")
  ]

  /** `([^、\s]+エリア)`, `([^、\s]+地区)`, `([^、\s]+)に追加` */
  const RegionPatterns: seq<(string, nat) -> Option<Span>> := [
    Greedy(PlainChar, 4, EndsIn("エリア")),
    Greedy(PlainChar, 3, EndsIn("地区")),
    Greedy(PlainChar, 1, Then("に追加", ""))
  ]

  /** The first position on the line at or after j where a `[^、\s]` run can start. */
  function PlainLaterOnLine(s: string, j: nat): (r: Option<nat>)
    ensures r.Some? ==> j <= r.value < |s| && PlainChar(s[r.value])
    decreases |s| - j
  {
    if j >= |s| then None
    else if PlainChar(s[j]) then Some(j)
    else if s[j] == '\n' then None
    else PlainLaterOnLine(s, j + 1)
  }

  /** `土壌.*?([^、\s]+)` tried at i. */
  function AfterSoilWord(s: string, i: nat): (r: Option<Span>)
  {
    if OccursAt(s, "土壌", i) then
      match PlainLaterOnLine(s, i + 2)
      case Some(q) => var e := RunEnd(s, q, PlainChar); Some(Span(q, e, e))
      case None => None
    else None
  }

  /** `土壌.*?([^、\s]+)`, `([^、\s]*土)で`, `([^、\s]*土)、` */
  const SoilPatterns: seq<(string, nat) -> Option<Span>> := [
    AfterSoilWord,
    Greedy(PlainChar, 1, EndsInThen("土", "で")),
    Greedy(PlainChar, 1, EndsInThen("土", "、"))
  ]

  // ---------------------------------------------------------------------
  // Parsing a report
  // ---------------------------------------------------------------------

  datatype FieldInfo = FieldInfo(name: string, areaHa: real, region: string, soilType: string)

  const Toyonuka: string := "豊糠エリア"
  const Toyomidori: string := "豊緑エリア"
  const Unset: string := "未設定エリア"
  const UnknownSoil: string := "不明"

  /** The region a field's name suggests when the report names none. */
  function DefaultRegion(name: string): (r: string)
    ensures r == Toyonuka <==> ContainsAny(name, ["豊糠", "とよぬか"])
    ensures r == Toyomidori <==> !ContainsAny(name, ["豊糠", "とよぬか"]) && ContainsAny(name, ["豊緑", "とよみどり"])
    ensures r == Unset <==> !ContainsAny(name, ["豊糠", "とよぬか"]) && !ContainsAny(name, ["豊緑", "とよみどり"])
  {
    if ContainsAny(name, ["豊糠", "とよぬか"]) then Toyonuka
    else if ContainsAny(name, ["豊緑", "とよみどり"]) then Toyomidori
    else Unset
  }

  /** A region captured before に追加 that itself ends in に becomes an エリア. */
  function RegionName(g: string): (r: string)
    ensures |g| > 0 && g[|g| - 1] == 'に' ==> r == g[..|g| - 1] + "エリア"
    ensures !(|g| > 0 && g[|g| - 1] == 'に') ==> r == g
  {
    if |g| > 0 && g[|g| - 1] == 'に' then g[..|g| - 1] + "エリア" else g
  }

  function RegionOf(q: string, name: string): string
  {
    match FirstSearch(q, RegionPatterns)
    case Some(m) =>
      var region := RegionName(Strip(Group(q, m)));
      if region == "" then DefaultRegion(name) else region
    case None => DefaultRegion(name)
  }

  function SoilOf(q: string): string
  {
    match FirstSearch(q, SoilPatterns)
    case Some(m) => Strip(Group(q, m))
    case None => UnknownSoil
  }

  /** The name: the first name pattern's group, stripped. */
  function NameOf(q: string): Option<string>
  {
    match FirstSearch(q, NamePatterns)
    case Some(n) => Some(Strip(Group(q, n)))
    case None => None
  }

  /** The area in hectares: `float` of the number the first area pattern captures. */
  function AreaOf(q: string): Option<real>
  {
    match FirstSearch(q, AreaPatterns)
    case Some(a) => Some(DecimalValue(Group(q, a)))
    case None => None
  }

  /**
   * `_parse_registration_query`: the name (first name pattern found), the
   * area's number (first area pattern found), the region (first region
   * pattern found, else from the name) and the soil type (first soil
   * pattern found, else 不明).  Nothing without a name or an area.
   */
  function ParseQuery(q: string): (r: Option<FieldInfo>)
    ensures r.None? <==> NameOf(q).None? || NameOf(q) == Some("") || AreaOf(q).None?
    ensures r.Some? ==> Some(r.value.name) == NameOf(q) && Some(r.value.areaHa) == AreaOf(q)
    ensures r.Some? ==> |r.value.name| > 0 && |r.value.region| > 0 && r.value.areaHa >= 0.0
    ensures r.Some? && FirstSearch(q, RegionPatterns).None? ==> r.value.region == DefaultRegion(r.value.name)
    ensures r.Some? && FirstSearch(q, SoilPatterns).None? ==> r.value.soilType == UnknownSoil
  {
    match NameOf(q)
    case None => None
    case Some(name) =>
      if name == "" then None
      else match AreaOf(q)
        case None => None
        case Some(area) => Some(FieldInfo(name, area, RegionOf(q, name), SoilOf(q)))
  }

  /** `.*?(\d+\.?\d*)unit` after 面積 can only match where the plain number pattern matches too. */
  lemma AfterAreaNeedsNumber(q: string, unit: string)
    requires Search(q, 0, AfterAreaWord(unit)).Some?
    ensures Search(q, 0, Decimal(unit)).Some?
  {
    var j := AreaWordNumber(q, unit);
    assert Decimal(unit)(q, j) == DecimalBeforeAt(q, j, unit);
    SearchFinds(q, 0, Decimal(unit), j);
  }

  /** Where the 面積 pattern matches, the number it reads is a valid match of the plain pattern. */
  lemma AreaWordNumber(q: string, unit: string) returns (j: nat)
    requires Search(q, 0, AfterAreaWord(unit)).Some?
    ensures j <= |q| && DecimalBeforeAt(q, j, unit).Some? && ValidSpan(q, DecimalBeforeAt(q, j, unit).value)
  {
    var i := SearchWitness(q, 0, AfterAreaWord(unit));
    var r := DecimalLaterOnLine(q, i + 2, unit);
    assert r == AfterAreaWord(unit)(q, i);
    j :| i + 2 <= j <= |q| && DecimalBeforeAt(q, j, unit) == r;
  }

  /**
   * The 面積 patterns never decide the area: whenever one of them would
   * match, the plain number pattern with the same unit matches too, and
   * it is tried first.
   */
  lemma AreaWordPatternsNeverDecide(q: string)
    ensures FirstSearch(q, AreaPatterns) == FirstSearch(q, AreaPatterns[..2])
  {
    var ps := AreaPatterns;
    var p0, p1 := Decimal("ha"), Decimal("ヘクタール");
    var p2, p3 := AfterAreaWord("ha"), AfterAreaWord("ヘクタール");
    assert ps == [p0, p1, p2, p3] && ps[..2] == [p0, p1];
    if Search(q, 0, p0).None? && Search(q, 0, p1).None? {
      if Search(q, 0, p2).Some? {
        AfterAreaNeedsNumber(q, "ha");
      }
      if Search(q, 0, p3).Some? {
        AfterAreaNeedsNumber(q, "ヘクタール");
      }
      assert forall k :: 0 <= k < 4 ==> Search(q, 0, ps[k]).None?;
      assert forall k :: 0 <= k < 2 ==> Search(q, 0, ps[..2][k]).None?;
    } else {
      assert ps[1..][0] == p1 && ps[..2][1..][0] == p1;
    }
  }

  /** `_parse_registration_query`, one pattern loop after another. */
  method ParseRegistrationQuery(q: string) returns (r: Option<FieldInfo>)
    ensures r == ParseQuery(q)
  {
    var name := FindName(q);
    if name.None? || name.value == "" {
      return None;
    }
    var area := FindArea(q);
    if area.None? {
      return None;
    }
    var region := FindRegion(q, name.value);
    var soil := FindSoil(q);
    r := Some(FieldInfo(name.value, area.value, region, soil));
  }

  /** The name loop; the name is stripped. */
  method FindName(q: string) returns (name: Option<string>)
    ensures name == NameOf(q)
  {
    var n := FindFirst(q, NamePatterns);
    name := if n.Some? then Some(Strip(Group(q, n.value))) else None;
  }

  /** The area loop. */
  method FindArea(q: string) returns (area: Option<real>)
    ensures area == AreaOf(q)
  {
    var a := FindFirst(q, AreaPatterns);
    area := if a.Some? then Some(DecimalValue(Group(q, a.value))) else None;
  }

  /** The region loop, then the default from the name when it found nothing. */
  method FindRegion(q: string, name: string) returns (region: string)
    ensures region == RegionOf(q, name)
  {
    region := "";
    var g := FindFirst(q, RegionPatterns);
    if g.Some? {
      region := RegionName(Strip(Group(q, g.value)));
    }
    if region == "" {
      region := DefaultRegion(name);
    }
  }

  /** The soil loop, with 不明 when it found nothing. */
  method FindSoil(q: string) returns (soil: string)
    ensures soil == SoilOf(q)
  {
    soil := UnknownSoil;
    var m := FindFirst(q, SoilPatterns);
    if m.Some? {
      soil := Strip(Group(q, m.value));
    }
  }

  // ---------------------------------------------------------------------
  // Field codes
  // ---------------------------------------------------------------------

  /** `region_prefixes.get(region, 'OTHER')` */
  function RegionPrefix(region: string): (p: string)
    ensures region == Toyonuka ==> p == "TOYONUKA"
    ensures region == Toyomidori ==> p == "TOYOMIDORI"
    ensures region == Unset ==> p == "UNSET"
    ensures region != Toyonuka && region != Toyomidori && region != Unset ==> p == "OTHER"
    ensures '-' !in p
  {
    if region == Toyonuka then "TOYONUKA"
    else if region == Toyomidori then "TOYOMIDORI"
    else if region == Unset then "UNSET"
    else "OTHER"
  }

  /** Position of the first '-' at or after i, or |s|. */
  function DashFrom(s: string, i: nat): (d: nat)
    requires i <= |s|
    ensures i <= d <= |s| && (d < |s| ==> s[d] == '-')
    ensures forall j :: i <= j < d ==> s[j] != '-'
    decreases |s| - i
  {
    if i == |s| || s[i] == '-' then i else DashFrom(s, i + 1)
  }

  /** `code.split("-")[1]`: the text between the first and the second dash; nothing without a dash. */
  function SecondPiece(code: string): (r: Option<string>)
    ensures r.Some? ==> '-' !in r.value
  {
    var d := DashFrom(code, 0);
    if d == |code| then None
    else
      var e := DashFrom(code, d + 1);
      Some(code[d + 1..e])
  }

  /** Digits with single underscores between them, as `int()` reads them (`1_000`). */
  predicate GroupedDigits(u: string)
  {
    && |u| > 0 && IsDigit(u[0]) && IsDigit(u[|u| - 1])
    && (forall i :: 0 <= i < |u| ==> IsDigit(u[i]) || u[i] == '_')
    && (forall i :: 0 <= i < |u| - 1 && u[i] == '_' ==> u[i + 1] != '_')
  }

  /** The digits of a grouped number, underscores left out, in order. */
  function DigitsOnly(u: string): (r: string)
    requires forall i :: 0 <= i < |u| ==> IsDigit(u[i]) || u[i] == '_'
    ensures AllDigits(r) && |r| <= |u|
    ensures AllDigits(u) ==> r == u
    decreases |u|
  {
    if u == [] then []
    else (if u[0] == '_' then [] else [u[0]]) + DigitsOnly(u[1..])
  }

  /**
   * `int(piece)` on a piece without a dash: surrounding whitespace, an
   * optional '+' and digits, single underscores allowed between them;
   * anything else raises and is skipped.
   */
  function IntOf(piece: string): (r: Option<nat>)
    ensures AllDigits(piece) && |piece| > 0 ==> r == Some(DigitsValue(piece))
  {
    var t := Strip(piece);
    var u := if |t| > 0 && t[0] == '+' then t[1..] else t;
    if GroupedDigits(u) then Some(DigitsValue(DigitsOnly(u))) else None
  }

  /** Underscores between digits are read past: `1_0` is ten. */
  lemma IntOfUnderscore()
    ensures IntOf("1_0") == Some(10)
  {
    var u := "1_0";
    assert forall i :: 0 <= i < |u| ==> !IsSpace(u[i]);
    assert GroupedDigits(u);
    assert DigitsOnly(u[2..]) == "0";
    assert DigitsOnly(u[1..]) == "0";
    assert DigitsOnly(u) == "10";
    assert DigitsValue("10") == 10 by {
      assert "10"[..1] == "1";
    }
  }

  /** Two underscores in a row, or one in front, make `int()` raise. */
  lemma IntOfBadUnderscores()
    ensures IntOf("1__0").None? && IntOf("_1").None?
  {
    var u := "1__0";
    assert forall i :: 0 <= i < |u| ==> !IsSpace(u[i]);
    assert u[1] == '_' && u[2] == '_';
    var w := "_1";
    assert forall i :: 0 <= i < |w| ==> !IsSpace(w[i]);
  }


  function CodeNumber(code: string): Option<nat>
  {
    match SecondPiece(code)
    case Some(p) => IntOf(p)
    case None => None
  }

  /** The numbers of the codes that parse, in order (`existing_numbers`). */
  function Numbers(codes: seq<string>): (ns: seq<nat>)
    ensures |ns| <= |codes|
    decreases |codes|
  {
    if codes == [] then []
    else
      var last := codes[|codes| - 1];
      Numbers(codes[..|codes| - 1]) + match CodeNumber(last) case Some(n) => [n] case None => []
  }

  /** A number is listed exactly when some code parses to it. */
  lemma {:induction false} NumbersMembers(codes: seq<string>)
    ensures forall n :: n in Numbers(codes) <==> exists c :: c in codes && CodeNumber(c) == Some(n)
    decreases |codes|
  {
    if codes != [] {
      var front := codes[..|codes| - 1];
      NumbersMembers(front);
      assert forall c :: c in codes <==> c in front || c == codes[|codes| - 1];
    }
  }

  function MaxOf(ns: seq<nat>): (m: nat)
    requires |ns| > 0
    ensures m in ns && forall n :: n in ns ==> n <= m
  {
    if |ns| == 1 then ns[0]
    else
      var m := MaxOf(ns[1..]);
      assert forall n :: n in ns ==> n == ns[0] || n in ns[1..];
      if ns[0] >= m then ns[0] else m
  }

  /** `max(existing_numbers) + 1`, or 1 when no code parses. */
  function NextNumber(codes: seq<string>): (n: nat)
    ensures n >= 1
    ensures forall c :: c in codes && CodeNumber(c).Some? ==> CodeNumber(c).value < n
    ensures (forall c :: c in codes ==> CodeNumber(c).None?) ==> n == 1
  {
    NumbersMembers(codes);
    var ns := Numbers(codes);
    if ns == [] then 1 else MaxOf(ns) + 1
  }

  function Zeros(k: nat): (z: string)
    ensures |z| == k && forall i :: 0 <= i < k ==> z[i] == '0'
  {
    if k == 0 then "" else "0" + Zeros(k - 1)
  }

  /** `f"{n:03d}"`: the decimal digits of n, zero-padded to at least three. */
  function Pad3(n: nat): (r: string)
    ensures |r| >= 3 && AllDigits(r) && DigitsValue(r) == n
  {
    var d := NatToString(n);
    NatToStringValue(n);
    if |d| >= 3 then d
    else
      LeadingZeros(Zeros(3 - |d|), d);
      Zeros(3 - |d|) + d
  }

  /** Leading zeros do not change a number's value. */
  lemma {:induction false} LeadingZeros(z: string, d: string)
    requires (forall i :: 0 <= i < |z| ==> z[i] == '0') && AllDigits(d)
    ensures AllDigits(z + d) && DigitsValue(z + d) == DigitsValue(d)
    decreases |d|
  {
    if d == [] {
      assert z + d == z;
      ZerosValue(z);
    } else {
      LeadingZeros(z, d[..|d| - 1]);
      assert (z + d)[..|z + d| - 1] == z + d[..|d| - 1];
    }
  }

  lemma {:induction false} ZerosValue(z: string)
    requires forall i :: 0 <= i < |z| ==> z[i] == '0'
    ensures AllDigits(z) && DigitsValue(z) == 0
    decreases |z|
  {
    if z != [] {
      ZerosValue(z[..|z| - 1]);
    }
  }

  datatype FieldDoc = FieldDoc(id: int, code: Option<string>, name: Option<string>, area: real, areaHa: real,
                               region: string, soilType: string)

  const CodeLimit: nat := 1000
  const SquareMetresPerHectare: real := 10000.0

  /** The codes `find({"field_code": {"$regex": "^PREFIX-"}}).to_list(1000)` returns, in collection order. */
  function PrefixCodes(docs: seq<FieldDoc>, prefix: string): (r: seq<string>)
    ensures forall c :: c in r ==> StartsWith(c, prefix + "-")
    decreases |docs|
  {
    if docs == [] then []
    else
      var rest := PrefixCodes(docs[1..], prefix);
      match docs[0].code
      case Some(c) => if StartsWith(c, prefix + "-") then [c] + rest else rest
      case None => rest
  }

  function ExaminedCodes(docs: seq<FieldDoc>, prefix: string): (r: seq<string>)
    ensures |r| <= CodeLimit
    ensures forall c :: c in r ==> StartsWith(c, prefix + "-")
  {
    var all := PrefixCodes(docs, prefix);
    var r := Take(all, CodeLimit);
    assert forall c :: c in r ==> c in all;
    r
  }

  /** The code `_generate_field_code` makes for a region, given the collection. */
  function FieldCode(region: string, docs: seq<FieldDoc>): string
  {
    var prefix := RegionPrefix(region);
    prefix + "-" + Pad3(NextNumber(ExaminedCodes(docs, prefix)))
  }

  /**
   * The new code is PREFIX-NNN with at least three digits, its number is
   * larger than the number of every examined code, and so it differs from
   * each of them.  Only the first 1000 codes with the prefix are examined.
   */
  lemma FieldCodeIsNew(region: string, docs: seq<FieldDoc>)
    ensures var prefix := RegionPrefix(region);
            var code := FieldCode(region, docs);
            var codes := ExaminedCodes(docs, prefix);
            StartsWith(code, prefix + "-")
            && CodeNumber(code) == Some(NextNumber(codes))
            && (forall c :: c in codes && CodeNumber(c).Some? ==> CodeNumber(c).value < NextNumber(codes))
            && code !in codes
  {
    var prefix := RegionPrefix(region);
    var codes := ExaminedCodes(docs, prefix);
    var code := FieldCode(region, docs);
    CodeOfPrefix(prefix, NextNumber(codes));
    assert CodeNumber(code) == Some(NextNumber(codes));
  }

  /** PREFIX-NNN starts with PREFIX- and its number is n. */
  lemma CodeOfPrefix(prefix: string, n: nat)
    requires '-' !in prefix
    ensures StartsWith(prefix + "-" + Pad3(n), prefix + "-")
    ensures CodeNumber(prefix + "-" + Pad3(n)) == Some(n)
  {
    var digits := Pad3(n);
    var code := prefix + "-" + digits;
    assert code[..|prefix + "-"|] == prefix + "-";
    SecondPieceAfterDash(prefix, digits);
  }

  /** The piece after the first dash of PREFIX-DIGITS is DIGITS. */
  lemma SecondPieceAfterDash(prefix: string, digits: string)
    requires '-' !in prefix && AllDigits(digits)
    ensures SecondPiece(prefix + "-" + digits) == Some(digits)
  {
    var code := prefix + "-" + digits;
    assert DashFrom(code, 0) == |prefix| by {
      assert forall j :: 0 <= j < |prefix| ==> code[j] == prefix[j];
      assert code[|prefix|] == '-';
    }
    assert forall j :: |prefix| + 1 <= j < |code| ==> code[j] == digits[j - |prefix| - 1];
    assert forall c :: c in digits ==> c != '-';
    DashAtEnd(code, |prefix| + 1);
    assert code[|prefix| + 1..|code|] == digits;
    assert SecondPiece(code) == Some(code[|prefix| + 1..|code|]);
  }

  lemma {:induction false} DashAtEnd(s: string, i: nat)
    requires i <= |s| && forall j :: i <= j < |s| ==> s[j] != '-'
    ensures DashFrom(s, i) == |s|
    decreases |s| - i
  {
    if i < |s| {
      DashAtEnd(s, i + 1);
    }
  }

  /**
   * `_generate_field_code`: read the codes with the region's prefix,
   * collect the numbers of those that parse, and format the next one.
   */
  /** The loop of `_generate_field_code` that gathers `existing_numbers`. */
  method CollectNumbers(codes: seq<string>) returns (numbers: seq<nat>)
    ensures numbers == Numbers(codes)
  {
    numbers := [];
    for i := 0 to |codes|
      invariant numbers == Numbers(codes[..i])
    {
      assert codes[..i + 1][..i] == codes[..i];
      var n := CodeNumber(codes[i]);
      if n.Some? {
        numbers := numbers + [n.value];
      }
    }
    assert codes[..|codes|] == codes;
  }

  method GenerateFieldCode(docs: seq<FieldDoc>, region: string) returns (code: string)
    ensures code == FieldCode(region, docs)
  {
    var prefix := RegionPrefix(region);
    var codes := ExaminedCodes(docs, prefix);
    var numbers := CollectNumbers(codes);
    var next := if numbers == [] then 1 else MaxOf(numbers) + 1;
    assert next == NextNumber(codes);
    code := prefix + "-" + Pad3(next);
  }

  // ---------------------------------------------------------------------
  // Registering
  // ---------------------------------------------------------------------

  /** The `fields` collection and the id the next inserted document receives. */
  class FieldCollection {
    var docs: seq<FieldDoc>
    var nextId: int

    constructor(docs: seq<FieldDoc>, nextId: int)
      ensures this.docs == docs && this.nextId == nextId
    {
      this.docs := docs;
      this.nextId := nextId;
    }

    /** `insert_one`: the document is appended under a fresh id. */
    method Insert(d: FieldDoc) returns (id: int)
      modifies this
      ensures id == old(nextId) && docs == old(docs) + [d.(id := id)] && nextId == old(nextId) + 1
    {
      id := nextId;
      docs := docs + [d.(id := id)];
      nextId := nextId + 1;
    }
  }

  /** The document `_register_field_to_db` inserts: the area in square metres and in hectares. */
  function NewDoc(id: int, code: string, info: FieldInfo): (d: FieldDoc)
    ensures d.code == Some(code) && d.name == Some(info.name) && d.areaHa == info.areaHa
    ensures d.area == info.areaHa * SquareMetresPerHectare
  {
    FieldDoc(id, Some(code), Some(info.name), info.areaHa * SquareMetresPerHectare, info.areaHa, info.region, info.soilType)
  }

  predicate NameTaken(docs: seq<FieldDoc>, name: string)
  {
    exists d :: d in docs && d.name == Some(name)
  }

  datatype Outcome =
    | Registered(fieldId: int, fieldCode: string, info: FieldInfo)
    | Duplicate(name: string)
    | Unparsed

  /**
   * `_register_field_to_db`: a name already in the collection is refused
   * and nothing is inserted; otherwise the field is inserted under the
   * next code of its region.
   */
  method RegisterField(db: FieldCollection, info: FieldInfo) returns (res: Outcome)
    modifies db
    ensures NameTaken(old(db.docs), info.name) ==> res == Duplicate(info.name) && unchanged(db)
    ensures !NameTaken(old(db.docs), info.name) ==>
              var code := FieldCode(info.region, old(db.docs));
              res == Registered(old(db.nextId), code, info)
              && db.docs == old(db.docs) + [NewDoc(old(db.nextId), code, info)]
  {
    var k := 0;
    while k < |db.docs| && db.docs[k].name != Some(info.name)
      invariant 0 <= k <= |db.docs|
      invariant forall j :: 0 <= j < k ==> db.docs[j].name != Some(info.name)
    {
      k := k + 1;
    }
    if k < |db.docs| {
      return Duplicate(info.name);
    }
    var code := GenerateFieldCode(db.docs, info.region);
    var id := db.Insert(NewDoc(0, code, info));
    res := Registered(id, code, info);
  }

  /**
   * `_execute`: parse the report, then register the field: a name already
   * taken is refused with nothing changed, any other is appended under the
   * next code of its region, one not yet examined.  An unparseable report
   * changes nothing.
   */
  method Execute(db: FieldCollection, query: string) returns (res: Outcome)
    modifies db
    ensures ParseQuery(query).None? ==> res == Unparsed && unchanged(db)
    ensures ParseQuery(query).Some? ==>
              var info := ParseQuery(query).value;
              (res.Duplicate? <==> NameTaken(old(db.docs), info.name))
              && (res.Registered? <==> !NameTaken(old(db.docs), info.name))
              && (res.Duplicate? ==> res.name == info.name && unchanged(db))
              && (res.Registered? ==>
                    var code := FieldCode(info.region, old(db.docs));
                    res == Registered(old(db.nextId), code, info)
                    && db.docs == old(db.docs) + [NewDoc(old(db.nextId), code, info)]
                    && code !in ExaminedCodes(old(db.docs), RegionPrefix(info.region)))
  {
    var info := ParseRegistrationQuery(query);
    if info.None? {
      return Unparsed;
    }
    FieldCodeIsNew(info.value.region, db.docs);
    res := RegisterField(db, info.value);
  }
}
