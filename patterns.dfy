/**
 * The regular expressions the pipeline uses are all of a few shapes: an
 * optional literal prefix, a greedy run of one character class (possibly
 * with a minimum length), then a test on what follows.  This module gives
 * their search semantics (leftmost start, greedy run backtracking until the
 * test succeeds) once, and the concrete patterns are instances of it.
 */
module Patterns {
  import opened Common

  /** A match: the captured group is s[start..stop]; the whole match ends at next. */
  datatype Span = Span(start: nat, stop: nat, next: nat)

  predicate ValidSpan(s: string, m: Span)
  {
    m.start <= m.stop <= |s|
  }

  function Group(s: string, m: Span): (g: string)
    requires ValidSpan(s, m)
    ensures |g| == m.stop - m.start
  {
    s[m.start..m.stop]
  }

  /** End of the maximal run of characters in the class that starts at i. */
  function RunEnd(s: string, i: nat, inClass: char -> bool): (e: nat)
    requires i <= |s|
    ensures i <= e <= |s|
    ensures forall j :: i <= j < e ==> inClass(s[j])
    ensures e == |s| || !inClass(s[e])
    decreases |s| - i
  {
    if i < |s| && inClass(s[i]) then RunEnd(s, i + 1, inClass) else i
  }

  /** The largest k in [lo, hi] for which follows(s, k) holds: how a greedy run backtracks. */
  function LastWhere(s: string, lo: nat, hi: nat, follows: (string, nat) -> bool): (r: Option<nat>)
    ensures r.Some? ==> lo <= r.value <= hi && follows(s, r.value)
    ensures r.Some? ==> forall k :: r.value < k <= hi ==> !follows(s, k)
    ensures r.None? ==> forall k :: lo <= k <= hi ==> !follows(s, k)
    decreases hi
  {
    if hi < lo then None
    else if follows(s, hi) then Some(hi)
    else if hi == 0 then None
    else LastWhere(s, lo, hi - 1, follows)
  }

  /** s[start..k] is a run of at least minLen class characters and the test holds at k. */
  predicate GroupSpan(s: string, start: nat, k: nat, inClass: char -> bool, minLen: nat,
                      follows: (string, nat) -> bool)
  {
    start + minLen <= k <= |s| && (forall j :: start <= j < k ==> inClass(s[j])) && follows(s, k)
  }

  /** The pattern `pre(C{minLen,})` + test matches at i with its group ending at k. */
  predicate MatchesAt(s: string, i: nat, k: nat, pre: string, inClass: char -> bool, minLen: nat,
                      follows: (string, nat) -> bool)
  {
    OccursAt(s, pre, i) && GroupSpan(s, i + |pre|, k, inClass, minLen, follows)
  }

  /**
   * `pre(C{minLen,})` followed by a test, tried at position i.  When it
   * matches, the group is the LONGEST run for which the test holds; when it
   * does not, no run at all works.
   */
  function GreedyAt(s: string, i: nat, pre: string, inClass: char -> bool, minLen: nat,
                    follows: (string, nat) -> bool, skip: (string, nat) -> nat): (r: Option<Span>)
    ensures r.Some? ==> r.value.start == i + |pre| && MatchesAt(s, i, r.value.stop, pre, inClass, minLen, follows)
    ensures r.Some? ==> r.value.next == r.value.stop + skip(s, r.value.stop)
    ensures r.Some? ==> forall k: nat :: MatchesAt(s, i, k, pre, inClass, minLen, follows) ==> k <= r.value.stop
    ensures r.None? ==> forall k: nat :: !MatchesAt(s, i, k, pre, inClass, minLen, follows)
  {
    if OccursAt(s, pre, i) then
      var start := i + |pre|;
      var e := RunEnd(s, start, inClass);
      match LastWhere(s, start + minLen, e, follows)
      case Some(k) => Some(Span(start, k, k + skip(s, k)))
      case None => None
    else None
  }

  /** `re.search`: the leftmost position at or after `from` where the matcher succeeds. */
  function Search(s: string, from: nat, at: (string, nat) -> Option<Span>): (r: Option<Span>)
    ensures r.Some? ==> ValidSpan(s, r.value)
    ensures r.Some? ==> exists i :: from <= i <= |s| && at(s, i) == r &&
                          forall j :: from <= j < i ==> at(s, j).None? || !ValidSpan(s, at(s, j).value)
    ensures r.None? ==> forall i :: from <= i <= |s| ==> at(s, i).None? || !ValidSpan(s, at(s, i).value)
    decreases |s| + 1 - from
  {
    if from > |s| then None
    else match at(s, from)
      case Some(m) =>
        if ValidSpan(s, m) then Some(m) else Search(s, from + 1, at)
      case None => Search(s, from + 1, at)
  }

  /** The position where a successful search matched. */
  lemma SearchWitness(s: string, from: nat, at: (string, nat) -> Option<Span>) returns (i: nat)
    requires Search(s, from, at).Some?
    ensures from <= i <= |s| && at(s, i) == Search(s, from, at) && ValidSpan(s, at(s, i).value)
  {
    i :| from <= i <= |s| && at(s, i) == Search(s, from, at);
  }

  /** A valid match at some position means the search finds something. */
  lemma SearchFinds(s: string, from: nat, at: (string, nat) -> Option<Span>, j: nat)
    requires from <= j <= |s| && at(s, j).Some? && ValidSpan(s, at(s, j).value)
    ensures Search(s, from, at).Some?
  {
  }

  /** `re.findall`: successive non-overlapping matches, left to right. */
  function FindAll(s: string, from: nat, at: (string, nat) -> Option<Span>): (r: seq<Span>)
    ensures forall n :: 0 <= n < |r| ==> ValidSpan(s, r[n]) && from <= r[n].start
    ensures forall n :: 0 <= n < |r| ==> exists i :: from <= i <= |s| && at(s, i) == Some(r[n])
    decreases |s| + 1 - from
  {
    if from > |s| then []
    else match at(s, from)
      case Some(m) =>
        if ValidSpan(s, m) && from <= m.start then
          [m] + FindAll(s, if m.next > from then m.next else from + 1, at)
        else FindAll(s, from + 1, at)
      case None => FindAll(s, from + 1, at)
  }

  /** `(\d+)suffix` tried at i, for a suffix that does not start with a digit: the whole run of digits from i must be followed by the suffix. */
  function DigitsBeforeAt(s: string, i: nat, suffix: string): (r: Option<Span>)
    ensures r.Some? ==> r.value.start == i && i < r.value.stop <= |s| && OccursAt(s, suffix, r.value.stop)
    ensures r.Some? ==> AllDigits(s[i..r.value.stop]) && r.value.next == r.value.stop + |suffix|
  {
    if i < |s| && IsDigit(s[i]) then
      var e := RunEnd(s, i, IsDigit);
      if OccursAt(s, suffix, e) then Some(Span(i, e, e + |suffix|)) else None
    else None
  }

  function DigitsBefore(suffix: string): (string, nat) -> Option<Span>
  {
    (s: string, i: nat) => DigitsBeforeAt(s, i, suffix)
  }

  /** `int(re.search(r'(\d+)suffix', s).group(1))`, or None when the pattern is not found. */
  function NumberBefore(s: string, suffix: string): (r: Option<nat>)
    ensures r.Some? ==> exists i :: 0 <= i < |s| && IsDigit(s[i])
  {
    match Search(s, 0, DigitsBefore(suffix))
    case Some(m) =>
      assert DigitsBefore(suffix)(s, m.start) == Some(m);
      assert IsDigit(s[m.start..m.stop][0]);
      Some(DigitsValue(Group(s, m)))
    case None => None
  }

  /** Writing a number in front of the suffix and searching for it gives the number back. */
  lemma NumberBeforeRoundTrip(n: nat, suffix: string)
    requires |suffix| > 0 && !IsDigit(suffix[0])
    ensures NumberBefore(NatToString(n) + suffix, suffix) == Some(n)
  {
    var d := NatToString(n);
    var s := d + suffix;
    assert forall j :: 0 <= j < |d| ==> s[j] == d[j];
    RunEndOfDigits(s, 0, |d|);
    assert OccursAt(s, suffix, |d|) by {
      assert s[|d|..|d| + |suffix|] == suffix;
    }
    assert DigitsBefore(suffix)(s, 0) == Some(Span(0, |d|, |d| + |suffix|));
    assert s[0..|d|] == d;
    NatToStringValue(n);
  }

  /** A run of class characters from i that stops at a character outside the class ends there. */
  lemma {:induction false} RunEndOfDigits(s: string, i: nat, e: nat)
    requires i <= e <= |s| && (forall j :: i <= j < e ==> IsDigit(s[j])) && (e == |s| || !IsDigit(s[e]))
    ensures RunEnd(s, i, IsDigit) == e
    decreases e - i
  {
    if i < e {
      RunEndOfDigits(s, i + 1, e);
    }
  }

  /** The captured groups of a list of matches. */
  function Groups(s: string, ms: seq<Span>): (gs: seq<string>)
    requires forall n :: 0 <= n < |ms| ==> ValidSpan(s, ms[n])
    ensures |gs| == |ms|
    ensures forall n :: 0 <= n < |ms| ==> gs[n] == Group(s, ms[n])
  {
    seq(|ms|, n requires 0 <= n < |ms| => Group(s, ms[n]))
  }

  /** Some keyword occurs at k. */
  predicate AnyAt(s: string, keys: seq<string>, k: nat)
  {
    exists n :: 0 <= n < |keys| && OccursAt(s, keys[n], k)
  }

  /** Length of the first keyword that occurs at k (the alternation `(?:a|b|…)` consumes it). */
  function FirstAtLen(s: string, keys: seq<string>, k: nat): (n: nat)
    ensures AnyAt(s, keys, k) ==> exists j :: 0 <= j < |keys| && OccursAt(s, keys[j], k) && n == |keys[j]|
  {
    if |keys| == 0 then 0
    else if OccursAt(s, keys[0], k) then |keys[0]|
    else
      var n := FirstAtLen(s, keys[1..], k);
      assert AnyAt(s, keys, k) && !OccursAt(s, keys[0], k) ==> AnyAt(s, keys[1..], k) by {
        if AnyAt(s, keys, k) && !OccursAt(s, keys[0], k) {
          var j :| 0 <= j < |keys| && OccursAt(s, keys[j], k);
          assert j > 0 && keys[1..][j - 1] == keys[j];
        }
      }
      n
  }

  /** `.*?kw`: kw occurs at or after p with no newline before it. */
  predicate LaterOnLine(s: string, p: nat, kw: string)
    decreases |s| - p
  {
    p <= |s| && (OccursAt(s, kw, p) || (p < |s| && s[p] != '\n' && LaterOnLine(s, p + 1, kw)))
  }

  lemma {:induction false} LaterOnLineWitness(s: string, p: nat, kw: string)
    requires LaterOnLine(s, p, kw)
    ensures exists q :: p <= q <= |s| && OccursAt(s, kw, q) && forall j :: p <= j < q ==> s[j] != '\n'
    decreases |s| - p
  {
    if !OccursAt(s, kw, p) {
      LaterOnLineWitness(s, p + 1, kw);
      var q :| p + 1 <= q <= |s| && OccursAt(s, kw, q) && forall j :: p + 1 <= j < q ==> s[j] != '\n';
      assert forall j :: p <= j < q ==> s[j] != '\n';
    }
  }

  lemma {:induction false} LaterOnLineFrom(s: string, p: nat, q: nat, kw: string)
    requires p <= q <= |s| && OccursAt(s, kw, q)
    requires forall j :: p <= j < q ==> s[j] != '\n'
    ensures LaterOnLine(s, p, kw)
    decreases q - p
  {
    if p < q {
      LaterOnLineFrom(s, p + 1, q, kw);
    }
  }

  /** A matcher: `re.match` of one pattern at a position. */
  type Matcher = (string, nat) -> Option<Span>

  function NoSkip(s: string, k: nat): nat
  {
    0
  }

  /** `(C+)` followed by a test, tried at i. */
  function Greedy(inClass: char -> bool, minLen: nat, follows: (string, nat) -> bool): (string, nat) -> Option<Span>
  {
    (s: string, i: nat) => GreedyAt(s, i, "", inClass, minLen, follows, NoSkip)
  }

  /** The first pattern of a list that `re.search` finds, as the loops with `break` take it. */
  function FirstSearch(s: string, pats: seq<(string, nat) -> Option<Span>>): (r: Option<Span>)
    ensures r.Some? ==> ValidSpan(s, r.value)
    ensures r.Some? ==> exists k :: 0 <= k < |pats| && Search(s, 0, pats[k]) == r
                                    && forall j :: 0 <= j < k ==> Search(s, 0, pats[j]).None?
    ensures r.None? <==> forall k :: 0 <= k < |pats| ==> Search(s, 0, pats[k]).None?
    decreases |pats|
  {
    if pats == [] then None
    else match Search(s, 0, pats[0])
      case Some(m) => Some(m)
      case None =>
        var r := FirstSearch(s, pats[1..]);
        assert forall k :: 1 <= k < |pats| ==> pats[1..][k - 1] == pats[k];
        r
  }

  /** A loop over the patterns that stops at the first one found. */
  method FindFirst(s: string, pats: seq<(string, nat) -> Option<Span>>) returns (r: Option<Span>)
    ensures r == FirstSearch(s, pats)
  {
    r := None;
    var k := 0;
    while k < |pats|
      invariant 0 <= k <= |pats|
      invariant r.None? ==> FirstSearch(s, pats) == FirstSearch(s, pats[k..])
      invariant r.Some? ==> r == FirstSearch(s, pats)
      decreases |pats| - k, if r.None? then 1 else 0
    {
      assert pats[k..][1..] == pats[k + 1..];
      var m := Search(s, 0, pats[k]);
      if m.Some? {
        r := m;
        break;
      }
      k := k + 1;
    }
    if r.None? {
      assert pats[k..] == [];
    }
  }

  // ---------------------------------------------------------------------
  // Character classes shared by several patterns
  // ---------------------------------------------------------------------

  predicate IsAsciiWordChar(c: char)
  {
    IsAsciiLetter(c) || IsAsciiDigit(c) || c == '_'
  }

  /** `\w`: letters, digits and underscore, with every non-ASCII letter-like character of the Japanese blocks. */
  predicate IsWordChar(c: char)
  {
    IsAsciiWordChar(c) || IsDigit(c)
    || ('ぁ' <= c <= 'ゖ') // hiragana
    || ('ァ' <= c <= 'ヺ') || c == 'ー' // katakana and the long-vowel mark
    || ('一' <= c <= '鿿') // CJK unified ideographs
    || ('Ａ' <= c <= 'Ｚ') || ('ａ' <= c <= 'ｚ') // full-width Latin
  }

  /** `(\d+\.?\d*)` followed by `unit`, tried at i. */
  function DecimalBeforeAt(s: string, i: nat, unit: string): (r: Option<Span>)
    ensures r.Some? ==> r.value.start == i && i < r.value.stop <= |s| && OccursAt(s, unit, r.value.stop)
    ensures r.Some? ==> IsDigit(s[i])
  {
    if i < |s| && IsDigit(s[i]) then
      var d := RunEnd(s, i, IsDigit);
      var k := if d < |s| && s[d] == '.' then RunEnd(s, d + 1, IsDigit) else d;
      if OccursAt(s, unit, k) then Some(Span(i, k, k + |unit|)) else None
    else None
  }

  /** float() of a `\d+\.?\d*` string. */
  function DecimalValue(t: string): (v: real)
    ensures v >= 0.0
  {
    var d := RunEnd(t, 0, IsDigit);
    var whole := DigitsValue(t[..d]) as real;
    if d < |t| then
      var frac := t[d + 1..RunEnd(t, d + 1, IsDigit)];
      whole + (DigitsValue(frac) as real) / (Pow10(|frac|) as real)
    else whole
  }

  function Pow10(n: nat): (p: nat)
    ensures p >= 1
  {
    if n == 0 then 1 else 10 * Pow10(n - 1)
  }
}
