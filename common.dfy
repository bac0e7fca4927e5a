/** Shared vocabulary: optional values, Python-style string tests and a few
    list helpers that the pipeline modules use. */
module Common {

  datatype Option<T> = None | Some(value: T)
  {
    predicate IsSome() { this.Some? }
  }

  /**
   * `difflib.SequenceMatcher(None, a, b).ratio()`: the library's similarity
   * is left abstract, as any function into [0, 1].
   */
  type Ratio = f: (string, string) -> real | forall a: string, b: string :: 0.0 <= f(a, b) <= 1.0
    witness (a: string, b: string) => 0.0

  /** The answer of a database query: the rows, or the message of the exception it raised. */
  datatype Fetch<T> = Fetched(rows: seq<T>) | Failed(message: string)

  // ---------------------------------------------------------------------
  // Substring tests (Python's `t in s`)
  // ---------------------------------------------------------------------

  predicate StartsWith(s: string, p: string)
  {
    |p| <= |s| && s[..|p|] == p
  }

  predicate EndsWith(s: string, p: string)
  {
    |p| <= |s| && s[|s| - |p|..] == p
  }

  /** `t in s`: t occurs somewhere in s (the empty string occurs everywhere). */
  predicate Contains(s: string, t: string)
    decreases |s|
  {
    StartsWith(s, t) || (|s| > 0 && Contains(s[1..], t))
  }

  predicate OccursAt(s: string, t: string, i: int)
  {
    0 <= i && i + |t| <= |s| && s[i..i + |t|] == t
  }

  /** `any(k in s for k in keys)` */
  predicate ContainsAny(s: string, keys: seq<string>)
  {
    exists i :: 0 <= i < |keys| && Contains(s, keys[i])
  }

  /** A witness position is enough to show containment. */
  lemma {:induction false} ContainsAt(s: string, t: string, i: int)
    requires OccursAt(s, t, i)
    ensures Contains(s, t)
    decreases i
  {
    if i > 0 {
      assert s[1..][i - 1..i - 1 + |t|] == s[i..i + |t|];
      ContainsAt(s[1..], t, i - 1);
    } else {
      assert s[..|t|] == t;
    }
  }

  /** Conversely, containment yields a position. */
  lemma {:induction false} ContainsWitness(s: string, t: string) returns (i: int)
    requires Contains(s, t)
    ensures OccursAt(s, t, i)
    decreases |s|
  {
    if StartsWith(s, t) {
      i := 0;
    } else {
      var j := ContainsWitness(s[1..], t);
      assert s[j + 1..j + 1 + |t|] == s[1..][j..j + |t|];
      i := j + 1;
    }
  }

  /** Containment is transitive: if u occurs in t and t occurs in s, u occurs in s. */
  lemma ContainsTrans(s: string, t: string, u: string)
    requires Contains(s, t) && Contains(t, u)
    ensures Contains(s, u)
  {
    var i := ContainsWitness(s, t);
    var j := ContainsWitness(t, u);
    forall k | 0 <= k < |u|
      ensures s[i + j..i + j + |u|][k] == u[k]
    {
      assert s[i + j + k] == s[i..i + |t|][j + k] == t[j + k] == t[j..j + |u|][k];
    }
    assert s[i + j..i + j + |u|] == u;
    ContainsAt(s, u, i + j);
  }

  /** A non-empty string contained in s has its first character in s. */
  lemma ContainsFirstChar(s: string, t: string)
    requires Contains(s, t) && |t| > 0
    ensures t[0] in s
  {
    var i := ContainsWitness(s, t);
    assert s[i] == s[i..i + |t|][0];
  }

  lemma ContainsSelf(s: string)
    ensures Contains(s, s)
  {
    assert OccursAt(s, s, 0);
    ContainsAt(s, s, 0);
  }

  lemma ContainsEmpty(s: string)
    ensures Contains(s, "")
  {
    assert OccursAt(s, "", 0);
    ContainsAt(s, "", 0);
  }

  lemma ContainsAnyAt(s: string, keys: seq<string>, i: int)
    requires 0 <= i < |keys| && Contains(s, keys[i])
    ensures ContainsAny(s, keys)
  {
  }

  // ---------------------------------------------------------------------
  // Character classes
  // ---------------------------------------------------------------------

  /** Python's `str.isspace()` (also the `\s` class of `re` on str patterns). */
  predicate IsSpace(c: char)
  {
    c == ' ' || ('\t' <= c <= '\r') || ('\U{1c}' <= c <= '\U{1f}') ||
    c == '\U{85}' || c == '\U{a0}' || c == '\U{1680}' ||
    ('\U{2000}' <= c <= '\U{200a}') || c == '\U{2028}' || c == '\U{2029}' ||
    c == '\U{202f}' || c == '\U{205f}' || c == '\U{3000}'
  }

  predicate IsAsciiDigit(c: char) { '0' <= c <= '9' }

  predicate IsFullWidthDigit(c: char) { '０' <= c <= '９' }

  /** The `\d` class and `str.isdigit()`, for the ASCII and full-width digits. */
  predicate IsDigit(c: char) { IsAsciiDigit(c) || IsFullWidthDigit(c) }

  function DigitValue(c: char): (d: nat)
    requires IsDigit(c)
    ensures d < 10
  {
    if IsAsciiDigit(c) then c as int - '0' as int else c as int - '０' as int
  }

  predicate AllDigits(s: string)
  {
    forall i :: 0 <= i < |s| ==> IsDigit(s[i])
  }

  /** `int(s)` for a non-empty run of digits. */
  function DigitsValue(s: string): (n: nat)
    requires AllDigits(s)
    decreases |s|
  {
    if |s| == 0 then 0 else DigitsValue(s[..|s| - 1]) * 10 + DigitValue(s[|s| - 1])
  }

  predicate IsAsciiUpper(c: char) { 'A' <= c <= 'Z' }
  predicate IsAsciiLower(c: char) { 'a' <= c <= 'z' }
  predicate IsAsciiLetter(c: char) { IsAsciiUpper(c) || IsAsciiLower(c) }
  predicate IsFullWidthUpper(c: char) { 'Ａ' <= c <= 'Ｚ' }

  predicate IsAsciiAlnum(c: char) { IsAsciiLetter(c) || IsAsciiDigit(c) }

  /** The range `あ-ん` of the hiragana block. */
  predicate IsHiragana(c: char) { 'あ' <= c <= 'ん' }

  /** `str.lower()` on one character, for ASCII and full-width Latin letters. */
  function LowerChar(c: char): (r: char)
    ensures IsAsciiUpper(c) ==> r as int == c as int + 32
    ensures IsFullWidthUpper(c) ==> r as int == c as int + 32
    ensures !IsAsciiUpper(c) && !IsFullWidthUpper(c) ==> r == c
  {
    if IsAsciiUpper(c) || IsFullWidthUpper(c) then (c as int + 32) as char else c
  }

  function Lower(s: string): (r: string)
    ensures |r| == |s|
    ensures forall i :: 0 <= i < |s| ==> r[i] == LowerChar(s[i])
  {
    seq(|s|, i requires 0 <= i < |s| => LowerChar(s[i]))
  }

  lemma LowerIdempotent(s: string)
    ensures Lower(Lower(s)) == Lower(s)
  {
  }

  // ---------------------------------------------------------------------
  // Whitespace stripping (`str.strip()`)
  // ---------------------------------------------------------------------

  function StripLeft(s: string): (r: string)
    ensures |r| <= |s| && r == s[|s| - |r|..]
    ensures |r| > 0 ==> !IsSpace(r[0])
    ensures forall i :: 0 <= i < |s| - |r| ==> IsSpace(s[i])
    decreases |s|
  {
    if |s| > 0 && IsSpace(s[0]) then StripLeft(s[1..]) else s
  }

  function StripRight(s: string): (r: string)
    ensures |r| <= |s| && r == s[..|r|]
    ensures |r| > 0 ==> !IsSpace(r[|r| - 1])
    ensures forall i :: |r| <= i < |s| ==> IsSpace(s[i])
    decreases |s|
  {
    if |s| > 0 && IsSpace(s[|s| - 1]) then StripRight(s[..|s| - 1]) else s
  }

  function Strip(s: string): (r: string)
    ensures |r| <= |s|
    ensures |r| > 0 ==> !IsSpace(r[0]) && !IsSpace(r[|r| - 1])
    ensures (forall i :: 0 <= i < |s| ==> !IsSpace(s[i])) ==> r == s
  {
    var l := StripLeft(s);
    var r := StripRight(l);
    assert |r| > 0 ==> r[0] == l[0];
    r
  }

  /** A string of whitespace strips to the empty string. */
  lemma StripBlank(s: string)
    requires forall i :: 0 <= i < |s| ==> IsSpace(s[i])
    ensures Strip(s) == ""
  {
  }

  // ---------------------------------------------------------------------
  // Whitespace splitting (`str.split()` without arguments)
  // ---------------------------------------------------------------------

  /** End of the run of non-space characters that starts at i. */
  function WordEnd(t: string, i: nat): (n: nat)
    requires i <= |t|
    ensures i <= n <= |t|
    ensures forall j :: i <= j < n ==> !IsSpace(t[j])
    ensures n == |t| || IsSpace(t[n])
    decreases |t| - i
  {
    if i < |t| && !IsSpace(t[i]) then WordEnd(t, i + 1) else i
  }

  /** A non-empty string without whitespace: one element of `str.split()`. */
  predicate IsWord(w: string)
  {
    |w| > 0 && forall j :: 0 <= j < |w| ==> !IsSpace(w[j])
  }

  /** The maximal runs of non-space characters of s, in order. */
  function Words(s: string): (r: seq<string>)
    ensures forall i :: 0 <= i < |r| ==> |r[i]| > 0
    decreases |s|
  {
    var t := StripLeft(s);
    if |t| == 0 then []
    else
      var n := WordEnd(t, 0);
      [t[..n]] + Words(t[n..])
  }

  /** The run `WordEnd` measures from the start of a string that does not begin with a space is a word. */
  lemma FirstRunIsWord(t: string)
    requires |t| > 0 && !IsSpace(t[0])
    ensures IsWord(t[..WordEnd(t, 0)])
  {
    var n := WordEnd(t, 0);
    forall j | 0 <= j < n ensures !IsSpace(t[..n][j]) {
      assert t[..n][j] == t[j];
    }
  }

  /** Every element of `Words(s)` is a word: non-empty and free of whitespace. */
  lemma {:induction false} WordsAreWords(s: string)
    ensures forall i :: 0 <= i < |Words(s)| ==> IsWord(Words(s)[i])
    decreases |s|
  {
    var t := StripLeft(s);
    if |t| > 0 {
      var n := WordEnd(t, 0);
      var rest := Words(t[n..]);
      WordsAreWords(t[n..]);
      FirstRunIsWord(t);
      var r := Words(s);
      assert r == [t[..n]] + rest;
      forall i | 0 <= i < |r| ensures IsWord(r[i]) {
        if i > 0 {
          assert r[i] == rest[i - 1];
        }
      }
    }
  }

  lemma {:induction false} WordsOfWord(s: string)
    requires IsWord(s)
    ensures Words(s) == [s]
  {
    assert StripLeft(s) == s;
    var n := WordEnd(s, 0);
    assert n == |s|;
    assert s[..n] == s;
    assert Words(s[n..]) == [];
  }

  /** Python truthiness of an optional string: present and non-empty. */
  predicate Truthy(s: Option<string>)
  {
    s.Some? && |s.value| > 0
  }

  /** The text of an optional string, `''` when absent (`x or ''`). */
  function OrEmpty(s: Option<string>): (r: string)
    ensures Truthy(s) <==> |r| > 0
  {
    if s.Some? then s.value else ""
  }

  // ---------------------------------------------------------------------
  // Sequence helpers
  // ---------------------------------------------------------------------

  /** The present values of a list of options, in order (a loop that appends only when a value is found). */
  function Somes<T>(xs: seq<Option<T>>): (r: seq<T>)
    ensures |r| <= |xs|
    ensures forall x | x in r :: Some(x) in xs
    decreases |xs|
  {
    if |xs| == 0 then []
    else
      var prev := Somes(xs[..|xs| - 1]);
      if xs[|xs| - 1].Some? then prev + [xs[|xs| - 1].value] else prev
  }

  lemma SomesStep<T>(xs: seq<Option<T>>, i: nat)
    requires i < |xs|
    ensures Somes(xs[..i + 1]) == Somes(xs[..i]) + (if xs[i].Some? then [xs[i].value] else [])
  {
    assert xs[..i + 1][..i] == xs[..i];
  }

  /** A bound that holds for every present value holds for every kept one. */
  lemma SomesBounded<T>(xs: seq<Option<T>>, key: T -> real, lo: real, hi: real)
    requires forall i :: 0 <= i < |xs| && xs[i].Some? ==> lo <= key(xs[i].value) <= hi
    ensures forall x | x in Somes(xs) :: lo <= key(x) <= hi
  {
    forall x | x in Somes(xs) ensures lo <= key(x) <= hi {
      var k :| 0 <= k < |xs| && xs[k] == Some(x);
    }
  }

  /** A property of every present value holds of every kept one. */
  lemma SomesAll<T>(xs: seq<Option<T>>, p: T -> bool)
    requires forall i :: 0 <= i < |xs| && xs[i].Some? ==> p(xs[i].value)
    ensures forall x | x in Somes(xs) :: p(x)
  {
    forall x | x in Somes(xs) ensures p(x) {
      var k :| 0 <= k < |xs| && xs[k] == Some(x);
    }
  }

  /** Every present value is kept. */
  lemma {:induction false} SomesKeeps<T>(xs: seq<Option<T>>, j: nat)
    requires j < |xs| && xs[j].Some?
    ensures xs[j].value in Somes(xs)
    decreases |xs|
  {
    var n := |xs| - 1;
    if j < n {
      SomesKeeps(xs[..n], j);
      assert xs[..n][j] == xs[j];
    }
  }

  /** An empty result means no value was present. */
  lemma SomesEmpty<T>(xs: seq<Option<T>>)
    requires Somes(xs) == []
    ensures forall i :: 0 <= i < |xs| ==> xs[i].None?
  {
    forall i | 0 <= i < |xs| ensures xs[i].None? {
      if xs[i].Some? {
        SomesKeeps(xs, i);
      }
    }
  }

  /** Position of the first element satisfying p: a `for` loop with an early `return`. */
  function FirstIndex<T>(xs: seq<T>, p: T -> bool): (r: Option<nat>)
    ensures r.Some? ==> r.value < |xs| && p(xs[r.value])
    ensures r.Some? ==> forall j :: 0 <= j < r.value ==> !p(xs[j])
    ensures r.None? <==> forall j :: 0 <= j < |xs| ==> !p(xs[j])
    decreases |xs|
  {
    if |xs| == 0 then None
    else if p(xs[0]) then Some(0)
    else
      var rest := FirstIndex(xs[1..], p);
      assert forall j :: 1 <= j < |xs| ==> xs[j] == xs[1..][j - 1];
      if rest.None? then None else Some(rest.value + 1)
  }

  /** Python slice `s[:n]`. */
  function Take<T>(s: seq<T>, n: nat): (r: seq<T>)
    ensures |r| == if n < |s| then n else |s|
    ensures r == s[..|r|]
  {
    if n < |s| then s[..n] else s
  }

  function MinReal(a: real, b: real): (r: real)
    ensures r <= a && r <= b && (r == a || r == b)
  {
    if a <= b then a else b
  }

  function MaxReal(a: real, b: real): (r: real)
    ensures r >= a && r >= b && (r == a || r == b)
  {
    if a >= b then a else b
  }

  /** `max(0.0, min(1.0, x))` */
  function Clamp01(x: real): (r: real)
    ensures 0.0 <= r <= 1.0
    ensures 0.0 <= x <= 1.0 ==> r == x
  {
    MaxReal(0.0, MinReal(1.0, x))
  }

  function SumReals(s: seq<real>): real
    decreases |s|
  {
    if |s| == 0 then 0.0 else SumReals(s[..|s| - 1]) + s[|s| - 1]
  }

  lemma {:induction false} SumRealsBounds(s: seq<real>, lo: real, hi: real)
    requires forall i :: 0 <= i < |s| ==> lo <= s[i] <= hi
    ensures lo * |s| as real <= SumReals(s) <= hi * |s| as real
    decreases |s|
  {
    if |s| > 0 {
      SumRealsBounds(s[..|s| - 1], lo, hi);
    }
  }

  /** Arithmetic mean of a non-empty list; 0.0 for the empty list. */
  function Mean(s: seq<real>): real
  {
    if |s| == 0 then 0.0 else SumReals(s) / |s| as real
  }

  lemma MeanBounds(s: seq<real>, lo: real, hi: real)
    requires |s| > 0
    requires forall i :: 0 <= i < |s| ==> lo <= s[i] <= hi
    ensures lo <= Mean(s) <= hi
  {
    SumRealsBounds(s, lo, hi);
    var n := |s| as real;
    assert lo * n <= SumReals(s) <= hi * n;
    assert SumReals(s) / n >= lo by {
      assert SumReals(s) >= lo * n;
    }
    assert SumReals(s) / n <= hi by {
      assert SumReals(s) <= hi * n;
    }
  }

  /** `", ".join(parts)` */
  function Join(sep: string, parts: seq<string>): string
    decreases |parts|
  {
    if |parts| == 0 then ""
    else if |parts| == 1 then parts[0]
    else Join(sep, parts[..|parts| - 1]) + sep + parts[|parts| - 1]
  }

  /** The text of the `TypeError` `str.join` raises when item k of its sequence is None. */
  function JoinTypeError(k: nat): string
  {
    "sequence item " + NatToString(k) + ": expected str instance, NoneType found"
  }

  /** Python's `str(n)` for a natural number. */
  function NatToString(n: nat): (r: string)
    ensures |r| > 0 && AllDigits(r)
    decreases n
  {
    var d := ['0' + (n % 10) as char];
    if n < 10 then d else NatToString(n / 10) + d
  }

  lemma {:induction false} NatToStringValue(n: nat)
    ensures DigitsValue(NatToString(n)) == n
    decreases n
  {
    var r := NatToString(n);
    if n >= 10 {
      NatToStringValue(n / 10);
      assert r[..|r| - 1] == NatToString(n / 10);
    }
  }
}
