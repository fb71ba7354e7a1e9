/** The parts of Python's `str` that the modelled code relies on:
    whitespace (`isspace`, `\s`, `strip()`), `lower()`, `strip(chars)`,
    `split(sep)` and the `in` substring test, plus the first and last
    occurrence of a character that the `\{.*\}` search needs. */
module Text {
  import opened Wrappers

  /** Python's `str.isspace()` on one character; `\s` in a `str` pattern and
      `str.strip()` without arguments use the same set. */
  predicate IsSpace(c: char) {
    var n := c as int;
    (9 <= n <= 13) || (28 <= n <= 32) || n == 0x85 || n == 0xA0 || n == 0x1680
    || (0x2000 <= n <= 0x200A) || n == 0x2028 || n == 0x2029 || n == 0x202F
    || n == 0x205F || n == 0x3000
  }

  /** Every character of `s[a..b]` is whitespace. */
  predicate SpaceRun(s: string, a: nat, b: nat)
    requires b <= |s|
  {
    forall k :: a <= k < b ==> IsSpace(s[k])
  }

  /** `str.lower()` restricted to ASCII letters. */
  function LowerChar(c: char): char {
    if 'A' <= c <= 'Z' then (c as int + 32) as char else c
  }

  function Lower(s: string): (r: string)
    ensures |r| == |s|
    ensures forall k :: 0 <= k < |s| ==> r[k] == LowerChar(s[k])
    decreases |s|
  {
    if s == [] then [] else [LowerChar(s[0])] + Lower(s[1..])
  }

  /** `s` and `t` are equal up to ASCII case. */
  ghost predicate SameUpToCase(s: string, t: string) {
    |s| == |t| && forall k :: 0 <= k < |s| ==> LowerChar(s[k]) == LowerChar(t[k])
  }

  /** Two strings have the same lower-case form exactly when they agree
      character by character up to ASCII case. */
  lemma LowerEqualIff(s: string, t: string)
    ensures Lower(s) == Lower(t) <==> SameUpToCase(s, t)
  {
    var ls, lt := Lower(s), Lower(t);
    if SameUpToCase(s, t) {
      forall k | 0 <= k < |ls| ensures ls[k] == lt[k] {
        assert ls[k] == LowerChar(s[k]);
        assert lt[k] == LowerChar(t[k]);
      }
      assert ls == lt;
    }
    if ls == lt {
      forall k | 0 <= k < |s| ensures LowerChar(s[k]) == LowerChar(t[k]) {
        assert ls[k] == LowerChar(s[k]);
        assert lt[k] == LowerChar(t[k]);
      }
    }
  }

  // ----- strip -----

  /** Where `lstrip` stops when started at `i`: the first index from `i` on
      whose character is kept. */
  function LeadEnd(s: string, drop: char -> bool, i: nat): (a: nat)
    requires i <= |s|
    ensures i <= a <= |s|
    ensures forall k :: i <= k < a ==> drop(s[k])
    ensures a < |s| ==> !drop(s[a])
    decreases |s| - i
  {
    if i < |s| && drop(s[i]) then LeadEnd(s, drop, i + 1) else i
  }

  /** Where `rstrip` stops when started at `j` and not allowed below `a`: one
      past the last kept character before `j`, or `a`. */
  function TrailStart(s: string, drop: char -> bool, a: nat, j: nat): (b: nat)
    requires a <= j <= |s|
    ensures a <= b <= j
    ensures forall k :: b <= k < j ==> drop(s[k])
    ensures b > a ==> !drop(s[b - 1])
    decreases j - a
  {
    if j > a && drop(s[j - 1]) then TrailStart(s, drop, a, j - 1) else j
  }

  /** `r` is `s[a..a + |r|]`, everything before and after it is a stripped
      character, and, when it is not empty, it starts and ends on kept
      characters. */
  ghost predicate StripsTo(s: string, drop: char -> bool, a: int, r: string) {
    && 0 <= a && a + |r| <= |s| && r == s[a..a + |r|]
    && (forall k :: 0 <= k < a ==> drop(s[k]))
    && (forall k :: a + |r| <= k < |s| ==> drop(s[k]))
    && (r != [] ==> !drop(r[0]) && !drop(r[|r| - 1]))
  }

  /** `s.strip(chars)`: both ends. It keeps one slice of `s`, starting at the
      first kept character. */
  function Trim(s: string, drop: char -> bool): (r: string)
    ensures |r| <= |s|
    ensures StripsTo(s, drop, LeadEnd(s, drop, 0), r)
  {
    var a := LeadEnd(s, drop, 0);
    s[a..TrailStart(s, drop, a, |s|)]
  }

  /** The slice `strip` keeps is the only one with stripped characters around
      it and kept characters at its ends. */
  lemma StripsToUnique(s: string, drop: char -> bool, a: int, r: string)
    requires StripsTo(s, drop, a, r)
    ensures r == Trim(s, drop)
  {
    var t := Trim(s, drop);
    if r != [] {
      assert s[a] == r[0];
      assert s[a + |r| - 1] == r[|r| - 1];
    }
    if t != [] {
      assert s[LeadEnd(s, drop, 0)] == t[0];
    }
  }

  /** Python's `str.strip()` with no arguments. */
  function Strip(s: string): (r: string)
    ensures |r| <= |s|
    ensures StripsTo(s, IsSpace, LeadEnd(s, IsSpace, 0), r)
  {
    Trim(s, IsSpace)
  }

  // ----- first and last occurrence, count, split, join -----

  /** The first index holding `c`, if any. */
  function IndexOf(s: string, c: char): (r: Option<nat>)
    ensures r.Some? ==> r.value < |s| && s[r.value] == c
                        && forall k :: 0 <= k < r.value ==> s[k] != c
    ensures r.None? <==> c !in s
    decreases |s|
  {
    if s == [] then None
    else if s[0] == c then Some(0)
    else match IndexOf(s[1..], c)
      case None => None
      case Some(k) => Some(k + 1)
  }

  /** The last index holding `c`, if any. */
  function LastIndexOf(s: string, c: char): (r: Option<nat>)
    ensures r.Some? ==> r.value < |s| && s[r.value] == c
                        && forall k :: r.value < k < |s| ==> s[k] != c
    ensures r.None? <==> c !in s
    decreases |s|
  {
    if s == [] then None
    else if s[|s| - 1] == c then Some(|s| - 1)
    else LastIndexOf(s[..|s| - 1], c)
  }

  /** `s.count(c)` for a single character. */
  function Count(s: string, c: char): nat
    decreases |s|
  {
    if s == [] then 0 else (if s[0] == c then 1 else 0) + Count(s[1..], c)
  }

  lemma {:induction false} CountAppend(a: string, b: string, c: char)
    ensures Count(a + b, c) == Count(a, c) + Count(b, c)
    decreases |a|
  {
    if a != [] {
      assert (a + b)[0] == a[0];
      assert (a + b)[1..] == a[1..] + b;
      CountAppend(a[1..], b, c);
    } else {
      assert a + b == b;
    }
  }

  lemma {:induction false} CountZero(s: string, c: char)
    ensures Count(s, c) == 0 <==> c !in s
    decreases |s|
  {
    if s != [] {
      CountZero(s[1..], c);
      assert c in s <==> s[0] == c || c in s[1..];
    }
  }

  /** `s.split(sep)` for a one-character separator: the pieces between
      consecutive separators, including empty ones. */
  function Split(s: string, sep: char): (parts: seq<string>)
    ensures |parts| >= 1
    decreases |s|
  {
    match IndexOf(s, sep)
    case None => [s]
    case Some(k) => [s[..k]] + Split(s[k + 1..], sep)
  }

  /** `sep.join(parts)`. */
  function Join(parts: seq<string>, sep: char): string
    decreases |parts|
  {
    if |parts| == 0 then ""
    else if |parts| == 1 then parts[0]
    else parts[0] + [sep] + Join(parts[1..], sep)
  }

  /** Splitting at the first separator: the text is the piece before it, the
      separator, and the rest. */
  lemma SplitAtFirst(s: string, sep: char, k: nat)
    requires IndexOf(s, sep) == Some(k)
    ensures s == s[..k] + [sep] + s[k + 1..]
    ensures sep !in s[..k]
    ensures Count(s, sep) == 1 + Count(s[k + 1..], sep)
  {
    assert s == s[..k] + [sep] + s[k + 1..];
    CountAppend(s[..k] + [sep], s[k + 1..], sep);
    CountAppend(s[..k], [sep], sep);
    CountZero(s[..k], sep);
  }

  /** Splitting and joining back gives the original text. */
  lemma {:induction false} SplitJoin(s: string, sep: char)
    ensures Join(Split(s, sep), sep) == s
    decreases |s|
  {
    match IndexOf(s, sep)
    case None =>
    case Some(k) =>
      SplitAtFirst(s, sep, k);
      SplitJoin(s[k + 1..], sep);
      var parts := Split(s, sep);
      assert parts[1..] == Split(s[k + 1..], sep);
  }

  /** No piece contains the separator, and there is one more piece than
      separators. */
  lemma {:induction false} SplitPieces(s: string, sep: char)
    ensures forall k :: 0 <= k < |Split(s, sep)| ==> sep !in Split(s, sep)[k]
    ensures |Split(s, sep)| == Count(s, sep) + 1
    decreases |s|
  {
    match IndexOf(s, sep)
    case None =>
      CountZero(s, sep);
    case Some(k) =>
      SplitAtFirst(s, sep, k);
      SplitPieces(s[k + 1..], sep);
      var parts := Split(s, sep);
      assert parts[1..] == Split(s[k + 1..], sep);
      forall j | 0 <= j < |parts| ensures sep !in parts[j] {
        if j > 0 { assert parts[j] == Split(s[k + 1..], sep)[j - 1]; }
      }
  }

  /** A split into exactly two pieces: the text is the first piece, the
      separator and the second piece, and neither piece holds the separator. */
  lemma SplitTwo(s: string, sep: char)
    requires |Split(s, sep)| == 2
    ensures s == Split(s, sep)[0] + [sep] + Split(s, sep)[1]
    ensures sep !in Split(s, sep)[0] && sep !in Split(s, sep)[1]
  {
    var k := IndexOf(s, sep).value;
    SplitAtFirst(s, sep, k);
    var rest := s[k + 1..];
    assert IndexOf(rest, sep).None?;
    assert Split(s, sep) == [s[..k], rest];
  }

  // ----- substring test -----

  /** `t` occurs in `s` at index `k`. */
  ghost predicate OccursAt(s: string, t: string, k: int) {
    0 <= k && k + |t| <= |s| && s[k..k + |t|] == t
  }

  /** Python's `t in s` for strings. */
  predicate Contains(s: string, t: string)
    decreases |s|
  {
    (|t| <= |s| && s[..|t|] == t) || (s != [] && Contains(s[1..], t))
  }

  lemma {:induction false} ContainsIff(s: string, t: string)
    ensures Contains(s, t) <==> exists k :: OccursAt(s, t, k)
    decreases |s|
  {
    if |t| <= |s| && s[..|t|] == t {
      assert OccursAt(s, t, 0);
    }
    if s != [] {
      ContainsIff(s[1..], t);
      if Contains(s[1..], t) {
        var k :| OccursAt(s[1..], t, k);
        OccursShift(s, t, k + 1);
      }
      if k :| OccursAt(s, t, k) {
        if k > 0 {
          OccursShift(s, t, k);
        } else {
          assert s[..|t|] == t;
        }
      }
    } else {
      if Contains(s, t) {
        assert OccursAt(s, t, 0);
      }
      if k :| OccursAt(s, t, k) {
        assert |t| == 0 && s[..|t|] == t;
      }
    }
  }

  /** An occurrence at `k > 0` in `s` is one at `k - 1` in `s[1..]`. */
  lemma OccursShift(s: string, t: string, k: int)
    requires s != [] && k > 0
    ensures OccursAt(s, t, k) <==> OccursAt(s[1..], t, k - 1)
  {
    if k + |t| <= |s| {
      assert s[1..][k - 1..k - 1 + |t|] == s[k..k + |t|];
    }
  }
}
