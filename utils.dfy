/** `preprocess_text` of BE/utils.py: the search
      `</?jsonstart>\s*(\{.*?\})\s*</?jsonend/?>`   (DOTALL)
    over a model reply, followed by `json.loads` of group 1.

    The search is written out as the backtracking engine runs it: start
    positions from left to right; at a start position the opening marker is
    fixed by the character after `<`, the `\s*` before `{` can only stop at the
    first non-space (since `{` is not whitespace), and the lazy `.*?` tries the
    closing braces from left to right until one is followed by whitespace and a
    closing marker (again the `\s*` can only stop at the first non-space, since
    every closing marker starts with `<`). `IsMatch` states what a match is
    without any search order; the lemmas tie the two together. */
module Utils {
  import opened Wrappers
  import opened Text
  import opened JsonValue

  /** Literal `m` occurs in `s` starting at index `i`. */
  predicate MarkerAt(s: string, i: nat, m: string) {
    i + |m| <= |s| && s[i..i + |m|] == m
  }

  /** `</?jsonstart>` matches `s[i..o]`. */
  predicate OpenMarkerAt(s: string, i: nat, o: nat) {
    || (o == i + 11 && MarkerAt(s, i, "<jsonstart>"))
    || (o == i + 12 && MarkerAt(s, i, "</jsonstart>"))
  }

  /** `</?jsonend/?>` matches a prefix of `s[r..]`. */
  predicate CloseMarkerAt(s: string, r: nat) {
    || MarkerAt(s, r, "<jsonend>")
    || MarkerAt(s, r, "</jsonend>")
    || MarkerAt(s, r, "<jsonend/>")
    || MarkerAt(s, r, "</jsonend/>")
  }

  /** The pattern matches text starting at `i` with group 1 equal to
      `s[p..q + 1]`: an opening marker, only whitespace, `{`, any characters
      (newlines included), `}`, only whitespace, a closing marker. */
  ghost predicate IsMatch(s: string, i: int, p: int, q: int) {
    && 0 <= i && 0 <= p < q < |s|
    && s[p] == '{' && s[q] == '}'
    && (exists o: nat :: OpenMarkerAt(s, i, o) && o <= p && SpaceRun(s, o, p))
    && (exists r: nat :: q < r <= |s| && SpaceRun(s, q + 1, r) && CloseMarkerAt(s, r))
  }

  /** Where the match is: its start, the `{` and the `}` of group 1. */
  datatype Span = Span(start: nat, open: nat, close: nat)

  // ----- the search, step by step -----

  /** End of the opening marker at `i`, if there is one. */
  function OpenEnd(s: string, i: nat): (o: Option<nat>)
    ensures o.Some? ==> OpenMarkerAt(s, i, o.value)
    ensures o.None? ==> forall o': nat :: !OpenMarkerAt(s, i, o')
  {
    if MarkerAt(s, i, "<jsonstart>") then Some(i + 11)
    else if MarkerAt(s, i, "</jsonstart>") then Some(i + 12)
    else None
  }

  /** The two opening markers never both start at the same index. */
  lemma OpenMarkerUnique(s: string, i: nat, o1: nat, o2: nat)
    requires OpenMarkerAt(s, i, o1) && OpenMarkerAt(s, i, o2)
    ensures o1 == o2
  {
    assert MarkerAt(s, i, "<jsonstart>") ==> s[i + 1] == 'j' by {
      if MarkerAt(s, i, "<jsonstart>") { assert s[i + 1] == s[i..i + 11][1]; }
    }
    assert MarkerAt(s, i, "</jsonstart>") ==> s[i + 1] == '/' by {
      if MarkerAt(s, i, "</jsonstart>") { assert s[i + 1] == s[i..i + 12][1]; }
    }
  }

  /** Every closing marker begins with `<`. */
  lemma CloseMarkerStartsWithAngle(s: string, r: nat)
    requires CloseMarkerAt(s, r)
    ensures r < |s| && s[r] == '<'
  {
    if MarkerAt(s, r, "<jsonend>") {
      assert s[r] == s[r..r + 9][0];
    } else if MarkerAt(s, r, "</jsonend>") {
      assert s[r] == s[r..r + 10][0];
    } else if MarkerAt(s, r, "<jsonend/>") {
      assert s[r] == s[r..r + 10][0];
    } else {
      assert s[r] == s[r..r + 11][0];
    }
  }

  /** `\s*` run greedily from `j`: the first index that is not whitespace. */
  function SkipSpace(s: string, j: nat): (k: nat)
    requires j <= |s|
    ensures j <= k <= |s| && SpaceRun(s, j, k)
    ensures k < |s| ==> !IsSpace(s[k])
    decreases |s| - j
  {
    if j < |s| && IsSpace(s[j]) then SkipSpace(s, j + 1) else j
  }

  /** A whitespace run from `j` that ends on a non-space character `c` ends
      where `SkipSpace` stops. */
  lemma SpaceRunEndsAtSkip(s: string, j: nat, k: nat)
    requires j <= k < |s| && SpaceRun(s, j, k) && !IsSpace(s[k])
    ensures k == SkipSpace(s, j)
  {
  }

  /** `\s*</?jsonend/?>` matches at `j`. */
  predicate ClosesAfter(s: string, j: nat)
    requires j <= |s|
  {
    CloseMarkerAt(s, SkipSpace(s, j))
  }

  lemma ClosesAfterIff(s: string, j: nat)
    requires j <= |s|
    ensures ClosesAfter(s, j) <==> exists r: nat :: j <= r <= |s| && SpaceRun(s, j, r) && CloseMarkerAt(s, r)
  {
    if r: nat :| j <= r <= |s| && SpaceRun(s, j, r) && CloseMarkerAt(s, r) {
      CloseMarkerStartsWithAngle(s, r);
      SpaceRunEndsAtSkip(s, j, r);
    }
  }

  /** The lazy `.*?\}` followed by the closing part: the first `}` at or after
      `q` that is followed by whitespace and a closing marker. */
  function LazyClose(s: string, q: nat): (r: Option<nat>)
    requires q <= |s|
    ensures r.Some? ==> q <= r.value < |s| && ClosingBrace(s, r.value)
    ensures r.Some? ==> forall k :: q <= k < r.value ==> !ClosingBrace(s, k)
    ensures r.None? ==> forall k :: q <= k < |s| ==> !ClosingBrace(s, k)
    decreases |s| - q
  {
    if q == |s| then None
    else if ClosingBrace(s, q) then Some(q)
    else LazyClose(s, q + 1)
  }

  /** A `}` at `k` that the closing part `\s*</?jsonend/?>` follows. */
  predicate ClosingBrace(s: string, k: int) {
    0 <= k < |s| && s[k] == '}' && ClosesAfter(s, k + 1)
  }

  /** The attempt at start position `i`. */
  function MatchAt(s: string, i: nat): (m: Option<Span>)
    ensures m.Some? ==> m.value.start == i && m.value.open < m.value.close < |s|
    ensures m.Some? ==> s[m.value.open] == '{' && s[m.value.close] == '}'
  {
    match OpenEnd(s, i)
    case None => None
    case Some(o) =>
      var p := SkipSpace(s, o);
      if p < |s| && s[p] == '{' then
        match LazyClose(s, p + 1)
        case None => None
        case Some(q) => Some(Span(i, p, q))
      else None
  }

  /** A successful attempt at `i` is a match starting at `i`. */
  lemma MatchAtSound(s: string, i: nat)
    ensures MatchAt(s, i).Some? ==> IsMatch(s, i, MatchAt(s, i).value.open, MatchAt(s, i).value.close)
  {
    var m := MatchAt(s, i);
    if m.Some? {
      var o := OpenEnd(s, i).value;
      var p, q := m.value.open, m.value.close;
      assert OpenMarkerAt(s, i, o) && o <= p && SpaceRun(s, o, p);
      ClosesAfterIff(s, q + 1);
    }
  }

  /** Every match starting at `i` is found by the attempt at `i`, which picks
      the only possible `{` and the first possible `}`. */
  lemma MatchAtComplete(s: string, i: nat, p: int, q: int)
    requires IsMatch(s, i, p, q)
    ensures MatchAt(s, i).Some? && MatchAt(s, i).value.open == p && MatchAt(s, i).value.close <= q
  {
    MatchOpensAt(s, i, p, q);
    var r: nat :| q < r <= |s| && SpaceRun(s, q + 1, r) && CloseMarkerAt(s, r);
    BraceBeforeClose(s, q, r);
    LazyCloseReaches(s, p + 1, q);
  }

  /** A `}` followed by whitespace and a closing marker at `r` is a closing
      brace. */
  lemma BraceBeforeClose(s: string, q: nat, r: nat)
    requires q < r <= |s| && s[q] == '}' && SpaceRun(s, q + 1, r) && CloseMarkerAt(s, r)
    ensures ClosingBrace(s, q)
  {
    CloseMarkerStartsWithAngle(s, r);
    SpaceRunEndsAtSkip(s, q + 1, r);
  }

  /** The opening part of a match at `i` ends on the match's `{`. */
  lemma MatchOpensAt(s: string, i: nat, p: int, q: int)
    requires IsMatch(s, i, p, q)
    ensures OpenEnd(s, i).Some? && OpenEnd(s, i).value <= p && SkipSpace(s, OpenEnd(s, i).value) == p
  {
    var o: nat :| OpenMarkerAt(s, i, o) && o <= p && SpaceRun(s, o, p);
    var o' := OpenEnd(s, i).value;
    OpenMarkerUnique(s, i, o, o');
    SpaceRunEndsAtSkip(s, o, p);
  }

  /** The lazy search from `q0` stops at or before any closing brace `q`. */
  lemma LazyCloseReaches(s: string, q0: nat, q: int)
    requires q0 <= q && ClosingBrace(s, q)
    ensures LazyClose(s, q0).Some? && LazyClose(s, q0).value <= q
  {
  }

  /** The attempt at `i` succeeds exactly when some match starts at `i`; it
      finds the only possible `{` and the first possible `}`. */
  lemma MatchAtSpec(s: string, i: nat)
    ensures MatchAt(s, i).Some? ==> IsMatch(s, i, MatchAt(s, i).value.open, MatchAt(s, i).value.close)
    ensures forall p, q :: IsMatch(s, i, p, q) ==>
              MatchAt(s, i).Some? && MatchAt(s, i).value.open == p && MatchAt(s, i).value.close <= q
  {
    MatchAtSound(s, i);
    forall p, q | IsMatch(s, i, p, q)
      ensures MatchAt(s, i).Some? && MatchAt(s, i).value.open == p && MatchAt(s, i).value.close <= q
    {
      MatchAtComplete(s, i, p, q);
    }
  }

  /** `re.search` from start position `i` onwards. */
  function SearchFrom(s: string, i: nat): (m: Option<Span>)
    requires i <= |s|
    ensures m.Some? ==> i <= m.value.start && m.value.open < m.value.close < |s|
    ensures m.Some? ==> s[m.value.open] == '{' && s[m.value.close] == '}'
    decreases |s| - i
  {
    if MatchAt(s, i).Some? then MatchAt(s, i)
    else if i == |s| then None
    else SearchFrom(s, i + 1)
  }

  /** Every match starts early enough for an opening marker to fit. */
  lemma MatchStartsInside(s: string, i: int, p: int, q: int)
    requires IsMatch(s, i, p, q)
    ensures i < |s|
  {
  }

  /** Searching from `i` fails only when no match starts at `i` or later. */
  lemma {:induction false} SearchFromNone(s: string, i: nat)
    requires i <= |s|
    ensures SearchFrom(s, i).None? ==> forall j, p, q :: i <= j ==> !IsMatch(s, j, p, q)
    decreases |s| - i
  {
    if SearchFrom(s, i).None? {
      forall j, p, q | i <= j && IsMatch(s, j, p, q) ensures false {
        MatchStartsInside(s, j, p, q);
        if j == i {
          MatchAtComplete(s, i, p, q);
        } else {
          SearchFromNone(s, i + 1);
        }
      }
    }
  }

  /** Searching from `i` returns the leftmost match starting at `i` or later,
      and of the matches starting there the one with the earliest `}`. */
  lemma {:induction false} SearchFromSome(s: string, i: nat)
    requires i <= |s|
    ensures SearchFrom(s, i).Some? ==>
              var m := SearchFrom(s, i).value;
              && IsMatch(s, m.start, m.open, m.close)
              && forall j, p, q :: i <= j && IsMatch(s, j, p, q) ==>
                   m.start < j || (m.start == j && m.open == p && m.close <= q)
    decreases |s| - i
  {
    var r := SearchFrom(s, i);
    if MatchAt(s, i).Some? {
      MatchAtSound(s, i);
      var m := r.value;
      forall j, p, q | i <= j && IsMatch(s, j, p, q)
        ensures m.start < j || (m.start == j && m.open == p && m.close <= q)
      {
        if j == i { MatchAtComplete(s, i, p, q); }
      }
    } else if i < |s| {
      SearchFromSome(s, i + 1);
      if r.Some? {
        var m := r.value;
        forall j, p, q | i <= j && IsMatch(s, j, p, q)
          ensures m.start < j || (m.start == j && m.open == p && m.close <= q)
        {
          if j == i { MatchAtComplete(s, i, p, q); }
        }
      }
    }
  }

  /** `re.search` over the whole reply. */
  function FindTagged(s: string): (m: Option<Span>)
    ensures m.Some? ==> m.value.open < m.value.close < |s|
    ensures m.Some? ==> s[m.value.open] == '{' && s[m.value.close] == '}'
  {
    SearchFrom(s, 0)
  }

  /** The search fails exactly when there is no match; when it succeeds it
      returns the leftmost match, and of the matches starting there the one
      with the earliest closing brace (the shortest group 1). */
  lemma FindTaggedSpec(s: string)
    ensures FindTagged(s).None? <==> forall i, p, q :: !IsMatch(s, i, p, q)
    ensures FindTagged(s).Some? ==>
              var m := FindTagged(s).value;
              && IsMatch(s, m.start, m.open, m.close)
              && forall i, p, q :: IsMatch(s, i, p, q) ==>
                   m.start < i || (m.start == i && m.open == p && m.close <= q)
  {
    SearchFromNone(s, 0);
    SearchFromSome(s, 0);
  }

  /** `match.group(1)`. */
  function Captured(s: string): Option<string> {
    match FindTagged(s)
    case None => None
    case Some(m) => Some(s[m.open..m.close + 1])
  }

  /** Group 1 begins with `{` and ends with `}`; it is `s[p..q + 1]` for the
      match that the search returns. */
  lemma CapturedShape(s: string)
    ensures Captured(s).Some? ==>
              var c := Captured(s).value;
              |c| >= 2 && c[0] == '{' && c[|c| - 1] == '}'
  {
    if Captured(s).Some? {
      var m := FindTagged(s).value;
      var c := Captured(s).value;
      assert c[0] == s[m.open] && c[|c| - 1] == s[m.close];
    }
  }

  /** Why `preprocess_text` raised. */
  datatype ParseError =
    | NoTaggedJson   // `ValueError("No valid JSON found in model response.")`
    | InvalidJson    // `json.JSONDecodeError` from `json.loads`

  function PreprocessText(reply: string, decode: Decoder): Result<Json, ParseError> {
    match Captured(reply)
    case None => Failure(NoTaggedJson)
    case Some(c) =>
      match decode(c)
      case None => Failure(InvalidJson)
      case Some(j) => Success(j)
  }

  /** `preprocess_text` raises `ValueError` exactly when the reply holds no
      tagged block; otherwise its outcome is the decoder's outcome on exactly
      the captured text. */
  lemma PreprocessTextSpec(reply: string, decode: Decoder)
    ensures (PreprocessText(reply, decode) == Failure(NoTaggedJson))
              <==> (forall i, p, q :: !IsMatch(reply, i, p, q))
    ensures forall c :: Captured(reply) == Some(c) ==>
              (PreprocessText(reply, decode) == Failure(InvalidJson) <==> decode(c).None?)
              && (forall j :: PreprocessText(reply, decode) == Success(j) <==> decode(c) == Some(j))
  {
    FindTaggedSpec(reply);
  }

  // ----- behaviour on concrete replies -----

  /** The slash forms of both markers, and whitespace around the braces, are
      accepted. */
  lemma SlashMarkersAndWhitespace(s: string)
    requires s == "</jsonstart> {} </jsonend/>"
    ensures Captured(s) == Some("{}")
  {
    SlashMarkersText(s);
    assert !MarkerAt(s, 0, "<jsonstart>");
    assert OpenEnd(s, 0) == Some(12);
    assert SkipSpace(s, 12) == 13;
    assert SkipSpace(s, 15) == 16;
    assert ClosingBrace(s, 14);
    assert LazyClose(s, 14) == Some(14);
    assert MatchAt(s, 0) == Some(Span(0, 13, 14));
  }

  lemma SlashMarkersText(s: string)
    requires s == "</jsonstart> {} </jsonend/>"
    ensures |s| == 27 && s[0..11][1] == '/' && s[0..12] == "</jsonstart>"
    ensures IsSpace(s[12]) && s[13] == '{' && s[14] == '}' && IsSpace(s[15]) && s[16] == '<'
    ensures s[16..27] == "</jsonend/>" && s[13..15] == "{}"
  {
  }

  /** Newlines are captured (DOTALL), and the capture stops at the first `}`
      that a closing marker follows even when a later one would also do. */
  lemma NewlineAndLazyCapture(s: string)
    requires s == "<jsonstart>{a\n}<jsonend>}<jsonend>"
    ensures Captured(s) == Some("{a\n}")
  {
    NewlineAndLazyText(s);
    assert OpenEnd(s, 0) == Some(11);
    assert SkipSpace(s, 11) == 11;
    assert SkipSpace(s, 15) == 15;
    assert ClosingBrace(s, 14);
    assert !ClosingBrace(s, 12) && !ClosingBrace(s, 13);
    assert LazyClose(s, 12) == Some(14);
    assert MatchAt(s, 0) == Some(Span(0, 11, 14));
  }

  lemma NewlineAndLazyText(s: string)
    requires s == "<jsonstart>{a\n}<jsonend>}<jsonend>"
    ensures |s| == 34 && s[0..11] == "<jsonstart>" && s[1] == 'j'
    ensures s[11] == '{' && s[12] == 'a' && s[13] == '\n' && s[14] == '}' && s[15] == '<'
    ensures s[15..24] == "<jsonend>" && s[11..15] == "{a\n}"
  {
  }

  /** A `}` that no closing marker follows does not end the capture. */
  lemma NestedObjectCaptured(s: string)
    requires s == "<jsonstart>{{}}<jsonend>"
    ensures Captured(s) == Some("{{}}")
  {
    NestedObjectText(s);
    assert OpenEnd(s, 0) == Some(11);
    assert SkipSpace(s, 11) == 11;
    assert SkipSpace(s, 14) == 14;
    assert SkipSpace(s, 15) == 15;
    if CloseMarkerAt(s, 14) {
      CloseMarkerStartsWithAngle(s, 14);
    }
    assert ClosingBrace(s, 14);
    assert !ClosingBrace(s, 12) && !ClosingBrace(s, 13);
    assert LazyClose(s, 12) == Some(14);
    assert MatchAt(s, 0) == Some(Span(0, 11, 14));
  }

  lemma NestedObjectText(s: string)
    requires s == "<jsonstart>{{}}<jsonend>"
    ensures |s| == 24 && s[0..11] == "<jsonstart>" && s[1] == 'j'
    ensures s[11] == '{' && s[12] == '{' && s[13] == '}' && s[14] == '}' && s[15] == '<'
    ensures s[15..24] == "<jsonend>" && s[11..15] == "{{}}"
  {
  }
}
