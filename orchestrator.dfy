/** `extract_json` of BE/orchestrator.py: the search `\{.*\}` (DOTALL) and
    `match.group(0)`.

    A match of `\{.*\}` is any slice from a `{` to a later `}`. The engine
    takes the leftmost start, which is the first `{` of the text whenever that
    `{` has some `}` after it (and no later `{` can start a match otherwise),
    and the greedy `.*` then backs off from the end of the text to the last
    `}`. */
module Orchestrator {
  import opened Wrappers
  import opened Text

  /** `s[i..j + 1]` is a match of `\{.*\}`. */
  ghost predicate BraceMatch(s: string, i: int, j: int) {
    0 <= i < j < |s| && s[i] == '{' && s[j] == '}'
  }

  datatype ExtractError =
    | NoJsonObject              // `ValueError("No valid JSON object found in output.")`
    | NameNotDefined(name: string)  // `NameError` for a module that was never imported

  /** Where the match lies: from the first `{` to the last `}`, when the last
      `}` comes after the first `{`. */
  function BraceSpan(s: string): Option<(nat, nat)> {
    match IndexOf(s, '{')
    case None => None
    case Some(i) =>
      match LastIndexOf(s, '}')
      case None => None
      case Some(j) => if i < j then Some((i, j)) else None
  }

  /** `extract_json` with `re` in scope. */
  function ExtractJson(text: string): Result<string, ExtractError> {
    match BraceSpan(text)
    case None => Failure(NoJsonObject)
    case Some((i, j)) => Success(text[i..j + 1])
  }

  /** The search fails exactly when no `{` has a `}` after it. When it
      succeeds, the span is a match that starts at the first `{` of the text
      and ends at its last `}`: the leftmost match, and of those starting
      there the longest. */
  lemma BraceSpanSpec(s: string)
    ensures BraceSpan(s).None? <==> forall i, j :: !BraceMatch(s, i, j)
    ensures BraceSpan(s).Some? ==>
              var (i, j) := BraceSpan(s).value;
              && BraceMatch(s, i, j)
              && (forall k :: 0 <= k < i ==> s[k] != '{')
              && (forall k :: j < k < |s| ==> s[k] != '}')
              && (forall i', j' :: BraceMatch(s, i', j') ==> i < i' || (i == i' && j' <= j))
  {
    if i, j :| BraceMatch(s, i, j) {
      // Some `{` precedes some `}`, so the first `{` precedes the last `}`.
      assert s[i] in s && s[j] in s;
      var first, last := IndexOf(s, '{'), LastIndexOf(s, '}');
      assert first.value <= i < j <= last.value;
      assert BraceSpan(s) == Some((first.value, last.value));
    }
    if BraceSpan(s).Some? {
      var (i, j) := BraceSpan(s).value;
      assert BraceMatch(s, i, j);
    }
  }

  /** `extract_json` raises `ValueError` exactly when no `{` is followed
      somewhere by a `}`; otherwise it returns the contiguous slice from the
      first `{` to the last `}`, which begins with `{` and ends with `}`. */
  lemma ExtractJsonSpec(text: string)
    ensures ExtractJson(text).Failure? <==> forall i, j :: !BraceMatch(text, i, j)
    ensures ExtractJson(text).Failure? ==> ExtractJson(text).error == NoJsonObject
    ensures ExtractJson(text).Success? ==>
              var r := ExtractJson(text).value;
              && |r| >= 2 && r[0] == '{' && r[|r| - 1] == '}'
              && exists i :: 0 <= i && i + |r| <= |text| && text[i..i + |r|] == r
                   && '{' !in text[..i] && '}' !in text[i + |r|..]
  {
    BraceSpanSpec(text);
    if ExtractJson(text).Success? {
      var (i, j) := BraceSpan(text).value;
      var r := ExtractJson(text).value;
      assert r == text[i..j + 1];
      assert r[0] == text[i] && r[|r| - 1] == text[j];
      var head := text[..i];
      assert '{' !in head by {
        forall k | 0 <= k < |head| ensures head[k] != '{' { assert head[k] == text[k]; }
      }
      var tail := text[j + 1..];
      assert '}' !in tail by {
        forall k | 0 <= k < |tail| ensures tail[k] != '}' {
          assert tail[k] == text[j + 1 + k];
        }
      }
      assert text[i..i + |r|] == r;
    }
  }

  /** `extract_json` as written: the module imports `fastapi`, `pydantic`,
      `uvicorn`, `crewai` and `typing` but never `re`, so evaluating
      `re.search` raises `NameError` whatever the text. */
  function ExtractJsonAsWritten(text: string): Result<string, ExtractError> {
    Failure(NameNotDefined("re"))
  }

  /** On `{}` the function as written raises, while the intended search
      returns the whole text. */
  lemma ExtractJsonAsWrittenRaises(text: string)
    requires text == "{}"
    ensures ExtractJsonAsWritten(text) == Failure(NameNotDefined("re"))
    ensures ExtractJson(text) == Success("{}")
  {
    assert IndexOf(text, '{') == Some(0);
    assert LastIndexOf(text, '}') == Some(1);
    assert text[0..2] == text;
  }
}
