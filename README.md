# Booking assistant core, modelled in Dafny

The system is a small booking and FAQ assistant. A FastAPI endpoint,
`process_query` in `BE/main.py`, keeps a process-wide dictionary
`user_context_store` from user id to that user's conversation context. Each
context is an ordered list of `{agent_type, query, result}` entries.

On each request the endpoint does the following:

1. reads the user's list;
2. classifies the intent with a language model, and a `new_task` label
   starts from an empty list;
3. classifies the category and routes on it (faq, booking, vague, or
   anything else);
4. appends one entry for the branch;
5. asks the model for an answer, appends an `answer_agent` entry, and stores
   the list back.

The model replies are parsed by `preprocess_text` in `BE/utils.py`, which
extracts a `{...}` block between `<jsonstart>`/`<jsonend>` tags and decodes
it. `extract_json` in `BE/orchestrator.py` is an unused greedy brace
extractor. The Streamlit log dashboard, `FE/dashboard.py`, shows the last ten
lines of the log, parsed as `timestamp|message` records and labelled Query,
Response or Log.

The project has these modules:

- `Wrappers` (wrappers.dfy): `Option` and `Result`.
- `Text` (text.dfy): the parts of Python's `str` these functions use. These
  are `isspace`/`\s`, `lower`, `strip`, `split` and `in`. It also holds
  `IndexOf` and `LastIndexOf`, the first and last occurrence of a character,
  which the greedy `\{.*\}` search of `extract_json` is built on.
- `JsonValue` (json.dfy): the values `json.loads` returns. Decoding is an
  abstract partial function, `Decoder`.
- `Utils` (utils.dfy): `preprocess_text`. The regex search is written out
  the way the backtracking engine runs it, and proved equal to a plain
  statement of what a match is: leftmost start, then the shortest group.
- `Orchestrator` (orchestrator.dfy): `extract_json`, both as evidently
  intended and as written.
- `Router` (router.dfy): `process_query`, in two forms.
  - `Turn` is one turn on values. The lemmas about the context rules are
    stated against it.
  - `ContextStore.ProcessQuery` runs the same turn on objects. The store
    holds list objects, and a returning user's list is the very object the
    turn appends to. Its contract says that the new store and the outcome
    are exactly those of `Turn`.
- `Dashboard` (dashboard.dfy): `read_logs`, `parse_logs` (a loop, proved
  against `ParseAll`) and the label rule.

The language-model replies, the FAQ matches, the booking data, the decoder,
the synthesizer and the log file's contents are inputs of the model.

Two points where the code and the design description differ; the model
follows the code in both:

- **Clearing the context.** The design says a `new_task` intent clears the
  user's stored context. The code only rebinds a local variable
  (`BE/main.py:25`). So a turn that fails after that point leaves the stored
  context as it was.
- **Failed synthesis.** For a returning user whose intent is not exactly
  `new_task`, the stored list is appended to in place (`BE/main.py:20,
  34-57`). So a turn whose synthesizer fails still leaves the branch entry in
  that user's stored list. With `new_task` the local name is rebound to a
  fresh list first (`BE/main.py:25`), and the store is left untouched.

## Model

| member | source | states |
|---|---|---|
| `Text.Lower` | BE/main.py:31 | keeps the length; lowers each ASCII capital and keeps every other character |
| `Text.LowerEqualIff` | BE/main.py:31 | two strings have the same lower-case form exactly when they agree character by character up to ASCII case |
| `Text.LeadEnd` | FE/dashboard.py:21-23 | the leading run that `strip` removes: every character before the returned index is stripped, and the character at it is kept |
| `Text.TrailStart` | FE/dashboard.py:21-23 | the trailing run that `strip` removes: every character from the returned index on is stripped, and the one before it is kept |
| `Text.Trim` | FE/dashboard.py:23 | `strip("[")` keeps one contiguous slice starting at the first kept character; everything outside it is a `[`, and the slice neither starts nor ends with one |
| `Text.StripsToUnique` | FE/dashboard.py:21-23 | any slice with only stripped characters around it and kept characters at its ends is exactly what `strip` returns |
| `Text.Strip` | FE/dashboard.py:21 | `strip()` keeps one contiguous slice starting at the first non-whitespace character; everything outside it is whitespace, and the slice neither starts nor ends with whitespace |
| `Text.IndexOf` | BE/orchestrator.py:23 | finds the first index holding the character; absent exactly when the character does not occur |
| `Text.LastIndexOf` | BE/orchestrator.py:23 | finds the last index holding the character; absent exactly when the character does not occur |
| `Text.SplitJoin` | FE/dashboard.py:21 | joining the pieces of `split(sep)` with `sep` gives back the text |
| `Text.SplitPieces` | FE/dashboard.py:21 | no piece holds the separator; there is one more piece than there are separators |
| `Text.SplitTwo` | FE/dashboard.py:21 | a two-piece split is the first piece, the separator, then the second piece |
| `Text.ContainsIff` | FE/dashboard.py:45-47 | the `in` test on strings holds exactly when the word occurs at some index |
| `Utils.OpenEnd` | BE/utils.py:13 | finds where `</?jsonstart>` ends at a position, and finds nothing exactly when no opening marker starts there |
| `Utils.SkipSpace` | BE/utils.py:13 | `\s*` stops after a run of whitespace, at the first non-space character or the end |
| `Utils.ClosesAfterIff` | BE/utils.py:13 | whitespace-then-closing-marker is matched after a brace exactly when some whitespace run is followed by one of the four closing markers |
| `Utils.LazyClose` | BE/utils.py:13 | the lazy `.*?\}` picks the first `}` that is followed by whitespace and a closing marker, and fails only when no such `}` exists |
| `Utils.MatchAtSound` | BE/utils.py:13 | what the attempt at a start position returns is a match of the pattern |
| `Utils.MatchAtComplete` | BE/utils.py:13 | any match at a start position is found there, with the same `{` and a `}` no later than its own |
| `Utils.MatchAtSpec` | BE/utils.py:13 | an attempt at a position succeeds exactly when a match starts there, and it returns the shortest group |
| `Utils.SearchFromNone` | BE/utils.py:13-15 | the search fails only when no match starts at or after the position |
| `Utils.SearchFromSome` | BE/utils.py:13 | the search returns the leftmost match, and of the matches that start there the one with the earliest `}` |
| `Utils.FindTaggedSpec` | BE/utils.py:13-15 | `re.search` finds nothing exactly when the reply has no match; otherwise it finds the leftmost, shortest match |
| `Utils.CapturedShape` | BE/utils.py:13 | group 1 begins with `{` and ends with `}` |
| `Utils.PreprocessTextSpec` | BE/utils.py:12-16 | raises `ValueError` exactly when there is no match; otherwise the outcome is the decoder's on exactly the captured text, including its errors |
| `Utils.SlashMarkersAndWhitespace` | BE/utils.py:13 | `</jsonstart>` and `</jsonend/>` are accepted, as is whitespace around the braces |
| `Utils.NewlineAndLazyCapture` | BE/utils.py:13 | newlines are captured, and the capture stops at the first `}` that a closing marker follows |
| `Utils.NestedObjectCaptured` | BE/utils.py:13 | a `}` with no closing marker after it does not end the capture |
| `Orchestrator.BraceSpanSpec` | BE/orchestrator.py:23 | the span fails exactly when no `{` precedes a `}`; otherwise it runs from the first `{` to the last `}`, the leftmost-longest match |
| `Orchestrator.ExtractJsonSpec` | BE/orchestrator.py:21-26 | raises `ValueError` exactly when no `{` is followed by a `}`; otherwise returns a contiguous slice that begins with `{`, ends with `}`, has no `{` before it and no `}` after it |
| `Orchestrator.ExtractJsonAsWrittenRaises` | BE/orchestrator.py:1-26 | on `{}` the code as written raises `NameError` for `re`, while the intended search returns `{}` |
| `Router.ClassType` | BE/main.py:23-24 | reading `class_type` succeeds exactly when the reply decodes to an object holding that key, and then yields that key's value; a `preprocess_text` error is passed on as `Unparsed` with its cause, any other failure is `NoClassType` |
| `Router.RouteSpec` | BE/main.py:31-52 | each named branch is taken exactly for labels equal to its name up to ASCII case; every other label falls back |
| `Router.RouteCaseInsensitive` | BE/main.py:31-46 | labels equal up to case take the same branch |
| `Router.CategoryBranch` | BE/main.py:28-31 | routing succeeds exactly when the category label is a string, and then takes the branch of that label |
| `Router.CategoryEntry` | BE/main.py:31-57 | faq, booking and vague labels give the FAQ matches, the booking data or the clarification text under `query_clarity_agent`; anything else gives the fallback text under `domain_agent`; the entry carries the query |
| `Router.Results` | BE/tasks.py:104 | the summary input is the `result` fields of the context, in order |
| `Router.AnswerSeesOnlyResults` | BE/tasks.py:103-104 | contexts with the same results get the same answer, whatever their tags and queries |
| `Router.Turn` | BE/main.py:68 | a turn never adds, drops or changes any other user's context |
| `Router.TurnSuccess` | BE/main.py:20-70 | a successful turn stores its starting context plus exactly two entries, both carrying the query: the branch entry, then an `answer_agent` entry holding the response. It starts from empty for a new task or an unknown user |
| `Router.TurnKeepsPrefix` | BE/main.py:24-25 | with any intent other than exactly `new_task`, a successful turn keeps every prior entry, unchanged and in order, as a prefix |
| `Router.TurnFreshContext` | BE/main.py:20-25 | for a new task or a user with nothing stored, a successful turn stores exactly this turn's two entries |
| `Router.TurnSynthesizerInput` | BE/main.py:59-65 | the synthesizer is asked with the stored context minus the answer entry, which ends with the branch entry; the response is its reply |
| `Router.TurnClassificationFailure` | BE/main.py:20-31 | a failed classification leaves the whole store unchanged, even after a `new_task` intent |
| `Router.TurnSynthesisFailure` | BE/main.py:20-60 | a failed synthesis leaves the store unchanged, except that a returning user without `new_task` keeps the branch entry in the stored list |
| `Router.ContextList.constructor` | BE/main.py:20 | a list made for a user without one starts empty |
| `Router.ContextList.Append` | BE/main.py:61-65 | `list.append` adds the entry at the end and changes nothing else |
| `Router.ContextStore.constructor` | BE/main.py:12 | the store starts empty, and no two users share a list |
| `Router.ContextStore.Get` | BE/main.py:20 | returns the stored list object itself, or a fresh empty list for an unknown user |
| `Router.ContextStore.AppendTo` | BE/main.py:34-38 | appending to a user's own stored list shows in the store; appending to a list the store does not hold leaves the store's value alone |
| `Router.ContextStore.Put` | BE/main.py:68 | writes the list under the user's key only; no two users share a list afterwards |
| `Router.ContextStore.Respond` | BE/main.py:34-70 | after routing, the outcome and the new store match the synthesizer's reply, including the shared-list effect on failure |
| `Router.ContextStore.ProcessQuery` | BE/main.py:15-70 | the store afterwards and the outcome are exactly those of `Turn`; no two users share a list |
| `Dashboard.Tail` | FE/dashboard.py:14 | `lines[-n:]` has `min(n, len)` lines and is the suffix of the input |
| `Dashboard.ReadLogs` | FE/dashboard.py:8-14 | a missing file gives no lines; otherwise the last `min(10, n)` lines, in file order |
| `Dashboard.TailSlides` | FE/dashboard.py:14 | a new line enters the window last; once the file has ten lines, the oldest line drops out |
| `Dashboard.ParseLineSome` | FE/dashboard.py:20-27 | a line yields a record exactly when its stripped form holds exactly one vertical bar |
| `Dashboard.ParseLineFields` | FE/dashboard.py:21-24 | the message is exactly the text after the vertical bar; the timestamp is the text before it with the `[` ends stripped, so it neither starts nor ends with `[` |
| `Dashboard.FilterMap` | FE/dashboard.py:17-28 | the parsed list is no longer than the input |
| `Dashboard.FilterMapAppend` | FE/dashboard.py:17-28 | parsing a concatenation parses each part and concatenates the results |
| `Dashboard.Origins` | FE/dashboard.py:17-28 | each record comes from its own line at strictly increasing line numbers, and every line that parses gives a record |
| `Dashboard.ParseLogs` | FE/dashboard.py:17-28 | the loop returns `ParseAll` of the lines |
| `Dashboard.LabelSpec` | FE/dashboard.py:45-50 | Query exactly when the lower-cased message contains "query"; Response exactly when it contains "response" but not "query"; Log otherwise |
| `Dashboard.LabelIgnoresCase` | FE/dashboard.py:45-47 | messages equal up to ASCII case get the same label |

## Left out

- Text.Lower: lowers ASCII letters only. Python's `str.lower` also maps
  other cased characters, such as `İ` and the Kelvin sign, and can change a
  string's length. Labels outside ASCII may therefore route differently.
- `json.loads` is the abstract `Decoder`. Its grammar is not modelled, and
  neither are details such as duplicate keys.
- The language-model calls (`classify_intent`, `query_clarity`, the prompt in
  `answer`) are inputs. The replies are raw strings, and the synthesizer is a
  function of the query and the ordered `result` fields (`BE/tasks.py:104`).
  A raising synthesizer call is `None`.
- `query_booking_rag` and `get_booking_data` (HTTP) are inputs that the
  branch uses. Their own failures, and the fact that they are called only
  inside their branch, are not modelled.
- Exceptions become `Result` failures. Looking up `class_type` in a decoded
  value that is not an object, or that lacks the key, is `NoClassType`. This
  covers both `TypeError` and `KeyError`. The HTTP error response FastAPI
  builds from an exception is not modelled.
- The `print` calls (`BE/main.py:29, 33`) are not modelled, nor is Redis
  `add_to_session`.
- Concurrency. The handler is `async` but never awaits, so turns are modelled
  one at a time. The design asks for per-user serialization, which the code
  does not implement.
- The pydantic models in `BE/models.py`. The label enums are never applied on
  this path, so labels are plain strings.
- The other functions of `BE/orchestrator.py` and of `BE/tasks.py`, the
  agents, and the configuration.
- File access in `read_logs`. The file is `None` when missing, otherwise its
  lines. Encoding and newline translation are not modelled, and neither is
  the relative path.
- The Streamlit rendering, the clock and the meta-refresh in
  `FE/dashboard.py`. Only the label choice is modelled.
- The general regex engine. Only the two patterns used are written out.

## Findings

| source | as written | input that shows it | evidently intended | confidence | as-written member | corrected member |
|---|---|---|---|---|---|---|
| BE/orchestrator.py:1-26 | `extract_json` calls `re.search`, but the module never imports `re`, so every call raises `NameError` | `"{}"` | return the slice from the first `{` to the last `}`, or raise `ValueError` when there is none | not executed | `Orchestrator.ExtractJsonAsWritten` (shown by `Orchestrator.ExtractJsonAsWrittenRaises`) | `Orchestrator.ExtractJson` (proved by `Orchestrator.ExtractJsonSpec`) |
