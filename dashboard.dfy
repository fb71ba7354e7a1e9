/** The log tail of FE/dashboard.py: `read_logs` keeps the last ten lines of
    the log file, `parse_logs` turns each `timestamp|message` line into a
    record and skips every other line, and the dashboard labels each record
    Query, Response or Log by the words its message contains.

    The file is an input: `None` when it does not exist, otherwise its lines
    as `readlines` returns them. */
module Dashboard {
  import opened Wrappers
  import opened Text

  /** How many lines `read_logs` keeps: `lines[-10:]`. */
  const TailLength := 10

  /** `lines[-n:]` for a positive `n`. */
  function Tail(lines: seq<string>, n: nat): (r: seq<string>)
    requires n > 0
    ensures |r| == if |lines| < n then |lines| else n
    ensures r == lines[|lines| - |r|..]
  {
    if |lines| < n then lines else lines[|lines| - n..]
  }

  /** `read_logs()`: no file gives no lines; otherwise the last ten lines (all
      of them when there are fewer), in file order. */
  function ReadLogs(file: Option<seq<string>>): (r: seq<string>)
    ensures file.None? ==> r == []
    ensures file.Some? ==> |r| == (if |file.value| < TailLength then |file.value| else TailLength)
    ensures file.Some? ==> r == file.value[|file.value| - |r|..]
  {
    match file
    case None => []
    case Some(lines) => Tail(lines, TailLength)
  }

  /** When the file grows by one line, the window of a full file slides by
      one: the oldest line drops out and the new line comes in last. */
  lemma TailSlides(lines: seq<string>, line: string, n: nat)
    requires n > 0
    ensures |lines| >= n ==> Tail(lines + [line], n) == Tail(lines, n)[1..] + [line]
    ensures |lines| < n ==> Tail(lines + [line], n) == Tail(lines, n) + [line]
  {
    var grown := lines + [line];
    if |lines| >= n {
      assert grown[|grown| - n..] == lines[|lines| - n..][1..] + [line];
    }
  }

  // ----- parse_logs -----

  /** One parsed line: `{"timestamp": ..., "message": ...}`. */
  datatype LogRecord = LogRecord(timestamp: string, message: string)

  /** The characters `strip("[")` removes. */
  predicate IsBracket(c: char) {
    c == '['
  }

  /** The body of the loop in `parse_logs` for one line: unpacking
      `line.strip().split("|")` into two names raises `ValueError` unless there
      are exactly two pieces, and the line is then skipped. */
  function ParseLine(line: string): Option<LogRecord> {
    var parts := Split(Strip(line), '|');
    if |parts| == 2 then Some(LogRecord(Trim(parts[0], IsBracket), parts[1])) else None
  }

  /** A line yields a record exactly when its stripped form holds exactly one
      `|`. */
  lemma ParseLineSome(line: string)
    ensures ParseLine(line).Some? <==> Count(Strip(line), '|') == 1
  {
    SplitPieces(Strip(line), '|');
  }

  /** A record's message is the text after the one `|` of the stripped line,
      unchanged; its timestamp is the text before it with the leading and
      trailing `[` removed, and nothing else removed. */
  lemma ParseLineFields(line: string)
    requires ParseLine(line).Some?
    ensures var s, r := Strip(line), ParseLine(line).value;
            exists raw :: && s == raw + "|" + r.message
                          && '|' !in raw && '|' !in r.message
                          && r.timestamp == Trim(raw, IsBracket)
    ensures var ts := ParseLine(line).value.timestamp;
            ts != [] ==> ts[0] != '[' && ts[|ts| - 1] != '['
  {
    var s := Strip(line);
    var parts := Split(s, '|');
    SplitTwo(s, '|');
    var r := ParseLine(line).value;
    assert r == LogRecord(Trim(parts[0], IsBracket), parts[1]);
    assert s == parts[0] + "|" + r.message;
  }

  /** The loop of `parse_logs` as a value, for any per-line step `f`: the
      results of the items that give one, in order. */
  function FilterMap<T, U>(xs: seq<T>, f: T -> Option<U>): (r: seq<U>)
    ensures |r| <= |xs|
    decreases |xs|
  {
    if xs == [] then []
    else
      var init := FilterMap(xs[..|xs| - 1], f);
      match f(xs[|xs| - 1])
      case None => init
      case Some(y) => init + [y]
  }

  /** Filtering a concatenation filters each part. */
  lemma {:induction false} FilterMapAppend<T, U>(a: seq<T>, b: seq<T>, f: T -> Option<U>)
    ensures FilterMap(a + b, f) == FilterMap(a, f) + FilterMap(b, f)
    decreases |b|
  {
    if b == [] {
      assert a + b == a;
    } else {
      var b' := b[..|b| - 1];
      assert (a + b)[..|a + b| - 1] == a + b';
      assert (a + b)[|a + b| - 1] == b[|b| - 1];
      FilterMapAppend(a, b', f);
    }
  }

  /** One step of the loop: the prefix grows by one item, and the results
      grow by that item's result when it has one. */
  lemma FilterMapStep<T, U>(xs: seq<T>, i: nat, f: T -> Option<U>)
    requires i < |xs|
    ensures FilterMap(xs[..i + 1], f) ==
            FilterMap(xs[..i], f) + (if f(xs[i]).Some? then [f(xs[i]).value] else [])
  {
    assert xs[..i + 1][..i] == xs[..i];
  }

  /** Which item each result comes from: strictly increasing positions, so
      results keep the order of their items, and every item that gives a
      result is among them. */
  function Origins<T, U>(xs: seq<T>, f: T -> Option<U>): (idx: seq<nat>)
    ensures |idx| == |FilterMap(xs, f)|
    ensures forall j :: 0 <= j < |idx| ==> idx[j] < |xs| && f(xs[idx[j]]) == Some(FilterMap(xs, f)[j])
    ensures forall j, k :: 0 <= j < k < |idx| ==> idx[j] < idx[k]
    ensures forall k :: 0 <= k < |xs| && f(xs[k]).Some? ==> k in idx
    decreases |xs|
  {
    if xs == [] then []
    else
      var last := |xs| - 1;
      var init := Origins(xs[..last], f);
      assert forall j :: 0 <= j < |init| ==> xs[..last][init[j]] == xs[init[j]];
      assert forall k :: 0 <= k < last ==> xs[..last][k] == xs[k];
      if f(xs[last]).Some? then init + [last] else init
  }

  /** `parse_logs(lines)` as a value. */
  function ParseAll(lines: seq<string>): seq<LogRecord> {
    FilterMap(lines, ParseLine)
  }

  /** `parse_logs`: the loop over the lines, appending a record for each line
      that unpacks and skipping the rest. */
  method ParseLogs(lines: seq<string>) returns (parsed: seq<LogRecord>)
    ensures parsed == ParseAll(lines)
  {
    parsed := [];
    var i := 0;
    while i < |lines|
      invariant 0 <= i <= |lines|
      invariant parsed == FilterMap(lines[..i], ParseLine)
    {
      FilterMapStep(lines, i, ParseLine);
      var rec := ParseLine(lines[i]);
      if rec.Some? {
        parsed := parsed + [rec.value];
      }
      i := i + 1;
    }
    assert lines[..i] == lines;
  }

  // ----- labels -----

  /** The three kinds of entry the dashboard shows. */
  datatype Label = Query | Response | Log

  /** The label of a message: `"query" in message.lower()` first, then
      `"response"`. */
  function LabelOf(message: string): Label {
    var m := Lower(message);
    if Contains(m, QueryWord) then Query
    else if Contains(m, ResponseWord) then Response
    else Log
  }

  const QueryWord := "query"
  const ResponseWord := "response"

  /** The lower-case form of `message` holds `word` at some index. */
  ghost predicate Mentions(message: string, word: string) {
    exists k :: OccursAt(Lower(message), word, k)
  }

  /** A message is labelled Query exactly when its lower-case form contains
      "query", Response exactly when it contains "response" but not "query",
      and Log otherwise; so "query" wins when both occur. */
  lemma LabelSpec(message: string)
    ensures LabelOf(message) == Query <==> Mentions(message, QueryWord)
    ensures LabelOf(message) == Response <==>
              !Mentions(message, QueryWord) && Mentions(message, ResponseWord)
    ensures LabelOf(message) == Log <==>
              !Mentions(message, QueryWord) && !Mentions(message, ResponseWord)
  {
    var m := Lower(message);
    ContainsIff(m, QueryWord);
    ContainsIff(m, ResponseWord);
    assert Mentions(message, QueryWord) == Contains(m, QueryWord);
    assert Mentions(message, ResponseWord) == Contains(m, ResponseWord);
  }

  /** Messages equal up to ASCII case get the same label. */
  lemma LabelIgnoresCase(a: string, b: string)
    requires SameUpToCase(a, b)
    ensures LabelOf(a) == LabelOf(b)
  {
    LowerEqualIff(a, b);
  }
}
