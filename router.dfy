/** `process_query` of BE/main.py and the process-wide `user_context_store`.

    One turn: read the user's stored list (or a fresh empty one), classify the
    intent (`"new_task"` rebinds the local list to a fresh empty one), classify
    the category, append one branch entry, ask the synthesizer, append an
    `answer_agent` entry, store the list under the user's key.

    The classifier replies, the FAQ matches, the booking data, `json.loads`
    and the model behind the synthesizer are inputs. `Turn` states the turn on
    values; `ContextStore.ProcessQuery` runs it on objects, where a returning
    user's list is the very list the store holds, so the appends reach the
    store before the write-back does. */
module Router {
  import opened Wrappers
  import opened Text
  import opened JsonValue
  import opened Utils

  /** One `{agent_type, query, result}` dictionary of a user's context. */
  datatype ContextEntry = ContextEntry(agentType: string, query: string, result: Json)

  /** The value of `user_context_store`: user id to ordered context. */
  type Store = map<string, seq<ContextEntry>>

  /** The request body: `QueryInput`. */
  datatype Request = Request(userId: string, query: string)

  /** What the collaborators hand back during one turn: the raw text of the
      two classifier calls, the FAQ matches (`query_booking_rag`) and the
      booking data (`get_booking_data`). */
  datatype Replies = Replies(intentReply: string, categoryReply: string, faqMatches: Json, bookingData: Json)

  /** The model behind `answer`: given the query and the `result` fields of the
      context, a reply, or `None` when the call raises. */
  type Llm = (string, seq<Json>) -> Option<string>

  const QueryClarityAgent := "query_clarity_agent"
  const DomainAgent := "domain_agent"
  const AnswerAgent := "answer_agent"
  const NewTask := "new_task"
  const VagueReply := "The query seems vague. Could you please elaborate?"
  const OtherReply := "Please ask a question related to Booking/FAQ"

  /** Why a turn raised. */
  datatype ClassifyError =
    | Unparsed(cause: ParseError)  // `preprocess_text` raised
    | NoClassType                  // the decoded value is not an object with a "class_type" key
    | LabelNotText                 // `.lower()` on a "class_type" that is not a string

  datatype TurnError =
    | IntentFailed(intent: ClassifyError)
    | CategoryFailed(category: ClassifyError)
    | SynthesisFailed

  /** The four branches of the router. */
  datatype Branch = FaqBranch | BookingBranch | VagueBranch | OtherBranch

  // ----- classification -----

  /** `preprocess_text(reply)["class_type"]`. */
  function ClassType(reply: string, decode: Decoder): (r: Result<Json, ClassifyError>)
    ensures r.Success? <==> exists j :: PreprocessText(reply, decode) == Success(j)
                                         && j.JObject? && "class_type" in j.fields
    ensures r.Success? ==> PreprocessText(reply, decode).Success?
                           && r.value == PreprocessText(reply, decode).value.fields["class_type"]
    ensures PreprocessText(reply, decode).Failure? ==>
              r == Failure(Unparsed(PreprocessText(reply, decode).error))
    ensures PreprocessText(reply, decode).Success? && r.Failure? ==> r == Failure(NoClassType)
  {
    match PreprocessText(reply, decode)
    case Failure(e) => Failure(Unparsed(e))
    case Success(j) =>
      if j.JObject? && "class_type" in j.fields then Success(j.fields["class_type"])
      else Failure(NoClassType)
  }

  /** The if/elif chain on `class_type.lower()`. */
  function Route(name: string): Branch {
    var l := Lower(name);
    if l == "faq" then FaqBranch
    else if l == "booking" then BookingBranch
    else if l == "vague" then VagueBranch
    else OtherBranch
  }

  /** Routing ignores ASCII case: each named branch is taken exactly for the
      labels equal to its name up to case, every other label falls back. */
  lemma RouteSpec(name: string)
    ensures Route(name) == FaqBranch <==> SameUpToCase(name, "faq")
    ensures Route(name) == BookingBranch <==> SameUpToCase(name, "booking")
    ensures Route(name) == VagueBranch <==> SameUpToCase(name, "vague")
    ensures Route(name) == OtherBranch <==>
              !SameUpToCase(name, "faq") && !SameUpToCase(name, "booking") && !SameUpToCase(name, "vague")
  {
    LowerEqualIff(name, "faq");
    LowerEqualIff(name, "booking");
    LowerEqualIff(name, "vague");
    assert Lower("faq") == "faq";
    assert Lower("booking") == "booking";
    assert Lower("vague") == "vague";
  }

  /** Two labels equal up to case take the same branch. */
  lemma RouteCaseInsensitive(a: string, b: string)
    requires SameUpToCase(a, b)
    ensures Route(a) == Route(b)
  {
    LowerEqualIff(a, b);
  }

  /** The label of the category classifier, routed. */
  function CategoryBranch(reply: string, decode: Decoder): (r: Result<Branch, ClassifyError>)
    ensures r.Success? <==> ClassType(reply, decode).Success? && ClassType(reply, decode).value.JString?
    ensures r.Success? ==> r.value == Route(ClassType(reply, decode).value.text)
  {
    match ClassType(reply, decode)
    case Failure(e) => Failure(e)
    case Success(v) => if v.JString? then Success(Route(v.text)) else Failure(LabelNotText)
  }

  /** The entry a branch appends. */
  function BranchEntry(b: Branch, query: string, faqMatches: Json, bookingData: Json): ContextEntry {
    match b
    case FaqBranch => ContextEntry(QueryClarityAgent, query, faqMatches)
    case BookingBranch => ContextEntry(QueryClarityAgent, query, bookingData)
    case VagueBranch => ContextEntry(QueryClarityAgent, query, JString(VagueReply))
    case OtherBranch => ContextEntry(DomainAgent, query, JString(OtherReply))
  }

  /** The routing table: a category label equal to "faq" up to case yields
      the FAQ matches, "booking" the booking data, "vague" the clarification
      text, all three under `query_clarity_agent`; any other label yields the
      fallback text under `domain_agent`. The entry carries the query. */
  lemma CategoryEntry(name: string, query: string, faqMatches: Json, bookingData: Json)
    ensures var e := BranchEntry(Route(name), query, faqMatches, bookingData);
            && e.query == query
            && (SameUpToCase(name, "faq") ==> e == ContextEntry(QueryClarityAgent, query, faqMatches))
            && (SameUpToCase(name, "booking") ==> e == ContextEntry(QueryClarityAgent, query, bookingData))
            && (SameUpToCase(name, "vague") ==> e == ContextEntry(QueryClarityAgent, query, JString(VagueReply)))
            && (!SameUpToCase(name, "faq") && !SameUpToCase(name, "booking") && !SameUpToCase(name, "vague")
                ==> e == ContextEntry(DomainAgent, query, JString(OtherReply)))
  {
    RouteSpec(name);
  }

  // ----- synthesis -----

  /** The `result` fields of a context, in order. */
  function Results(context: seq<ContextEntry>): (r: seq<Json>)
    ensures |r| == |context|
    ensures forall k :: 0 <= k < |context| ==> r[k] == context[k].result
  {
    seq(|context|, k requires 0 <= k < |context| => context[k].result)
  }

  /** `answer(query, context, llm)`: the model sees the query and the results. */
  function Answer(query: string, context: seq<ContextEntry>, llm: Llm): Option<string> {
    llm(query, Results(context))
  }

  /** Contexts that differ only in agent tags and queries get the same answer. */
  lemma AnswerSeesOnlyResults(query: string, c1: seq<ContextEntry>, c2: seq<ContextEntry>, llm: Llm)
    requires |c1| == |c2| && forall k :: 0 <= k < |c1| ==> c1[k].result == c2[k].result
    ensures Answer(query, c1, llm) == Answer(query, c2, llm)
  {
    assert Results(c1) == Results(c2);
  }

  // ----- one turn, on values -----

  datatype TurnResult = TurnResult(store: Store, outcome: Result<string, TurnError>)

  /** `user_context_store.get(user_id, [])`. */
  function Stored(store: Store, userId: string): seq<ContextEntry> {
    if userId in store then store[userId] else []
  }

  /** The store after a turn and the turn's response or error. */
  function Turn(store: Store, req: Request, replies: Replies, decode: Decoder, llm: Llm): (t: TurnResult)
    ensures forall v :: v != req.userId ==> (v in t.store <==> v in store)
    ensures forall v :: v != req.userId && v in store ==> t.store[v] == store[v]
  {
    match ClassType(replies.intentReply, decode)
    case Failure(e) => TurnResult(store, Failure(IntentFailed(e)))
    case Success(intent) =>
      match CategoryBranch(replies.categoryReply, decode)
      case Failure(e) => TurnResult(store, Failure(CategoryFailed(e)))
      case Success(b) =>
        var withBranch := TurnContext(store, req, replies, decode);
        match Answer(req.query, withBranch, llm)
        case None =>
          // a returning user's list is shared with the store and already holds the branch entry
          var shared := req.userId in store && intent != JString(NewTask);
          TurnResult(if shared then store[req.userId := withBranch] else store, Failure(SynthesisFailed))
        case Some(response) =>
          var final := withBranch + [ContextEntry(AnswerAgent, req.query, JString(response))];
          TurnResult(store[req.userId := final], Success(response))
  }

  /** The context handed to the synthesizer in a turn whose two
      classifications succeed. */
  function TurnContext(store: Store, req: Request, replies: Replies, decode: Decoder): (c: seq<ContextEntry>)
    requires ClassType(replies.intentReply, decode).Success?
    requires CategoryBranch(replies.categoryReply, decode).Success?
    ensures |c| >= 1
    ensures c[|c| - 1] == BranchEntry(CategoryBranch(replies.categoryReply, decode).value,
                                      req.query, replies.faqMatches, replies.bookingData)
  {
    var prev := if ClassType(replies.intentReply, decode).value == JString(NewTask) then []
                else Stored(store, req.userId);
    prev + [BranchEntry(CategoryBranch(replies.categoryReply, decode).value,
                        req.query, replies.faqMatches, replies.bookingData)]
  }

  lemma TurnUnanswered(store: Store, req: Request, replies: Replies, decode: Decoder, llm: Llm)
    requires ClassType(replies.intentReply, decode).Success?
    requires CategoryBranch(replies.categoryReply, decode).Success?
    requires Answer(req.query, TurnContext(store, req, replies, decode), llm).None?
    ensures Turn(store, req, replies, decode, llm) ==
            TurnResult(if req.userId in store && !IsNewTask(replies, decode)
                       then store[req.userId := TurnContext(store, req, replies, decode)] else store,
                       Failure(SynthesisFailed))
  {
  }

  lemma TurnAnswered(store: Store, req: Request, replies: Replies, decode: Decoder, llm: Llm)
    requires ClassType(replies.intentReply, decode).Success?
    requires CategoryBranch(replies.categoryReply, decode).Success?
    requires Answer(req.query, TurnContext(store, req, replies, decode), llm).Some?
    ensures var response := Answer(req.query, TurnContext(store, req, replies, decode), llm).value;
            Turn(store, req, replies, decode, llm) ==
            TurnResult(store[req.userId := TurnContext(store, req, replies, decode)
                                           + [ContextEntry(AnswerAgent, req.query, JString(response))]],
                       Success(response))
  {
  }

  /** The intent label asks for a fresh context. */
  predicate IsNewTask(replies: Replies, decode: Decoder) {
    ClassType(replies.intentReply, decode) == Success(JString(NewTask))
  }

  /** A successful turn stores, under the user's key, the context it started
      from followed by exactly two entries: the branch entry and an
      `answer_agent` entry holding the response, both carrying the query. The
      context it started from is empty for a new task or an unknown user, and
      the stored context otherwise. */
  lemma TurnSuccess(store: Store, req: Request, replies: Replies, decode: Decoder, llm: Llm)
    requires Turn(store, req, replies, decode, llm).outcome.Success?
    ensures var t := Turn(store, req, replies, decode, llm);
            var start := if IsNewTask(replies, decode) then [] else Stored(store, req.userId);
            var b := CategoryBranch(replies.categoryReply, decode).value;
            && req.userId in t.store
            && t.store[req.userId] == start + [
                 BranchEntry(b, req.query, replies.faqMatches, replies.bookingData),
                 ContextEntry(AnswerAgent, req.query, JString(t.outcome.value))]
  {
  }

  /** Only `"new_task"`, exactly and case-sensitively, clears the context: with
      any other intent label a successful turn keeps every prior entry, in
      order, as a prefix. */
  lemma TurnKeepsPrefix(store: Store, req: Request, replies: Replies, decode: Decoder, llm: Llm)
    requires Turn(store, req, replies, decode, llm).outcome.Success?
    requires !IsNewTask(replies, decode)
    ensures var stored := Turn(store, req, replies, decode, llm).store[req.userId];
            && |stored| == |Stored(store, req.userId)| + 2
            && stored[..|Stored(store, req.userId)|] == Stored(store, req.userId)
  {
    var t := Turn(store, req, replies, decode, llm);
    TurnSuccess(store, req, replies, decode, llm);
    var prev := Stored(store, req.userId);
    assert t.store[req.userId][..|prev|] == prev;
  }

  /** A new task, or a user with nothing stored, ends a successful turn with
      exactly this turn's two entries. */
  lemma TurnFreshContext(store: Store, req: Request, replies: Replies, decode: Decoder, llm: Llm)
    requires Turn(store, req, replies, decode, llm).outcome.Success?
    requires IsNewTask(replies, decode) || req.userId !in store
    ensures var stored := Turn(store, req, replies, decode, llm).store[req.userId];
            && |stored| == 2
            && stored[0].agentType in {QueryClarityAgent, DomainAgent}
            && stored[1].agentType == AnswerAgent
            && stored[0].query == stored[1].query == req.query
  {
    TurnSuccess(store, req, replies, decode, llm);
  }

  /** The synthesizer is asked with the context that ends in this turn's branch
      entry and does not yet hold the answer entry; the response is the
      synthesizer's reply. */
  lemma TurnSynthesizerInput(store: Store, req: Request, replies: Replies, decode: Decoder, llm: Llm)
    requires Turn(store, req, replies, decode, llm).outcome.Success?
    ensures var t := Turn(store, req, replies, decode, llm);
            var stored := t.store[req.userId];
            var asked := stored[..|stored| - 1];
            && |asked| >= 1
            && asked[|asked| - 1] == BranchEntry(CategoryBranch(replies.categoryReply, decode).value,
                                                 req.query, replies.faqMatches, replies.bookingData)
            && Answer(req.query, asked, llm) == Some(t.outcome.value)
  {
    var t := Turn(store, req, replies, decode, llm);
    var withBranch := TurnContext(store, req, replies, decode);
    var response := Answer(req.query, withBranch, llm).value;
    TurnAnswered(store, req, replies, decode, llm);
    var stored := t.store[req.userId];
    assert stored == withBranch + [ContextEntry(AnswerAgent, req.query, JString(response))];
    assert stored[..|stored| - 1] == withBranch;
  }

  /** A classification failure leaves the store as it was: clearing for a new
      task only rebinds a local name. */
  lemma TurnClassificationFailure(store: Store, req: Request, replies: Replies, decode: Decoder, llm: Llm)
    requires Turn(store, req, replies, decode, llm).outcome.Failure?
    requires Turn(store, req, replies, decode, llm).outcome.error != SynthesisFailed
    ensures Turn(store, req, replies, decode, llm).store == store
  {
  }

  /** A synthesizer failure leaves the store as it was, except for a returning
      user whose intent was not `"new_task"`: that user's stored list, shared
      with the turn, has gained the branch entry. */
  lemma TurnSynthesisFailure(store: Store, req: Request, replies: Replies, decode: Decoder, llm: Llm)
    requires Turn(store, req, replies, decode, llm).outcome == Failure(SynthesisFailed)
    ensures var t := Turn(store, req, replies, decode, llm);
            if req.userId in store && !IsNewTask(replies, decode) then
              t.store == store[req.userId := store[req.userId] + [
                BranchEntry(CategoryBranch(replies.categoryReply, decode).value,
                            req.query, replies.faqMatches, replies.bookingData)]]
            else t.store == store
  {
  }

  // ----- one turn, on objects -----

  /** A Python list of context entries, appended to in place. */
  class ContextList {
    var entries: seq<ContextEntry>

    constructor ()
      ensures entries == []
    {
      entries := [];
    }

    /** `list.append`. */
    method Append(e: ContextEntry)
      modifies this
      ensures entries == old(entries) + [e]
    {
      entries := entries + [e];
    }
  }

  /** `user_context_store`: a dictionary from user id to a list object. */
  class ContextStore {
    var lists: map<string, ContextList>

    /** No two users share a list object. */
    ghost predicate Valid()
      reads this
    {
      forall u, v :: u in lists && v in lists && u != v ==> lists[u] != lists[v]
    }

    /** The store's value. */
    ghost function Contents(): Store
      reads this, lists.Values
    {
      map u | u in lists :: lists[u].entries
    }

    /** The store's value is read off the list objects it holds. */
    lemma ContentsFromLists(m: Store)
      requires lists.Keys == m.Keys
      requires forall v :: v in lists ==> lists[v].entries == m[v]
      ensures Contents() == m
    {
    }

    constructor ()
      ensures Valid() && Contents() == map[]
    {
      lists := map[];
    }

    /** `user_context_store.get(user_id, [])`: the stored list itself, or a
        new empty list that the store does not hold. */
    method Get(userId: string) returns (context: ContextList)
      ensures userId in lists ==> context == lists[userId]
      ensures userId !in lists ==> fresh(context)
      ensures context.entries == Stored(Contents(), userId)
    {
      if userId in lists {
        context := lists[userId];
      } else {
        context := new ContextList();
      }
    }

    /** `context.append(e)` on a list that is either the one stored under
        `userId` or one the store does not hold: the store sees the append
        exactly in the first case. */
    method AppendTo(context: ContextList, userId: string, e: ContextEntry, ghost base: Store)
      requires Valid()
      requires (userId in lists && context == lists[userId]) || context !in lists.Values
      requires lists.Keys == base.Keys
      requires forall v :: v in lists ==> lists[v].entries == base[v]
      modifies context
      ensures context.entries == old(context.entries) + [e]
      ensures var m := if userId in lists && context == lists[userId]
                       then base[userId := context.entries] else base;
              && lists.Keys == m.Keys
              && (forall v :: v in lists ==> lists[v].entries == m[v])
              && Contents() == m
    {
      ghost var shared := userId in lists && context == lists[userId];
      context.Append(e);
      ghost var m := if shared then base[userId := context.entries] else base;
      forall v | v in lists ensures lists[v].entries == m[v] {
        if !(shared && v == userId) {
          assert lists[v] != context;
        }
      }
      ContentsFromLists(m);
    }

    /** `user_context_store[user_id] = context`, where the other users' lists
        hold what `base` says. */
    method Put(userId: string, context: ContextList, ghost base: Store)
      requires Valid()
      requires (userId in lists && context == lists[userId]) || context !in lists.Values
      requires forall v :: v != userId ==> (v in lists <==> v in base)
      requires forall v :: v in lists && v != userId ==> lists[v].entries == base[v]
      modifies this
      ensures lists == old(lists)[userId := context]
      ensures Valid()
      ensures Contents() == base[userId := context.entries]
    {
      lists := lists[userId := context];
      forall v | v in lists ensures lists[v].entries == base[userId := context.entries][v] {
        if v != userId {
          assert lists[v] != context;
        }
      }
      ContentsFromLists(base[userId := context.entries]);
    }

    /** The part of `process_query` after routing: append the branch entry to
        `context`, ask the synthesizer, append the answer entry and store the
        list. `context` is either the list stored under `userId` (`shared`)
        or one the store does not hold; on a synthesizer failure the store
        keeps the branch entry only in the first case. */
    method Respond(userId: string, query: string, context: ContextList, entry: ContextEntry, llm: Llm,
                   ghost shared: bool)
      returns (outcome: Result<string, TurnError>)
      requires Valid()
      requires shared <==> userId in lists && context == lists[userId]
      requires shared || context !in lists.Values
      modifies this, context
      ensures Valid()
      ensures var withBranch := old(context.entries) + [entry];
              match Answer(query, withBranch, llm)
              case None =>
                && outcome == Failure(SynthesisFailed)
                && Contents() == if shared then old(Contents())[userId := withBranch] else old(Contents())
              case Some(response) =>
                && outcome == Success(response)
                && Contents() == old(Contents())[userId := withBranch + [ContextEntry(AnswerAgent, query, JString(response))]]
    {
      ghost var before := Contents();
      assert lists.Keys == before.Keys;
      AppendTo(context, userId, entry, before);
      ghost var mid := if shared then before[userId := context.entries] else before;
      var response := Answer(query, context.entries, llm);
      if response.None? {
        return Failure(SynthesisFailed);
      }
      AppendTo(context, userId, ContextEntry(AnswerAgent, query, JString(response.value)), mid);
      Put(userId, context, before);
      return Success(response.value);
    }

    /** `process_query`: the store afterwards and the outcome are those of
        `Turn`, and no two users share a list afterwards. */
    method ProcessQuery(req: Request, replies: Replies, decode: Decoder, llm: Llm)
      returns (outcome: Result<string, TurnError>)
      requires Valid()
      modifies this, lists.Values
      ensures Valid()
      ensures TurnResult(Contents(), outcome) == Turn(old(Contents()), req, replies, decode, llm)
    {
      ghost var before := Contents();
      var context := Get(req.userId);
      assert Contents() == before;

      var intent := ClassType(replies.intentReply, decode);
      if intent.Failure? {
        return Failure(IntentFailed(intent.error));
      }
      var newTask := intent.value == JString(NewTask);
      if newTask {
        context := new ContextList();
      }
      assert Contents() == before;
      var category := CategoryBranch(replies.categoryReply, decode);
      if category.Failure? {
        return Failure(CategoryFailed(category.error));
      }

      var entry := BranchEntry(category.value, req.query, replies.faqMatches, replies.bookingData);
      ghost var withBranch := TurnContext(before, req, replies, decode);
      assert context.entries + [entry] == withBranch;
      outcome := Respond(req.userId, req.query, context, entry, llm, req.userId in lists && !newTask);
      if Answer(req.query, withBranch, llm).Some? {
        TurnAnswered(before, req, replies, decode, llm);
      } else {
        TurnUnanswered(before, req, replies, decode, llm);
      }
    }
  }
}
