/** The chatbot service: conversations kept by session id, one question and
    answer exchange per query, and escalation to a department.

    The conversation collection is the map `sessions` from session id to
    stored conversation. What the store's queries return, the fresh session
    id (`uuidv4()`), the clock and the random sample of general questions
    are parameters of the operations. */
module Chatbot {
  import opened Wrappers
  import Nlp
  import E = EnquirySchema
  import D = CompanyDataSchema
  import C = ConversationSchema
  import opened Cascade
  import SimilarityCache

  const FallbackAnswer := "I'm sorry, I don't have enough information to answer that question specifically. Could you please contact our support team for further assistance?"
  const FallbackActions := ["Contact Support", "Browse FAQ"]
  /** The department a query nothing answers is handed to. */
  const FallbackDepartment := "support"

  /** Why a save is refused: a `required` field of the conversation is
      missing or empty. */
  datatype SaveError = ValidationFailed

  /** What `getGeneralQuestions` returns: a random sample of at most five
      questions of active entries. */
  predicate GeneralSample(general: seq<string>, store: seq<E.KnowledgeEntry>) {
    |general| <= SuggestionLimit &&
    forall i :: 0 <= i < |general| ==> exists e :: e in store && e.isActive && e.question == general[i]
  }

  /** `if (sessionId) findOne(...)`: the stored session a call continues.
      An empty or unknown id continues nothing. */
  function Continued(sessions: map<string, C.ConversationRecord>, sessionId: Option<string>): (r: Option<string>)
    ensures r.Some? <==> sessionId.Some? && sessionId.value != "" && sessionId.value in sessions
    ensures r.Some? ==> r == sessionId
  {
    if sessionId.Some? && sessionId.value != "" && sessionId.value in sessions then sessionId else None
  }

  /** The session id a call ends up using: the continued one, or the fresh
      one in place of a missing, empty or unknown id. */
  function SessionFor(sessions: map<string, C.ConversationRecord>, sessionId: Option<string>, freshId: string): string {
    Continued(sessions, sessionId).GetOr(freshId)
  }

  /** The conversation a call works on before the exchange. */
  function Opening(sessions: map<string, C.ConversationRecord>, sessionId: Option<string>,
                   context: Option<C.Context>, freshId: string): C.ConversationRecord
  {
    match Continued(sessions, sessionId)
    case Some(id) => sessions[id]
    case None => C.NewConversation(freshId, context.GetOr(C.EmptyContext))
  }

  /** The store once the conversation a call works on exists: `create`
      saves a new conversation at once. */
  function Opened(sessions: map<string, C.ConversationRecord>, sessionId: Option<string>,
                  context: Option<C.Context>, freshId: string): map<string, C.ConversationRecord>
  {
    if Continued(sessions, sessionId).Some? then sessions
    else sessions[freshId := C.NewConversation(freshId, context.GetOr(C.EmptyContext))]
  }

  /** The conversation a call opens carries the id the call reports, and
      opening keeps the store keyed by session id. */
  lemma OpeningKeyed(sessions: map<string, C.ConversationRecord>, sessionId: Option<string>,
                     context: Option<C.Context>, freshId: string)
    requires C.KeyedBySessionId(sessions) && freshId != ""
    ensures Opening(sessions, sessionId, context, freshId).sessionId == SessionFor(sessions, sessionId, freshId)
    ensures C.WellFormed(Opening(sessions, sessionId, context, freshId))
    ensures C.KeyedBySessionId(Opened(sessions, sessionId, context, freshId))
    ensures SessionFor(sessions, sessionId, freshId) in Opened(sessions, sessionId, context, freshId)
  {
  }

  /** Saving a well-formed conversation under its own id keeps the store
      keyed by session id. */
  lemma SaveKeepsKeyed(sessions: map<string, C.ConversationRecord>, c: C.ConversationRecord)
    requires C.KeyedBySessionId(sessions) && C.WellFormed(c)
    ensures C.KeyedBySessionId(sessions[c.sessionId := c])
  {
  }

  /** The user's message, with the detected intent and full confidence. */
  function UserMessage(pre: Nlp.Preprocessor, question: string, now: int): C.Message {
    C.Message(C.User, question, now,
      Some(C.MessageMetadata(Some(Nlp.IntentName(Nlp.DetectIntent(pre, question))), Some(1.0), None)))
  }

  /** The assistant's message carrying an answer. */
  function AnswerMessage(response: ChatResponse, now: int): C.Message {
    C.Message(C.Assistant, response.answer, now,
      Some(C.MessageMetadata(None, Some(response.confidence), response.suggestedQuestions)))
  }

  /** The assistant's message when nothing answers. */
  function FallbackMessage(now: int): C.Message {
    C.Message(C.Assistant, FallbackAnswer, now, Some(C.MessageMetadata(None, Some(0.0), Some(FallbackActions))))
  }

  /** An entry's category and department become the conversation's; a
      document match leaves the context alone. */
  function MergeContext(context: C.Context, metadata: MatchMetadata): C.Context {
    match metadata
    case EntryMatch(category, department, _) =>
      context.(category := Some(E.CategoryName(category)), department := Some(E.DepartmentName(department)))
    case _ => context
  }

  /** A conversation after one exchange. */
  function Exchange(pre: Nlp.Preprocessor, conversation: C.ConversationRecord, question: string,
                    found: Option<ChatResponse>, now: int): (r: C.ConversationRecord)
    ensures r.sessionId == conversation.sessionId && r.userId == conversation.userId
    ensures |r.messages| == |conversation.messages| + 2
    ensures r.status == conversation.status || r.status == C.Escalated
  {
    var asked := conversation.messages + [UserMessage(pre, question, now)];
    match found
    case Some(response) =>
      conversation.(messages := asked + [AnswerMessage(response, now)],
                    context := MergeContext(conversation.context, response.metadata))
    case None =>
      conversation.(messages := asked + [FallbackMessage(now)],
                    status := C.Escalated, escalatedTo := Some(FallbackDepartment))
  }

  /** The response `handleQuery` returns. */
  function Reply(found: Option<ChatResponse>, id: string, general: seq<string>): (r: ChatResponse)
    ensures r.sessionId == Some(id)
    ensures found.Some? ==> r.(sessionId := None) == found.value.(sessionId := None)
    ensures found.None? ==> r.source == Fallback && r.confidence == 0.0 && r.suggestedQuestions == Some(general)
    ensures found.None? ==> r.answer == FallbackAnswer && r.metadata == NoMatch
  {
    match found
    case Some(response) => response.(sessionId := Some(id))
    case None => ChatResponse(FallbackAnswer, 0.0, Fallback, Some(general), NoMatch, Some(id))
  }

  /** What `handleQuery` leaves behind: its result and the store. */
  datatype Outcome = Outcome(result: Result<ChatResponse, SaveError>, sessions: map<string, C.ConversationRecord>)

  /** `handleQuery` given what the match returned: open the conversation,
      record the exchange, and save it if the schema accepts it. */
  function Query(pre: Nlp.Preprocessor, sessions: map<string, C.ConversationRecord>, question: string,
                 sessionId: Option<string>, context: Option<C.Context>, freshId: string, now: int,
                 found: Option<ChatResponse>, general: seq<string>): (o: Outcome)
    ensures var id := SessionFor(sessions, sessionId, freshId);
      && o.sessions.Keys == sessions.Keys + {id}
      && (forall other :: other in sessions && other != id ==> o.sessions[other] == sessions[other])
      && (o.result.Success? ==> o.result.value.sessionId == Some(id))
      && (C.KeyedBySessionId(sessions) && freshId != "" ==> C.KeyedBySessionId(o.sessions))
    ensures var next := Exchange(pre, Opening(sessions, sessionId, context, freshId), question, found, now);
      && (o.result.Success? <==> C.WellFormed(next))
      && (o.result.Success? ==> o.sessions[SessionFor(sessions, sessionId, freshId)] == next)
      && (o.result.Success? ==> o.result.value == Reply(found, SessionFor(sessions, sessionId, freshId), general))
      && (o.result.Failure? ==> o.sessions == Opened(sessions, sessionId, context, freshId))
  {
    var id := SessionFor(sessions, sessionId, freshId);
    var created := Opened(sessions, sessionId, context, freshId);
    var next := Exchange(pre, Opening(sessions, sessionId, context, freshId), question, found, now);
    assert C.KeyedBySessionId(sessions) && freshId != "" && C.WellFormed(next) ==>
      C.KeyedBySessionId(created[id := next]) by {
      if C.KeyedBySessionId(sessions) && freshId != "" && C.WellFormed(next) {
        OpeningKeyed(sessions, sessionId, context, freshId);
        SaveKeepsKeyed(created, next);
      }
    }
    if C.WellFormed(next) then Outcome(Success(Reply(found, id, general)), created[id := next])
    else Outcome(Failure(ValidationFailed), created)
  }

  /** A first query without a session id opens one under the fresh id; a
      second query with the id the first reported continues it, whatever
      fresh id it was offered, and the session then holds both exchanges. */
  lemma SessionContinues(pre: Nlp.Preprocessor, sessions: map<string, C.ConversationRecord>,
                         first: string, second: string, idA: string, idB: string, now: int,
                         found1: Option<ChatResponse>, found2: Option<ChatResponse>, general: seq<string>)
    requires C.KeyedBySessionId(sessions) && idA != "" && idA !in sessions
    requires first != "" && second != ""
    requires found1.Some? ==> found1.value.answer != ""
    requires found2.Some? ==> found2.value.answer != ""
    ensures var o1 := Query(pre, sessions, first, None, None, idA, now, found1, general);
      o1.result.Success? && o1.result.value.sessionId == Some(idA) &&
      (idB != idA && idB !in sessions ==> idB !in o1.sessions)
    ensures var o1 := Query(pre, sessions, first, None, None, idA, now, found1, general);
      var o2 := Query(pre, o1.sessions, second, Some(idA), None, idB, now, found2, general);
      && o2.result.Success? && o2.result.value.sessionId == Some(idA)
      && o2.sessions.Keys == sessions.Keys + {idA}
      && o2.sessions[idA].messages[..2] == o1.sessions[idA].messages
      && |o2.sessions[idA].messages| == 4
  {
    var opening := C.NewConversation(idA, C.EmptyContext);
    ExchangeSaveable(pre, opening, first, found1, now);
    ExchangeAppendsTwo(pre, opening, first, found1, now);
    var afterFirst := Exchange(pre, opening, first, found1, now);
    var o1 := Query(pre, sessions, first, None, None, idA, now, found1, general);
    assert o1.sessions == sessions[idA := opening][idA := afterFirst];
    ExchangeSaveable(pre, afterFirst, second, found2, now);
    ExchangeAppendsTwo(pre, afterFirst, second, found2, now);
  }

  /** An exchange appends the user's message and one assistant message and
      keeps every earlier message, the session id and the user. */
  lemma ExchangeAppendsTwo(pre: Nlp.Preprocessor, conversation: C.ConversationRecord, question: string,
                           found: Option<ChatResponse>, now: int)
    ensures var next := Exchange(pre, conversation, question, found, now);
      var n := |conversation.messages|;
      && |next.messages| == n + 2
      && next.messages[..n] == conversation.messages
      && next.messages[n].role == C.User && next.messages[n].content == question
      && next.messages[n].timestamp == now
      && next.messages[n].metadata == Some(C.MessageMetadata(Some(Nlp.IntentName(Nlp.DetectIntent(pre, question))), Some(1.0), None))
      && next.messages[n + 1].role == C.Assistant
      && next.sessionId == conversation.sessionId && next.userId == conversation.userId
  {
  }

  /** With an answer: the assistant repeats it with its confidence and
      suggestions, the status is untouched, and an entry's category and
      department replace the context's. */
  lemma ExchangeOnAnswer(pre: Nlp.Preprocessor, conversation: C.ConversationRecord, question: string,
                         response: ChatResponse, now: int)
    ensures var next := Exchange(pre, conversation, question, Some(response), now);
      var last := next.messages[|next.messages| - 1];
      && last.content == response.answer
      && last.metadata == Some(C.MessageMetadata(None, Some(response.confidence), response.suggestedQuestions))
      && next.status == conversation.status && next.escalatedTo == conversation.escalatedTo
      && (response.metadata.EntryMatch? ==>
            next.context.category == Some(E.CategoryName(response.metadata.category)) &&
            next.context.department == Some(E.DepartmentName(response.metadata.department)))
      && (!response.metadata.EntryMatch? ==> next.context == conversation.context)
      && next.context.lastQuestion == conversation.context.lastQuestion
      && next.context.userPreferences == conversation.context.userPreferences
  {
  }

  /** Without an answer: the assistant apologises with confidence 0, and the
      conversation is escalated to support with its context untouched. */
  lemma ExchangeOnFallback(pre: Nlp.Preprocessor, conversation: C.ConversationRecord, question: string, now: int)
    ensures var next := Exchange(pre, conversation, question, None, now);
      var last := next.messages[|next.messages| - 1];
      && last.content == FallbackAnswer
      && last.metadata == Some(C.MessageMetadata(None, Some(0.0), Some(FallbackActions)))
      && next.status == C.Escalated && next.escalatedTo == Some(FallbackDepartment)
      && next.context == conversation.context
  {
  }

  /** No exchange makes a conversation active again. */
  lemma ExchangeNeverReactivates(pre: Nlp.Preprocessor, conversation: C.ConversationRecord, question: string,
                                 found: Option<ChatResponse>, now: int)
    ensures var next := Exchange(pre, conversation, question, found, now);
      next.status == conversation.status || next.status == C.Escalated
    ensures conversation.status != C.Active ==>
      Exchange(pre, conversation, question, found, now).status != C.Active
  {
  }

  /** The save after an exchange is accepted exactly when the question is
      non-empty, for a saved conversation and an answer with text. */
  lemma ExchangeSaveable(pre: Nlp.Preprocessor, conversation: C.ConversationRecord, question: string,
                         found: Option<ChatResponse>, now: int)
    requires C.WellFormed(conversation)
    requires found.Some? ==> found.value.answer != ""
    ensures C.WellFormed(Exchange(pre, conversation, question, found, now)) <==> question != ""
  {
    var next := Exchange(pre, conversation, question, found, now);
    var n := |conversation.messages|;
    assert next.messages[n].content == question;
    assert forall i :: 0 <= i < n ==> next.messages[i] == conversation.messages[i];
  }

  /** `escalateConversation`'s update of one stored conversation. */
  function Escalation(conversation: C.ConversationRecord, department: string, now: int): (r: C.ConversationRecord)
    ensures r.status == C.Escalated && r.escalatedTo == Some(department)
    ensures r.sessionId == conversation.sessionId && |r.messages| == |conversation.messages| + 1
  {
    conversation.(status := C.Escalated, escalatedTo := Some(department),
      messages := conversation.messages +
        [C.Message(C.System, "Conversation escalated to " + department + " department", now, None)])
  }

  /** Escalation appends one system message naming the department, keeps
      the rest of the conversation, and keeps it saveable. */
  lemma EscalationKeepsHistory(conversation: C.ConversationRecord, department: string, now: int)
    ensures var next := Escalation(conversation, department, now);
      && next.messages[..|conversation.messages|] == conversation.messages
      && |next.messages| == |conversation.messages| + 1
      && next.messages[|conversation.messages|] ==
         C.Message(C.System, "Conversation escalated to " + department + " department", now, None)
      && next.status == C.Escalated && next.escalatedTo == Some(department)
      && next.sessionId == conversation.sessionId && next.userId == conversation.userId
      && next.context == conversation.context
      && (C.WellFormed(conversation) ==> C.WellFormed(next))
  {
    var next := Escalation(conversation, department, now);
    assert forall i :: 0 <= i < |conversation.messages| ==> next.messages[i] == conversation.messages[i];
  }

  /** A conversation document loaded from the store and updated in place
      before it is saved. */
  class Conversation {
    var sessionId: string
    var userId: Option<string>
    var messages: seq<C.Message>
    var context: C.Context
    var status: C.Status
    var escalatedTo: Option<string>

    constructor Load(record: C.ConversationRecord)
      ensures Record() == record
    {
      sessionId := record.sessionId;
      userId := record.userId;
      messages := record.messages;
      context := record.context;
      status := record.status;
      escalatedTo := record.escalatedTo;
    }

    /** What `save` writes. */
    function Record(): C.ConversationRecord
      reads this
    {
      C.ConversationRecord(sessionId, userId, messages, context, status, escalatedTo)
    }

    /** One exchange, in place: the question, then the answer (and the
        context it brings) or the fallback and an escalation to support. */
    method RecordExchange(pre: Nlp.Preprocessor, question: string, found: Option<ChatResponse>, now: int)
      modifies this
      ensures Record() == Exchange(pre, old(Record()), question, found, now)
    {
      Push(UserMessage(pre, question, now));
      if found.Some? {
        var response := found.value;
        Push(AnswerMessage(response, now));
        match response.metadata {
          case EntryMatch(category, department, _) =>
            context := context.(category := Some(E.CategoryName(category)));
            context := context.(department := Some(E.DepartmentName(department)));
          case _ =>
        }
      } else {
        Push(FallbackMessage(now));
        status := C.Escalated;
        escalatedTo := Some(FallbackDepartment);
      }
    }

    /** `messages.push(m)`. */
    method Push(m: C.Message)
      modifies this`messages
      ensures messages == old(messages) + [m]
    {
      messages := messages + [m];
    }
  }

  class ChatbotService {
    const pre: Nlp.Preprocessor
    /** The similarity memo table, keyed by the pair of texts. */
    const cache: SimilarityCache.PairKeyedCache
    var sessions: map<string, C.ConversationRecord>

    /** The cache agrees with the service's preprocessing and holds true
        similarities; the stored conversations are keyed by session id. */
    ghost predicate Valid()
      reads this, cache
    {
      cache.pre == pre && cache.Valid() && C.KeyedBySessionId(sessions)
    }

    constructor (pre: Nlp.Preprocessor)
      ensures Valid() && this.pre == pre && sessions == map[] && fresh(cache)
    {
      this.pre := pre;
      cache := new SimilarityCache.PairKeyedCache(pre);
      sessions := map[];
    }

    /** `getConversationHistory(sessionId)`. */
    function History(sessionId: string): (r: Option<C.ConversationRecord>)
      reads this
      ensures r.Some? <==> sessionId in sessions
      ensures r.Some? ==> r.value == sessions[sessionId]
      ensures C.KeyedBySessionId(sessions) && r.Some? ==> r.value.sessionId == sessionId && C.WellFormed(r.value)
    {
      if sessionId in sessions then Some(sessions[sessionId]) else None
    }

    /** `findBestMatch`: the three stages, the second as a loop over the
        candidates through the similarity cache. */
    method FindBestMatch(question: string, hits: seq<ScoredEntry>, store: seq<E.KnowledgeEntry>,
                         docHits: seq<ScoredDocument>) returns (r: Option<ChatResponse>)
      requires Valid()
      modifies cache
      ensures Valid() && sessions == old(sessions)
      ensures r == Resolve(pre, question, hits, store, docHits)
    {
      var direct := DirectMatches(hits);
      if |direct| > 0 && direct[0].score > ExactScore {
        var best := direct[0].entry;
        return Some(EntryAnswer(best, EntryConfidence(best), EnquiryDatabase, store));
      }
      var candidates := SemanticCandidates(store);
      ghost var sims := Similarities(pre, question, candidates);
      var bestSimilarity := 0.0;
      var bestEnquiry: Option<E.KnowledgeEntry> := None;
      ghost var bestIndex: Option<nat> := None;
      for i := 0 to |candidates|
        invariant Valid()
        invariant ScanSimilar(sims, i) == Scan(bestIndex, bestSimilarity)
        invariant bestIndex.Some? ==> bestIndex.value < i && bestEnquiry == Some(candidates[bestIndex.value])
        invariant bestIndex.None? ==> bestEnquiry.None?
      {
        var similarity := cache.CalculateSimilarity(question, candidates[i].question);
        if similarity > bestSimilarity && similarity > SimilarityThreshold {
          bestSimilarity := similarity;
          bestEnquiry := Some(candidates[i]);
          bestIndex := Some(i);
        }
      }
      if bestEnquiry.Some? {
        return Some(EntryAnswer(bestEnquiry.value, bestSimilarity, SemanticMatch, store));
      }
      var documents := TopDocuments(docHits);
      if |documents| > 0 {
        return Some(DocumentAnswer(documents[0].document));
      }
      return None;
    }

    /** `handleQuery`: continue or open the conversation, record the
        question and the answer (or the fallback and an escalation to
        support), save, and answer with the session id. A save the schema
        refuses fails the call after a new conversation was already
        created. */
    method HandleQuery(question: string, sessionId: Option<string>, context: Option<C.Context>,
                       freshId: string, now: int, hits: seq<ScoredEntry>, store: seq<E.KnowledgeEntry>,
                       docHits: seq<ScoredDocument>, general: seq<string>)
      returns (r: Result<ChatResponse, SaveError>)
      requires Valid()
      requires freshId != "" && freshId !in sessions
      requires GeneralSample(general, store)
      modifies this, cache
      ensures Valid()
      ensures var o := Query(pre, old(sessions), question, sessionId, context, freshId, now,
                             Resolve(pre, question, hits, store, docHits), general);
        r == o.result && sessions == o.sessions
    {
      var found := FindBestMatch(question, hits, store, docHits);
      r := Answer(question, sessionId, context, freshId, now, found, general);
    }

    /** The rest of `handleQuery` once the match is known: open the
        conversation, record the exchange, save and reply. */
    method Answer(question: string, sessionId: Option<string>, context: Option<C.Context>,
                  freshId: string, now: int, found: Option<ChatResponse>, general: seq<string>)
      returns (r: Result<ChatResponse, SaveError>)
      requires Valid()
      requires freshId != "" && freshId !in sessions
      modifies this
      ensures Valid()
      ensures var o := Query(pre, old(sessions), question, sessionId, context, freshId, now, found, general);
        r == o.result && sessions == o.sessions
    {
      OpeningKeyed(sessions, sessionId, context, freshId);
      var conversation := OpenConversation(sessionId, context, freshId);
      conversation.RecordExchange(pre, question, found, now);
      if !C.WellFormed(conversation.Record()) {
        return Failure(ValidationFailed);
      }
      sessions := sessions[conversation.sessionId := conversation.Record()];
      r := Success(Reply(found, conversation.sessionId, general));
    }

    /** Find the session a call continues, or create and save a new one
        under the fresh id. */
    method OpenConversation(sessionId: Option<string>, context: Option<C.Context>, freshId: string)
      returns (conversation: Conversation)
      requires freshId != "" && freshId !in sessions
      modifies this
      ensures fresh(conversation)
      ensures conversation.Record() == Opening(old(sessions), sessionId, context, freshId)
      ensures conversation.sessionId == Opening(old(sessions), sessionId, context, freshId).sessionId
      ensures sessions == Opened(old(sessions), sessionId, context, freshId)
    {
      var continued := Continued(sessions, sessionId);
      if continued.Some? {
        conversation := new Conversation.Load(sessions[continued.value]);
      } else {
        conversation := new Conversation.Load(C.NewConversation(freshId, context.GetOr(C.EmptyContext)));
        sessions := sessions[freshId := conversation.Record()];
      }
    }

    /** `escalateConversation`: a direct update of the stored conversation;
        an unknown session id changes nothing. */
    method EscalateConversation(sessionId: string, department: string, now: int)
      requires Valid()
      modifies this
      ensures Valid()
      ensures sessionId in old(sessions) ==>
        sessions == old(sessions)[sessionId := Escalation(old(sessions)[sessionId], department, now)]
      ensures sessionId !in old(sessions) ==> sessions == old(sessions)
    {
      if sessionId in sessions {
        EscalationKeepsHistory(sessions[sessionId], department, now);
        sessions := sessions[sessionId := Escalation(sessions[sessionId], department, now)];
      }
    }
  }

  /** Two queries from one client, once each match is known: the first
      opens a session under the fresh id, the second continues it by the id
      the first reported, and each adds two messages to it. */
  method TwoQueriesOneSession(pre: Nlp.Preprocessor, first: string, second: string,
                              idA: string, idB: string, now: int,
                              found1: Option<ChatResponse>, found2: Option<ChatResponse>)
    returns (sessionId: string, messageCount: nat)
    requires first != "" && second != ""
    requires idA != "" && idB != "" && idA != idB
    requires found1.Some? ==> found1.value.answer != ""
    requires found2.Some? ==> found2.value.answer != ""
    ensures sessionId == idA && messageCount == 4
  {
    var service := new ChatbotService(pre);
    SessionContinues(pre, map[], first, second, idA, idB, now, found1, found2, []);
    var r1 := service.Answer(first, None, None, idA, now, found1, []);
    var r2 := service.Answer(second, r1.value.sessionId, None, idB, now, found2, []);
    sessionId := r2.value.sessionId.value;
    messageCount := |service.sessions[sessionId].messages|;
  }
}
