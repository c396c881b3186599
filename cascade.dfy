/** The three-stage answer search of the chatbot service (`findBestMatch`)
    as a function of what the store returns: exact text search over the
    knowledge base, then token-set similarity over active entries, then text
    search over public company documents.

    The store's text index and its relevance scores are not modelled: each
    text search is an input, the hits in descending score order, before the
    query's own `isActive` / `accessLevel` filters and its `.limit(n)`, which
    are applied here. `store` is the knowledge base in natural order. */
module Cascade {
  import opened Wrappers
  import opened Seqs
  import Nlp
  import E = EnquirySchema
  import D = CompanyDataSchema

  /** A knowledge-base entry with its text-search score. */
  datatype ScoredEntry = ScoredEntry(entry: E.KnowledgeEntry, score: real)

  /** A company document with its text-search score. */
  datatype ScoredDocument = ScoredDocument(document: D.CompanyDocument, score: real)

  /** Which stage produced an answer. */
  datatype Source = EnquiryDatabase | SemanticMatch | CompanyData | Fallback

  function SourceName(s: Source): string {
    match s
    case EnquiryDatabase => "enquiry_database"
    case SemanticMatch => "semantic_match"
    case CompanyData => "company_data"
    case Fallback => "fallback"
  }

  /** The `metadata` object of a response: the matched entry's category,
      department and tags, the matched document's type, title and keywords,
      or nothing besides the session id. */
  datatype MatchMetadata =
    | EntryMatch(category: E.Category, department: E.Department, tags: seq<string>)
    | DocumentMatch(dataType: D.DataType, title: string, keywords: seq<string>)
    | NoMatch

  /** `sessionId` is the id the service adds to `metadata` on the way out. */
  datatype ChatResponse = ChatResponse(
    answer: string,
    confidence: real,
    source: Source,
    suggestedQuestions: Option<seq<string>>,
    metadata: MatchMetadata,
    sessionId: Option<string>)

  const DirectLimit: nat := 5
  const ExactScore: real := 2.0
  const CandidateLimit: nat := 100
  const SimilarityThreshold: real := 0.5
  const DocumentLimit: nat := 3
  const DocumentConfidence: real := 0.7
  const SuggestionLimit: nat := 5
  /** `confidenceScore || 0.9`: what an entry without a usable score is worth. */
  const DefaultConfidence: real := 0.9
  const CompanyPrefix := "Based on our company information: "

  predicate ActiveHit(h: ScoredEntry) {
    h.entry.isActive
  }

  predicate ActiveEntry(e: E.KnowledgeEntry) {
    e.isActive
  }

  /** What the third query admits: active and public. */
  predicate Listed(h: ScoredDocument) {
    h.document.isActive && h.document.accessLevel == D.Public
  }

  /** Stage 1's query: the best five active hits. */
  function DirectMatches(hits: seq<ScoredEntry>): seq<ScoredEntry> {
    Take(Filter(ActiveHit, hits), DirectLimit)
  }

  /** Stage 2's query: the first hundred active entries. */
  function SemanticCandidates(store: seq<E.KnowledgeEntry>): seq<E.KnowledgeEntry> {
    Take(Filter(ActiveEntry, store), CandidateLimit)
  }

  /** Stage 3's query: the best three active public documents. */
  function TopDocuments(docHits: seq<ScoredDocument>): seq<ScoredDocument> {
    Take(Filter(Listed, docHits), DocumentLimit)
  }

  /** `getSuggestedQuestions(category)`: the questions of the first five
      active entries of that category. */
  function SuggestedQuestions(store: seq<E.KnowledgeEntry>, category: E.Category): (r: seq<string>)
    ensures |r| <= SuggestionLimit
    ensures forall i :: 0 <= i < |r| ==>
      exists e :: e in store && e.isActive && e.category == category && e.question == r[i]
    ensures |r| < SuggestionLimit ==>
      forall e :: e in store && e.isActive && e.category == category ==> e.question in r
  {
    var filtered := Filter((e: E.KnowledgeEntry) => e.isActive && e.category == category, store);
    var picked := Take(filtered, SuggestionLimit);
    forall i | 0 <= i < |picked|
      ensures picked[i] in picked && picked[i] in store && picked[i].isActive && picked[i].category == category
    {
      assert picked[i] == filtered[i] && filtered[i] in filtered;
    }
    var r := seq(|picked|, i requires 0 <= i < |picked| => picked[i].question);
    assert forall i :: 0 <= i < |r| ==> picked[i].question == r[i];
    assert forall e :: e in picked ==> e.question in r by {
      forall e | e in picked ensures e.question in r {
        var i :| 0 <= i < |picked| && picked[i] == e;
        assert r[i] == e.question;
      }
    }
    r
  }

  /** `confidenceScore || 0.9`: an absent score and a zero score both fall
      back to the default. */
  function EntryConfidence(e: E.KnowledgeEntry): (c: real)
    ensures e.confidenceScore.Some? && e.confidenceScore.value != 0.0 ==> c == e.confidenceScore.value
    ensures e.confidenceScore.None? || e.confidenceScore.value == 0.0 ==> c == DefaultConfidence
  {
    match e.confidenceScore
    case Some(c) => if c == 0.0 then DefaultConfidence else c
    case None => DefaultConfidence
  }

  /** The response built from a matched entry (stages 1 and 2). */
  function EntryAnswer(e: E.KnowledgeEntry, confidence: real, source: Source, store: seq<E.KnowledgeEntry>): ChatResponse {
    ChatResponse(e.answer, confidence, source, Some(SuggestedQuestions(store, e.category)),
      EntryMatch(e.category, e.department, e.tags), None)
  }

  /** The response built from a matched document (stage 3). */
  function DocumentAnswer(d: D.CompanyDocument): ChatResponse {
    ChatResponse(CompanyPrefix + d.content, DocumentConfidence, CompanyData, None,
      DocumentMatch(d.dataType, d.title, d.keywords), None)
  }

  /** The similarity of the question to each candidate's question, in
      candidate order. */
  function Similarities(pre: Nlp.Preprocessor, question: string, candidates: seq<E.KnowledgeEntry>): (s: seq<real>)
    ensures |s| == |candidates|
    ensures forall j :: 0 <= j < |s| ==> 0.0 <= s[j] <= 1.0
  {
    seq(|candidates|, j requires 0 <= j < |candidates| => Nlp.Similarity(pre, question, candidates[j].question))
  }

  /** The similarity loop's state after visiting `n` candidates. */
  datatype Scan = Scan(best: Option<nat>, similarity: real)

  /** The similarity loop over the first `n` similarities: a candidate
      replaces the current best only when strictly more similar and above
      0.5. */
  function ScanSimilar(sims: seq<real>, n: nat): (r: Scan)
    requires n <= |sims|
    ensures r.best.None? ==> r.similarity == 0.0
    ensures r.best.Some? ==>
      (r.best.value < n && r.similarity > SimilarityThreshold && r.similarity == sims[r.best.value])
  {
    if n == 0 then Scan(None, 0.0)
    else
      var previous := ScanSimilar(sims, n - 1);
      if sims[n - 1] > previous.similarity && sims[n - 1] > SimilarityThreshold then Scan(Some(n - 1), sims[n - 1])
      else previous
  }

  /** Candidate `w` is the first of the most similar among the first `n`,
      and more similar than 0.5. */
  predicate BestAmong(sims: seq<real>, n: nat, w: int)
    requires n <= |sims|
  {
    && 0 <= w < n
    && sims[w] > SimilarityThreshold
    && (forall j :: 0 <= j < w ==> sims[j] < sims[w])
    && (forall j :: w < j < n ==> sims[j] <= sims[w])
  }

  /** None of the first `n` candidates is more similar than 0.5. */
  predicate NoneSimilar(sims: seq<real>, n: nat)
    requires n <= |sims|
  {
    forall j :: 0 <= j < n ==> sims[j] <= SimilarityThreshold
  }

  /** The loop finds nothing exactly when no candidate clears 0.5, and
      otherwise the first candidate of greatest similarity: on a tie the
      earlier candidate is kept. */
  lemma {:induction false} ScanFindsFirstBest(sims: seq<real>, n: nat)
    requires n <= |sims|
    ensures ScanSimilar(sims, n).best.None? <==> NoneSimilar(sims, n)
    ensures ScanSimilar(sims, n).best.Some? ==> BestAmong(sims, n, ScanSimilar(sims, n).best.value)
  {
    if n > 0 {
      ScanFindsFirstBest(sims, n - 1);
      ScanStep(sims, n);
    }
  }

  /** One visit of the loop keeps the characterisation. */
  lemma ScanStep(sims: seq<real>, n: nat)
    requires 0 < n <= |sims|
    requires ScanSimilar(sims, n - 1).best.None? <==> NoneSimilar(sims, n - 1)
    requires ScanSimilar(sims, n - 1).best.Some? ==> BestAmong(sims, n - 1, ScanSimilar(sims, n - 1).best.value)
    ensures ScanSimilar(sims, n).best.None? <==> NoneSimilar(sims, n)
    ensures ScanSimilar(sims, n).best.Some? ==> BestAmong(sims, n, ScanSimilar(sims, n).best.value)
  {
    var previous := ScanSimilar(sims, n - 1);
    if previous.best.Some? {
      assert forall j :: 0 <= j < n - 1 ==> sims[j] <= previous.similarity;
    }
  }

  /** At most one candidate is the first best. */
  lemma BestAmongUnique(sims: seq<real>, n: nat, v: int, w: int)
    requires n <= |sims|
    requires BestAmong(sims, n, v) && BestAmong(sims, n, w)
    ensures v == w
  {
  }

  /** Index `i` is the first hit the stage-1 query keeps. */
  predicate FirstActive(hits: seq<ScoredEntry>, i: int) {
    0 <= i < |hits| && hits[i].entry.isActive && forall j :: 0 <= j < i ==> !hits[j].entry.isActive
  }

  /** Index `i` is the first hit the stage-3 query keeps. */
  predicate FirstListed(docHits: seq<ScoredDocument>, i: int) {
    0 <= i < |docHits| && Listed(docHits[i]) && forall j :: 0 <= j < i ==> !Listed(docHits[j])
  }

  /** Stage 1 answers: the best active hit scores above 2. */
  predicate ExactFires(hits: seq<ScoredEntry>) {
    exists i :: 0 <= i < |hits| && FirstActive(hits, i) && hits[i].score > ExactScore
  }

  /** `findBestMatch`: `None` stands for `null`. */
  function Resolve(pre: Nlp.Preprocessor, question: string, hits: seq<ScoredEntry>,
                   store: seq<E.KnowledgeEntry>, docHits: seq<ScoredDocument>): (r: Option<ChatResponse>)
    ensures r.Some? ==> r.value.source != Fallback && r.value.sessionId.None?
    ensures r.Some? ==> (r.value.source == CompanyData <==> r.value.suggestedQuestions.None?)
    ensures TopDocuments(docHits) != [] ==> r.Some?
  {
    var direct := DirectMatches(hits);
    if |direct| > 0 && direct[0].score > ExactScore then
      Some(EntryAnswer(direct[0].entry, EntryConfidence(direct[0].entry), EnquiryDatabase, store))
    else
      var candidates := SemanticCandidates(store);
      var scan := ScanSimilar(Similarities(pre, question, candidates), |candidates|);
      if scan.best.Some? then
        Some(EntryAnswer(candidates[scan.best.value], scan.similarity, SemanticMatch, store))
      else
        var documents := TopDocuments(docHits);
        if |documents| > 0 then Some(DocumentAnswer(documents[0].document)) else None
  }

  lemma DirectHead(hits: seq<ScoredEntry>)
    ensures |DirectMatches(hits)| > 0 <==> exists i :: FirstActive(hits, i)
    ensures forall i :: FirstActive(hits, i) ==> |DirectMatches(hits)| > 0 && DirectMatches(hits)[0] == hits[i]
  {
    FilterHead(ActiveHit, hits);
    forall i | FirstActive(hits, i)
      ensures |DirectMatches(hits)| > 0 && DirectMatches(hits)[0] == hits[i]
    {
      FilterFirst(ActiveHit, hits, i);
    }
    if |DirectMatches(hits)| > 0 {
      var i :| 0 <= i < |hits| && ActiveHit(hits[i]) && Filter(ActiveHit, hits)[0] == hits[i] &&
        forall j :: 0 <= j < i ==> !ActiveHit(hits[j]);
      assert FirstActive(hits, i);
    }
  }

  lemma DocumentHead(docHits: seq<ScoredDocument>)
    ensures |TopDocuments(docHits)| > 0 <==> exists i :: 0 <= i < |docHits| && Listed(docHits[i])
    ensures forall i :: FirstListed(docHits, i) ==> |TopDocuments(docHits)| > 0 && TopDocuments(docHits)[0] == docHits[i]
  {
    FilterHead(Listed, docHits);
    forall i | FirstListed(docHits, i)
      ensures |TopDocuments(docHits)| > 0 && TopDocuments(docHits)[0] == docHits[i]
    {
      FilterFirst(Listed, docHits, i);
    }
  }

  /** Stage 1 decides exactly when the first active hit scores above 2; its
      answer is that entry's, with its stored confidence or 0.9. */
  lemma ExactStage(pre: Nlp.Preprocessor, question: string, hits: seq<ScoredEntry>,
                   store: seq<E.KnowledgeEntry>, docHits: seq<ScoredDocument>)
    ensures ExactFires(hits) <==>
      Resolve(pre, question, hits, store, docHits).Some? &&
      Resolve(pre, question, hits, store, docHits).value.source == EnquiryDatabase
    ensures forall i :: FirstActive(hits, i) && hits[i].score > ExactScore ==>
      Resolve(pre, question, hits, store, docHits) ==
        Some(EntryAnswer(hits[i].entry, EntryConfidence(hits[i].entry), EnquiryDatabase, store))
  {
    DirectHead(hits);
  }

  /** Stage 2 decides exactly when stage 1 does not and some candidate is
      more similar than 0.5; its answer is the first most similar candidate,
      with that similarity as confidence. */
  lemma SemanticStage(pre: Nlp.Preprocessor, question: string, hits: seq<ScoredEntry>,
                      store: seq<E.KnowledgeEntry>, docHits: seq<ScoredDocument>)
    ensures var candidates := SemanticCandidates(store);
      var sims := Similarities(pre, question, candidates);
      (!ExactFires(hits) && !NoneSimilar(sims, |sims|)) <==>
      Resolve(pre, question, hits, store, docHits).Some? &&
      Resolve(pre, question, hits, store, docHits).value.source == SemanticMatch
    ensures var candidates := SemanticCandidates(store);
      var sims := Similarities(pre, question, candidates);
      forall w :: !ExactFires(hits) && BestAmong(sims, |sims|, w) ==>
        Resolve(pre, question, hits, store, docHits) ==
          Some(EntryAnswer(candidates[w], Nlp.Similarity(pre, question, candidates[w].question), SemanticMatch, store))
  {
    DirectHead(hits);
    var candidates := SemanticCandidates(store);
    var sims := Similarities(pre, question, candidates);
    ScanFindsFirstBest(sims, |sims|);
    forall w | !ExactFires(hits) && BestAmong(sims, |sims|, w)
      ensures Resolve(pre, question, hits, store, docHits) ==
          Some(EntryAnswer(candidates[w], Nlp.Similarity(pre, question, candidates[w].question), SemanticMatch, store))
    {
      BestAmongUnique(sims, |sims|, ScanSimilar(sims, |sims|).best.value, w);
    }
  }

  /** Stage 3 decides exactly when the first two do not and some hit is an
      active public document; its answer is the first such document's
      content behind a fixed prefix, with confidence 0.7 and no suggested
      questions. */
  lemma DocumentStage(pre: Nlp.Preprocessor, question: string, hits: seq<ScoredEntry>,
                      store: seq<E.KnowledgeEntry>, docHits: seq<ScoredDocument>)
    ensures var sims := Similarities(pre, question, SemanticCandidates(store));
      (!ExactFires(hits) && NoneSimilar(sims, |sims|) &&
       exists i :: 0 <= i < |docHits| && Listed(docHits[i])) <==>
      Resolve(pre, question, hits, store, docHits).Some? &&
      Resolve(pre, question, hits, store, docHits).value.source == CompanyData
    ensures var sims := Similarities(pre, question, SemanticCandidates(store));
      forall i :: !ExactFires(hits) && NoneSimilar(sims, |sims|) && FirstListed(docHits, i) ==>
        Resolve(pre, question, hits, store, docHits) == Some(DocumentAnswer(docHits[i].document))
  {
    DirectHead(hits);
    DocumentHead(docHits);
    var sims := Similarities(pre, question, SemanticCandidates(store));
    ScanFindsFirstBest(sims, |sims|);
  }

  /** No answer at all exactly when every stage comes up empty. */
  lemma NoStageAnswers(pre: Nlp.Preprocessor, question: string, hits: seq<ScoredEntry>,
                       store: seq<E.KnowledgeEntry>, docHits: seq<ScoredDocument>)
    ensures var sims := Similarities(pre, question, SemanticCandidates(store));
      Resolve(pre, question, hits, store, docHits).None? <==>
      !ExactFires(hits) && NoneSimilar(sims, |sims|) &&
      forall i :: 0 <= i < |docHits| ==> !Listed(docHits[i])
  {
    DirectHead(hits);
    DocumentHead(docHits);
    var sims := Similarities(pre, question, SemanticCandidates(store));
    ScanFindsFirstBest(sims, |sims|);
  }

  /** The stages' queries only pick from what they are given. */
  lemma QueriesPickFrom(hits: seq<ScoredEntry>, store: seq<E.KnowledgeEntry>)
    ensures forall i :: 0 <= i < |DirectMatches(hits)| ==> DirectMatches(hits)[i] in hits
    ensures forall i :: 0 <= i < |SemanticCandidates(store)| ==> SemanticCandidates(store)[i] in store
  {
    var direct, candidates := DirectMatches(hits), SemanticCandidates(store);
    assert forall i :: 0 <= i < |direct| ==> direct[i] == Filter(ActiveHit, hits)[i];
    assert forall i :: 0 <= i < |direct| ==> direct[i] in Filter(ActiveHit, hits);
    assert forall i :: 0 <= i < |candidates| ==> candidates[i] == Filter(ActiveEntry, store)[i];
    assert forall i :: 0 <= i < |candidates| ==> candidates[i] in Filter(ActiveEntry, store);
  }

  /** Given well-formed entries, every answer has text and a confidence
      within [0, 1]. */
  lemma AnswerWellFormed(pre: Nlp.Preprocessor, question: string, hits: seq<ScoredEntry>,
                         store: seq<E.KnowledgeEntry>, docHits: seq<ScoredDocument>)
    requires forall h :: h in hits ==> E.WellFormed(h.entry)
    requires forall e :: e in store ==> E.WellFormed(e)
    ensures var r := Resolve(pre, question, hits, store, docHits);
      r.Some? ==> r.value.answer != "" && 0.0 <= r.value.confidence <= 1.0
  {
    QueriesPickFrom(hits, store);
  }
}
