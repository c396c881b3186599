# Chat-bot backend: query resolution and conversation state, in Dafny

This project models the core of a knowledge-base chatbot. The core has three parts:

- **The answer cascade** (`findBestMatch`). A question is answered by the first stage that succeeds:
  1. a full-text hit on an active knowledge-base entry, if it scores above 2;
  2. the active entry whose question is most similar to the question, if that similarity is above 0.5;
  3. the first active, public company document found by full-text search.
- **The conversation state machine** (`handleQuery`, `escalateConversation`, `getConversationHistory`). Each query appends a user message and one assistant message to a session. When nothing answers, the session is escalated to support.
- **The lexical helpers** and the **schemas** the store enforces:
  - Jaccard similarity over preprocessed token sets, with its memo table;
  - first-match intent rules;
  - frequency-ranked keywords;
  - enumerations, bounds, defaults, setters and unique indexes.

## Modelling choices

- **Preprocessing.** Lower-casing, word tokenisation, stop-word removal and stemming are one parameter, `pre: string -> seq<string>`. Every property holds for every preprocessing.
- **The store's queries are inputs.** A full-text search is the ranked sequence of hits with their scores, before the query's own filters. The model applies the `isActive`/`accessLevel` filters and `.limit(n)` itself. The knowledge base is also a plain sequence in natural order; stage 2 and the suggestions read it.
- **Conversations.**
  - The conversation collection is `ChatbotService.sessions`, a map from session id to record.
  - A loaded conversation is the class `Chatbot.Conversation`, changed in place and saved back.
  - `escalateConversation` updates the map directly, as `updateOne` does.
- **Order inside `handleQuery`.** The model runs the cascade before it opens the conversation; the code opens it first. The cascade reads only the knowledge base and the similarity cache, and opening reads and writes only the conversations, so the order changes no result.
- **Fresh values are parameters:** the session id that `uuidv4()` gives, the clock, and the random sample of general questions.
- **The service reads similarities through a pair-keyed cache.** The code keys its cache by one concatenated string, and different pairs can share that key (see Findings). `ChatbotService` uses the corrected cache, keyed by the pair of texts. The string-keyed cache is modelled on its own as `StringKeyedCache`, and the stale score it can serve is shown there.
- **Similarity is an exact `real`.**
- **JavaScript semantics that matter are written out:**
  - `confidenceScore || 0.9` treats a score of 0 as missing.
  - `if (sessionId)` treats the empty string as absent.
  - `slice(0, k)` with a negative `k` counts back from the end.
  - A plain object literal inherits a `constructor` key.
  - A comparator that returns `NaN` means "equal".
- **Behaviours of the code the model keeps on purpose:**
  - The default confidence of 0.9 also replaces a stored 0.
  - The suggested questions may include the matched entry's own question.
  - Two-word intent keywords never match a token.
  - A save that fails validation leaves a newly created conversation stored.

## Model

| member | source | states |
|---|---|---|
| Text.Trim | src/schemas/enquiry.schema.ts:33-43 | The `trim` setter. The result has no leading or trailing white space and is no longer than the input. Trimming a trimmed string changes nothing. |
| Text.TrimInfix | src/schemas/enquiry.schema.ts:33-43 | What `trim` keeps is the contiguous middle of the input after its leading white space, and everything it removes is white space. |
| Text.TrimIdempotent | src/schemas/enquiry.schema.ts:33-43 | Trimming twice equals trimming once. |
| Text.ToLower | src/schemas/enquiry.schema.ts:44-48 | The `lowercase` setter keeps the length, maps each capital A-Z to the letter 32 code points later, leaves every other character as it is, and so leaves a lower-case string unchanged. |
| Text.TrimLowerCommute | src/schemas/enquiry.schema.ts:44-48 | Lower-casing and trimming commute, so the order of the two setters does not matter. |
| Text.Normalize | src/schemas/enquiry.schema.ts:44-48 | A tag or keyword after its setters is trimmed and lower-case. An already normalised one is unchanged. |
| Text.NormalizeAll | src/schemas/enquiry.schema.ts:44-48 | An array of such strings keeps its length. Each element becomes its raw value lower-cased and trimmed, and is trimmed and lower-case. |
| EnquirySchema.ParseCategory | src/schemas/enquiry.schema.ts:24-28 | The `category` enum accepts exactly the seven names. A parsed value prints back to its input, and a rejected string names no category. |
| EnquirySchema.ParseDepartment | src/schemas/enquiry.schema.ts:49-53 | The `department` enum accepts exactly the six names, in both directions. |
| EnquirySchema.ParseEntrySource | src/schemas/enquiry.schema.ts:69-73 | The `metadata.source` enum accepts exactly manual, import and api. |
| EnquirySchema.ParsePriority | src/schemas/enquiry.schema.ts:74-78 | The `metadata.priority` enum accepts exactly low, medium and high. |
| EnquirySchema.ErrorsExact | src/schemas/enquiry.schema.ts:22-84 | The reported validation errors are exactly the paths whose validator rejects the input. |
| EnquirySchema.AcceptedExact | src/schemas/enquiry.schema.ts:22-84 | An input passes the per-path checks exactly when no validator rejects it. |
| EnquirySchema.StoredMetadata | src/schemas/enquiry.schema.ts:60-79 | The metadata defaults apply: `lastUpdated` now, `updatedBy` "system", source manual, priority medium. A given source or priority is stored as the enum value it names. |
| EnquirySchema.StoredConfidence | src/schemas/enquiry.schema.ts:54-59 | An absent confidence defaults to 1.0. An accepted confidence stays within [0, 1]. |
| EnquirySchema.StoredEntry | src/schemas/enquiry.schema.ts:22-84 | When nothing is rejected, all four required fields are present and the enums store the given names. Question and answer are trimmed, and each tag is trimmed and lower-cased. The subcategory is stored as given. The defaults apply: confidence 1.0, active, and the metadata defaults. |
| EnquirySchema.StoredEntryWellFormed | src/schemas/enquiry.schema.ts:22-84 | A stored entry is well-formed: non-empty trimmed question and answer, normalised tags, and a confidence in [0, 1]. |
| EnquirySchema.CastEntry | src/schemas/enquiry.schema.ts:22-88 | A save succeeds exactly when no validator rejects the input. A failure lists exactly the rejecting paths and is never empty. A success stores the entry with setters and defaults applied. |
| EnquirySchema.InsertEntry | src/schemas/enquiry.schema.ts:33-38 | The unique index on `question`. An insert is refused exactly when an entry with the same question exists. Otherwise the entry is appended, and question uniqueness is preserved. |
| CompanyDataSchema.ParseDataType | src/schemas/company-data.schema.ts:19-23 | The `dataType` enum accepts exactly the six names, in both directions. |
| CompanyDataSchema.ParseAccessLevel | src/schemas/company-data.schema.ts:42-46 | The `accessLevel` enum accepts exactly public, internal and restricted. |
| CompanyDataSchema.ErrorsExact | src/schemas/company-data.schema.ts:17-61 | The reported errors are exactly the rejecting paths. |
| CompanyDataSchema.AcceptedExact | src/schemas/company-data.schema.ts:17-61 | An input passes the per-path checks exactly when no validator rejects it. |
| CompanyDataSchema.StoredDocument | src/schemas/company-data.schema.ts:17-61 | When nothing is rejected, `dataType`, `title` and `content` are present and the enums store the given names. The title is trimmed, and each keyword is trimmed and lower-cased. The departments, the related documents and the expiry date are stored as given. The defaults apply: access level public, version 1, active, effective now. |
| CompanyDataSchema.StoredDocumentWellFormed | src/schemas/company-data.schema.ts:17-61 | A stored document is well-formed: a non-empty trimmed title, some content, normalised keywords and no empty department name. |
| CompanyDataSchema.CastDocument | src/schemas/company-data.schema.ts:17-65 | A save succeeds exactly when no validator rejects. A failure lists exactly the rejecting paths, which include an empty department name. A success stores the document with setters and defaults applied. |
| ConversationSchema.NewConversation | src/services/chatbot.service.ts:115-123 | A created conversation has the given id and context, no messages, status `active`, and no user or escalation target. With a non-empty id it satisfies the schema's `required` fields. |
| Nlp.Jaccard | src/services/nlp-processor.ts:41-47 | The ratio of intersection size to union size, 0 for an empty union, always in [0, 1]. |
| Nlp.Similarity | src/services/nlp-processor.ts:37-47 | The similarity of two texts lies in [0, 1]. |
| Nlp.SimilaritySymmetric | src/services/nlp-processor.ts:41-47 | The similarity of two texts is the same in either order. |
| Nlp.SimilarityOneIff | src/services/nlp-processor.ts:41-47 | Similarity is 1 exactly when both texts have the same non-empty token set. |
| Nlp.SimilarityZeroIff | src/services/nlp-processor.ts:41-47 | Similarity is 0 exactly when the token sets are disjoint, which includes an empty union. |
| Nlp.SelfSimilarity | src/services/nlp-processor.ts:41-47 | A text with at least one token has similarity 1 with itself. |
| Nlp.EmptySimilarity | src/services/nlp-processor.ts:47 | Two texts with no tokens have similarity 0. |
| Nlp.FirstFiring | src/services/nlp-processor.ts:78-84 | An intent other than `general` is that of a rule with a keyword among the tokens. |
| Nlp.FirstFiringIsFirst | src/services/nlp-processor.ts:78-82 | The loop over the rules returns the intent of the first rule that has a keyword equal to a token. |
| Nlp.FirstFiringNone | src/services/nlp-processor.ts:78-84 | When no rule fires, the result is `general`. |
| Nlp.FirstFiringSpec | src/services/nlp-processor.ts:78-84 | Over any rule list that never names `general`, the loop returns the intent of the first rule that fires. It returns `general` exactly when none fires. |
| Nlp.DetectIntent | src/services/nlp-processor.ts:67-85 | A detected intent other than `general` is that of one of the five rules, and a keyword of that rule is among the text's tokens. |
| Nlp.DetectIntentFirstRule | src/services/nlp-processor.ts:67-85 | `detectIntent` returns the intent of the first rule, in the fixed order pricing, instructions, troubleshooting, contact, features, that fires. It returns `general` exactly when none fires. |
| Nlp.PhraseKeywordsNeverFire | src/services/nlp-processor.ts:68-79 | For tokens without spaces, the two-word keywords never match. The detected intent is the one given by the single-word keywords alone. |
| Nlp.CountPositive | src/services/nlp-processor.ts:57-59 | A token has a positive count exactly when it occurs. |
| Nlp.InsertByCount | src/services/nlp-processor.ts:61-62 | One insertion step of the descending-count stable sort. It adds exactly the word, keeps the ranking non-increasing, and keeps the words distinct. |
| Nlp.SortByCount | src/services/nlp-processor.ts:61-62 | The sort by `b[1] - a[1]` returns the same words, the same number of them, in non-increasing count order. Distinct input stays distinct. |
| Nlp.SortByCountPermutes | src/services/nlp-processor.ts:61-62 | For any input, the sorted list is a permutation of it: every word keeps its multiplicity. |
| Nlp.SliceEnd | src/services/nlp-processor.ts:63 | The number of elements `slice(0, k)` keeps. It is `min(k, n)` for a non-negative `k`, and `max(n + k, 0)` for a negative `k`. |
| Nlp.Tally | src/services/nlp-processor.ts:55-59 | The frequency loop. Keys are exactly the tokens, each mapped to its number of occurrences. The list of keys is duplicate-free and holds exactly those keys. |
| Nlp.ExtractKeywords | src/services/nlp-processor.ts:53-65 | Returns exactly `slice(0, maxKeywords)`-many distinct tokens of the text, in non-increasing count order. No token left out occurs more often than a token kept. |
| Nlp.KeptOutrankDropped | src/services/nlp-processor.ts:61-64 | In a complete ranking by count, every token in the kept prefix occurs at least as often as every token outside it. |
| Nlp.TallyAsWritten | src/services/nlp-processor.ts:55-59 | The frequency table as written in a plain object literal. Its keys are exactly the tokens, and its key list holds exactly its keys. |
| Nlp.KeywordsAsWritten | src/services/nlp-processor.ts:53-65 | As written, the result holds at most `maxKeywords` words, each a token of the text. |
| Nlp.ConstructorOutranksMoreFrequentToken | src/services/nlp-processor.ts:53-65 | As written, the tokens ["constructor", "refund", "refund"] with a limit of 1 give ["constructor"], although "refund" occurs twice and "constructor" once. |
| SimilarityCache.CacheKey | src/services/nlp-processor.ts:30 | The key is `similarity_`, the first text, `_` and the second text, each at a fixed place, so both texts read back from the key once the length of the first is known. |
| SimilarityCache.KeyInjectiveWithoutUnderscores | src/services/nlp-processor.ts:30 | For texts without an underscore, the cache key determines the pair of texts. |
| SimilarityCache.KeyCollision | src/services/nlp-processor.ts:30 | The pairs ("x_y", "x_y") and ("x", "y_x_y") share a cache key. |
| SimilarityCache.StringKeyedCache.CalculateSimilarity | src/services/nlp-processor.ts:29-51 | The cache as written. A hit returns the stored value and changes nothing. A miss stores and returns the computed similarity. For underscore-free texts the result is the true similarity. |
| SimilarityCache.StringKeyedCache.Expire | src/services/nlp-processor.ts:5 | Expiry only removes an entry and keeps the cache consistent. |
| SimilarityCache.CollisionServesStaleScore | src/services/nlp-processor.ts:29-51 | Asking for ("x_y", "x_y") and then ("x", "y_x_y") returns 1.0 twice, though the second pair's similarity is 0. |
| SimilarityCache.PairKeyedCache.CalculateSimilarity | src/services/nlp-processor.ts:29-51 | The corrected cache, keyed by the pair. It always returns the true similarity, records it, and keeps every stored value true. |
| SimilarityCache.PairKeyedCache.Expire | src/services/nlp-processor.ts:5 | Expiry removes one entry and keeps the cache consistent. |
| Cascade.SuggestedQuestions | src/services/chatbot.service.ts:200-209 | At most five questions, each from an active entry of the category. When fewer than five are returned, every such entry's question is among them. |
| Cascade.EntryConfidence | src/services/chatbot.service.ts:37 | The stored confidence when it is present and non-zero, and 0.9 otherwise. |
| Cascade.Similarities | src/services/chatbot.service.ts:53-54 | One similarity per candidate, in candidate order, each within [0, 1]. |
| Cascade.ScanSimilar | src/services/chatbot.service.ts:50-59 | The stage-2 loop's state. When something was chosen, it is a visited candidate with similarity above 0.5, and the recorded similarity is its own. Otherwise the recorded similarity is 0. |
| Cascade.ScanFindsFirstBest | src/services/chatbot.service.ts:50-59 | The loop chooses nothing exactly when no candidate exceeds 0.5. Otherwise it chooses the first candidate of greatest similarity: every earlier one is strictly less similar and every later one is no more similar. |
| Cascade.BestAmongUnique | src/services/chatbot.service.ts:55 | The strict `>` makes the winner unique: on a tie the earlier candidate wins. |
| Cascade.ExactStage | src/services/chatbot.service.ts:26-46 | Stage 1 answers exactly when the first active hit scores above 2. The answer is that entry's, with `EntryConfidence`, source `enquiry_database`, its category's suggestions and its category, department and tags. |
| Cascade.SemanticStage | src/services/chatbot.service.ts:48-73 | Stage 2 answers exactly when stage 1 does not and one of the first 100 active entries is more similar than 0.5. The answer is the first most similar entry's, with that similarity as confidence and source `semantic_match`. |
| Cascade.DocumentStage | src/services/chatbot.service.ts:75-98 | Stage 3 answers exactly when stages 1 and 2 do not and some hit is an active public document. The answer is the prefix followed by the first such document's content, with confidence 0.7, source `company_data` and no suggestions. |
| Cascade.Resolve | src/services/chatbot.service.ts:24-101 | `findBestMatch` never answers with the fallback source. An answer carries suggested questions exactly when it comes from an entry rather than a document. The result is `null` only when no company document ranks. |
| Cascade.NoStageAnswers | src/services/chatbot.service.ts:24-101 | `findBestMatch` returns null exactly when all three stages come up empty. |
| Cascade.AnswerWellFormed | src/services/chatbot.service.ts:33-98 | With well-formed entries, every answer has text and a confidence within [0, 1]. |
| Chatbot.Continued | src/services/chatbot.service.ts:111-116 | A call continues a stored session exactly when it supplies a non-empty id that is stored. |
| Chatbot.OpeningKeyed | src/services/chatbot.service.ts:108-123 | The conversation a call opens carries the id the call reports and satisfies the schema. Creating it keeps the store keyed by session id. |
| Chatbot.Exchange | src/services/chatbot.service.ts:125-190 | One query keeps the session id and the user, adds exactly two messages, and either keeps the status or escalates. |
| Chatbot.ExchangeAppendsTwo | src/services/chatbot.service.ts:125-149 | A query appends exactly two messages and keeps every earlier one. The first is the user's question, stamped with the query's time, with its detected intent and confidence 1. The second is from the assistant. Session id and user are unchanged. |
| Chatbot.ExchangeOnAnswer | src/services/chatbot.service.ts:139-157 | On a match, the assistant message carries the answer, its confidence and its suggestions, and the status and escalation target are untouched. An entry's category and department replace the context's. A document match leaves the context as it was. |
| Chatbot.ExchangeOnFallback | src/services/chatbot.service.ts:170-190 | With no match, the assistant message is the fallback text with confidence 0 and the two fixed actions. The status becomes `escalated` and the target `support`. |
| Chatbot.ExchangeNeverReactivates | src/services/chatbot.service.ts:139-190 | A query either keeps the status or escalates. It never reactivates a conversation. |
| Chatbot.ExchangeSaveable | src/services/chatbot.service.ts:125-192 | Take a saved conversation and an answer that has text. The save after the exchange passes the schema exactly when the question is non-empty. |
| Chatbot.Escalation | src/services/chatbot.service.ts:225-240 | The conversation is escalated to the given department under the same session id, with exactly one more message. |
| Chatbot.EscalationKeepsHistory | src/services/chatbot.service.ts:225-240 | Escalation appends exactly one system message, "Conversation escalated to <department> department" with no metadata. It keeps earlier messages, the session, the user and the context. It sets `escalated` and the department, and keeps a valid conversation valid. |
| Chatbot.Conversation.Load | src/services/chatbot.service.ts:111-123 | A conversation loaded or created from a record holds exactly that record. |
| Chatbot.Conversation.Push | src/services/chatbot.service.ts:126-134 | `messages.push` appends exactly the one message and touches no other field. |
| Chatbot.Conversation.RecordExchange | src/services/chatbot.service.ts:125-190 | The in-place pushes and field updates leave the document equal to the specified exchange. |
| Chatbot.ChatbotService.constructor | src/services/chatbot.service.ts:20-22 | A new service has no sessions and a fresh, consistent cache. |
| Chatbot.ChatbotService.History | src/services/chatbot.service.ts:221-223 | Returns the stored conversation, unchanged, exactly when the id is stored. In a keyed store, it carries that id and is valid. |
| Chatbot.ChatbotService.FindBestMatch | src/services/chatbot.service.ts:24-101 | The imperative cascade, whose stage-2 loop reads through the pair-keyed similarity cache, returns exactly `Resolve`. It leaves the sessions alone and keeps the cache consistent. |
| Chatbot.ChatbotService.OpenConversation | src/services/chatbot.service.ts:108-123 | Loads the continued conversation, or creates and stores a new one under the fresh id. |
| Chatbot.Reply | src/services/chatbot.service.ts:161-197 | The response carries the session id. A match passes through with nothing else changed. Without one, the response is the fixed fallback text from the fallback source, with confidence 0, the general questions as suggestions and only the session id as metadata. |
| Chatbot.Query | src/services/chatbot.service.ts:103-198 | What a query leaves behind. The store gains at most the session the call reports, and no other session changes. The save succeeds exactly when the conversation after the exchange passes the schema. Then the reported session holds that conversation, and the reply is `Reply` for the match and that session id. On a failed save the store is left as opening made it. A store keyed by session id stays keyed. |
| Chatbot.SessionContinues | src/services/chatbot.service.ts:103-198 | A first query without a session id opens one under the fresh id and reports it. It stores no session other than that one, so another unused id stays unused. A second query with that id continues the same session whatever fresh id it is offered. The session then holds four messages, the first two unchanged. |
| Chatbot.ChatbotService.HandleQuery | src/services/chatbot.service.ts:103-198 | Runs the cascade and then `Answer`. The result and the new store are `Query` applied to `Resolve`'s answer. The cache stays consistent and the store stays keyed by session id. |
| Chatbot.ChatbotService.Answer | src/services/chatbot.service.ts:108-198 | Opens the conversation, records the exchange in place, saves and replies. The result and the new store are exactly `Query`: on a passing save the session holds the exchange and the reply carries the session id; on a refused save only a newly created conversation remains. |
| Chatbot.ChatbotService.EscalateConversation | src/services/chatbot.service.ts:225-240 | A stored session becomes its escalation. An unknown id changes nothing, since there is no upsert. The store stays keyed. |
| Chatbot.TwoQueriesOneSession | src/services/chatbot.service.ts:103-198 | On a new service, two calls of `Answer`: the first without a session id, the second with the id the first reported and another fresh id. The second reports the first's session, which then holds four messages. |

## Left out

- The store's full-text search is not modelled. Relevance scores, the text indexes over question, answer and tags and over title, content and keywords, and their ranking are inputs, given as ranked hits with scores. The model applies only the queries' filters and limits.
- The word tokenizer, the stop-word list and the Porter stemmer are library code and are a parameter. Which rule keywords can match a stemmed token depends on them.
- Text.ToLower: handles ASCII letters only. Case mapping beyond ASCII is not modelled.
- Cache expiry after 600 seconds is time-based. It is an `Expire` operation that may remove any entry at any time.
- The cache is process-wide in the code. Here each service owns one.
- `getGeneralQuestions` draws a random `$sample`. It is a parameter constrained to at most five questions of active entries.
- Message timestamps: the code takes two readings of the clock per query; the model uses one `now`.
- The `createdAt`/`updatedAt` timestamps of the schemas are not modelled.
- A failing store read or write is not modelled.
- Two concurrent queries on the same session race in the code. Concurrency is not modelled.
- HandleQuery requires that the fresh id is not already a stored session id. A collision of `uuidv4()` is not modelled.
- Nlp.ExtractKeywords: the order among keywords of equal count is not stated. JavaScript lists integer-like object keys first.
- Nlp.KeywordsAsWritten takes preprocessed tokens and a non-negative limit, a `nat`. It covers the inherited `constructor` key but not `__proto__`.
- The model assumes that a `required` string inside an array, such as a message's `content` or a department name, is checked element by element on save.
- Chatbot.ChatbotService.FindBestMatch: reads through the corrected pair-keyed cache. The code's string-keyed cache can answer a question with the stale score of another pair whose texts contain `_`. That behaviour is shown on the cache alone, by SimilarityCache.CollisionServesStaleScore.
- Chatbot.ChatbotService.HandleQuery: runs the corrected FindBestMatch, so it inherits the same difference.
- Chatbot.UserMessage: Mongoose gives an array path the implicit default `[]`, so the code stores `suggestedActions` as `[]` in every message that does not set it, where the model records no list. The same holds for Chatbot.AnswerMessage after a document match and for the message of Chatbot.Escalation. No operation in this model reads the field.
- Nlp.ExtractKeywords: the default limit of 5 and a limit that is not an integer are not modelled. A negative integer limit is modelled, as `slice` treats it.
- The controllers, routes, middleware, authentication, seeding script and database configuration are not part of this model.

## Findings

| source | as written | input that shows it | evidently intended | confidence | as-written member | corrected member |
|---|---|---|---|---|---|---|
| src/services/nlp-processor.ts:30 | The cache key joins the two texts with `_` and no escaping, so different pairs can share a key. | Score ("x_y", "x_y"), then ("x", "y_x_y"). Both calls return 1.0, although the second pair shares no token. | The memo is keyed by the pair of texts, and a hit equals a fresh computation. | medium, not executed | SimilarityCache.CollisionServesStaleScore | SimilarityCache.PairKeyedCache.CalculateSimilarity, Chatbot.ChatbotService.FindBestMatch |
| src/services/nlp-processor.ts:55-62 | `frequency` is a plain `{}`. The token "constructor" starts from the inherited `Object` function, so its count becomes a string. The comparator then returns `NaN` against it, which counts as "equal". | Tokens ["constructor", "refund", "refund"] with `maxKeywords` 1 return ["constructor"]. | The most frequent token comes first, so the result is ["refund"]. | medium, not executed | Nlp.ConstructorOutranksMoreFrequentToken | Nlp.ExtractKeywords |
