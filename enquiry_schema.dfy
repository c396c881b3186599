/** A knowledge-base entry (the `Enquiry` model): its enumerations, the
    shape it is stored in, and what saving a raw document does to it — the
    string setters, the defaults and the validators the schema declares. */
module EnquirySchema {
  import opened Wrappers
  import opened Text

  datatype Category = Products | Services | Support | Billing | Hr | Technical | General

  function CategoryName(c: Category): string {
    match c
    case Products => "products"
    case Services => "services"
    case Support => "support"
    case Billing => "billing"
    case Hr => "hr"
    case Technical => "technical"
    case General => "general"
  }

  /** The `enum` validator of `category`: accepts exactly the seven names. */
  function ParseCategory(s: string): (r: Option<Category>)
    ensures r.Some? ==> CategoryName(r.value) == s
    ensures r.None? ==> forall c: Category :: CategoryName(c) != s
  {
    if s == "products" then Some(Products)
    else if s == "services" then Some(Services)
    else if s == "support" then Some(Category.Support)
    else if s == "billing" then Some(Billing)
    else if s == "hr" then Some(Category.Hr)
    else if s == "technical" then Some(Category.Technical)
    else if s == "general" then Some(General)
    else None
  }

  datatype Department = Sales | Support | Technical | Hr | Finance | Marketing

  function DepartmentName(d: Department): string {
    match d
    case Sales => "sales"
    case Support => "support"
    case Technical => "technical"
    case Hr => "hr"
    case Finance => "finance"
    case Marketing => "marketing"
  }

  /** The `enum` validator of `department`. */
  function ParseDepartment(s: string): (r: Option<Department>)
    ensures r.Some? ==> DepartmentName(r.value) == s
    ensures r.None? ==> forall d: Department :: DepartmentName(d) != s
  {
    if s == "sales" then Some(Department.Sales)
    else if s == "support" then Some(Department.Support)
    else if s == "technical" then Some(Department.Technical)
    else if s == "hr" then Some(Department.Hr)
    else if s == "finance" then Some(Finance)
    else if s == "marketing" then Some(Marketing)
    else None
  }

  /** `metadata.source`: where an entry came from. */
  datatype EntrySource = Manual | Import | Api

  function ParseEntrySource(s: string): (r: Option<EntrySource>)
    ensures r.Some? ==> s == (match r.value case Manual => "manual" case Import => "import" case Api => "api")
    ensures r.None? ==> s != "manual" && s != "import" && s != "api"
  {
    if s == "manual" then Some(Manual)
    else if s == "import" then Some(Import)
    else if s == "api" then Some(Api)
    else None
  }

  datatype Priority = Low | Medium | High

  function ParsePriority(s: string): (r: Option<Priority>)
    ensures r.Some? ==> s == (match r.value case Low => "low" case Medium => "medium" case High => "high")
    ensures r.None? ==> s != "low" && s != "medium" && s != "high"
  {
    if s == "low" then Some(Low)
    else if s == "medium" then Some(Medium)
    else if s == "high" then Some(High)
    else None
  }

  /** Timestamps are milliseconds since the epoch. */
  datatype EntryMetadata = EntryMetadata(lastUpdated: int, updatedBy: string, source: EntrySource, priority: Priority)

  /** A stored entry. `confidenceScore` stays optional, as in the interface
      the service reads it through. */
  datatype KnowledgeEntry = KnowledgeEntry(
    category: Category,
    subcategory: Option<string>,
    question: string,
    answer: string,
    tags: seq<string>,
    department: Department,
    confidenceScore: Option<real>,
    metadata: EntryMetadata,
    isActive: bool)

  /** What every saved entry satisfies: question and answer present and
      trimmed, tags lower-case and trimmed, confidence within [0, 1]. */
  predicate WellFormed(e: KnowledgeEntry) {
    && e.question != "" && IsTrimmed(e.question)
    && e.answer != "" && IsTrimmed(e.answer)
    && (forall i :: 0 <= i < |e.tags| ==> IsTrimmed(e.tags[i]) && IsLower(e.tags[i]))
    && (e.confidenceScore.Some? ==> 0.0 <= e.confidenceScore.value <= 1.0)
  }

  /** A raw document as handed to the model before casting: absent fields are
      `None`. */
  datatype EntryInput = EntryInput(
    category: Option<string>,
    subcategory: Option<string>,
    question: Option<string>,
    answer: Option<string>,
    tags: seq<string>,
    department: Option<string>,
    confidenceScore: Option<real>,
    lastUpdated: Option<int>,
    updatedBy: Option<string>,
    source: Option<string>,
    priority: Option<string>,
    isActive: Option<bool>)

  /** The paths that carry a validator. */
  datatype EntryPath = CategoryPath | QuestionPath | AnswerPath | DepartmentPath
                     | ConfidenceScorePath | SourcePath | PriorityPath

  /** Whether the validators of path `p` reject `input`. A `required` string
      is rejected when absent or empty after its setters have run; an `enum`
      rejects a present value outside its list; `min`/`max` reject a present
      number outside [0, 1]. */
  predicate Rejects(input: EntryInput, p: EntryPath) {
    match p
    case CategoryPath => input.category.None? || ParseCategory(input.category.value).None?
    case QuestionPath => input.question.None? || Trim(input.question.value) == ""
    case AnswerPath => input.answer.None? || Trim(input.answer.value) == ""
    case DepartmentPath => input.department.None? || ParseDepartment(input.department.value).None?
    case ConfidenceScorePath =>
      input.confidenceScore.Some? && !(0.0 <= input.confidenceScore.value <= 1.0)
    case SourcePath => input.source.Some? && ParseEntrySource(input.source.value).None?
    case PriorityPath => input.priority.Some? && ParsePriority(input.priority.value).None?
  }

  const AllPaths: set<EntryPath> :=
    {CategoryPath, QuestionPath, AnswerPath, DepartmentPath, ConfidenceScorePath, SourcePath, PriorityPath}

  function Errors(input: EntryInput): set<EntryPath> {
    set p | p in AllPaths && Rejects(input, p)
  }

  lemma ErrorsExact(input: EntryInput)
    ensures forall p :: p in Errors(input) <==> Rejects(input, p)
  {
    forall p ensures p in AllPaths {
      assert p.CategoryPath? || p.QuestionPath? || p.AnswerPath? || p.DepartmentPath?
          || p.ConfidenceScorePath? || p.SourcePath? || p.PriorityPath?;
    }
  }

  /** No validator rejects `input`, path by path. */
  predicate Accepted(input: EntryInput) {
    && !Rejects(input, CategoryPath) && !Rejects(input, QuestionPath) && !Rejects(input, AnswerPath)
    && !Rejects(input, DepartmentPath) && !Rejects(input, ConfidenceScorePath)
    && !Rejects(input, SourcePath) && !Rejects(input, PriorityPath)
  }

  /** `Accepted` checks every path. */
  lemma AcceptedExact(input: EntryInput)
    ensures Accepted(input) <==> forall p :: !Rejects(input, p)
  {
    if Accepted(input) {
      forall p ensures !Rejects(input, p) {
        match p
        case CategoryPath =>
        case QuestionPath =>
        case AnswerPath =>
        case DepartmentPath =>
        case ConfidenceScorePath =>
        case SourcePath =>
        case PriorityPath =>
      }
    }
  }

  /** The metadata stored for a document whose `source` and `priority` are
      accepted: each absent field given its default. */
  function StoredMetadata(input: EntryInput, now: int): (m: EntryMetadata)
    requires !Rejects(input, SourcePath) && !Rejects(input, PriorityPath)
    ensures m.lastUpdated == input.lastUpdated.GetOr(now)
    ensures m.updatedBy == input.updatedBy.GetOr("system")
    ensures input.source.None? ==> m.source == Manual
    ensures input.priority.None? ==> m.priority == Medium
    ensures input.source.Some? ==> ParseEntrySource(input.source.value) == Some(m.source)
    ensures input.priority.Some? ==> ParsePriority(input.priority.value) == Some(m.priority)
  {
    EntryMetadata(
      input.lastUpdated.GetOr(now),
      input.updatedBy.GetOr("system"),
      if input.source.Some? then ParseEntrySource(input.source.value).value else Manual,
      if input.priority.Some? then ParsePriority(input.priority.value).value else Medium)
  }

  /** The confidence stored for an accepted `confidenceScore`: the given
      one, or the default 1. */
  function StoredConfidence(score: Option<real>): (r: real)
    requires score.Some? ==> 0.0 <= score.value <= 1.0
    ensures r == score.GetOr(1.0) && 0.0 <= r <= 1.0
  {
    if score.Some? then score.value else 1.0
  }

  /** The entry stored for a document every validator accepts: the setters
      applied and every absent field given its default. */
  function StoredEntry(input: EntryInput, now: int): (e: KnowledgeEntry)
    requires Accepted(input)
    ensures input.category.Some? && input.question.Some? && input.answer.Some? && input.department.Some?
    ensures CategoryName(e.category) == input.category.value
    ensures e.subcategory == input.subcategory
    ensures DepartmentName(e.department) == input.department.value
    ensures e.question == Trim(input.question.value) && e.answer == Trim(input.answer.value)
    ensures |e.tags| == |input.tags|
    ensures forall i :: 0 <= i < |input.tags| ==> e.tags[i] == Trim(ToLower(input.tags[i]))
    ensures e.confidenceScore == Some(input.confidenceScore.GetOr(1.0))
    ensures e.isActive == input.isActive.GetOr(true)
    ensures e.metadata == StoredMetadata(input, now)
  {
    KnowledgeEntry(
      ParseCategory(input.category.value).value,
      input.subcategory,
      Trim(input.question.value),
      Trim(input.answer.value),
      NormalizeAll(input.tags),
      ParseDepartment(input.department.value).value,
      Some(StoredConfidence(input.confidenceScore)),
      StoredMetadata(input, now),
      input.isActive.GetOr(true))
  }

  /** Every entry saved satisfies the schema's constraints: non-empty
      trimmed question and answer, normalised tags, a confidence in [0, 1]. */
  lemma StoredEntryWellFormed(input: EntryInput, now: int)
    requires Accepted(input)
    ensures WellFormed(StoredEntry(input, now))
  {
    var e := StoredEntry(input, now);
    assert e.question != "" && IsTrimmed(e.question);
    assert e.answer != "" && IsTrimmed(e.answer);
    assert forall i :: 0 <= i < |e.tags| ==> IsTrimmed(e.tags[i]) && IsLower(e.tags[i]);
    assert e.confidenceScore == Some(StoredConfidence(input.confidenceScore));
  }

  /** Casting and validating a raw document at `now`: either the entry that
      is stored, or the set of every path whose validator failed. */
  function CastEntry(input: EntryInput, now: int): (r: Result<KnowledgeEntry, set<EntryPath>>)
    ensures r.Success? <==> forall p :: !Rejects(input, p)
    ensures r.Failure? ==> r.error != {} && forall p :: p in r.error <==> Rejects(input, p)
    ensures r.Success? ==> Errors(input) == {} && r.value == StoredEntry(input, now)
  {
    ErrorsExact(input);
    AcceptedExact(input);
    if Errors(input) != {} then Failure(Errors(input)) else Success(StoredEntry(input, now))
  }

  /** The unique index on `question`: no two stored entries share one. */
  predicate UniqueQuestions(store: seq<KnowledgeEntry>) {
    forall i, j :: 0 <= i < j < |store| ==> store[i].question != store[j].question
  }

  datatype InsertError = DuplicateQuestion

  /** Inserting an entry: refused with a duplicate-key error when an entry
      with the same question is stored, active or not. */
  function InsertEntry(store: seq<KnowledgeEntry>, e: KnowledgeEntry): (r: Result<seq<KnowledgeEntry>, InsertError>)
    ensures r.Success? <==> forall i :: 0 <= i < |store| ==> store[i].question != e.question
    ensures r.Success? ==> r.value == store + [e]
    ensures UniqueQuestions(store) && r.Success? ==> UniqueQuestions(r.value)
  {
    if exists i :: 0 <= i < |store| && store[i].question == e.question then Failure(DuplicateQuestion)
    else Success(store + [e])
  }
}
