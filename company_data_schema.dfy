/** A company document (the `CompanyData` model): its enumerations, the
    stored shape, and what saving a raw document does to it. */
module CompanyDataSchema {
  import opened Wrappers
  import opened Text

  datatype DataType = Faq | Product | Service | Policy | Procedure | Contact

  function DataTypeName(t: DataType): string {
    match t
    case Faq => "faq"
    case Product => "product"
    case Service => "service"
    case Policy => "policy"
    case Procedure => "procedure"
    case Contact => "contact"
  }

  /** The `enum` validator of `dataType`. */
  function ParseDataType(s: string): (r: Option<DataType>)
    ensures r.Some? ==> DataTypeName(r.value) == s
    ensures r.None? ==> forall t: DataType :: DataTypeName(t) != s
  {
    if s == "faq" then Some(Faq)
    else if s == "product" then Some(Product)
    else if s == "service" then Some(Service)
    else if s == "policy" then Some(Policy)
    else if s == "procedure" then Some(Procedure)
    else if s == "contact" then Some(Contact)
    else None
  }

  /** Only `Public` documents may be quoted to a visitor. */
  datatype AccessLevel = Public | Internal | Restricted

  function AccessLevelName(a: AccessLevel): string {
    match a
    case Public => "public"
    case Internal => "internal"
    case Restricted => "restricted"
  }

  /** The `enum` validator of `accessLevel`. */
  function ParseAccessLevel(s: string): (r: Option<AccessLevel>)
    ensures r.Some? ==> AccessLevelName(r.value) == s
    ensures r.None? ==> forall a: AccessLevel :: AccessLevelName(a) != s
  {
    if s == "public" then Some(Public)
    else if s == "internal" then Some(Internal)
    else if s == "restricted" then Some(Restricted)
    else None
  }

  /** A stored document; dates are milliseconds since the epoch. */
  datatype CompanyDocument = CompanyDocument(
    dataType: DataType,
    title: string,
    content: string,
    keywords: seq<string>,
    department: seq<string>,
    accessLevel: AccessLevel,
    relatedDocuments: seq<string>,
    effectiveDate: int,
    expiryDate: Option<int>,
    version: int,
    isActive: bool)

  /** What every saved document satisfies: a trimmed title, some content,
      lower-case trimmed keywords, no empty department name. */
  predicate WellFormed(d: CompanyDocument) {
    && d.title != "" && IsTrimmed(d.title)
    && d.content != ""
    && (forall i :: 0 <= i < |d.keywords| ==> IsTrimmed(d.keywords[i]) && IsLower(d.keywords[i]))
    && (forall i :: 0 <= i < |d.department| ==> d.department[i] != "")
  }

  /** A raw document before casting: absent fields are `None`. */
  datatype DocumentInput = DocumentInput(
    dataType: Option<string>,
    title: Option<string>,
    content: Option<string>,
    keywords: seq<string>,
    department: seq<string>,
    accessLevel: Option<string>,
    relatedDocuments: seq<string>,
    effectiveDate: Option<int>,
    expiryDate: Option<int>,
    version: Option<int>,
    isActive: Option<bool>)

  datatype DocumentPath = DataTypePath | TitlePath | ContentPath | DepartmentPath | AccessLevelPath

  /** Whether the validators of path `p` reject `input`: `dataType`, `title`
      and `content` are required (`title` after trimming), each department
      name is required, and the two enumerations reject unknown values. */
  predicate Rejects(input: DocumentInput, p: DocumentPath) {
    match p
    case DataTypePath => input.dataType.None? || ParseDataType(input.dataType.value).None?
    case TitlePath => input.title.None? || Trim(input.title.value) == ""
    case ContentPath => input.content.None? || input.content.value == ""
    case DepartmentPath => exists i :: 0 <= i < |input.department| && input.department[i] == ""
    case AccessLevelPath => input.accessLevel.Some? && ParseAccessLevel(input.accessLevel.value).None?
  }

  const AllPaths: set<DocumentPath> := {DataTypePath, TitlePath, ContentPath, DepartmentPath, AccessLevelPath}

  function Errors(input: DocumentInput): set<DocumentPath> {
    set p | p in AllPaths && Rejects(input, p)
  }

  lemma ErrorsExact(input: DocumentInput)
    ensures forall p :: p in Errors(input) <==> Rejects(input, p)
  {
    forall p ensures p in AllPaths {
      assert p.DataTypePath? || p.TitlePath? || p.ContentPath? || p.DepartmentPath? || p.AccessLevelPath?;
    }
  }

  /** No validator rejects `input`, path by path. */
  predicate Accepted(input: DocumentInput) {
    && !Rejects(input, DataTypePath) && !Rejects(input, TitlePath) && !Rejects(input, ContentPath)
    && !Rejects(input, DepartmentPath) && !Rejects(input, AccessLevelPath)
  }

  /** `Accepted` checks every path. */
  lemma AcceptedExact(input: DocumentInput)
    ensures Accepted(input) <==> forall p :: !Rejects(input, p)
  {
    if Accepted(input) {
      forall p ensures !Rejects(input, p) {
        match p
        case DataTypePath =>
        case TitlePath =>
        case ContentPath =>
        case DepartmentPath =>
        case AccessLevelPath =>
      }
    }
  }

  /** The document stored for an input every validator accepts. */
  function StoredDocument(input: DocumentInput, now: int): (d: CompanyDocument)
    requires Accepted(input)
    ensures input.dataType.Some? && input.title.Some? && input.content.Some?
    ensures DataTypeName(d.dataType) == input.dataType.value
    ensures d.title == Trim(input.title.value) && d.content == input.content.value
    ensures |d.keywords| == |input.keywords|
    ensures forall i :: 0 <= i < |input.keywords| ==> d.keywords[i] == Trim(ToLower(input.keywords[i]))
    ensures input.accessLevel.None? ==> d.accessLevel == Public
    ensures input.accessLevel.Some? ==> AccessLevelName(d.accessLevel) == input.accessLevel.value
    ensures d.version == input.version.GetOr(1)
    ensures d.isActive == input.isActive.GetOr(true)
    ensures d.effectiveDate == input.effectiveDate.GetOr(now)
    ensures d.department == input.department && d.relatedDocuments == input.relatedDocuments
    ensures d.expiryDate == input.expiryDate
  {
    CompanyDocument(
      ParseDataType(input.dataType.value).value,
      Trim(input.title.value),
      input.content.value,
      NormalizeAll(input.keywords),
      input.department,
      if input.accessLevel.Some? then ParseAccessLevel(input.accessLevel.value).value else Public,
      input.relatedDocuments,
      input.effectiveDate.GetOr(now),
      input.expiryDate,
      input.version.GetOr(1),
      input.isActive.GetOr(true))
  }

  /** Every document saved satisfies the schema's constraints: a non-empty
      trimmed title, some content, normalised keywords, named departments. */
  lemma StoredDocumentWellFormed(input: DocumentInput, now: int)
    requires Accepted(input)
    ensures WellFormed(StoredDocument(input, now))
  {
    var d := StoredDocument(input, now);
    assert d.title != "" && IsTrimmed(d.title);
    assert forall i :: 0 <= i < |d.keywords| ==> IsTrimmed(d.keywords[i]) && IsLower(d.keywords[i]);
    assert forall i :: 0 <= i < |d.department| ==> d.department[i] != "";
  }

  /** Casting and validating a raw document at `now`. */
  function CastDocument(input: DocumentInput, now: int): (r: Result<CompanyDocument, set<DocumentPath>>)
    ensures r.Success? <==> forall p :: !Rejects(input, p)
    ensures r.Failure? ==> r.error != {} && forall p :: p in r.error <==> Rejects(input, p)
    ensures r.Success? ==> Errors(input) == {} && r.value == StoredDocument(input, now)
  {
    ErrorsExact(input);
    AcceptedExact(input);
    if Errors(input) != {} then Failure(Errors(input)) else Success(StoredDocument(input, now))
  }
}
