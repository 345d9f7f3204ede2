/** CreatorProfileForm, the form of become_creator: a required bio, a
    required subscription price that may not be negative, and a required
    verification document of bounded size and type. */
module AccountForms {
  import opened Base
  import opened Money

  /** 5 * 1024 * 1024 bytes */
  const MaxDocumentSize: nat := 5 * 1024 * 1024

  /** The content types clean_verification_document accepts. */
  const AllowedDocumentTypes: set<string> := {"application/pdf", "image/jpeg", "image/png"}

  datatype DocumentError = DocumentTooLarge | DocumentType

  /** clean_subscription_price: reject a negative price, return any other
      unchanged. */
  function CleanSubscriptionPrice(price: Decimal): (r: Result<Decimal, string>)
    ensures r.Err? <==> IsNegative(price)
    ensures r.Ok? ==> r.value == price
  {
    if IsNegative(price) then Err("Price cannot be negative") else Ok(price)
  }

  /** clean_verification_document: `if document:` is false for no document
      and for a file without a name, which are returned unchecked; any other
      document is measured first and its type checked second. */
  function CleanVerificationDocument(document: Option<UploadedFile>): (r: Result<Option<UploadedFile>, DocumentError>)
    ensures document.None? || document.value.name == "" ==> r == Ok(document)
    ensures document.Some? && document.value.name != "" && document.value.size > MaxDocumentSize ==>
      r == Err(DocumentTooLarge)
    ensures document.Some? && document.value.name != "" && document.value.size <= MaxDocumentSize ==>
      (r.Ok? <==> document.value.contentType in AllowedDocumentTypes)
    ensures r.Err? && document.value.size <= MaxDocumentSize ==> r == Err(DocumentType)
    ensures r.Ok? ==> r.value == document
  {
    match document
    case None => Ok(None)
    case Some(d) =>
      if d.name == "" then Ok(document)
      else if d.size > MaxDocumentSize then Err(DocumentTooLarge)
      else if d.contentType !in AllowedDocumentTypes then Err(DocumentType)
      else Ok(document)
  }

  /** A document of exactly five megabytes passes the size check, and one
      byte more does not. */
  lemma SizeLimitIsInclusive(name: string, contentType: string)
    ensures name != "" ==>
      CleanVerificationDocument(Some(UploadedFile(name, MaxDocumentSize, contentType))) != Err(DocumentTooLarge)
    ensures name != "" ==>
      CleanVerificationDocument(Some(UploadedFile(name, MaxDocumentSize + 1, contentType))) == Err(DocumentTooLarge)
  {
  }

  /** The submitted fields, after CharField stripping: the bio, the price
      (None when left empty) and the uploaded document. */
  datatype CreatorProfileInput = CreatorProfileInput(bio: string, price: Option<Decimal>, document: Option<UploadedFile>)

  datatype CreatorFormError =
    | BioRequired
    | PriceRequired
    | PriceField(priceError: DecimalError)
    | NegativePrice
    | DocumentRequired
    | DocumentUpload(uploadError: UploadError)
    | Document(documentError: DocumentError)

  /** The subscription_price field: required, at most 10 digits with 2
      places, then clean_subscription_price. */
  function PriceErrors(price: Option<Decimal>): (r: seq<CreatorFormError>)
    ensures r == [] <==> price.Some? && DecimalFieldError(price.value, 10, 2).None? && !IsNegative(price.value)
    ensures |r| <= 1
  {
    match price
    case None => [PriceRequired]
    case Some(p) =>
      match DecimalFieldError(p, 10, 2)
      case Some(e) => [PriceField(e)]
      case None => if CleanSubscriptionPrice(p).Err? then [NegativePrice] else []
  }

  /** The verification_document field: required, then FileField's own
      checks on the name and the size, then clean_verification_document. */
  function DocumentErrors(document: Option<UploadedFile>): (r: seq<CreatorFormError>)
    ensures r == [] <==> document.Some? && FileFieldError(document.value).None?
                         && CleanVerificationDocument(document).Ok?
    ensures document.Some? && FileFieldError(document.value).Some? ==>
      r == [DocumentUpload(FileFieldError(document.value).value)]
    ensures |r| <= 1
  {
    match document
    case None => [DocumentRequired]
    case Some(d) =>
      match FileFieldError(d)
      case Some(e) => [DocumentUpload(e)]
      case None =>
        match CleanVerificationDocument(document)
        case Err(e) => [Document(e)]
        case Ok(_) => []
  }

  /** Within the form, clean_verification_document sees only named,
      non-empty files, so its checks always run: a document passes the
      field exactly when it is named, not empty, at most 5 MiB and of an
      allowed type, and the cleaned value is then the upload itself. */
  lemma AcceptedDocumentIsReturned(d: UploadedFile)
    ensures DocumentErrors(Some(d)) == [] <==>
      d.name != "" && 0 < d.size <= MaxDocumentSize && d.contentType in AllowedDocumentTypes
    ensures DocumentErrors(Some(d)) == [] ==> CleanVerificationDocument(Some(d)) == Ok(Some(d))
  {
  }

  /** form.is_valid(): each field is checked independently, in field order,
      and the form is valid when none of them complains. */
  function ValidateCreatorProfile(f: CreatorProfileInput): (r: Result<CreatorProfileInput, seq<CreatorFormError>>)
    ensures r.Ok? <==>
      && f.bio != ""
      && f.price.Some? && DecimalFieldError(f.price.value, 10, 2).None? && !IsNegative(f.price.value)
      && f.document.Some? && f.document.value.name != "" && 0 < f.document.value.size <= MaxDocumentSize
      && f.document.value.contentType in AllowedDocumentTypes
    ensures r.Ok? ==> r.value == f
    ensures r.Err? ==> 1 <= |r.error| <= 3
  {
    var errors := (if f.bio == "" then [BioRequired] else []) + PriceErrors(f.price) + DocumentErrors(f.document);
    if errors == [] then Ok(f) else Err(errors)
  }
}
