/**
  The records of the SPDX 2.3 document model. Every record is a closed object
  on the wire: decoding rejects a key it does not declare, a declared key
  that is required but absent, a value of the wrong JSON kind, a string that
  is not one of an enumeration's literals and a list shorter than its
  declared minimum. An optional field that is absent decodes to None and is
  left out again when encoded, so "never supplied" and "supplied as false or
  empty" stay apart. Identifiers such as `spdxElementId` are plain strings:
  nothing checks that they name an element of the document.

  For each record X:
    XKeys         the keys X declares;
    DecodeX       the typed value of a JSON object, or the first error (undeclared keys before any field);
    XSlot         the wire value of one key of an X (None when unset);
    EncodeX       the object holding exactly the keys whose slot is set;
    ConformsX     the schema X's declaration amounts to, as a predicate on JSON.
 */
module Model23 {
  import opened Wrappers
  import opened Json
  import opened Codec
  import opened Model23Enums

  // ---------------------------------------------------------------- Annotation

  /** An annotation on the document, a package, a file or a snippet (`Annotation` and its per-context copies `Annotation1`, `Annotation2`, `Annotation3`). */
  datatype Annotation = Annotation(
    annotationDate: string,
    annotationType: AnnotationType,
    annotator: string,
    comment: string
  )

  /** The declared keys. */
  function AnnotationKeys(): set<string> {
    {
      "annotationDate",
      "annotationType",
      "annotator",
      "comment"
    }
  }

  /** Undeclared keys are checked first, then the fields in declaration order; the first failure is reported. */
  function DecodeAnnotation(j: Json): (r: Decoded<Annotation>)
    ensures r.Ok? ==> Closed(j, AnnotationKeys()) && "annotationDate" in j.fields && "annotationType" in j.fields && "annotator" in j.fields && "comment" in j.fields
    ensures j.JObject? && !Closed(j, AnnotationKeys()) ==>
              r == Fail(UnknownKeys(j.fields.Keys - AnnotationKeys()))
  {
    var obj :- ClosedObject(j, AnnotationKeys());
    var annotationDate :- Required(obj, "annotationDate", AsString);
    var annotationType :- Required(obj, "annotationType", DecodeAnnotationType);
    var annotator :- Required(obj, "annotator", AsString);
    var comment :- Required(obj, "comment", AsString);
    Ok(Annotation(annotationDate, annotationType, annotator, comment))
  }

  /** The wire value of `key` in the encoding of `x`: None for an unset field or an undeclared key. */
  function AnnotationSlot(x: Annotation, key: string): Option<Json> {
    match key
    case "annotationDate" => Some(EncodeString(x.annotationDate))
    case "annotationType" => Some(EncodeAnnotationType(x.annotationType))
    case "annotator" => Some(EncodeString(x.annotator))
    case "comment" => Some(EncodeString(x.comment))
    case _ => None
  }

  function EncodeAnnotation(x: Annotation): Json {
    JObject(map key | key in AnnotationKeys() && AnnotationSlot(x, key).Some? :: AnnotationSlot(x, key).value)
  }

  /** The JSON schema of Annotation. */
  predicate ConformsAnnotation(j: Json) {
    && Closed(j, AnnotationKeys())
    && HasRequired(j.fields, "annotationDate", IsString)
    && HasRequired(j.fields, "annotationType", IsAnnotationType)
    && HasRequired(j.fields, "annotator", IsString)
    && HasRequired(j.fields, "comment", IsString)
  }

  // ---------------------------------------------------------------- CreationInfo

  /** Who created the document and when. */
  datatype CreationInfo = CreationInfo(
    comment: Option<string>,
    created: string,
    creators: seq<string>,
    licenseListVersion: Option<string>
  ) {
    /** Every list declared with a minimum length has at least that many items, here and in every nested record. */
    predicate Valid() {
      && |creators| >= 1
    }
  }

  /** The declared keys. */
  function CreationInfoKeys(): set<string> {
    {
      "comment",
      "created",
      "creators",
      "licenseListVersion"
    }
  }

  /** Undeclared keys are checked first, then the fields in declaration order; the first failure is reported. */
  function DecodeCreationInfo(j: Json): (r: Decoded<CreationInfo>)
    ensures r.Ok? ==> Closed(j, CreationInfoKeys()) && "created" in j.fields && "creators" in j.fields
    ensures j.JObject? && !Closed(j, CreationInfoKeys()) ==>
              r == Fail(UnknownKeys(j.fields.Keys - CreationInfoKeys()))
    ensures r.Ok? ==> r.value.Valid()
  {
    var obj :- ClosedObject(j, CreationInfoKeys());
    var comment :- Optional(obj, "comment", AsString);
    var created :- Required(obj, "created", AsString);
    var creators :- RequiredArray(obj, "creators", AsString, 1);
    var licenseListVersion :- Optional(obj, "licenseListVersion", AsString);
    Ok(CreationInfo(comment, created, creators, licenseListVersion))
  }

  /** The wire value of `key` in the encoding of `x`: None for an unset field or an undeclared key. */
  function CreationInfoSlot(x: CreationInfo, key: string): Option<Json> {
    match key
    case "comment" => Present(x.comment, EncodeString)
    case "created" => Some(EncodeString(x.created))
    case "creators" => Some(EncodeArray(x.creators, EncodeString))
    case "licenseListVersion" => Present(x.licenseListVersion, EncodeString)
    case _ => None
  }

  function EncodeCreationInfo(x: CreationInfo): Json {
    JObject(map key | key in CreationInfoKeys() && CreationInfoSlot(x, key).Some? :: CreationInfoSlot(x, key).value)
  }

  /** The JSON schema of CreationInfo. */
  predicate ConformsCreationInfo(j: Json) {
    && Closed(j, CreationInfoKeys())
    && MayHave(j.fields, "comment", IsString)
    && HasRequired(j.fields, "created", IsString)
    && HasRequiredArray(j.fields, "creators", IsString, 1)
    && MayHave(j.fields, "licenseListVersion", IsString)
  }

  // ---------------------------------------------------------------- Checksum

  /** A digest of a file or package (`Checksum` and its copies `Checksum1`, `Checksum2`). */
  datatype Checksum = Checksum(
    algorithm: Algorithm,
    checksumValue: string
  )

  /** The declared keys. */
  function ChecksumKeys(): set<string> {
    {
      "algorithm",
      "checksumValue"
    }
  }

  /** Undeclared keys are checked first, then the fields in declaration order; the first failure is reported. */
  function DecodeChecksum(j: Json): (r: Decoded<Checksum>)
    ensures r.Ok? ==> Closed(j, ChecksumKeys()) && "algorithm" in j.fields && "checksumValue" in j.fields
    ensures j.JObject? && !Closed(j, ChecksumKeys()) ==>
              r == Fail(UnknownKeys(j.fields.Keys - ChecksumKeys()))
  {
    var obj :- ClosedObject(j, ChecksumKeys());
    var algorithm :- Required(obj, "algorithm", DecodeAlgorithm);
    var checksumValue :- Required(obj, "checksumValue", AsString);
    Ok(Checksum(algorithm, checksumValue))
  }

  /** The wire value of `key` in the encoding of `x`: None for an unset field or an undeclared key. */
  function ChecksumSlot(x: Checksum, key: string): Option<Json> {
    match key
    case "algorithm" => Some(EncodeAlgorithm(x.algorithm))
    case "checksumValue" => Some(EncodeString(x.checksumValue))
    case _ => None
  }

  function EncodeChecksum(x: Checksum): Json {
    JObject(map key | key in ChecksumKeys() && ChecksumSlot(x, key).Some? :: ChecksumSlot(x, key).value)
  }

  /** The JSON schema of Checksum. */
  predicate ConformsChecksum(j: Json) {
    && Closed(j, ChecksumKeys())
    && HasRequired(j.fields, "algorithm", IsAlgorithm)
    && HasRequired(j.fields, "checksumValue", IsString)
  }

  // ---------------------------------------------------------------- ExternalDocumentRef

  /** A reference to another SPDX document. */
  datatype ExternalDocumentRef = ExternalDocumentRef(
    checksum: Checksum,
    externalDocumentId: string,
    spdxDocument: string
  )

  /** The declared keys. */
  function ExternalDocumentRefKeys(): set<string> {
    {
      "checksum",
      "externalDocumentId",
      "spdxDocument"
    }
  }

  /** Undeclared keys are checked first, then the fields in declaration order; the first failure is reported. */
  function DecodeExternalDocumentRef(j: Json): (r: Decoded<ExternalDocumentRef>)
    ensures r.Ok? ==> Closed(j, ExternalDocumentRefKeys()) && "checksum" in j.fields && "externalDocumentId" in j.fields && "spdxDocument" in j.fields
    ensures j.JObject? && !Closed(j, ExternalDocumentRefKeys()) ==>
              r == Fail(UnknownKeys(j.fields.Keys - ExternalDocumentRefKeys()))
  {
    var obj :- ClosedObject(j, ExternalDocumentRefKeys());
    var checksum :- Required(obj, "checksum", DecodeChecksum);
    var externalDocumentId :- Required(obj, "externalDocumentId", AsString);
    var spdxDocument :- Required(obj, "spdxDocument", AsString);
    Ok(ExternalDocumentRef(checksum, externalDocumentId, spdxDocument))
  }

  /** The wire value of `key` in the encoding of `x`: None for an unset field or an undeclared key. */
  function ExternalDocumentRefSlot(x: ExternalDocumentRef, key: string): Option<Json> {
    match key
    case "checksum" => Some(EncodeChecksum(x.checksum))
    case "externalDocumentId" => Some(EncodeString(x.externalDocumentId))
    case "spdxDocument" => Some(EncodeString(x.spdxDocument))
    case _ => None
  }

  function EncodeExternalDocumentRef(x: ExternalDocumentRef): Json {
    JObject(map key | key in ExternalDocumentRefKeys() && ExternalDocumentRefSlot(x, key).Some? :: ExternalDocumentRefSlot(x, key).value)
  }

  /** The JSON schema of ExternalDocumentRef. */
  predicate ConformsExternalDocumentRef(j: Json) {
    && Closed(j, ExternalDocumentRefKeys())
    && HasRequired(j.fields, "checksum", ConformsChecksum)
    && HasRequired(j.fields, "externalDocumentId", IsString)
    && HasRequired(j.fields, "spdxDocument", IsString)
  }

  // ---------------------------------------------------------------- CrossRef

  /** Details of a license SeeAlso URL. */
  datatype CrossRef = CrossRef(
    isLive: Option<bool>,
    isValid: Option<bool>,
    isWayBackLink: Option<bool>,
    matchStatus: Option<string>,
    order: Option<int>,
    timestamp: Option<string>,
    url: string
  )

  /** The declared keys. */
  function CrossRefKeys(): set<string> {
    {
      "isLive",
      "isValid",
      "isWayBackLink",
      "match",
      "order",
      "timestamp",
      "url"
    }
  }

  /** Undeclared keys are checked first, then the fields in declaration order; the first failure is reported. */
  function DecodeCrossRef(j: Json): (r: Decoded<CrossRef>)
    ensures r.Ok? ==> Closed(j, CrossRefKeys()) && "url" in j.fields
    ensures j.JObject? && !Closed(j, CrossRefKeys()) ==>
              r == Fail(UnknownKeys(j.fields.Keys - CrossRefKeys()))
  {
    var obj :- ClosedObject(j, CrossRefKeys());
    var isLive :- Optional(obj, "isLive", AsBool);
    var isValid :- Optional(obj, "isValid", AsBool);
    var isWayBackLink :- Optional(obj, "isWayBackLink", AsBool);
    var matchStatus :- Optional(obj, "match", AsString);
    var order :- Optional(obj, "order", AsInt);
    var timestamp :- Optional(obj, "timestamp", AsString);
    var url :- Required(obj, "url", AsString);
    Ok(CrossRef(isLive, isValid, isWayBackLink, matchStatus, order, timestamp, url))
  }

  /** The wire value of `key` in the encoding of `x`: None for an unset field or an undeclared key. */
  function CrossRefSlot(x: CrossRef, key: string): Option<Json> {
    match key
    case "isLive" => Present(x.isLive, EncodeBool)
    case "isValid" => Present(x.isValid, EncodeBool)
    case "isWayBackLink" => Present(x.isWayBackLink, EncodeBool)
    case "match" => Present(x.matchStatus, EncodeString)
    case "order" => Present(x.order, EncodeInt)
    case "timestamp" => Present(x.timestamp, EncodeString)
    case "url" => Some(EncodeString(x.url))
    case _ => None
  }

  function EncodeCrossRef(x: CrossRef): Json {
    JObject(map key | key in CrossRefKeys() && CrossRefSlot(x, key).Some? :: CrossRefSlot(x, key).value)
  }

  /** The JSON schema of CrossRef. */
  predicate ConformsCrossRef(j: Json) {
    && Closed(j, CrossRefKeys())
    && MayHave(j.fields, "isLive", IsBool)
    && MayHave(j.fields, "isValid", IsBool)
    && MayHave(j.fields, "isWayBackLink", IsBool)
    && MayHave(j.fields, "match", IsString)
    && MayHave(j.fields, "order", IsInteger)
    && MayHave(j.fields, "timestamp", IsString)
    && HasRequired(j.fields, "url", IsString)
  }

  // ---------------------------------------------------------------- HasExtractedLicensingInfo

  /** A license whose text was extracted from the described software. */
  datatype HasExtractedLicensingInfo = HasExtractedLicensingInfo(
    comment: Option<string>,
    crossRefs: Option<seq<CrossRef>>,
    extractedText: string,
    licenseId: string,
    name: Option<string>,
    seeAlsos: Option<seq<string>>
  )

  /** The declared keys. */
  function HasExtractedLicensingInfoKeys(): set<string> {
    {
      "comment",
      "crossRefs",
      "extractedText",
      "licenseId",
      "name",
      "seeAlsos"
    }
  }

  /** Undeclared keys are checked first, then the fields in declaration order; the first failure is reported. */
  function DecodeHasExtractedLicensingInfo(j: Json): (r: Decoded<HasExtractedLicensingInfo>)
    ensures r.Ok? ==> Closed(j, HasExtractedLicensingInfoKeys()) && "extractedText" in j.fields && "licenseId" in j.fields
    ensures j.JObject? && !Closed(j, HasExtractedLicensingInfoKeys()) ==>
              r == Fail(UnknownKeys(j.fields.Keys - HasExtractedLicensingInfoKeys()))
  {
    var obj :- ClosedObject(j, HasExtractedLicensingInfoKeys());
    var comment :- Optional(obj, "comment", AsString);
    var crossRefs :- OptionalArray(obj, "crossRefs", DecodeCrossRef);
    var extractedText :- Required(obj, "extractedText", AsString);
    var licenseId :- Required(obj, "licenseId", AsString);
    var name :- Optional(obj, "name", AsString);
    var seeAlsos :- OptionalArray(obj, "seeAlsos", AsString);
    Ok(HasExtractedLicensingInfo(comment, crossRefs, extractedText, licenseId, name, seeAlsos))
  }

  /** The wire value of `key` in the encoding of `x`: None for an unset field or an undeclared key. */
  function HasExtractedLicensingInfoSlot(x: HasExtractedLicensingInfo, key: string): Option<Json> {
    match key
    case "comment" => Present(x.comment, EncodeString)
    case "crossRefs" => PresentArray(x.crossRefs, EncodeCrossRef)
    case "extractedText" => Some(EncodeString(x.extractedText))
    case "licenseId" => Some(EncodeString(x.licenseId))
    case "name" => Present(x.name, EncodeString)
    case "seeAlsos" => PresentArray(x.seeAlsos, EncodeString)
    case _ => None
  }

  function EncodeHasExtractedLicensingInfo(x: HasExtractedLicensingInfo): Json {
    JObject(map key | key in HasExtractedLicensingInfoKeys() && HasExtractedLicensingInfoSlot(x, key).Some? :: HasExtractedLicensingInfoSlot(x, key).value)
  }

  /** The JSON schema of HasExtractedLicensingInfo. */
  predicate ConformsHasExtractedLicensingInfo(j: Json) {
    && Closed(j, HasExtractedLicensingInfoKeys())
    && MayHave(j.fields, "comment", IsString)
    && MayHaveArray(j.fields, "crossRefs", ConformsCrossRef)
    && HasRequired(j.fields, "extractedText", IsString)
    && HasRequired(j.fields, "licenseId", IsString)
    && MayHave(j.fields, "name", IsString)
    && MayHaveArray(j.fields, "seeAlsos", IsString)
  }

  // ---------------------------------------------------------------- Reviewed

  /** A review of the document. */
  datatype Reviewed = Reviewed(
    comment: Option<string>,
    reviewDate: string,
    reviewer: Option<string>
  )

  /** The declared keys. */
  function ReviewedKeys(): set<string> {
    {
      "comment",
      "reviewDate",
      "reviewer"
    }
  }

  /** Undeclared keys are checked first, then the fields in declaration order; the first failure is reported. */
  function DecodeReviewed(j: Json): (r: Decoded<Reviewed>)
    ensures r.Ok? ==> Closed(j, ReviewedKeys()) && "reviewDate" in j.fields
    ensures j.JObject? && !Closed(j, ReviewedKeys()) ==>
              r == Fail(UnknownKeys(j.fields.Keys - ReviewedKeys()))
  {
    var obj :- ClosedObject(j, ReviewedKeys());
    var comment :- Optional(obj, "comment", AsString);
    var reviewDate :- Required(obj, "reviewDate", AsString);
    var reviewer :- Optional(obj, "reviewer", AsString);
    Ok(Reviewed(comment, reviewDate, reviewer))
  }

  /** The wire value of `key` in the encoding of `x`: None for an unset field or an undeclared key. */
  function ReviewedSlot(x: Reviewed, key: string): Option<Json> {
    match key
    case "comment" => Present(x.comment, EncodeString)
    case "reviewDate" => Some(EncodeString(x.reviewDate))
    case "reviewer" => Present(x.reviewer, EncodeString)
    case _ => None
  }

  function EncodeReviewed(x: Reviewed): Json {
    JObject(map key | key in ReviewedKeys() && ReviewedSlot(x, key).Some? :: ReviewedSlot(x, key).value)
  }

  /** The JSON schema of Reviewed. */
  predicate ConformsReviewed(j: Json) {
    && Closed(j, ReviewedKeys())
    && MayHave(j.fields, "comment", IsString)
    && HasRequired(j.fields, "reviewDate", IsString)
    && MayHave(j.fields, "reviewer", IsString)
  }

  // ---------------------------------------------------------------- ExternalRef

  /** A typed pointer from a package to external metadata, such as a package URL. */
  datatype ExternalRef = ExternalRef(
    comment: Option<string>,
    referenceCategory: ReferenceCategory,
    referenceLocator: string,
    referenceType: string
  )

  /** The declared keys. */
  function ExternalRefKeys(): set<string> {
    {
      "comment",
      "referenceCategory",
      "referenceLocator",
      "referenceType"
    }
  }

  /** Undeclared keys are checked first, then the fields in declaration order; the first failure is reported. */
  function DecodeExternalRef(j: Json): (r: Decoded<ExternalRef>)
    ensures r.Ok? ==> Closed(j, ExternalRefKeys()) && "referenceCategory" in j.fields && "referenceLocator" in j.fields && "referenceType" in j.fields
    ensures j.JObject? && !Closed(j, ExternalRefKeys()) ==>
              r == Fail(UnknownKeys(j.fields.Keys - ExternalRefKeys()))
  {
    var obj :- ClosedObject(j, ExternalRefKeys());
    var comment :- Optional(obj, "comment", AsString);
    var referenceCategory :- Required(obj, "referenceCategory", DecodeReferenceCategory);
    var referenceLocator :- Required(obj, "referenceLocator", AsString);
    var referenceType :- Required(obj, "referenceType", AsString);
    Ok(ExternalRef(comment, referenceCategory, referenceLocator, referenceType))
  }

  /** The wire value of `key` in the encoding of `x`: None for an unset field or an undeclared key. */
  function ExternalRefSlot(x: ExternalRef, key: string): Option<Json> {
    match key
    case "comment" => Present(x.comment, EncodeString)
    case "referenceCategory" => Some(EncodeReferenceCategory(x.referenceCategory))
    case "referenceLocator" => Some(EncodeString(x.referenceLocator))
    case "referenceType" => Some(EncodeString(x.referenceType))
    case _ => None
  }

  function EncodeExternalRef(x: ExternalRef): Json {
    JObject(map key | key in ExternalRefKeys() && ExternalRefSlot(x, key).Some? :: ExternalRefSlot(x, key).value)
  }

  /** The JSON schema of ExternalRef. */
  predicate ConformsExternalRef(j: Json) {
    && Closed(j, ExternalRefKeys())
    && MayHave(j.fields, "comment", IsString)
    && HasRequired(j.fields, "referenceCategory", IsReferenceCategory)
    && HasRequired(j.fields, "referenceLocator", IsString)
    && HasRequired(j.fields, "referenceType", IsString)
  }

  // ---------------------------------------------------------------- PackageVerificationCode

  /** The manifest-based verification code of a package. */
  datatype PackageVerificationCode = PackageVerificationCode(
    packageVerificationCodeExcludedFiles: Option<seq<string>>,
    packageVerificationCodeValue: string
  )

  /** The declared keys. */
  function PackageVerificationCodeKeys(): set<string> {
    {
      "packageVerificationCodeExcludedFiles",
      "packageVerificationCodeValue"
    }
  }

  /** Undeclared keys are checked first, then the fields in declaration order; the first failure is reported. */
  function DecodePackageVerificationCode(j: Json): (r: Decoded<PackageVerificationCode>)
    ensures r.Ok? ==> Closed(j, PackageVerificationCodeKeys()) && "packageVerificationCodeValue" in j.fields
    ensures j.JObject? && !Closed(j, PackageVerificationCodeKeys()) ==>
              r == Fail(UnknownKeys(j.fields.Keys - PackageVerificationCodeKeys()))
  {
    var obj :- ClosedObject(j, PackageVerificationCodeKeys());
    var packageVerificationCodeExcludedFiles :- OptionalArray(obj, "packageVerificationCodeExcludedFiles", AsString);
    var packageVerificationCodeValue :- Required(obj, "packageVerificationCodeValue", AsString);
    Ok(PackageVerificationCode(packageVerificationCodeExcludedFiles, packageVerificationCodeValue))
  }

  /** The wire value of `key` in the encoding of `x`: None for an unset field or an undeclared key. */
  function PackageVerificationCodeSlot(x: PackageVerificationCode, key: string): Option<Json> {
    match key
    case "packageVerificationCodeExcludedFiles" => PresentArray(x.packageVerificationCodeExcludedFiles, EncodeString)
    case "packageVerificationCodeValue" => Some(EncodeString(x.packageVerificationCodeValue))
    case _ => None
  }

  function EncodePackageVerificationCode(x: PackageVerificationCode): Json {
    JObject(map key | key in PackageVerificationCodeKeys() && PackageVerificationCodeSlot(x, key).Some? :: PackageVerificationCodeSlot(x, key).value)
  }

  /** The JSON schema of PackageVerificationCode. */
  predicate ConformsPackageVerificationCode(j: Json) {
    && Closed(j, PackageVerificationCodeKeys())
    && MayHaveArray(j.fields, "packageVerificationCodeExcludedFiles", IsString)
    && HasRequired(j.fields, "packageVerificationCodeValue", IsString)
  }

  // ---------------------------------------------------------------- Package

  /** A software component. */
  datatype Package = Package(
    spdxId: string,
    annotations: Option<seq<Annotation>>,
    attributionTexts: Option<seq<string>>,
    builtDate: Option<string>,
    checksums: Option<seq<Checksum>>,
    comment: Option<string>,
    copyrightText: Option<string>,
    description: Option<string>,
    downloadLocation: string,
    externalRefs: Option<seq<ExternalRef>>,
    filesAnalyzed: Option<bool>,
    hasFiles: Option<seq<string>>,
    homepage: Option<string>,
    licenseComments: Option<string>,
    licenseConcluded: Option<string>,
    licenseDeclared: Option<string>,
    licenseInfoFromFiles: Option<seq<string>>,
    name: string,
    originator: Option<string>,
    packageFileName: Option<string>,
    packageVerificationCode: Option<PackageVerificationCode>,
    primaryPackagePurpose: Option<PrimaryPackagePurpose>,
    releaseDate: Option<string>,
    sourceInfo: Option<string>,
    summary: Option<string>,
    supplier: Option<string>,
    validUntilDate: Option<string>,
    versionInfo: Option<string>
  )

  /** The declared keys. */
  function PackageKeys(): set<string> {
    {
      "SPDXID",
      "annotations",
      "attributionTexts",
      "builtDate",
      "checksums",
      "comment",
      "copyrightText",
      "description",
      "downloadLocation",
      "externalRefs",
      "filesAnalyzed",
      "hasFiles",
      "homepage",
      "licenseComments",
      "licenseConcluded",
      "licenseDeclared",
      "licenseInfoFromFiles",
      "name",
      "originator",
      "packageFileName",
      "packageVerificationCode",
      "primaryPackagePurpose",
      "releaseDate",
      "sourceInfo",
      "summary",
      "supplier",
      "validUntilDate",
      "versionInfo"
    }
  }

  /** Undeclared keys are checked first, then the fields in declaration order; the first failure is reported. */
  function DecodePackage(j: Json): (r: Decoded<Package>)
    ensures r.Ok? ==> Closed(j, PackageKeys()) && "SPDXID" in j.fields && "downloadLocation" in j.fields && "name" in j.fields
    ensures j.JObject? && !Closed(j, PackageKeys()) ==>
              r == Fail(UnknownKeys(j.fields.Keys - PackageKeys()))
  {
    var obj :- ClosedObject(j, PackageKeys());
    var spdxId :- Required(obj, "SPDXID", AsString);
    var annotations :- OptionalArray(obj, "annotations", DecodeAnnotation);
    var attributionTexts :- OptionalArray(obj, "attributionTexts", AsString);
    var builtDate :- Optional(obj, "builtDate", AsString);
    var checksums :- OptionalArray(obj, "checksums", DecodeChecksum);
    var comment :- Optional(obj, "comment", AsString);
    var copyrightText :- Optional(obj, "copyrightText", AsString);
    var description :- Optional(obj, "description", AsString);
    var downloadLocation :- Required(obj, "downloadLocation", AsString);
    var externalRefs :- OptionalArray(obj, "externalRefs", DecodeExternalRef);
    var filesAnalyzed :- Optional(obj, "filesAnalyzed", AsBool);
    var hasFiles :- OptionalArray(obj, "hasFiles", AsString);
    var homepage :- Optional(obj, "homepage", AsString);
    var licenseComments :- Optional(obj, "licenseComments", AsString);
    var licenseConcluded :- Optional(obj, "licenseConcluded", AsString);
    var licenseDeclared :- Optional(obj, "licenseDeclared", AsString);
    var licenseInfoFromFiles :- OptionalArray(obj, "licenseInfoFromFiles", AsString);
    var name :- Required(obj, "name", AsString);
    var originator :- Optional(obj, "originator", AsString);
    var packageFileName :- Optional(obj, "packageFileName", AsString);
    var packageVerificationCode :- Optional(obj, "packageVerificationCode", DecodePackageVerificationCode);
    var primaryPackagePurpose :- Optional(obj, "primaryPackagePurpose", DecodePrimaryPackagePurpose);
    var releaseDate :- Optional(obj, "releaseDate", AsString);
    var sourceInfo :- Optional(obj, "sourceInfo", AsString);
    var summary :- Optional(obj, "summary", AsString);
    var supplier :- Optional(obj, "supplier", AsString);
    var validUntilDate :- Optional(obj, "validUntilDate", AsString);
    var versionInfo :- Optional(obj, "versionInfo", AsString);
    Ok(Package(spdxId, annotations, attributionTexts, builtDate, checksums, comment, copyrightText, description, downloadLocation, externalRefs, filesAnalyzed, hasFiles, homepage, licenseComments, licenseConcluded, licenseDeclared, licenseInfoFromFiles, name, originator, packageFileName, packageVerificationCode, primaryPackagePurpose, releaseDate, sourceInfo, summary, supplier, validUntilDate, versionInfo))
  }

  /** The wire value of `key` in the encoding of `x`: None for an unset field or an undeclared key. */
  function PackageSlot(x: Package, key: string): Option<Json> {
    match key
    case "SPDXID" => Some(EncodeString(x.spdxId))
    case "annotations" => PresentArray(x.annotations, EncodeAnnotation)
    case "attributionTexts" => PresentArray(x.attributionTexts, EncodeString)
    case "builtDate" => Present(x.builtDate, EncodeString)
    case "checksums" => PresentArray(x.checksums, EncodeChecksum)
    case "comment" => Present(x.comment, EncodeString)
    case "copyrightText" => Present(x.copyrightText, EncodeString)
    case "description" => Present(x.description, EncodeString)
    case "downloadLocation" => Some(EncodeString(x.downloadLocation))
    case "externalRefs" => PresentArray(x.externalRefs, EncodeExternalRef)
    case "filesAnalyzed" => Present(x.filesAnalyzed, EncodeBool)
    case "hasFiles" => PresentArray(x.hasFiles, EncodeString)
    case "homepage" => Present(x.homepage, EncodeString)
    case "licenseComments" => Present(x.licenseComments, EncodeString)
    case "licenseConcluded" => Present(x.licenseConcluded, EncodeString)
    case "licenseDeclared" => Present(x.licenseDeclared, EncodeString)
    case "licenseInfoFromFiles" => PresentArray(x.licenseInfoFromFiles, EncodeString)
    case "name" => Some(EncodeString(x.name))
    case "originator" => Present(x.originator, EncodeString)
    case "packageFileName" => Present(x.packageFileName, EncodeString)
    case "packageVerificationCode" => Present(x.packageVerificationCode, EncodePackageVerificationCode)
    case "primaryPackagePurpose" => Present(x.primaryPackagePurpose, EncodePrimaryPackagePurpose)
    case "releaseDate" => Present(x.releaseDate, EncodeString)
    case "sourceInfo" => Present(x.sourceInfo, EncodeString)
    case "summary" => Present(x.summary, EncodeString)
    case "supplier" => Present(x.supplier, EncodeString)
    case "validUntilDate" => Present(x.validUntilDate, EncodeString)
    case "versionInfo" => Present(x.versionInfo, EncodeString)
    case _ => None
  }

  function EncodePackage(x: Package): Json {
    JObject(map key | key in PackageKeys() && PackageSlot(x, key).Some? :: PackageSlot(x, key).value)
  }

  /** The JSON schema of Package. */
  predicate ConformsPackage(j: Json) {
    && Closed(j, PackageKeys())
    && HasRequired(j.fields, "SPDXID", IsString)
    && MayHaveArray(j.fields, "annotations", ConformsAnnotation)
    && MayHaveArray(j.fields, "attributionTexts", IsString)
    && MayHave(j.fields, "builtDate", IsString)
    && MayHaveArray(j.fields, "checksums", ConformsChecksum)
    && MayHave(j.fields, "comment", IsString)
    && MayHave(j.fields, "copyrightText", IsString)
    && MayHave(j.fields, "description", IsString)
    && HasRequired(j.fields, "downloadLocation", IsString)
    && MayHaveArray(j.fields, "externalRefs", ConformsExternalRef)
    && MayHave(j.fields, "filesAnalyzed", IsBool)
    && MayHaveArray(j.fields, "hasFiles", IsString)
    && MayHave(j.fields, "homepage", IsString)
    && MayHave(j.fields, "licenseComments", IsString)
    && MayHave(j.fields, "licenseConcluded", IsString)
    && MayHave(j.fields, "licenseDeclared", IsString)
    && MayHaveArray(j.fields, "licenseInfoFromFiles", IsString)
    && HasRequired(j.fields, "name", IsString)
    && MayHave(j.fields, "originator", IsString)
    && MayHave(j.fields, "packageFileName", IsString)
    && MayHave(j.fields, "packageVerificationCode", ConformsPackageVerificationCode)
    && MayHave(j.fields, "primaryPackagePurpose", IsPrimaryPackagePurpose)
    && MayHave(j.fields, "releaseDate", IsString)
    && MayHave(j.fields, "sourceInfo", IsString)
    && MayHave(j.fields, "summary", IsString)
    && MayHave(j.fields, "supplier", IsString)
    && MayHave(j.fields, "validUntilDate", IsString)
    && MayHave(j.fields, "versionInfo", IsString)
  }

  // ---------------------------------------------------------------- File

  /** A file, usually within a package. */
  datatype File = File(
    spdxId: string,
    annotations: Option<seq<Annotation>>,
    artifactOfs: Option<seq<map<string, Json>>>,
    attributionTexts: Option<seq<string>>,
    checksums: seq<Checksum>,
    comment: Option<string>,
    copyrightText: Option<string>,
    fileContributors: Option<seq<string>>,
    fileDependencies: Option<seq<string>>,
    fileName: string,
    fileTypes: Option<seq<FileType>>,
    licenseComments: Option<string>,
    licenseConcluded: Option<string>,
    licenseInfoInFiles: Option<seq<string>>,
    noticeText: Option<string>
  ) {
    /** Every list declared with a minimum length has at least that many items, here and in every nested record. */
    predicate Valid() {
      && |checksums| >= 1
    }
  }

  /** The declared keys. */
  function FileKeys(): set<string> {
    {
      "SPDXID",
      "annotations",
      "artifactOfs",
      "attributionTexts",
      "checksums",
      "comment",
      "copyrightText",
      "fileContributors",
      "fileDependencies",
      "fileName",
      "fileTypes",
      "licenseComments",
      "licenseConcluded",
      "licenseInfoInFiles",
      "noticeText"
    }
  }

  /** Undeclared keys are checked first, then the fields in declaration order; the first failure is reported. */
  function DecodeFile(j: Json): (r: Decoded<File>)
    ensures r.Ok? ==> Closed(j, FileKeys()) && "SPDXID" in j.fields && "checksums" in j.fields && "fileName" in j.fields
    ensures j.JObject? && !Closed(j, FileKeys()) ==>
              r == Fail(UnknownKeys(j.fields.Keys - FileKeys()))
    ensures r.Ok? ==> r.value.Valid()
  {
    var obj :- ClosedObject(j, FileKeys());
    var spdxId :- Required(obj, "SPDXID", AsString);
    var annotations :- OptionalArray(obj, "annotations", DecodeAnnotation);
    var artifactOfs :- OptionalArray(obj, "artifactOfs", AsObject);
    var attributionTexts :- OptionalArray(obj, "attributionTexts", AsString);
    var checksums :- RequiredArray(obj, "checksums", DecodeChecksum, 1);
    var comment :- Optional(obj, "comment", AsString);
    var copyrightText :- Optional(obj, "copyrightText", AsString);
    var fileContributors :- OptionalArray(obj, "fileContributors", AsString);
    var fileDependencies :- OptionalArray(obj, "fileDependencies", AsString);
    var fileName :- Required(obj, "fileName", AsString);
    var fileTypes :- OptionalArray(obj, "fileTypes", DecodeFileType);
    var licenseComments :- Optional(obj, "licenseComments", AsString);
    var licenseConcluded :- Optional(obj, "licenseConcluded", AsString);
    var licenseInfoInFiles :- OptionalArray(obj, "licenseInfoInFiles", AsString);
    var noticeText :- Optional(obj, "noticeText", AsString);
    Ok(File(spdxId, annotations, artifactOfs, attributionTexts, checksums, comment, copyrightText, fileContributors, fileDependencies, fileName, fileTypes, licenseComments, licenseConcluded, licenseInfoInFiles, noticeText))
  }

  /** The wire value of `key` in the encoding of `x`: None for an unset field or an undeclared key. */
  function FileSlot(x: File, key: string): Option<Json> {
    match key
    case "SPDXID" => Some(EncodeString(x.spdxId))
    case "annotations" => PresentArray(x.annotations, EncodeAnnotation)
    case "artifactOfs" => PresentArray(x.artifactOfs, EncodeObject)
    case "attributionTexts" => PresentArray(x.attributionTexts, EncodeString)
    case "checksums" => Some(EncodeArray(x.checksums, EncodeChecksum))
    case "comment" => Present(x.comment, EncodeString)
    case "copyrightText" => Present(x.copyrightText, EncodeString)
    case "fileContributors" => PresentArray(x.fileContributors, EncodeString)
    case "fileDependencies" => PresentArray(x.fileDependencies, EncodeString)
    case "fileName" => Some(EncodeString(x.fileName))
    case "fileTypes" => PresentArray(x.fileTypes, EncodeFileType)
    case "licenseComments" => Present(x.licenseComments, EncodeString)
    case "licenseConcluded" => Present(x.licenseConcluded, EncodeString)
    case "licenseInfoInFiles" => PresentArray(x.licenseInfoInFiles, EncodeString)
    case "noticeText" => Present(x.noticeText, EncodeString)
    case _ => None
  }

  function EncodeFile(x: File): Json {
    JObject(map key | key in FileKeys() && FileSlot(x, key).Some? :: FileSlot(x, key).value)
  }

  /** The JSON schema of File. */
  predicate ConformsFile(j: Json) {
    && Closed(j, FileKeys())
    && HasRequired(j.fields, "SPDXID", IsString)
    && MayHaveArray(j.fields, "annotations", ConformsAnnotation)
    && MayHaveArray(j.fields, "artifactOfs", IsObject)
    && MayHaveArray(j.fields, "attributionTexts", IsString)
    && HasRequiredArray(j.fields, "checksums", ConformsChecksum, 1)
    && MayHave(j.fields, "comment", IsString)
    && MayHave(j.fields, "copyrightText", IsString)
    && MayHaveArray(j.fields, "fileContributors", IsString)
    && MayHaveArray(j.fields, "fileDependencies", IsString)
    && HasRequired(j.fields, "fileName", IsString)
    && MayHaveArray(j.fields, "fileTypes", IsFileType)
    && MayHave(j.fields, "licenseComments", IsString)
    && MayHave(j.fields, "licenseConcluded", IsString)
    && MayHaveArray(j.fields, "licenseInfoInFiles", IsString)
    && MayHave(j.fields, "noticeText", IsString)
  }

  // ---------------------------------------------------------------- Pointer

  /** One end of a snippet range (`EndPointer`, and `StartPointer`, which copies it). */
  datatype Pointer = Pointer(
    reference: string,
    offset: Option<int>,
    lineNumber: Option<int>
  )

  /** The declared keys. */
  function PointerKeys(): set<string> {
    {
      "reference",
      "offset",
      "lineNumber"
    }
  }

  /** Undeclared keys are checked first, then the fields in declaration order; the first failure is reported. */
  function DecodePointer(j: Json): (r: Decoded<Pointer>)
    ensures r.Ok? ==> Closed(j, PointerKeys()) && "reference" in j.fields
    ensures j.JObject? && !Closed(j, PointerKeys()) ==>
              r == Fail(UnknownKeys(j.fields.Keys - PointerKeys()))
  {
    var obj :- ClosedObject(j, PointerKeys());
    var reference :- Required(obj, "reference", AsString);
    var offset :- Optional(obj, "offset", AsInt);
    var lineNumber :- Optional(obj, "lineNumber", AsInt);
    Ok(Pointer(reference, offset, lineNumber))
  }

  /** The wire value of `key` in the encoding of `x`: None for an unset field or an undeclared key. */
  function PointerSlot(x: Pointer, key: string): Option<Json> {
    match key
    case "reference" => Some(EncodeString(x.reference))
    case "offset" => Present(x.offset, EncodeInt)
    case "lineNumber" => Present(x.lineNumber, EncodeInt)
    case _ => None
  }

  function EncodePointer(x: Pointer): Json {
    JObject(map key | key in PointerKeys() && PointerSlot(x, key).Some? :: PointerSlot(x, key).value)
  }

  /** The JSON schema of Pointer. */
  predicate ConformsPointer(j: Json) {
    && Closed(j, PointerKeys())
    && HasRequired(j.fields, "reference", IsString)
    && MayHave(j.fields, "offset", IsInteger)
    && MayHave(j.fields, "lineNumber", IsInteger)
  }

  // ---------------------------------------------------------------- Range

  /** A byte or line range of a snippet. */
  datatype Range = Range(
    endPointer: Pointer,
    startPointer: Pointer
  )

  /** The declared keys. */
  function RangeKeys(): set<string> {
    {
      "endPointer",
      "startPointer"
    }
  }

  /** Undeclared keys are checked first, then the fields in declaration order; the first failure is reported. */
  function DecodeRange(j: Json): (r: Decoded<Range>)
    ensures r.Ok? ==> Closed(j, RangeKeys()) && "endPointer" in j.fields && "startPointer" in j.fields
    ensures j.JObject? && !Closed(j, RangeKeys()) ==>
              r == Fail(UnknownKeys(j.fields.Keys - RangeKeys()))
  {
    var obj :- ClosedObject(j, RangeKeys());
    var endPointer :- Required(obj, "endPointer", DecodePointer);
    var startPointer :- Required(obj, "startPointer", DecodePointer);
    Ok(Range(endPointer, startPointer))
  }

  /** The wire value of `key` in the encoding of `x`: None for an unset field or an undeclared key. */
  function RangeSlot(x: Range, key: string): Option<Json> {
    match key
    case "endPointer" => Some(EncodePointer(x.endPointer))
    case "startPointer" => Some(EncodePointer(x.startPointer))
    case _ => None
  }

  function EncodeRange(x: Range): Json {
    JObject(map key | key in RangeKeys() && RangeSlot(x, key).Some? :: RangeSlot(x, key).value)
  }

  /** The JSON schema of Range. */
  predicate ConformsRange(j: Json) {
    && Closed(j, RangeKeys())
    && HasRequired(j.fields, "endPointer", ConformsPointer)
    && HasRequired(j.fields, "startPointer", ConformsPointer)
  }

  // ---------------------------------------------------------------- Snippet

  /** A byte or line sub-range of a file. */
  datatype Snippet = Snippet(
    spdxId: string,
    annotations: Option<seq<Annotation>>,
    attributionTexts: Option<seq<string>>,
    comment: Option<string>,
    copyrightText: Option<string>,
    licenseComments: Option<string>,
    licenseConcluded: Option<string>,
    licenseInfoInSnippets: Option<seq<string>>,
    name: string,
    ranges: seq<Range>,
    snippetFromFile: string
  ) {
    /** Every list declared with a minimum length has at least that many items, here and in every nested record. */
    predicate Valid() {
      && |ranges| >= 1
    }
  }

  /** The declared keys. */
  function SnippetKeys(): set<string> {
    {
      "SPDXID",
      "annotations",
      "attributionTexts",
      "comment",
      "copyrightText",
      "licenseComments",
      "licenseConcluded",
      "licenseInfoInSnippets",
      "name",
      "ranges",
      "snippetFromFile"
    }
  }

  /** Undeclared keys are checked first, then the fields in declaration order; the first failure is reported. */
  function DecodeSnippet(j: Json): (r: Decoded<Snippet>)
    ensures r.Ok? ==> Closed(j, SnippetKeys()) && "SPDXID" in j.fields && "name" in j.fields && "ranges" in j.fields && "snippetFromFile" in j.fields
    ensures j.JObject? && !Closed(j, SnippetKeys()) ==>
              r == Fail(UnknownKeys(j.fields.Keys - SnippetKeys()))
    ensures r.Ok? ==> r.value.Valid()
  {
    var obj :- ClosedObject(j, SnippetKeys());
    var spdxId :- Required(obj, "SPDXID", AsString);
    var annotations :- OptionalArray(obj, "annotations", DecodeAnnotation);
    var attributionTexts :- OptionalArray(obj, "attributionTexts", AsString);
    var comment :- Optional(obj, "comment", AsString);
    var copyrightText :- Optional(obj, "copyrightText", AsString);
    var licenseComments :- Optional(obj, "licenseComments", AsString);
    var licenseConcluded :- Optional(obj, "licenseConcluded", AsString);
    var licenseInfoInSnippets :- OptionalArray(obj, "licenseInfoInSnippets", AsString);
    var name :- Required(obj, "name", AsString);
    var ranges :- RequiredArray(obj, "ranges", DecodeRange, 1);
    var snippetFromFile :- Required(obj, "snippetFromFile", AsString);
    Ok(Snippet(spdxId, annotations, attributionTexts, comment, copyrightText, licenseComments, licenseConcluded, licenseInfoInSnippets, name, ranges, snippetFromFile))
  }

  /** The wire value of `key` in the encoding of `x`: None for an unset field or an undeclared key. */
  function SnippetSlot(x: Snippet, key: string): Option<Json> {
    match key
    case "SPDXID" => Some(EncodeString(x.spdxId))
    case "annotations" => PresentArray(x.annotations, EncodeAnnotation)
    case "attributionTexts" => PresentArray(x.attributionTexts, EncodeString)
    case "comment" => Present(x.comment, EncodeString)
    case "copyrightText" => Present(x.copyrightText, EncodeString)
    case "licenseComments" => Present(x.licenseComments, EncodeString)
    case "licenseConcluded" => Present(x.licenseConcluded, EncodeString)
    case "licenseInfoInSnippets" => PresentArray(x.licenseInfoInSnippets, EncodeString)
    case "name" => Some(EncodeString(x.name))
    case "ranges" => Some(EncodeArray(x.ranges, EncodeRange))
    case "snippetFromFile" => Some(EncodeString(x.snippetFromFile))
    case _ => None
  }

  function EncodeSnippet(x: Snippet): Json {
    JObject(map key | key in SnippetKeys() && SnippetSlot(x, key).Some? :: SnippetSlot(x, key).value)
  }

  /** The JSON schema of Snippet. */
  predicate ConformsSnippet(j: Json) {
    && Closed(j, SnippetKeys())
    && HasRequired(j.fields, "SPDXID", IsString)
    && MayHaveArray(j.fields, "annotations", ConformsAnnotation)
    && MayHaveArray(j.fields, "attributionTexts", IsString)
    && MayHave(j.fields, "comment", IsString)
    && MayHave(j.fields, "copyrightText", IsString)
    && MayHave(j.fields, "licenseComments", IsString)
    && MayHave(j.fields, "licenseConcluded", IsString)
    && MayHaveArray(j.fields, "licenseInfoInSnippets", IsString)
    && HasRequired(j.fields, "name", IsString)
    && HasRequiredArray(j.fields, "ranges", ConformsRange, 1)
    && HasRequired(j.fields, "snippetFromFile", IsString)
  }

  // ---------------------------------------------------------------- Relationship

  /** A typed edge between two elements, named by their SPDX identifiers. */
  datatype Relationship = Relationship(
    spdxElementId: string,
    comment: Option<string>,
    relatedSpdxElement: string,
    relationshipType: RelationshipType
  )

  /** The declared keys. */
  function RelationshipKeys(): set<string> {
    {
      "spdxElementId",
      "comment",
      "relatedSpdxElement",
      "relationshipType"
    }
  }

  /** Undeclared keys are checked first, then the fields in declaration order; the first failure is reported. */
  function DecodeRelationship(j: Json): (r: Decoded<Relationship>)
    ensures r.Ok? ==> Closed(j, RelationshipKeys()) && "spdxElementId" in j.fields && "relatedSpdxElement" in j.fields && "relationshipType" in j.fields
    ensures j.JObject? && !Closed(j, RelationshipKeys()) ==>
              r == Fail(UnknownKeys(j.fields.Keys - RelationshipKeys()))
  {
    var obj :- ClosedObject(j, RelationshipKeys());
    var spdxElementId :- Required(obj, "spdxElementId", AsString);
    var comment :- Optional(obj, "comment", AsString);
    var relatedSpdxElement :- Required(obj, "relatedSpdxElement", AsString);
    var relationshipType :- Required(obj, "relationshipType", DecodeRelationshipType);
    Ok(Relationship(spdxElementId, comment, relatedSpdxElement, relationshipType))
  }

  /** The wire value of `key` in the encoding of `x`: None for an unset field or an undeclared key. */
  function RelationshipSlot(x: Relationship, key: string): Option<Json> {
    match key
    case "spdxElementId" => Some(EncodeString(x.spdxElementId))
    case "comment" => Present(x.comment, EncodeString)
    case "relatedSpdxElement" => Some(EncodeString(x.relatedSpdxElement))
    case "relationshipType" => Some(EncodeRelationshipType(x.relationshipType))
    case _ => None
  }

  function EncodeRelationship(x: Relationship): Json {
    JObject(map key | key in RelationshipKeys() && RelationshipSlot(x, key).Some? :: RelationshipSlot(x, key).value)
  }

  /** The JSON schema of Relationship. */
  predicate ConformsRelationship(j: Json) {
    && Closed(j, RelationshipKeys())
    && HasRequired(j.fields, "spdxElementId", IsString)
    && MayHave(j.fields, "comment", IsString)
    && HasRequired(j.fields, "relatedSpdxElement", IsString)
    && HasRequired(j.fields, "relationshipType", IsRelationshipType)
  }

  // ---------------------------------------------------------------- Document

  /** An SPDX document: the root of the tree. */
  datatype Document = Document(
    spdxId: string,
    annotations: Option<seq<Annotation>>,
    comment: Option<string>,
    creationInfo: CreationInfo,
    dataLicense: string,
    externalDocumentRefs: Option<seq<ExternalDocumentRef>>,
    hasExtractedLicensingInfos: Option<seq<HasExtractedLicensingInfo>>,
    name: string,
    revieweds: Option<seq<Reviewed>>,
    spdxVersion: string,
    documentNamespace: Option<string>,
    documentDescribes: Option<seq<string>>,
    packages: Option<seq<Package>>,
    files: Option<seq<File>>,
    snippets: Option<seq<Snippet>>,
    relationships: Option<seq<Relationship>>
  ) {
    /** Every list declared with a minimum length has at least that many items, here and in every nested record. */
    predicate Valid() {
      && creationInfo.Valid()
      && (files.Some? ==> forall i | 0 <= i < |files.value| :: files.value[i].Valid())
      && (snippets.Some? ==> forall i | 0 <= i < |snippets.value| :: snippets.value[i].Valid())
    }
  }

  /** The declared keys. */
  function DocumentKeys(): set<string> {
    {
      "SPDXID",
      "annotations",
      "comment",
      "creationInfo",
      "dataLicense",
      "externalDocumentRefs",
      "hasExtractedLicensingInfos",
      "name",
      "revieweds",
      "spdxVersion",
      "documentNamespace",
      "documentDescribes",
      "packages",
      "files",
      "snippets",
      "relationships"
    }
  }

  /** Undeclared keys are checked first, then the fields in declaration order; the first failure is reported. */
  function DecodeDocument(j: Json): (r: Decoded<Document>)
    ensures r.Ok? ==> Closed(j, DocumentKeys()) && "SPDXID" in j.fields && "creationInfo" in j.fields && "dataLicense" in j.fields && "name" in j.fields && "spdxVersion" in j.fields
    ensures j.JObject? && !Closed(j, DocumentKeys()) ==>
              r == Fail(UnknownKeys(j.fields.Keys - DocumentKeys()))
  {
    var obj :- ClosedObject(j, DocumentKeys());
    var spdxId :- Required(obj, "SPDXID", AsString);
    var annotations :- OptionalArray(obj, "annotations", DecodeAnnotation);
    var comment :- Optional(obj, "comment", AsString);
    var creationInfo :- Required(obj, "creationInfo", DecodeCreationInfo);
    var dataLicense :- Required(obj, "dataLicense", AsString);
    var externalDocumentRefs :- OptionalArray(obj, "externalDocumentRefs", DecodeExternalDocumentRef);
    var hasExtractedLicensingInfos :- OptionalArray(obj, "hasExtractedLicensingInfos", DecodeHasExtractedLicensingInfo);
    var name :- Required(obj, "name", AsString);
    var revieweds :- OptionalArray(obj, "revieweds", DecodeReviewed);
    var spdxVersion :- Required(obj, "spdxVersion", AsString);
    var documentNamespace :- Optional(obj, "documentNamespace", AsString);
    var documentDescribes :- OptionalArray(obj, "documentDescribes", AsString);
    var packages :- OptionalArray(obj, "packages", DecodePackage);
    var files :- OptionalArray(obj, "files", DecodeFile);
    var snippets :- OptionalArray(obj, "snippets", DecodeSnippet);
    var relationships :- OptionalArray(obj, "relationships", DecodeRelationship);
    Ok(Document(spdxId, annotations, comment, creationInfo, dataLicense, externalDocumentRefs, hasExtractedLicensingInfos, name, revieweds, spdxVersion, documentNamespace, documentDescribes, packages, files, snippets, relationships))
  }

  /** The wire value of `key` in the encoding of `x`: None for an unset field or an undeclared key. */
  function DocumentSlot(x: Document, key: string): Option<Json> {
    match key
    case "SPDXID" => Some(EncodeString(x.spdxId))
    case "annotations" => PresentArray(x.annotations, EncodeAnnotation)
    case "comment" => Present(x.comment, EncodeString)
    case "creationInfo" => Some(EncodeCreationInfo(x.creationInfo))
    case "dataLicense" => Some(EncodeString(x.dataLicense))
    case "externalDocumentRefs" => PresentArray(x.externalDocumentRefs, EncodeExternalDocumentRef)
    case "hasExtractedLicensingInfos" => PresentArray(x.hasExtractedLicensingInfos, EncodeHasExtractedLicensingInfo)
    case "name" => Some(EncodeString(x.name))
    case "revieweds" => PresentArray(x.revieweds, EncodeReviewed)
    case "spdxVersion" => Some(EncodeString(x.spdxVersion))
    case "documentNamespace" => Present(x.documentNamespace, EncodeString)
    case "documentDescribes" => PresentArray(x.documentDescribes, EncodeString)
    case "packages" => PresentArray(x.packages, EncodePackage)
    case "files" => PresentArray(x.files, EncodeFile)
    case "snippets" => PresentArray(x.snippets, EncodeSnippet)
    case "relationships" => PresentArray(x.relationships, EncodeRelationship)
    case _ => None
  }

  function EncodeDocument(x: Document): Json {
    JObject(map key | key in DocumentKeys() && DocumentSlot(x, key).Some? :: DocumentSlot(x, key).value)
  }

  /** The JSON schema of Document. */
  predicate ConformsDocument(j: Json) {
    && Closed(j, DocumentKeys())
    && HasRequired(j.fields, "SPDXID", IsString)
    && MayHaveArray(j.fields, "annotations", ConformsAnnotation)
    && MayHave(j.fields, "comment", IsString)
    && HasRequired(j.fields, "creationInfo", ConformsCreationInfo)
    && HasRequired(j.fields, "dataLicense", IsString)
    && MayHaveArray(j.fields, "externalDocumentRefs", ConformsExternalDocumentRef)
    && MayHaveArray(j.fields, "hasExtractedLicensingInfos", ConformsHasExtractedLicensingInfo)
    && HasRequired(j.fields, "name", IsString)
    && MayHaveArray(j.fields, "revieweds", ConformsReviewed)
    && HasRequired(j.fields, "spdxVersion", IsString)
    && MayHave(j.fields, "documentNamespace", IsString)
    && MayHaveArray(j.fields, "documentDescribes", IsString)
    && MayHaveArray(j.fields, "packages", ConformsPackage)
    && MayHaveArray(j.fields, "files", ConformsFile)
    && MayHaveArray(j.fields, "snippets", ConformsSnippet)
    && MayHaveArray(j.fields, "relationships", ConformsRelationship)
  }
}
