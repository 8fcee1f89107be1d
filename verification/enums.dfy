/**
  The closed value sets of the SPDX 2.3 model. The source's enumerations
  subclass `str`: a member is its wire literal. So each enumeration here is
  the subset of strings made of its literals, written out exactly (case and
  hyphens included); `FromString` accepts a string only when it is one of
  them, and a value encodes as itself. The JSON codecs turn any other string
  into a `BadLiteral` error.
 */
module Model23Enums {
  import opened Wrappers
  import opened Json
  import opened Codec

  // ---------------------------------------------------------------- AnnotationType

  predicate IsAnnotationTypeLiteral(s: string) {
    || s == "OTHER"
    || s == "REVIEW"
  }

  type AnnotationType = s: string | IsAnnotationTypeLiteral(s) witness "OTHER"

  function AnnotationTypeFromString(s: string): (r: Option<AnnotationType>)
    ensures r.Some? <==> IsAnnotationTypeLiteral(s)
    ensures r.Some? ==> r.value == s
  {
    if IsAnnotationTypeLiteral(s) then Some(s) else None
  }

  function DecodeAnnotationType(j: Json): Decoded<AnnotationType> {
    var s :- AsString(j);
    match AnnotationTypeFromString(s)
    case Some(x) => Ok(x)
    case None => Fail(BadLiteral(s))
  }

  function EncodeAnnotationType(x: AnnotationType): Json {
    JString(x)
  }

  predicate IsAnnotationType(j: Json) {
    j.JString? && IsAnnotationTypeLiteral(j.s)
  }

  // ---------------------------------------------------------------- Algorithm

  predicate IsAlgorithmLiteral(s: string) {
    || s == "SHA1"
    || s == "BLAKE3"
    || s == "SHA3-384"
    || s == "SHA256"
    || s == "SHA384"
    || s == "BLAKE2b-512"
    || s == "BLAKE2b-256"
    || s == "SHA3-512"
    || s == "MD2"
    || s == "ADLER32"
    || s == "MD4"
    || s == "SHA3-256"
    || s == "BLAKE2b-384"
    || s == "SHA512"
    || s == "MD6"
    || s == "MD5"
    || s == "SHA224"
  }

  type Algorithm = s: string | IsAlgorithmLiteral(s) witness "SHA1"

  function AlgorithmFromString(s: string): (r: Option<Algorithm>)
    ensures r.Some? <==> IsAlgorithmLiteral(s)
    ensures r.Some? ==> r.value == s
  {
    if IsAlgorithmLiteral(s) then Some(s) else None
  }

  function DecodeAlgorithm(j: Json): Decoded<Algorithm> {
    var s :- AsString(j);
    match AlgorithmFromString(s)
    case Some(x) => Ok(x)
    case None => Fail(BadLiteral(s))
  }

  function EncodeAlgorithm(x: Algorithm): Json {
    JString(x)
  }

  predicate IsAlgorithm(j: Json) {
    j.JString? && IsAlgorithmLiteral(j.s)
  }

  // ---------------------------------------------------------------- ReferenceCategory

  predicate IsReferenceCategoryLiteral(s: string) {
    || s == "OTHER"
    || s == "PERSISTENT-ID"
    || s == "SECURITY"
    || s == "PACKAGE-MANAGER"
  }

  type ReferenceCategory = s: string | IsReferenceCategoryLiteral(s) witness "OTHER"

  function ReferenceCategoryFromString(s: string): (r: Option<ReferenceCategory>)
    ensures r.Some? <==> IsReferenceCategoryLiteral(s)
    ensures r.Some? ==> r.value == s
  {
    if IsReferenceCategoryLiteral(s) then Some(s) else None
  }

  function DecodeReferenceCategory(j: Json): Decoded<ReferenceCategory> {
    var s :- AsString(j);
    match ReferenceCategoryFromString(s)
    case Some(x) => Ok(x)
    case None => Fail(BadLiteral(s))
  }

  function EncodeReferenceCategory(x: ReferenceCategory): Json {
    JString(x)
  }

  predicate IsReferenceCategory(j: Json) {
    j.JString? && IsReferenceCategoryLiteral(j.s)
  }

  // ---------------------------------------------------------------- PrimaryPackagePurpose

  predicate IsPrimaryPackagePurposeLiteral(s: string) {
    || s == "OTHER"
    || s == "INSTALL"
    || s == "ARCHIVE"
    || s == "FIRMWARE"
    || s == "APPLICATION"
    || s == "FRAMEWORK"
    || s == "LIBRARY"
    || s == "CONTAINER"
    || s == "SOURCE"
    || s == "DEVICE"
    || s == "OPERATING_SYSTEM"
    || s == "FILE"
  }

  type PrimaryPackagePurpose = s: string | IsPrimaryPackagePurposeLiteral(s) witness "OTHER"

  function PrimaryPackagePurposeFromString(s: string): (r: Option<PrimaryPackagePurpose>)
    ensures r.Some? <==> IsPrimaryPackagePurposeLiteral(s)
    ensures r.Some? ==> r.value == s
  {
    if IsPrimaryPackagePurposeLiteral(s) then Some(s) else None
  }

  function DecodePrimaryPackagePurpose(j: Json): Decoded<PrimaryPackagePurpose> {
    var s :- AsString(j);
    match PrimaryPackagePurposeFromString(s)
    case Some(x) => Ok(x)
    case None => Fail(BadLiteral(s))
  }

  function EncodePrimaryPackagePurpose(x: PrimaryPackagePurpose): Json {
    JString(x)
  }

  predicate IsPrimaryPackagePurpose(j: Json) {
    j.JString? && IsPrimaryPackagePurposeLiteral(j.s)
  }

  // ---------------------------------------------------------------- FileType

  predicate IsFileTypeLiteral(s: string) {
    || s == "OTHER"
    || s == "DOCUMENTATION"
    || s == "IMAGE"
    || s == "VIDEO"
    || s == "ARCHIVE"
    || s == "SPDX"
    || s == "APPLICATION"
    || s == "SOURCE"
    || s == "BINARY"
    || s == "TEXT"
    || s == "AUDIO"
  }

  type FileType = s: string | IsFileTypeLiteral(s) witness "OTHER"

  function FileTypeFromString(s: string): (r: Option<FileType>)
    ensures r.Some? <==> IsFileTypeLiteral(s)
    ensures r.Some? ==> r.value == s
  {
    if IsFileTypeLiteral(s) then Some(s) else None
  }

  function DecodeFileType(j: Json): Decoded<FileType> {
    var s :- AsString(j);
    match FileTypeFromString(s)
    case Some(x) => Ok(x)
    case None => Fail(BadLiteral(s))
  }

  function EncodeFileType(x: FileType): Json {
    JString(x)
  }

  predicate IsFileType(j: Json) {
    j.JString? && IsFileTypeLiteral(j.s)
  }

  // ---------------------------------------------------------------- RelationshipType

  predicate IsRelationshipTypeLiteral(s: string) {
    || s == "VARIANT_OF"
    || s == "COPY_OF"
    || s == "PATCH_FOR"
    || s == "TEST_DEPENDENCY_OF"
    || s == "CONTAINED_BY"
    || s == "DATA_FILE_OF"
    || s == "OPTIONAL_COMPONENT_OF"
    || s == "ANCESTOR_OF"
    || s == "GENERATES"
    || s == "CONTAINS"
    || s == "OPTIONAL_DEPENDENCY_OF"
    || s == "FILE_ADDED"
    || s == "REQUIREMENT_DESCRIPTION_FOR"
    || s == "DEV_DEPENDENCY_OF"
    || s == "DEPENDENCY_OF"
    || s == "BUILD_DEPENDENCY_OF"
    || s == "DESCRIBES"
    || s == "PREREQUISITE_FOR"
    || s == "HAS_PREREQUISITE"
    || s == "PROVIDED_DEPENDENCY_OF"
    || s == "DYNAMIC_LINK"
    || s == "DESCRIBED_BY"
    || s == "METAFILE_OF"
    || s == "DEPENDENCY_MANIFEST_OF"
    || s == "PATCH_APPLIED"
    || s == "RUNTIME_DEPENDENCY_OF"
    || s == "TEST_OF"
    || s == "TEST_TOOL_OF"
    || s == "DEPENDS_ON"
    || s == "SPECIFICATION_FOR"
    || s == "FILE_MODIFIED"
    || s == "DISTRIBUTION_ARTIFACT"
    || s == "AMENDS"
    || s == "DOCUMENTATION_OF"
    || s == "GENERATED_FROM"
    || s == "STATIC_LINK"
    || s == "OTHER"
    || s == "BUILD_TOOL_OF"
    || s == "TEST_CASE_OF"
    || s == "PACKAGE_OF"
    || s == "DESCENDANT_OF"
    || s == "FILE_DELETED"
    || s == "EXPANDED_FROM_ARCHIVE"
    || s == "DEV_TOOL_OF"
    || s == "EXAMPLE_OF"
  }

  type RelationshipType = s: string | IsRelationshipTypeLiteral(s) witness "OTHER"

  function RelationshipTypeFromString(s: string): (r: Option<RelationshipType>)
    ensures r.Some? <==> IsRelationshipTypeLiteral(s)
    ensures r.Some? ==> r.value == s
  {
    if IsRelationshipTypeLiteral(s) then Some(s) else None
  }

  function DecodeRelationshipType(j: Json): Decoded<RelationshipType> {
    var s :- AsString(j);
    match RelationshipTypeFromString(s)
    case Some(x) => Ok(x)
    case None => Fail(BadLiteral(s))
  }

  function EncodeRelationshipType(x: RelationshipType): Json {
    JString(x)
  }

  predicate IsRelationshipType(j: Json) {
    j.JString? && IsRelationshipTypeLiteral(j.s)
  }

  // ---------------------------------------------------------------- laws

  /** Every enumeration decodes exactly its literals and encodes each back verbatim. */
  lemma EnumsLossless()
    ensures forall j :: Lossless(DecodeAnnotationType, EncodeAnnotationType, j)
    ensures forall j :: Lossless(DecodeAlgorithm, EncodeAlgorithm, j)
    ensures forall j :: Lossless(DecodeReferenceCategory, EncodeReferenceCategory, j)
    ensures forall j :: Lossless(DecodePrimaryPackagePurpose, EncodePrimaryPackagePurpose, j)
    ensures forall j :: Lossless(DecodeFileType, EncodeFileType, j)
    ensures forall j :: Lossless(DecodeRelationshipType, EncodeRelationshipType, j)
  {
  }

  lemma EnumsFaithful()
    ensures forall x :: Faithful(DecodeAnnotationType, EncodeAnnotationType, x)
    ensures forall x :: Faithful(DecodeAlgorithm, EncodeAlgorithm, x)
    ensures forall x :: Faithful(DecodeReferenceCategory, EncodeReferenceCategory, x)
    ensures forall x :: Faithful(DecodePrimaryPackagePurpose, EncodePrimaryPackagePurpose, x)
    ensures forall x :: Faithful(DecodeFileType, EncodeFileType, x)
    ensures forall x :: Faithful(DecodeRelationshipType, EncodeRelationshipType, x)
  {
  }

  lemma EnumsAgree()
    ensures forall j :: Agrees(DecodeAnnotationType, IsAnnotationType, j)
    ensures forall j :: Agrees(DecodeAlgorithm, IsAlgorithm, j)
    ensures forall j :: Agrees(DecodeReferenceCategory, IsReferenceCategory, j)
    ensures forall j :: Agrees(DecodePrimaryPackagePurpose, IsPrimaryPackagePurpose, j)
    ensures forall j :: Agrees(DecodeFileType, IsFileType, j)
    ensures forall j :: Agrees(DecodeRelationshipType, IsRelationshipType, j)
  {
  }
}
