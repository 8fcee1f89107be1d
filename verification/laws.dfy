/**
  The three laws that tie each record's decoder, encoder and schema together:

    XLossless   decoding an object and encoding the result gives back the same
                object, so a document read and written again is unchanged;
    XFaithful   encoding a record and decoding the result gives back the same
                record, so no field is lost, defaulted or reordered;
    XAccepts    the decoder accepts exactly the objects that satisfy ConformsX.

  Each is proved field by field from the laws of the field combinators. The
  helpers are:
    XEncodedSlot   the encoding holds a key's slot, and nothing else;
    XWrites...     what the encoding holds under one key;
    XDecodedFields what a successful decoding read under each key;
    XFields...     a few fields each;
    XSameSlots     two objects that agree on a group of keys agree on
                   every key of the group.
  They exist so that no single proof has to reason about every key of a
  large record at once.
 */
module Model23Laws {
  import opened Wrappers
  import opened Json
  import opened Codec
  import opened Model23Enums
  import opened Model23

  // ---------------------------------------------------------------- Annotation

  lemma AnnotationEncodedSlot(x: Annotation, key: string)
    ensures Slot(EncodeAnnotation(x).fields, key) == (if key in AnnotationKeys() then AnnotationSlot(x, key) else None)
  {
  }

  lemma AnnotationWritesAnnotationDate(x: Annotation)
    ensures Slot(EncodeAnnotation(x).fields, "annotationDate") == Some(EncodeString(x.annotationDate))
  {
    AnnotationEncodedSlot(x, "annotationDate");
  }

  lemma AnnotationWritesAnnotationType(x: Annotation)
    ensures Slot(EncodeAnnotation(x).fields, "annotationType") == Some(EncodeAnnotationType(x.annotationType))
  {
    AnnotationEncodedSlot(x, "annotationType");
  }

  lemma AnnotationWritesAnnotator(x: Annotation)
    ensures Slot(EncodeAnnotation(x).fields, "annotator") == Some(EncodeString(x.annotator))
  {
    AnnotationEncodedSlot(x, "annotator");
  }

  lemma AnnotationWritesComment(x: Annotation)
    ensures Slot(EncodeAnnotation(x).fields, "comment") == Some(EncodeString(x.comment))
  {
    AnnotationEncodedSlot(x, "comment");
  }

  lemma AnnotationSameSlots(a: map<string, Json>, b: map<string, Json>)
    requires Slot(a, "annotationDate") == Slot(b, "annotationDate")
    requires Slot(a, "annotationType") == Slot(b, "annotationType")
    requires Slot(a, "annotator") == Slot(b, "annotator")
    requires Slot(a, "comment") == Slot(b, "comment")
    ensures forall k | k in AnnotationKeys() :: Slot(a, k) == Slot(b, k)
  {
  }

  lemma AnnotationDecodedFields(j: Json)
    requires DecodeAnnotation(j).Ok?
    ensures Required(j.fields, "annotationDate", AsString) == Ok(DecodeAnnotation(j).value.annotationDate)
    ensures Required(j.fields, "annotationType", DecodeAnnotationType) == Ok(DecodeAnnotation(j).value.annotationType)
    ensures Required(j.fields, "annotator", AsString) == Ok(DecodeAnnotation(j).value.annotator)
    ensures Required(j.fields, "comment", AsString) == Ok(DecodeAnnotation(j).value.comment)
  {
  }

  lemma AnnotationFieldsLossless(obj: map<string, Json>, x: Annotation)
    requires Required(obj, "annotationDate", AsString) == Ok(x.annotationDate)
    requires Required(obj, "annotationType", DecodeAnnotationType) == Ok(x.annotationType)
    requires Required(obj, "annotator", AsString) == Ok(x.annotator)
    requires Required(obj, "comment", AsString) == Ok(x.comment)
    ensures Slot(obj, "annotationDate") == Some(EncodeString(x.annotationDate))
    ensures Slot(obj, "annotationType") == Some(EncodeAnnotationType(x.annotationType))
    ensures Slot(obj, "annotator") == Some(EncodeString(x.annotator))
    ensures Slot(obj, "comment") == Some(EncodeString(x.comment))
  {
    ScalarsLossless();
    EnumsLossless();
    RequiredLossless(obj, "annotationDate", AsString, EncodeString);
    RequiredLossless(obj, "annotationType", DecodeAnnotationType, EncodeAnnotationType);
    RequiredLossless(obj, "annotator", AsString, EncodeString);
    RequiredLossless(obj, "comment", AsString, EncodeString);
  }

  lemma AnnotationEncodesTo(x: Annotation, obj: map<string, Json>)
    requires obj.Keys <= AnnotationKeys()
    requires Slot(obj, "annotationDate") == Some(EncodeString(x.annotationDate))
    requires Slot(obj, "annotationType") == Some(EncodeAnnotationType(x.annotationType))
    requires Slot(obj, "annotator") == Some(EncodeString(x.annotator))
    requires Slot(obj, "comment") == Some(EncodeString(x.comment))
    ensures EncodeAnnotation(x) == JObject(obj)
  {
    AnnotationWritesAnnotationDate(x);
    AnnotationWritesAnnotationType(x);
    AnnotationWritesAnnotator(x);
    AnnotationWritesComment(x);
    AnnotationSameSlots(EncodeAnnotation(x).fields, obj);
    SameObject(EncodeAnnotation(x).fields, obj, AnnotationKeys());
  }

  lemma AnnotationLossless(j: Json)
    ensures DecodeAnnotation(j).Ok? ==> EncodeAnnotation(DecodeAnnotation(j).value) == j
  {
    if DecodeAnnotation(j).Ok? {
      var x := DecodeAnnotation(j).value;
      AnnotationDecodedFields(j);
      AnnotationFieldsLossless(j.fields, x);
      AnnotationEncodesTo(x, j.fields);
    }
  }

  lemma AnnotationFieldsFaithful(x: Annotation)
    ensures Required(EncodeAnnotation(x).fields, "annotationDate", AsString) == Ok(x.annotationDate)
    ensures Required(EncodeAnnotation(x).fields, "annotationType", DecodeAnnotationType) == Ok(x.annotationType)
    ensures Required(EncodeAnnotation(x).fields, "annotator", AsString) == Ok(x.annotator)
    ensures Required(EncodeAnnotation(x).fields, "comment", AsString) == Ok(x.comment)
  {
    var obj := EncodeAnnotation(x).fields;
    AnnotationWritesAnnotationDate(x);
    AnnotationWritesAnnotationType(x);
    AnnotationWritesAnnotator(x);
    AnnotationWritesComment(x);
    ScalarsFaithful();
    EnumsFaithful();
    RequiredFaithful(obj, "annotationDate", AsString, EncodeString, x.annotationDate);
    RequiredFaithful(obj, "annotationType", DecodeAnnotationType, EncodeAnnotationType, x.annotationType);
    RequiredFaithful(obj, "annotator", AsString, EncodeString, x.annotator);
    RequiredFaithful(obj, "comment", AsString, EncodeString, x.comment);
  }

  lemma AnnotationEncodedClosed(x: Annotation)
    ensures ClosedObject(EncodeAnnotation(x), AnnotationKeys()) == Ok(EncodeAnnotation(x).fields)
  {
  }

  lemma AnnotationFaithful(x: Annotation)
    ensures DecodeAnnotation(EncodeAnnotation(x)) == Ok(x)
  {
    AnnotationEncodedClosed(x);
    AnnotationFieldsFaithful(x);
  }

  lemma AnnotationFieldsAccepted(obj: map<string, Json>)
    ensures Required(obj, "annotationDate", AsString).Ok? <==> HasRequired(obj, "annotationDate", IsString)
    ensures Required(obj, "annotationType", DecodeAnnotationType).Ok? <==> HasRequired(obj, "annotationType", IsAnnotationType)
    ensures Required(obj, "annotator", AsString).Ok? <==> HasRequired(obj, "annotator", IsString)
    ensures Required(obj, "comment", AsString).Ok? <==> HasRequired(obj, "comment", IsString)
  {
    ScalarsAgree();
    EnumsAgree();
    RequiredAgrees(obj, "annotationDate", AsString, IsString);
    RequiredAgrees(obj, "annotationType", DecodeAnnotationType, IsAnnotationType);
    RequiredAgrees(obj, "annotator", AsString, IsString);
    RequiredAgrees(obj, "comment", AsString, IsString);
  }

  lemma AnnotationAccepts(j: Json)
    ensures DecodeAnnotation(j).Ok? <==> ConformsAnnotation(j)
  {
    if Closed(j, AnnotationKeys()) {
      AnnotationFieldsAccepted(j.fields);
    }
  }

  // ---------------------------------------------------------------- CreationInfo

  lemma CreationInfoEncodedSlot(x: CreationInfo, key: string)
    ensures Slot(EncodeCreationInfo(x).fields, key) == (if key in CreationInfoKeys() then CreationInfoSlot(x, key) else None)
  {
  }

  lemma CreationInfoWritesComment(x: CreationInfo)
    ensures Slot(EncodeCreationInfo(x).fields, "comment") == Present(x.comment, EncodeString)
  {
    CreationInfoEncodedSlot(x, "comment");
  }

  lemma CreationInfoWritesCreated(x: CreationInfo)
    ensures Slot(EncodeCreationInfo(x).fields, "created") == Some(EncodeString(x.created))
  {
    CreationInfoEncodedSlot(x, "created");
  }

  lemma CreationInfoWritesCreators(x: CreationInfo)
    ensures Slot(EncodeCreationInfo(x).fields, "creators") == Some(EncodeArray(x.creators, EncodeString))
  {
    CreationInfoEncodedSlot(x, "creators");
  }

  lemma CreationInfoWritesLicenseListVersion(x: CreationInfo)
    ensures Slot(EncodeCreationInfo(x).fields, "licenseListVersion") == Present(x.licenseListVersion, EncodeString)
  {
    CreationInfoEncodedSlot(x, "licenseListVersion");
  }

  lemma CreationInfoSameSlots(a: map<string, Json>, b: map<string, Json>)
    requires Slot(a, "comment") == Slot(b, "comment")
    requires Slot(a, "created") == Slot(b, "created")
    requires Slot(a, "creators") == Slot(b, "creators")
    requires Slot(a, "licenseListVersion") == Slot(b, "licenseListVersion")
    ensures forall k | k in CreationInfoKeys() :: Slot(a, k) == Slot(b, k)
  {
  }

  lemma CreationInfoDecodedFields(j: Json)
    requires DecodeCreationInfo(j).Ok?
    ensures Optional(j.fields, "comment", AsString) == Ok(DecodeCreationInfo(j).value.comment)
    ensures Required(j.fields, "created", AsString) == Ok(DecodeCreationInfo(j).value.created)
    ensures RequiredArray(j.fields, "creators", AsString, 1) == Ok(DecodeCreationInfo(j).value.creators)
    ensures Optional(j.fields, "licenseListVersion", AsString) == Ok(DecodeCreationInfo(j).value.licenseListVersion)
  {
  }

  lemma CreationInfoFieldsLossless(obj: map<string, Json>, x: CreationInfo)
    requires Optional(obj, "comment", AsString) == Ok(x.comment)
    requires Required(obj, "created", AsString) == Ok(x.created)
    requires RequiredArray(obj, "creators", AsString, 1) == Ok(x.creators)
    requires Optional(obj, "licenseListVersion", AsString) == Ok(x.licenseListVersion)
    ensures Slot(obj, "comment") == Present(x.comment, EncodeString)
    ensures Slot(obj, "created") == Some(EncodeString(x.created))
    ensures Slot(obj, "creators") == Some(EncodeArray(x.creators, EncodeString))
    ensures Slot(obj, "licenseListVersion") == Present(x.licenseListVersion, EncodeString)
  {
    ScalarsLossless();
    OptionalLossless(obj, "comment", AsString, EncodeString);
    RequiredLossless(obj, "created", AsString, EncodeString);
    RequiredArrayLossless(obj, "creators", AsString, EncodeString, 1);
    OptionalLossless(obj, "licenseListVersion", AsString, EncodeString);
  }

  lemma CreationInfoEncodesTo(x: CreationInfo, obj: map<string, Json>)
    requires obj.Keys <= CreationInfoKeys()
    requires Slot(obj, "comment") == Present(x.comment, EncodeString)
    requires Slot(obj, "created") == Some(EncodeString(x.created))
    requires Slot(obj, "creators") == Some(EncodeArray(x.creators, EncodeString))
    requires Slot(obj, "licenseListVersion") == Present(x.licenseListVersion, EncodeString)
    ensures EncodeCreationInfo(x) == JObject(obj)
  {
    CreationInfoWritesComment(x);
    CreationInfoWritesCreated(x);
    CreationInfoWritesCreators(x);
    CreationInfoWritesLicenseListVersion(x);
    CreationInfoSameSlots(EncodeCreationInfo(x).fields, obj);
    SameObject(EncodeCreationInfo(x).fields, obj, CreationInfoKeys());
  }

  lemma CreationInfoLossless(j: Json)
    ensures DecodeCreationInfo(j).Ok? ==> EncodeCreationInfo(DecodeCreationInfo(j).value) == j
  {
    if DecodeCreationInfo(j).Ok? {
      var x := DecodeCreationInfo(j).value;
      CreationInfoDecodedFields(j);
      CreationInfoFieldsLossless(j.fields, x);
      CreationInfoEncodesTo(x, j.fields);
    }
  }

  lemma CreationInfoFieldsFaithful(x: CreationInfo)
    requires x.Valid()
    ensures Optional(EncodeCreationInfo(x).fields, "comment", AsString) == Ok(x.comment)
    ensures Required(EncodeCreationInfo(x).fields, "created", AsString) == Ok(x.created)
    ensures RequiredArray(EncodeCreationInfo(x).fields, "creators", AsString, 1) == Ok(x.creators)
    ensures Optional(EncodeCreationInfo(x).fields, "licenseListVersion", AsString) == Ok(x.licenseListVersion)
  {
    var obj := EncodeCreationInfo(x).fields;
    CreationInfoWritesComment(x);
    CreationInfoWritesCreated(x);
    CreationInfoWritesCreators(x);
    CreationInfoWritesLicenseListVersion(x);
    ScalarsFaithful();
    OptionalFaithful(obj, "comment", AsString, EncodeString, x.comment);
    RequiredFaithful(obj, "created", AsString, EncodeString, x.created);
    RequiredArrayFaithful(obj, "creators", AsString, EncodeString, 1, x.creators);
    OptionalFaithful(obj, "licenseListVersion", AsString, EncodeString, x.licenseListVersion);
  }

  lemma CreationInfoEncodedClosed(x: CreationInfo)
    ensures ClosedObject(EncodeCreationInfo(x), CreationInfoKeys()) == Ok(EncodeCreationInfo(x).fields)
  {
  }

  lemma CreationInfoFaithful(x: CreationInfo)
    requires x.Valid()
    ensures DecodeCreationInfo(EncodeCreationInfo(x)) == Ok(x)
  {
    CreationInfoEncodedClosed(x);
    CreationInfoFieldsFaithful(x);
  }

  lemma CreationInfoFieldsAccepted(obj: map<string, Json>)
    ensures Optional(obj, "comment", AsString).Ok? <==> MayHave(obj, "comment", IsString)
    ensures Required(obj, "created", AsString).Ok? <==> HasRequired(obj, "created", IsString)
    ensures RequiredArray(obj, "creators", AsString, 1).Ok? <==> HasRequiredArray(obj, "creators", IsString, 1)
    ensures Optional(obj, "licenseListVersion", AsString).Ok? <==> MayHave(obj, "licenseListVersion", IsString)
  {
    ScalarsAgree();
    OptionalAgrees(obj, "comment", AsString, IsString);
    RequiredAgrees(obj, "created", AsString, IsString);
    RequiredArrayAgrees(obj, "creators", AsString, IsString, 1);
    OptionalAgrees(obj, "licenseListVersion", AsString, IsString);
  }

  lemma CreationInfoAccepts(j: Json)
    ensures DecodeCreationInfo(j).Ok? <==> ConformsCreationInfo(j)
  {
    if Closed(j, CreationInfoKeys()) {
      CreationInfoFieldsAccepted(j.fields);
    }
  }

  // ---------------------------------------------------------------- Checksum

  lemma ChecksumEncodedSlot(x: Checksum, key: string)
    ensures Slot(EncodeChecksum(x).fields, key) == (if key in ChecksumKeys() then ChecksumSlot(x, key) else None)
  {
  }

  lemma ChecksumWritesAlgorithm(x: Checksum)
    ensures Slot(EncodeChecksum(x).fields, "algorithm") == Some(EncodeAlgorithm(x.algorithm))
  {
    ChecksumEncodedSlot(x, "algorithm");
  }

  lemma ChecksumWritesChecksumValue(x: Checksum)
    ensures Slot(EncodeChecksum(x).fields, "checksumValue") == Some(EncodeString(x.checksumValue))
  {
    ChecksumEncodedSlot(x, "checksumValue");
  }

  lemma ChecksumSameSlots(a: map<string, Json>, b: map<string, Json>)
    requires Slot(a, "algorithm") == Slot(b, "algorithm")
    requires Slot(a, "checksumValue") == Slot(b, "checksumValue")
    ensures forall k | k in ChecksumKeys() :: Slot(a, k) == Slot(b, k)
  {
  }

  lemma ChecksumDecodedFields(j: Json)
    requires DecodeChecksum(j).Ok?
    ensures Required(j.fields, "algorithm", DecodeAlgorithm) == Ok(DecodeChecksum(j).value.algorithm)
    ensures Required(j.fields, "checksumValue", AsString) == Ok(DecodeChecksum(j).value.checksumValue)
  {
  }

  lemma ChecksumFieldsLossless(obj: map<string, Json>, x: Checksum)
    requires Required(obj, "algorithm", DecodeAlgorithm) == Ok(x.algorithm)
    requires Required(obj, "checksumValue", AsString) == Ok(x.checksumValue)
    ensures Slot(obj, "algorithm") == Some(EncodeAlgorithm(x.algorithm))
    ensures Slot(obj, "checksumValue") == Some(EncodeString(x.checksumValue))
  {
    EnumsLossless();
    ScalarsLossless();
    RequiredLossless(obj, "algorithm", DecodeAlgorithm, EncodeAlgorithm);
    RequiredLossless(obj, "checksumValue", AsString, EncodeString);
  }

  lemma ChecksumEncodesTo(x: Checksum, obj: map<string, Json>)
    requires obj.Keys <= ChecksumKeys()
    requires Slot(obj, "algorithm") == Some(EncodeAlgorithm(x.algorithm))
    requires Slot(obj, "checksumValue") == Some(EncodeString(x.checksumValue))
    ensures EncodeChecksum(x) == JObject(obj)
  {
    ChecksumWritesAlgorithm(x);
    ChecksumWritesChecksumValue(x);
    ChecksumSameSlots(EncodeChecksum(x).fields, obj);
    SameObject(EncodeChecksum(x).fields, obj, ChecksumKeys());
  }

  lemma ChecksumLossless(j: Json)
    ensures DecodeChecksum(j).Ok? ==> EncodeChecksum(DecodeChecksum(j).value) == j
  {
    if DecodeChecksum(j).Ok? {
      var x := DecodeChecksum(j).value;
      ChecksumDecodedFields(j);
      ChecksumFieldsLossless(j.fields, x);
      ChecksumEncodesTo(x, j.fields);
    }
  }

  lemma ChecksumFieldsFaithful(x: Checksum)
    ensures Required(EncodeChecksum(x).fields, "algorithm", DecodeAlgorithm) == Ok(x.algorithm)
    ensures Required(EncodeChecksum(x).fields, "checksumValue", AsString) == Ok(x.checksumValue)
  {
    var obj := EncodeChecksum(x).fields;
    ChecksumWritesAlgorithm(x);
    ChecksumWritesChecksumValue(x);
    EnumsFaithful();
    ScalarsFaithful();
    RequiredFaithful(obj, "algorithm", DecodeAlgorithm, EncodeAlgorithm, x.algorithm);
    RequiredFaithful(obj, "checksumValue", AsString, EncodeString, x.checksumValue);
  }

  lemma ChecksumEncodedClosed(x: Checksum)
    ensures ClosedObject(EncodeChecksum(x), ChecksumKeys()) == Ok(EncodeChecksum(x).fields)
  {
  }

  lemma ChecksumFaithful(x: Checksum)
    ensures DecodeChecksum(EncodeChecksum(x)) == Ok(x)
  {
    ChecksumEncodedClosed(x);
    ChecksumFieldsFaithful(x);
  }

  lemma ChecksumFieldsAccepted(obj: map<string, Json>)
    ensures Required(obj, "algorithm", DecodeAlgorithm).Ok? <==> HasRequired(obj, "algorithm", IsAlgorithm)
    ensures Required(obj, "checksumValue", AsString).Ok? <==> HasRequired(obj, "checksumValue", IsString)
  {
    EnumsAgree();
    ScalarsAgree();
    RequiredAgrees(obj, "algorithm", DecodeAlgorithm, IsAlgorithm);
    RequiredAgrees(obj, "checksumValue", AsString, IsString);
  }

  lemma ChecksumAccepts(j: Json)
    ensures DecodeChecksum(j).Ok? <==> ConformsChecksum(j)
  {
    if Closed(j, ChecksumKeys()) {
      ChecksumFieldsAccepted(j.fields);
    }
  }

  // ---------------------------------------------------------------- ExternalDocumentRef

  lemma ExternalDocumentRefEncodedSlot(x: ExternalDocumentRef, key: string)
    ensures Slot(EncodeExternalDocumentRef(x).fields, key) == (if key in ExternalDocumentRefKeys() then ExternalDocumentRefSlot(x, key) else None)
  {
  }

  lemma ExternalDocumentRefWritesChecksum(x: ExternalDocumentRef)
    ensures Slot(EncodeExternalDocumentRef(x).fields, "checksum") == Some(EncodeChecksum(x.checksum))
  {
    ExternalDocumentRefEncodedSlot(x, "checksum");
  }

  lemma ExternalDocumentRefWritesExternalDocumentId(x: ExternalDocumentRef)
    ensures Slot(EncodeExternalDocumentRef(x).fields, "externalDocumentId") == Some(EncodeString(x.externalDocumentId))
  {
    ExternalDocumentRefEncodedSlot(x, "externalDocumentId");
  }

  lemma ExternalDocumentRefWritesSpdxDocument(x: ExternalDocumentRef)
    ensures Slot(EncodeExternalDocumentRef(x).fields, "spdxDocument") == Some(EncodeString(x.spdxDocument))
  {
    ExternalDocumentRefEncodedSlot(x, "spdxDocument");
  }

  lemma ExternalDocumentRefSameSlots(a: map<string, Json>, b: map<string, Json>)
    requires Slot(a, "checksum") == Slot(b, "checksum")
    requires Slot(a, "externalDocumentId") == Slot(b, "externalDocumentId")
    requires Slot(a, "spdxDocument") == Slot(b, "spdxDocument")
    ensures forall k | k in ExternalDocumentRefKeys() :: Slot(a, k) == Slot(b, k)
  {
  }

  lemma ExternalDocumentRefDecodedFields(j: Json)
    requires DecodeExternalDocumentRef(j).Ok?
    ensures Required(j.fields, "checksum", DecodeChecksum) == Ok(DecodeExternalDocumentRef(j).value.checksum)
    ensures Required(j.fields, "externalDocumentId", AsString) == Ok(DecodeExternalDocumentRef(j).value.externalDocumentId)
    ensures Required(j.fields, "spdxDocument", AsString) == Ok(DecodeExternalDocumentRef(j).value.spdxDocument)
  {
  }

  lemma ExternalDocumentRefFieldsLossless(obj: map<string, Json>, x: ExternalDocumentRef)
    requires Required(obj, "checksum", DecodeChecksum) == Ok(x.checksum)
    requires Required(obj, "externalDocumentId", AsString) == Ok(x.externalDocumentId)
    requires Required(obj, "spdxDocument", AsString) == Ok(x.spdxDocument)
    ensures Slot(obj, "checksum") == Some(EncodeChecksum(x.checksum))
    ensures Slot(obj, "externalDocumentId") == Some(EncodeString(x.externalDocumentId))
    ensures Slot(obj, "spdxDocument") == Some(EncodeString(x.spdxDocument))
  {
    ScalarsLossless();
    forall e ensures Lossless(DecodeChecksum, EncodeChecksum, e) {
      ChecksumLossless(e);
    }
    RequiredLossless(obj, "checksum", DecodeChecksum, EncodeChecksum);
    RequiredLossless(obj, "externalDocumentId", AsString, EncodeString);
    RequiredLossless(obj, "spdxDocument", AsString, EncodeString);
  }

  lemma ExternalDocumentRefEncodesTo(x: ExternalDocumentRef, obj: map<string, Json>)
    requires obj.Keys <= ExternalDocumentRefKeys()
    requires Slot(obj, "checksum") == Some(EncodeChecksum(x.checksum))
    requires Slot(obj, "externalDocumentId") == Some(EncodeString(x.externalDocumentId))
    requires Slot(obj, "spdxDocument") == Some(EncodeString(x.spdxDocument))
    ensures EncodeExternalDocumentRef(x) == JObject(obj)
  {
    ExternalDocumentRefWritesChecksum(x);
    ExternalDocumentRefWritesExternalDocumentId(x);
    ExternalDocumentRefWritesSpdxDocument(x);
    ExternalDocumentRefSameSlots(EncodeExternalDocumentRef(x).fields, obj);
    SameObject(EncodeExternalDocumentRef(x).fields, obj, ExternalDocumentRefKeys());
  }

  lemma ExternalDocumentRefLossless(j: Json)
    ensures DecodeExternalDocumentRef(j).Ok? ==> EncodeExternalDocumentRef(DecodeExternalDocumentRef(j).value) == j
  {
    if DecodeExternalDocumentRef(j).Ok? {
      var x := DecodeExternalDocumentRef(j).value;
      ExternalDocumentRefDecodedFields(j);
      ExternalDocumentRefFieldsLossless(j.fields, x);
      ExternalDocumentRefEncodesTo(x, j.fields);
    }
  }

  lemma ExternalDocumentRefFieldsFaithful(x: ExternalDocumentRef)
    ensures Required(EncodeExternalDocumentRef(x).fields, "checksum", DecodeChecksum) == Ok(x.checksum)
    ensures Required(EncodeExternalDocumentRef(x).fields, "externalDocumentId", AsString) == Ok(x.externalDocumentId)
    ensures Required(EncodeExternalDocumentRef(x).fields, "spdxDocument", AsString) == Ok(x.spdxDocument)
  {
    var obj := EncodeExternalDocumentRef(x).fields;
    ExternalDocumentRefWritesChecksum(x);
    ExternalDocumentRefWritesExternalDocumentId(x);
    ExternalDocumentRefWritesSpdxDocument(x);
    ScalarsFaithful();
    ChecksumFaithful(x.checksum);
    RequiredFaithful(obj, "checksum", DecodeChecksum, EncodeChecksum, x.checksum);
    RequiredFaithful(obj, "externalDocumentId", AsString, EncodeString, x.externalDocumentId);
    RequiredFaithful(obj, "spdxDocument", AsString, EncodeString, x.spdxDocument);
  }

  lemma ExternalDocumentRefEncodedClosed(x: ExternalDocumentRef)
    ensures ClosedObject(EncodeExternalDocumentRef(x), ExternalDocumentRefKeys()) == Ok(EncodeExternalDocumentRef(x).fields)
  {
  }

  lemma ExternalDocumentRefFaithful(x: ExternalDocumentRef)
    ensures DecodeExternalDocumentRef(EncodeExternalDocumentRef(x)) == Ok(x)
  {
    ExternalDocumentRefEncodedClosed(x);
    ExternalDocumentRefFieldsFaithful(x);
  }

  lemma ExternalDocumentRefFieldsAccepted(obj: map<string, Json>)
    ensures Required(obj, "checksum", DecodeChecksum).Ok? <==> HasRequired(obj, "checksum", ConformsChecksum)
    ensures Required(obj, "externalDocumentId", AsString).Ok? <==> HasRequired(obj, "externalDocumentId", IsString)
    ensures Required(obj, "spdxDocument", AsString).Ok? <==> HasRequired(obj, "spdxDocument", IsString)
  {
    ScalarsAgree();
    forall e ensures Agrees(DecodeChecksum, ConformsChecksum, e) {
      ChecksumAccepts(e);
    }
    RequiredAgrees(obj, "checksum", DecodeChecksum, ConformsChecksum);
    RequiredAgrees(obj, "externalDocumentId", AsString, IsString);
    RequiredAgrees(obj, "spdxDocument", AsString, IsString);
  }

  lemma ExternalDocumentRefAccepts(j: Json)
    ensures DecodeExternalDocumentRef(j).Ok? <==> ConformsExternalDocumentRef(j)
  {
    if Closed(j, ExternalDocumentRefKeys()) {
      ExternalDocumentRefFieldsAccepted(j.fields);
    }
  }

  // ---------------------------------------------------------------- CrossRef

  lemma CrossRefEncodedSlot(x: CrossRef, key: string)
    ensures Slot(EncodeCrossRef(x).fields, key) == (if key in CrossRefKeys() then CrossRefSlot(x, key) else None)
  {
  }

  lemma CrossRefWritesIsLive(x: CrossRef)
    ensures Slot(EncodeCrossRef(x).fields, "isLive") == Present(x.isLive, EncodeBool)
  {
    CrossRefEncodedSlot(x, "isLive");
  }

  lemma CrossRefWritesIsValid(x: CrossRef)
    ensures Slot(EncodeCrossRef(x).fields, "isValid") == Present(x.isValid, EncodeBool)
  {
    CrossRefEncodedSlot(x, "isValid");
  }

  lemma CrossRefWritesIsWayBackLink(x: CrossRef)
    ensures Slot(EncodeCrossRef(x).fields, "isWayBackLink") == Present(x.isWayBackLink, EncodeBool)
  {
    CrossRefEncodedSlot(x, "isWayBackLink");
  }

  lemma CrossRefWritesMatchStatus(x: CrossRef)
    ensures Slot(EncodeCrossRef(x).fields, "match") == Present(x.matchStatus, EncodeString)
  {
    CrossRefEncodedSlot(x, "match");
  }

  lemma CrossRefWritesOrder(x: CrossRef)
    ensures Slot(EncodeCrossRef(x).fields, "order") == Present(x.order, EncodeInt)
  {
    CrossRefEncodedSlot(x, "order");
  }

  lemma CrossRefWritesTimestamp(x: CrossRef)
    ensures Slot(EncodeCrossRef(x).fields, "timestamp") == Present(x.timestamp, EncodeString)
  {
    CrossRefEncodedSlot(x, "timestamp");
  }

  lemma CrossRefWritesUrl(x: CrossRef)
    ensures Slot(EncodeCrossRef(x).fields, "url") == Some(EncodeString(x.url))
  {
    CrossRefEncodedSlot(x, "url");
  }

  lemma CrossRefSameSlots(a: map<string, Json>, b: map<string, Json>)
    requires Slot(a, "isLive") == Slot(b, "isLive")
    requires Slot(a, "isValid") == Slot(b, "isValid")
    requires Slot(a, "isWayBackLink") == Slot(b, "isWayBackLink")
    requires Slot(a, "match") == Slot(b, "match")
    requires Slot(a, "order") == Slot(b, "order")
    requires Slot(a, "timestamp") == Slot(b, "timestamp")
    requires Slot(a, "url") == Slot(b, "url")
    ensures forall k | k in CrossRefKeys() :: Slot(a, k) == Slot(b, k)
  {
  }

  lemma CrossRefDecodedFields(j: Json)
    requires DecodeCrossRef(j).Ok?
    ensures Optional(j.fields, "isLive", AsBool) == Ok(DecodeCrossRef(j).value.isLive)
    ensures Optional(j.fields, "isValid", AsBool) == Ok(DecodeCrossRef(j).value.isValid)
    ensures Optional(j.fields, "isWayBackLink", AsBool) == Ok(DecodeCrossRef(j).value.isWayBackLink)
    ensures Optional(j.fields, "match", AsString) == Ok(DecodeCrossRef(j).value.matchStatus)
    ensures Optional(j.fields, "order", AsInt) == Ok(DecodeCrossRef(j).value.order)
    ensures Optional(j.fields, "timestamp", AsString) == Ok(DecodeCrossRef(j).value.timestamp)
    ensures Required(j.fields, "url", AsString) == Ok(DecodeCrossRef(j).value.url)
  {
  }

  lemma CrossRefFieldsLossless(obj: map<string, Json>, x: CrossRef)
    requires Optional(obj, "isLive", AsBool) == Ok(x.isLive)
    requires Optional(obj, "isValid", AsBool) == Ok(x.isValid)
    requires Optional(obj, "isWayBackLink", AsBool) == Ok(x.isWayBackLink)
    requires Optional(obj, "match", AsString) == Ok(x.matchStatus)
    requires Optional(obj, "order", AsInt) == Ok(x.order)
    requires Optional(obj, "timestamp", AsString) == Ok(x.timestamp)
    requires Required(obj, "url", AsString) == Ok(x.url)
    ensures Slot(obj, "isLive") == Present(x.isLive, EncodeBool)
    ensures Slot(obj, "isValid") == Present(x.isValid, EncodeBool)
    ensures Slot(obj, "isWayBackLink") == Present(x.isWayBackLink, EncodeBool)
    ensures Slot(obj, "match") == Present(x.matchStatus, EncodeString)
    ensures Slot(obj, "order") == Present(x.order, EncodeInt)
    ensures Slot(obj, "timestamp") == Present(x.timestamp, EncodeString)
    ensures Slot(obj, "url") == Some(EncodeString(x.url))
  {
    ScalarsLossless();
    OptionalLossless(obj, "isLive", AsBool, EncodeBool);
    OptionalLossless(obj, "isValid", AsBool, EncodeBool);
    OptionalLossless(obj, "isWayBackLink", AsBool, EncodeBool);
    OptionalLossless(obj, "match", AsString, EncodeString);
    OptionalLossless(obj, "order", AsInt, EncodeInt);
    OptionalLossless(obj, "timestamp", AsString, EncodeString);
    RequiredLossless(obj, "url", AsString, EncodeString);
  }

  lemma CrossRefEncodesTo(x: CrossRef, obj: map<string, Json>)
    requires obj.Keys <= CrossRefKeys()
    requires Slot(obj, "isLive") == Present(x.isLive, EncodeBool)
    requires Slot(obj, "isValid") == Present(x.isValid, EncodeBool)
    requires Slot(obj, "isWayBackLink") == Present(x.isWayBackLink, EncodeBool)
    requires Slot(obj, "match") == Present(x.matchStatus, EncodeString)
    requires Slot(obj, "order") == Present(x.order, EncodeInt)
    requires Slot(obj, "timestamp") == Present(x.timestamp, EncodeString)
    requires Slot(obj, "url") == Some(EncodeString(x.url))
    ensures EncodeCrossRef(x) == JObject(obj)
  {
    CrossRefWritesIsLive(x);
    CrossRefWritesIsValid(x);
    CrossRefWritesIsWayBackLink(x);
    CrossRefWritesMatchStatus(x);
    CrossRefWritesOrder(x);
    CrossRefWritesTimestamp(x);
    CrossRefWritesUrl(x);
    CrossRefSameSlots(EncodeCrossRef(x).fields, obj);
    SameObject(EncodeCrossRef(x).fields, obj, CrossRefKeys());
  }

  lemma CrossRefLossless(j: Json)
    ensures DecodeCrossRef(j).Ok? ==> EncodeCrossRef(DecodeCrossRef(j).value) == j
  {
    if DecodeCrossRef(j).Ok? {
      var x := DecodeCrossRef(j).value;
      CrossRefDecodedFields(j);
      CrossRefFieldsLossless(j.fields, x);
      CrossRefEncodesTo(x, j.fields);
    }
  }

  lemma CrossRefFieldsFaithful(x: CrossRef)
    ensures Optional(EncodeCrossRef(x).fields, "isLive", AsBool) == Ok(x.isLive)
    ensures Optional(EncodeCrossRef(x).fields, "isValid", AsBool) == Ok(x.isValid)
    ensures Optional(EncodeCrossRef(x).fields, "isWayBackLink", AsBool) == Ok(x.isWayBackLink)
    ensures Optional(EncodeCrossRef(x).fields, "match", AsString) == Ok(x.matchStatus)
    ensures Optional(EncodeCrossRef(x).fields, "order", AsInt) == Ok(x.order)
    ensures Optional(EncodeCrossRef(x).fields, "timestamp", AsString) == Ok(x.timestamp)
    ensures Required(EncodeCrossRef(x).fields, "url", AsString) == Ok(x.url)
  {
    var obj := EncodeCrossRef(x).fields;
    CrossRefWritesIsLive(x);
    CrossRefWritesIsValid(x);
    CrossRefWritesIsWayBackLink(x);
    CrossRefWritesMatchStatus(x);
    CrossRefWritesOrder(x);
    CrossRefWritesTimestamp(x);
    CrossRefWritesUrl(x);
    ScalarsFaithful();
    OptionalFaithful(obj, "isLive", AsBool, EncodeBool, x.isLive);
    OptionalFaithful(obj, "isValid", AsBool, EncodeBool, x.isValid);
    OptionalFaithful(obj, "isWayBackLink", AsBool, EncodeBool, x.isWayBackLink);
    OptionalFaithful(obj, "match", AsString, EncodeString, x.matchStatus);
    OptionalFaithful(obj, "order", AsInt, EncodeInt, x.order);
    OptionalFaithful(obj, "timestamp", AsString, EncodeString, x.timestamp);
    RequiredFaithful(obj, "url", AsString, EncodeString, x.url);
  }

  lemma CrossRefEncodedClosed(x: CrossRef)
    ensures ClosedObject(EncodeCrossRef(x), CrossRefKeys()) == Ok(EncodeCrossRef(x).fields)
  {
  }

  lemma CrossRefFaithful(x: CrossRef)
    ensures DecodeCrossRef(EncodeCrossRef(x)) == Ok(x)
  {
    CrossRefEncodedClosed(x);
    CrossRefFieldsFaithful(x);
  }

  lemma CrossRefFieldsAccepted(obj: map<string, Json>)
    ensures Optional(obj, "isLive", AsBool).Ok? <==> MayHave(obj, "isLive", IsBool)
    ensures Optional(obj, "isValid", AsBool).Ok? <==> MayHave(obj, "isValid", IsBool)
    ensures Optional(obj, "isWayBackLink", AsBool).Ok? <==> MayHave(obj, "isWayBackLink", IsBool)
    ensures Optional(obj, "match", AsString).Ok? <==> MayHave(obj, "match", IsString)
    ensures Optional(obj, "order", AsInt).Ok? <==> MayHave(obj, "order", IsInteger)
    ensures Optional(obj, "timestamp", AsString).Ok? <==> MayHave(obj, "timestamp", IsString)
    ensures Required(obj, "url", AsString).Ok? <==> HasRequired(obj, "url", IsString)
  {
    ScalarsAgree();
    OptionalAgrees(obj, "isLive", AsBool, IsBool);
    OptionalAgrees(obj, "isValid", AsBool, IsBool);
    OptionalAgrees(obj, "isWayBackLink", AsBool, IsBool);
    OptionalAgrees(obj, "match", AsString, IsString);
    OptionalAgrees(obj, "order", AsInt, IsInteger);
    OptionalAgrees(obj, "timestamp", AsString, IsString);
    RequiredAgrees(obj, "url", AsString, IsString);
  }

  lemma CrossRefAccepts(j: Json)
    ensures DecodeCrossRef(j).Ok? <==> ConformsCrossRef(j)
  {
    if Closed(j, CrossRefKeys()) {
      CrossRefFieldsAccepted(j.fields);
    }
  }

  // ---------------------------------------------------------------- HasExtractedLicensingInfo

  lemma HasExtractedLicensingInfoEncodedSlot(x: HasExtractedLicensingInfo, key: string)
    ensures Slot(EncodeHasExtractedLicensingInfo(x).fields, key) == (if key in HasExtractedLicensingInfoKeys() then HasExtractedLicensingInfoSlot(x, key) else None)
  {
  }

  lemma HasExtractedLicensingInfoWritesComment(x: HasExtractedLicensingInfo)
    ensures Slot(EncodeHasExtractedLicensingInfo(x).fields, "comment") == Present(x.comment, EncodeString)
  {
    HasExtractedLicensingInfoEncodedSlot(x, "comment");
  }

  lemma HasExtractedLicensingInfoWritesCrossRefs(x: HasExtractedLicensingInfo)
    ensures Slot(EncodeHasExtractedLicensingInfo(x).fields, "crossRefs") == PresentArray(x.crossRefs, EncodeCrossRef)
  {
    HasExtractedLicensingInfoEncodedSlot(x, "crossRefs");
  }

  lemma HasExtractedLicensingInfoWritesExtractedText(x: HasExtractedLicensingInfo)
    ensures Slot(EncodeHasExtractedLicensingInfo(x).fields, "extractedText") == Some(EncodeString(x.extractedText))
  {
    HasExtractedLicensingInfoEncodedSlot(x, "extractedText");
  }

  lemma HasExtractedLicensingInfoWritesLicenseId(x: HasExtractedLicensingInfo)
    ensures Slot(EncodeHasExtractedLicensingInfo(x).fields, "licenseId") == Some(EncodeString(x.licenseId))
  {
    HasExtractedLicensingInfoEncodedSlot(x, "licenseId");
  }

  lemma HasExtractedLicensingInfoWritesName(x: HasExtractedLicensingInfo)
    ensures Slot(EncodeHasExtractedLicensingInfo(x).fields, "name") == Present(x.name, EncodeString)
  {
    HasExtractedLicensingInfoEncodedSlot(x, "name");
  }

  lemma HasExtractedLicensingInfoWritesSeeAlsos(x: HasExtractedLicensingInfo)
    ensures Slot(EncodeHasExtractedLicensingInfo(x).fields, "seeAlsos") == PresentArray(x.seeAlsos, EncodeString)
  {
    HasExtractedLicensingInfoEncodedSlot(x, "seeAlsos");
  }

  lemma HasExtractedLicensingInfoSameSlots(a: map<string, Json>, b: map<string, Json>)
    requires Slot(a, "comment") == Slot(b, "comment")
    requires Slot(a, "crossRefs") == Slot(b, "crossRefs")
    requires Slot(a, "extractedText") == Slot(b, "extractedText")
    requires Slot(a, "licenseId") == Slot(b, "licenseId")
    requires Slot(a, "name") == Slot(b, "name")
    requires Slot(a, "seeAlsos") == Slot(b, "seeAlsos")
    ensures forall k | k in HasExtractedLicensingInfoKeys() :: Slot(a, k) == Slot(b, k)
  {
  }

  lemma HasExtractedLicensingInfoDecodedFields(j: Json)
    requires DecodeHasExtractedLicensingInfo(j).Ok?
    ensures Optional(j.fields, "comment", AsString) == Ok(DecodeHasExtractedLicensingInfo(j).value.comment)
    ensures OptionalArray(j.fields, "crossRefs", DecodeCrossRef) == Ok(DecodeHasExtractedLicensingInfo(j).value.crossRefs)
    ensures Required(j.fields, "extractedText", AsString) == Ok(DecodeHasExtractedLicensingInfo(j).value.extractedText)
    ensures Required(j.fields, "licenseId", AsString) == Ok(DecodeHasExtractedLicensingInfo(j).value.licenseId)
    ensures Optional(j.fields, "name", AsString) == Ok(DecodeHasExtractedLicensingInfo(j).value.name)
    ensures OptionalArray(j.fields, "seeAlsos", AsString) == Ok(DecodeHasExtractedLicensingInfo(j).value.seeAlsos)
  {
  }

  lemma HasExtractedLicensingInfoFieldsLossless(obj: map<string, Json>, x: HasExtractedLicensingInfo)
    requires Optional(obj, "comment", AsString) == Ok(x.comment)
    requires OptionalArray(obj, "crossRefs", DecodeCrossRef) == Ok(x.crossRefs)
    requires Required(obj, "extractedText", AsString) == Ok(x.extractedText)
    requires Required(obj, "licenseId", AsString) == Ok(x.licenseId)
    requires Optional(obj, "name", AsString) == Ok(x.name)
    requires OptionalArray(obj, "seeAlsos", AsString) == Ok(x.seeAlsos)
    ensures Slot(obj, "comment") == Present(x.comment, EncodeString)
    ensures Slot(obj, "crossRefs") == PresentArray(x.crossRefs, EncodeCrossRef)
    ensures Slot(obj, "extractedText") == Some(EncodeString(x.extractedText))
    ensures Slot(obj, "licenseId") == Some(EncodeString(x.licenseId))
    ensures Slot(obj, "name") == Present(x.name, EncodeString)
    ensures Slot(obj, "seeAlsos") == PresentArray(x.seeAlsos, EncodeString)
  {
    ScalarsLossless();
    forall e ensures Lossless(DecodeCrossRef, EncodeCrossRef, e) {
      CrossRefLossless(e);
    }
    OptionalLossless(obj, "comment", AsString, EncodeString);
    OptionalArrayLossless(obj, "crossRefs", DecodeCrossRef, EncodeCrossRef);
    RequiredLossless(obj, "extractedText", AsString, EncodeString);
    RequiredLossless(obj, "licenseId", AsString, EncodeString);
    OptionalLossless(obj, "name", AsString, EncodeString);
    OptionalArrayLossless(obj, "seeAlsos", AsString, EncodeString);
  }

  lemma HasExtractedLicensingInfoEncodesTo(x: HasExtractedLicensingInfo, obj: map<string, Json>)
    requires obj.Keys <= HasExtractedLicensingInfoKeys()
    requires Slot(obj, "comment") == Present(x.comment, EncodeString)
    requires Slot(obj, "crossRefs") == PresentArray(x.crossRefs, EncodeCrossRef)
    requires Slot(obj, "extractedText") == Some(EncodeString(x.extractedText))
    requires Slot(obj, "licenseId") == Some(EncodeString(x.licenseId))
    requires Slot(obj, "name") == Present(x.name, EncodeString)
    requires Slot(obj, "seeAlsos") == PresentArray(x.seeAlsos, EncodeString)
    ensures EncodeHasExtractedLicensingInfo(x) == JObject(obj)
  {
    HasExtractedLicensingInfoWritesComment(x);
    HasExtractedLicensingInfoWritesCrossRefs(x);
    HasExtractedLicensingInfoWritesExtractedText(x);
    HasExtractedLicensingInfoWritesLicenseId(x);
    HasExtractedLicensingInfoWritesName(x);
    HasExtractedLicensingInfoWritesSeeAlsos(x);
    HasExtractedLicensingInfoSameSlots(EncodeHasExtractedLicensingInfo(x).fields, obj);
    SameObject(EncodeHasExtractedLicensingInfo(x).fields, obj, HasExtractedLicensingInfoKeys());
  }

  lemma HasExtractedLicensingInfoLossless(j: Json)
    ensures DecodeHasExtractedLicensingInfo(j).Ok? ==> EncodeHasExtractedLicensingInfo(DecodeHasExtractedLicensingInfo(j).value) == j
  {
    if DecodeHasExtractedLicensingInfo(j).Ok? {
      var x := DecodeHasExtractedLicensingInfo(j).value;
      HasExtractedLicensingInfoDecodedFields(j);
      HasExtractedLicensingInfoFieldsLossless(j.fields, x);
      HasExtractedLicensingInfoEncodesTo(x, j.fields);
    }
  }

  lemma HasExtractedLicensingInfoFieldsFaithful(x: HasExtractedLicensingInfo)
    ensures Optional(EncodeHasExtractedLicensingInfo(x).fields, "comment", AsString) == Ok(x.comment)
    ensures OptionalArray(EncodeHasExtractedLicensingInfo(x).fields, "crossRefs", DecodeCrossRef) == Ok(x.crossRefs)
    ensures Required(EncodeHasExtractedLicensingInfo(x).fields, "extractedText", AsString) == Ok(x.extractedText)
    ensures Required(EncodeHasExtractedLicensingInfo(x).fields, "licenseId", AsString) == Ok(x.licenseId)
    ensures Optional(EncodeHasExtractedLicensingInfo(x).fields, "name", AsString) == Ok(x.name)
    ensures OptionalArray(EncodeHasExtractedLicensingInfo(x).fields, "seeAlsos", AsString) == Ok(x.seeAlsos)
  {
    var obj := EncodeHasExtractedLicensingInfo(x).fields;
    HasExtractedLicensingInfoWritesComment(x);
    HasExtractedLicensingInfoWritesCrossRefs(x);
    HasExtractedLicensingInfoWritesExtractedText(x);
    HasExtractedLicensingInfoWritesLicenseId(x);
    HasExtractedLicensingInfoWritesName(x);
    HasExtractedLicensingInfoWritesSeeAlsos(x);
    ScalarsFaithful();
    OptionalFaithful(obj, "comment", AsString, EncodeString, x.comment);
    if x.crossRefs.Some? {
      forall i | 0 <= i < |x.crossRefs.value| ensures Faithful(DecodeCrossRef, EncodeCrossRef, x.crossRefs.value[i]) {
        CrossRefFaithful(x.crossRefs.value[i]);
      }
    }
    OptionalArrayFaithful(obj, "crossRefs", DecodeCrossRef, EncodeCrossRef, x.crossRefs);
    RequiredFaithful(obj, "extractedText", AsString, EncodeString, x.extractedText);
    RequiredFaithful(obj, "licenseId", AsString, EncodeString, x.licenseId);
    OptionalFaithful(obj, "name", AsString, EncodeString, x.name);
    OptionalArrayFaithful(obj, "seeAlsos", AsString, EncodeString, x.seeAlsos);
  }

  lemma HasExtractedLicensingInfoEncodedClosed(x: HasExtractedLicensingInfo)
    ensures ClosedObject(EncodeHasExtractedLicensingInfo(x), HasExtractedLicensingInfoKeys()) == Ok(EncodeHasExtractedLicensingInfo(x).fields)
  {
  }

  lemma HasExtractedLicensingInfoFaithful(x: HasExtractedLicensingInfo)
    ensures DecodeHasExtractedLicensingInfo(EncodeHasExtractedLicensingInfo(x)) == Ok(x)
  {
    HasExtractedLicensingInfoEncodedClosed(x);
    HasExtractedLicensingInfoFieldsFaithful(x);
  }

  lemma HasExtractedLicensingInfoFieldsAccepted(obj: map<string, Json>)
    ensures Optional(obj, "comment", AsString).Ok? <==> MayHave(obj, "comment", IsString)
    ensures OptionalArray(obj, "crossRefs", DecodeCrossRef).Ok? <==> MayHaveArray(obj, "crossRefs", ConformsCrossRef)
    ensures Required(obj, "extractedText", AsString).Ok? <==> HasRequired(obj, "extractedText", IsString)
    ensures Required(obj, "licenseId", AsString).Ok? <==> HasRequired(obj, "licenseId", IsString)
    ensures Optional(obj, "name", AsString).Ok? <==> MayHave(obj, "name", IsString)
    ensures OptionalArray(obj, "seeAlsos", AsString).Ok? <==> MayHaveArray(obj, "seeAlsos", IsString)
  {
    ScalarsAgree();
    forall e ensures Agrees(DecodeCrossRef, ConformsCrossRef, e) {
      CrossRefAccepts(e);
    }
    OptionalAgrees(obj, "comment", AsString, IsString);
    OptionalArrayAgrees(obj, "crossRefs", DecodeCrossRef, ConformsCrossRef);
    RequiredAgrees(obj, "extractedText", AsString, IsString);
    RequiredAgrees(obj, "licenseId", AsString, IsString);
    OptionalAgrees(obj, "name", AsString, IsString);
    OptionalArrayAgrees(obj, "seeAlsos", AsString, IsString);
  }

  lemma HasExtractedLicensingInfoAccepts(j: Json)
    ensures DecodeHasExtractedLicensingInfo(j).Ok? <==> ConformsHasExtractedLicensingInfo(j)
  {
    if Closed(j, HasExtractedLicensingInfoKeys()) {
      HasExtractedLicensingInfoFieldsAccepted(j.fields);
    }
  }

  // ---------------------------------------------------------------- Reviewed

  lemma ReviewedEncodedSlot(x: Reviewed, key: string)
    ensures Slot(EncodeReviewed(x).fields, key) == (if key in ReviewedKeys() then ReviewedSlot(x, key) else None)
  {
  }

  lemma ReviewedWritesComment(x: Reviewed)
    ensures Slot(EncodeReviewed(x).fields, "comment") == Present(x.comment, EncodeString)
  {
    ReviewedEncodedSlot(x, "comment");
  }

  lemma ReviewedWritesReviewDate(x: Reviewed)
    ensures Slot(EncodeReviewed(x).fields, "reviewDate") == Some(EncodeString(x.reviewDate))
  {
    ReviewedEncodedSlot(x, "reviewDate");
  }

  lemma ReviewedWritesReviewer(x: Reviewed)
    ensures Slot(EncodeReviewed(x).fields, "reviewer") == Present(x.reviewer, EncodeString)
  {
    ReviewedEncodedSlot(x, "reviewer");
  }

  lemma ReviewedSameSlots(a: map<string, Json>, b: map<string, Json>)
    requires Slot(a, "comment") == Slot(b, "comment")
    requires Slot(a, "reviewDate") == Slot(b, "reviewDate")
    requires Slot(a, "reviewer") == Slot(b, "reviewer")
    ensures forall k | k in ReviewedKeys() :: Slot(a, k) == Slot(b, k)
  {
  }

  lemma ReviewedDecodedFields(j: Json)
    requires DecodeReviewed(j).Ok?
    ensures Optional(j.fields, "comment", AsString) == Ok(DecodeReviewed(j).value.comment)
    ensures Required(j.fields, "reviewDate", AsString) == Ok(DecodeReviewed(j).value.reviewDate)
    ensures Optional(j.fields, "reviewer", AsString) == Ok(DecodeReviewed(j).value.reviewer)
  {
  }

  lemma ReviewedFieldsLossless(obj: map<string, Json>, x: Reviewed)
    requires Optional(obj, "comment", AsString) == Ok(x.comment)
    requires Required(obj, "reviewDate", AsString) == Ok(x.reviewDate)
    requires Optional(obj, "reviewer", AsString) == Ok(x.reviewer)
    ensures Slot(obj, "comment") == Present(x.comment, EncodeString)
    ensures Slot(obj, "reviewDate") == Some(EncodeString(x.reviewDate))
    ensures Slot(obj, "reviewer") == Present(x.reviewer, EncodeString)
  {
    ScalarsLossless();
    OptionalLossless(obj, "comment", AsString, EncodeString);
    RequiredLossless(obj, "reviewDate", AsString, EncodeString);
    OptionalLossless(obj, "reviewer", AsString, EncodeString);
  }

  lemma ReviewedEncodesTo(x: Reviewed, obj: map<string, Json>)
    requires obj.Keys <= ReviewedKeys()
    requires Slot(obj, "comment") == Present(x.comment, EncodeString)
    requires Slot(obj, "reviewDate") == Some(EncodeString(x.reviewDate))
    requires Slot(obj, "reviewer") == Present(x.reviewer, EncodeString)
    ensures EncodeReviewed(x) == JObject(obj)
  {
    ReviewedWritesComment(x);
    ReviewedWritesReviewDate(x);
    ReviewedWritesReviewer(x);
    ReviewedSameSlots(EncodeReviewed(x).fields, obj);
    SameObject(EncodeReviewed(x).fields, obj, ReviewedKeys());
  }

  lemma ReviewedLossless(j: Json)
    ensures DecodeReviewed(j).Ok? ==> EncodeReviewed(DecodeReviewed(j).value) == j
  {
    if DecodeReviewed(j).Ok? {
      var x := DecodeReviewed(j).value;
      ReviewedDecodedFields(j);
      ReviewedFieldsLossless(j.fields, x);
      ReviewedEncodesTo(x, j.fields);
    }
  }

  lemma ReviewedFieldsFaithful(x: Reviewed)
    ensures Optional(EncodeReviewed(x).fields, "comment", AsString) == Ok(x.comment)
    ensures Required(EncodeReviewed(x).fields, "reviewDate", AsString) == Ok(x.reviewDate)
    ensures Optional(EncodeReviewed(x).fields, "reviewer", AsString) == Ok(x.reviewer)
  {
    var obj := EncodeReviewed(x).fields;
    ReviewedWritesComment(x);
    ReviewedWritesReviewDate(x);
    ReviewedWritesReviewer(x);
    ScalarsFaithful();
    OptionalFaithful(obj, "comment", AsString, EncodeString, x.comment);
    RequiredFaithful(obj, "reviewDate", AsString, EncodeString, x.reviewDate);
    OptionalFaithful(obj, "reviewer", AsString, EncodeString, x.reviewer);
  }

  lemma ReviewedEncodedClosed(x: Reviewed)
    ensures ClosedObject(EncodeReviewed(x), ReviewedKeys()) == Ok(EncodeReviewed(x).fields)
  {
  }

  lemma ReviewedFaithful(x: Reviewed)
    ensures DecodeReviewed(EncodeReviewed(x)) == Ok(x)
  {
    ReviewedEncodedClosed(x);
    ReviewedFieldsFaithful(x);
  }

  lemma ReviewedFieldsAccepted(obj: map<string, Json>)
    ensures Optional(obj, "comment", AsString).Ok? <==> MayHave(obj, "comment", IsString)
    ensures Required(obj, "reviewDate", AsString).Ok? <==> HasRequired(obj, "reviewDate", IsString)
    ensures Optional(obj, "reviewer", AsString).Ok? <==> MayHave(obj, "reviewer", IsString)
  {
    ScalarsAgree();
    OptionalAgrees(obj, "comment", AsString, IsString);
    RequiredAgrees(obj, "reviewDate", AsString, IsString);
    OptionalAgrees(obj, "reviewer", AsString, IsString);
  }

  lemma ReviewedAccepts(j: Json)
    ensures DecodeReviewed(j).Ok? <==> ConformsReviewed(j)
  {
    if Closed(j, ReviewedKeys()) {
      ReviewedFieldsAccepted(j.fields);
    }
  }

  // ---------------------------------------------------------------- ExternalRef

  lemma ExternalRefEncodedSlot(x: ExternalRef, key: string)
    ensures Slot(EncodeExternalRef(x).fields, key) == (if key in ExternalRefKeys() then ExternalRefSlot(x, key) else None)
  {
  }

  lemma ExternalRefWritesComment(x: ExternalRef)
    ensures Slot(EncodeExternalRef(x).fields, "comment") == Present(x.comment, EncodeString)
  {
    ExternalRefEncodedSlot(x, "comment");
  }

  lemma ExternalRefWritesReferenceCategory(x: ExternalRef)
    ensures Slot(EncodeExternalRef(x).fields, "referenceCategory") == Some(EncodeReferenceCategory(x.referenceCategory))
  {
    ExternalRefEncodedSlot(x, "referenceCategory");
  }

  lemma ExternalRefWritesReferenceLocator(x: ExternalRef)
    ensures Slot(EncodeExternalRef(x).fields, "referenceLocator") == Some(EncodeString(x.referenceLocator))
  {
    ExternalRefEncodedSlot(x, "referenceLocator");
  }

  lemma ExternalRefWritesReferenceType(x: ExternalRef)
    ensures Slot(EncodeExternalRef(x).fields, "referenceType") == Some(EncodeString(x.referenceType))
  {
    ExternalRefEncodedSlot(x, "referenceType");
  }

  lemma ExternalRefSameSlots(a: map<string, Json>, b: map<string, Json>)
    requires Slot(a, "comment") == Slot(b, "comment")
    requires Slot(a, "referenceCategory") == Slot(b, "referenceCategory")
    requires Slot(a, "referenceLocator") == Slot(b, "referenceLocator")
    requires Slot(a, "referenceType") == Slot(b, "referenceType")
    ensures forall k | k in ExternalRefKeys() :: Slot(a, k) == Slot(b, k)
  {
  }

  lemma ExternalRefDecodedFields(j: Json)
    requires DecodeExternalRef(j).Ok?
    ensures Optional(j.fields, "comment", AsString) == Ok(DecodeExternalRef(j).value.comment)
    ensures Required(j.fields, "referenceCategory", DecodeReferenceCategory) == Ok(DecodeExternalRef(j).value.referenceCategory)
    ensures Required(j.fields, "referenceLocator", AsString) == Ok(DecodeExternalRef(j).value.referenceLocator)
    ensures Required(j.fields, "referenceType", AsString) == Ok(DecodeExternalRef(j).value.referenceType)
  {
  }

  lemma ExternalRefFieldsLossless(obj: map<string, Json>, x: ExternalRef)
    requires Optional(obj, "comment", AsString) == Ok(x.comment)
    requires Required(obj, "referenceCategory", DecodeReferenceCategory) == Ok(x.referenceCategory)
    requires Required(obj, "referenceLocator", AsString) == Ok(x.referenceLocator)
    requires Required(obj, "referenceType", AsString) == Ok(x.referenceType)
    ensures Slot(obj, "comment") == Present(x.comment, EncodeString)
    ensures Slot(obj, "referenceCategory") == Some(EncodeReferenceCategory(x.referenceCategory))
    ensures Slot(obj, "referenceLocator") == Some(EncodeString(x.referenceLocator))
    ensures Slot(obj, "referenceType") == Some(EncodeString(x.referenceType))
  {
    ScalarsLossless();
    EnumsLossless();
    OptionalLossless(obj, "comment", AsString, EncodeString);
    RequiredLossless(obj, "referenceCategory", DecodeReferenceCategory, EncodeReferenceCategory);
    RequiredLossless(obj, "referenceLocator", AsString, EncodeString);
    RequiredLossless(obj, "referenceType", AsString, EncodeString);
  }

  lemma ExternalRefEncodesTo(x: ExternalRef, obj: map<string, Json>)
    requires obj.Keys <= ExternalRefKeys()
    requires Slot(obj, "comment") == Present(x.comment, EncodeString)
    requires Slot(obj, "referenceCategory") == Some(EncodeReferenceCategory(x.referenceCategory))
    requires Slot(obj, "referenceLocator") == Some(EncodeString(x.referenceLocator))
    requires Slot(obj, "referenceType") == Some(EncodeString(x.referenceType))
    ensures EncodeExternalRef(x) == JObject(obj)
  {
    ExternalRefWritesComment(x);
    ExternalRefWritesReferenceCategory(x);
    ExternalRefWritesReferenceLocator(x);
    ExternalRefWritesReferenceType(x);
    ExternalRefSameSlots(EncodeExternalRef(x).fields, obj);
    SameObject(EncodeExternalRef(x).fields, obj, ExternalRefKeys());
  }

  lemma ExternalRefLossless(j: Json)
    ensures DecodeExternalRef(j).Ok? ==> EncodeExternalRef(DecodeExternalRef(j).value) == j
  {
    if DecodeExternalRef(j).Ok? {
      var x := DecodeExternalRef(j).value;
      ExternalRefDecodedFields(j);
      ExternalRefFieldsLossless(j.fields, x);
      ExternalRefEncodesTo(x, j.fields);
    }
  }

  lemma ExternalRefFieldsFaithful(x: ExternalRef)
    ensures Optional(EncodeExternalRef(x).fields, "comment", AsString) == Ok(x.comment)
    ensures Required(EncodeExternalRef(x).fields, "referenceCategory", DecodeReferenceCategory) == Ok(x.referenceCategory)
    ensures Required(EncodeExternalRef(x).fields, "referenceLocator", AsString) == Ok(x.referenceLocator)
    ensures Required(EncodeExternalRef(x).fields, "referenceType", AsString) == Ok(x.referenceType)
  {
    var obj := EncodeExternalRef(x).fields;
    ExternalRefWritesComment(x);
    ExternalRefWritesReferenceCategory(x);
    ExternalRefWritesReferenceLocator(x);
    ExternalRefWritesReferenceType(x);
    ScalarsFaithful();
    EnumsFaithful();
    OptionalFaithful(obj, "comment", AsString, EncodeString, x.comment);
    RequiredFaithful(obj, "referenceCategory", DecodeReferenceCategory, EncodeReferenceCategory, x.referenceCategory);
    RequiredFaithful(obj, "referenceLocator", AsString, EncodeString, x.referenceLocator);
    RequiredFaithful(obj, "referenceType", AsString, EncodeString, x.referenceType);
  }

  lemma ExternalRefEncodedClosed(x: ExternalRef)
    ensures ClosedObject(EncodeExternalRef(x), ExternalRefKeys()) == Ok(EncodeExternalRef(x).fields)
  {
  }

  lemma ExternalRefFaithful(x: ExternalRef)
    ensures DecodeExternalRef(EncodeExternalRef(x)) == Ok(x)
  {
    ExternalRefEncodedClosed(x);
    ExternalRefFieldsFaithful(x);
  }

  lemma ExternalRefFieldsAccepted(obj: map<string, Json>)
    ensures Optional(obj, "comment", AsString).Ok? <==> MayHave(obj, "comment", IsString)
    ensures Required(obj, "referenceCategory", DecodeReferenceCategory).Ok? <==> HasRequired(obj, "referenceCategory", IsReferenceCategory)
    ensures Required(obj, "referenceLocator", AsString).Ok? <==> HasRequired(obj, "referenceLocator", IsString)
    ensures Required(obj, "referenceType", AsString).Ok? <==> HasRequired(obj, "referenceType", IsString)
  {
    ScalarsAgree();
    EnumsAgree();
    OptionalAgrees(obj, "comment", AsString, IsString);
    RequiredAgrees(obj, "referenceCategory", DecodeReferenceCategory, IsReferenceCategory);
    RequiredAgrees(obj, "referenceLocator", AsString, IsString);
    RequiredAgrees(obj, "referenceType", AsString, IsString);
  }

  lemma ExternalRefAccepts(j: Json)
    ensures DecodeExternalRef(j).Ok? <==> ConformsExternalRef(j)
  {
    if Closed(j, ExternalRefKeys()) {
      ExternalRefFieldsAccepted(j.fields);
    }
  }

  // ---------------------------------------------------------------- PackageVerificationCode

  lemma PackageVerificationCodeEncodedSlot(x: PackageVerificationCode, key: string)
    ensures Slot(EncodePackageVerificationCode(x).fields, key) == (if key in PackageVerificationCodeKeys() then PackageVerificationCodeSlot(x, key) else None)
  {
  }

  lemma PackageVerificationCodeWritesPackageVerificationCodeExcludedFiles(x: PackageVerificationCode)
    ensures Slot(EncodePackageVerificationCode(x).fields, "packageVerificationCodeExcludedFiles") == PresentArray(x.packageVerificationCodeExcludedFiles, EncodeString)
  {
    PackageVerificationCodeEncodedSlot(x, "packageVerificationCodeExcludedFiles");
  }

  lemma PackageVerificationCodeWritesPackageVerificationCodeValue(x: PackageVerificationCode)
    ensures Slot(EncodePackageVerificationCode(x).fields, "packageVerificationCodeValue") == Some(EncodeString(x.packageVerificationCodeValue))
  {
    PackageVerificationCodeEncodedSlot(x, "packageVerificationCodeValue");
  }

  lemma PackageVerificationCodeSameSlots(a: map<string, Json>, b: map<string, Json>)
    requires Slot(a, "packageVerificationCodeExcludedFiles") == Slot(b, "packageVerificationCodeExcludedFiles")
    requires Slot(a, "packageVerificationCodeValue") == Slot(b, "packageVerificationCodeValue")
    ensures forall k | k in PackageVerificationCodeKeys() :: Slot(a, k) == Slot(b, k)
  {
  }

  lemma PackageVerificationCodeDecodedFields(j: Json)
    requires DecodePackageVerificationCode(j).Ok?
    ensures OptionalArray(j.fields, "packageVerificationCodeExcludedFiles", AsString) == Ok(DecodePackageVerificationCode(j).value.packageVerificationCodeExcludedFiles)
    ensures Required(j.fields, "packageVerificationCodeValue", AsString) == Ok(DecodePackageVerificationCode(j).value.packageVerificationCodeValue)
  {
  }

  lemma PackageVerificationCodeFieldsLossless(obj: map<string, Json>, x: PackageVerificationCode)
    requires OptionalArray(obj, "packageVerificationCodeExcludedFiles", AsString) == Ok(x.packageVerificationCodeExcludedFiles)
    requires Required(obj, "packageVerificationCodeValue", AsString) == Ok(x.packageVerificationCodeValue)
    ensures Slot(obj, "packageVerificationCodeExcludedFiles") == PresentArray(x.packageVerificationCodeExcludedFiles, EncodeString)
    ensures Slot(obj, "packageVerificationCodeValue") == Some(EncodeString(x.packageVerificationCodeValue))
  {
    ScalarsLossless();
    OptionalArrayLossless(obj, "packageVerificationCodeExcludedFiles", AsString, EncodeString);
    RequiredLossless(obj, "packageVerificationCodeValue", AsString, EncodeString);
  }

  lemma PackageVerificationCodeEncodesTo(x: PackageVerificationCode, obj: map<string, Json>)
    requires obj.Keys <= PackageVerificationCodeKeys()
    requires Slot(obj, "packageVerificationCodeExcludedFiles") == PresentArray(x.packageVerificationCodeExcludedFiles, EncodeString)
    requires Slot(obj, "packageVerificationCodeValue") == Some(EncodeString(x.packageVerificationCodeValue))
    ensures EncodePackageVerificationCode(x) == JObject(obj)
  {
    PackageVerificationCodeWritesPackageVerificationCodeExcludedFiles(x);
    PackageVerificationCodeWritesPackageVerificationCodeValue(x);
    PackageVerificationCodeSameSlots(EncodePackageVerificationCode(x).fields, obj);
    SameObject(EncodePackageVerificationCode(x).fields, obj, PackageVerificationCodeKeys());
  }

  lemma PackageVerificationCodeLossless(j: Json)
    ensures DecodePackageVerificationCode(j).Ok? ==> EncodePackageVerificationCode(DecodePackageVerificationCode(j).value) == j
  {
    if DecodePackageVerificationCode(j).Ok? {
      var x := DecodePackageVerificationCode(j).value;
      PackageVerificationCodeDecodedFields(j);
      PackageVerificationCodeFieldsLossless(j.fields, x);
      PackageVerificationCodeEncodesTo(x, j.fields);
    }
  }

  lemma PackageVerificationCodeFieldsFaithful(x: PackageVerificationCode)
    ensures OptionalArray(EncodePackageVerificationCode(x).fields, "packageVerificationCodeExcludedFiles", AsString) == Ok(x.packageVerificationCodeExcludedFiles)
    ensures Required(EncodePackageVerificationCode(x).fields, "packageVerificationCodeValue", AsString) == Ok(x.packageVerificationCodeValue)
  {
    var obj := EncodePackageVerificationCode(x).fields;
    PackageVerificationCodeWritesPackageVerificationCodeExcludedFiles(x);
    PackageVerificationCodeWritesPackageVerificationCodeValue(x);
    ScalarsFaithful();
    OptionalArrayFaithful(obj, "packageVerificationCodeExcludedFiles", AsString, EncodeString, x.packageVerificationCodeExcludedFiles);
    RequiredFaithful(obj, "packageVerificationCodeValue", AsString, EncodeString, x.packageVerificationCodeValue);
  }

  lemma PackageVerificationCodeEncodedClosed(x: PackageVerificationCode)
    ensures ClosedObject(EncodePackageVerificationCode(x), PackageVerificationCodeKeys()) == Ok(EncodePackageVerificationCode(x).fields)
  {
  }

  lemma PackageVerificationCodeFaithful(x: PackageVerificationCode)
    ensures DecodePackageVerificationCode(EncodePackageVerificationCode(x)) == Ok(x)
  {
    PackageVerificationCodeEncodedClosed(x);
    PackageVerificationCodeFieldsFaithful(x);
  }

  lemma PackageVerificationCodeFieldsAccepted(obj: map<string, Json>)
    ensures OptionalArray(obj, "packageVerificationCodeExcludedFiles", AsString).Ok? <==> MayHaveArray(obj, "packageVerificationCodeExcludedFiles", IsString)
    ensures Required(obj, "packageVerificationCodeValue", AsString).Ok? <==> HasRequired(obj, "packageVerificationCodeValue", IsString)
  {
    ScalarsAgree();
    OptionalArrayAgrees(obj, "packageVerificationCodeExcludedFiles", AsString, IsString);
    RequiredAgrees(obj, "packageVerificationCodeValue", AsString, IsString);
  }

  lemma PackageVerificationCodeAccepts(j: Json)
    ensures DecodePackageVerificationCode(j).Ok? <==> ConformsPackageVerificationCode(j)
  {
    if Closed(j, PackageVerificationCodeKeys()) {
      PackageVerificationCodeFieldsAccepted(j.fields);
    }
  }

  // ---------------------------------------------------------------- Package

  lemma PackageEncodedSlot(x: Package, key: string)
    ensures Slot(EncodePackage(x).fields, key) == (if key in PackageKeys() then PackageSlot(x, key) else None)
  {
  }

  lemma PackageWritesSpdxId(x: Package)
    ensures Slot(EncodePackage(x).fields, "SPDXID") == Some(EncodeString(x.spdxId))
  {
    PackageEncodedSlot(x, "SPDXID");
  }

  lemma PackageWritesAnnotations(x: Package)
    ensures Slot(EncodePackage(x).fields, "annotations") == PresentArray(x.annotations, EncodeAnnotation)
  {
    PackageEncodedSlot(x, "annotations");
  }

  lemma PackageWritesAttributionTexts(x: Package)
    ensures Slot(EncodePackage(x).fields, "attributionTexts") == PresentArray(x.attributionTexts, EncodeString)
  {
    PackageEncodedSlot(x, "attributionTexts");
  }

  lemma PackageWritesBuiltDate(x: Package)
    ensures Slot(EncodePackage(x).fields, "builtDate") == Present(x.builtDate, EncodeString)
  {
    PackageEncodedSlot(x, "builtDate");
  }

  lemma PackageWritesChecksums(x: Package)
    ensures Slot(EncodePackage(x).fields, "checksums") == PresentArray(x.checksums, EncodeChecksum)
  {
    PackageEncodedSlot(x, "checksums");
  }

  lemma PackageWritesComment(x: Package)
    ensures Slot(EncodePackage(x).fields, "comment") == Present(x.comment, EncodeString)
  {
    PackageEncodedSlot(x, "comment");
  }

  lemma PackageWritesCopyrightText(x: Package)
    ensures Slot(EncodePackage(x).fields, "copyrightText") == Present(x.copyrightText, EncodeString)
  {
    PackageEncodedSlot(x, "copyrightText");
  }

  lemma PackageWritesDescription(x: Package)
    ensures Slot(EncodePackage(x).fields, "description") == Present(x.description, EncodeString)
  {
    PackageEncodedSlot(x, "description");
  }

  lemma PackageWritesDownloadLocation(x: Package)
    ensures Slot(EncodePackage(x).fields, "downloadLocation") == Some(EncodeString(x.downloadLocation))
  {
    PackageEncodedSlot(x, "downloadLocation");
  }

  lemma PackageWritesExternalRefs(x: Package)
    ensures Slot(EncodePackage(x).fields, "externalRefs") == PresentArray(x.externalRefs, EncodeExternalRef)
  {
    PackageEncodedSlot(x, "externalRefs");
  }

  lemma PackageWritesFilesAnalyzed(x: Package)
    ensures Slot(EncodePackage(x).fields, "filesAnalyzed") == Present(x.filesAnalyzed, EncodeBool)
  {
    PackageEncodedSlot(x, "filesAnalyzed");
  }

  lemma PackageWritesHasFiles(x: Package)
    ensures Slot(EncodePackage(x).fields, "hasFiles") == PresentArray(x.hasFiles, EncodeString)
  {
    PackageEncodedSlot(x, "hasFiles");
  }

  lemma PackageWritesHomepage(x: Package)
    ensures Slot(EncodePackage(x).fields, "homepage") == Present(x.homepage, EncodeString)
  {
    PackageEncodedSlot(x, "homepage");
  }

  lemma PackageWritesLicenseComments(x: Package)
    ensures Slot(EncodePackage(x).fields, "licenseComments") == Present(x.licenseComments, EncodeString)
  {
    PackageEncodedSlot(x, "licenseComments");
  }

  lemma PackageWritesLicenseConcluded(x: Package)
    ensures Slot(EncodePackage(x).fields, "licenseConcluded") == Present(x.licenseConcluded, EncodeString)
  {
    PackageEncodedSlot(x, "licenseConcluded");
  }

  lemma PackageWritesLicenseDeclared(x: Package)
    ensures Slot(EncodePackage(x).fields, "licenseDeclared") == Present(x.licenseDeclared, EncodeString)
  {
    PackageEncodedSlot(x, "licenseDeclared");
  }

  lemma PackageWritesLicenseInfoFromFiles(x: Package)
    ensures Slot(EncodePackage(x).fields, "licenseInfoFromFiles") == PresentArray(x.licenseInfoFromFiles, EncodeString)
  {
    PackageEncodedSlot(x, "licenseInfoFromFiles");
  }

  lemma PackageWritesName(x: Package)
    ensures Slot(EncodePackage(x).fields, "name") == Some(EncodeString(x.name))
  {
    PackageEncodedSlot(x, "name");
  }

  lemma PackageWritesOriginator(x: Package)
    ensures Slot(EncodePackage(x).fields, "originator") == Present(x.originator, EncodeString)
  {
    PackageEncodedSlot(x, "originator");
  }

  lemma PackageWritesPackageFileName(x: Package)
    ensures Slot(EncodePackage(x).fields, "packageFileName") == Present(x.packageFileName, EncodeString)
  {
    PackageEncodedSlot(x, "packageFileName");
  }

  lemma PackageWritesPackageVerificationCode(x: Package)
    ensures Slot(EncodePackage(x).fields, "packageVerificationCode") == Present(x.packageVerificationCode, EncodePackageVerificationCode)
  {
    PackageEncodedSlot(x, "packageVerificationCode");
  }

  lemma PackageWritesPrimaryPackagePurpose(x: Package)
    ensures Slot(EncodePackage(x).fields, "primaryPackagePurpose") == Present(x.primaryPackagePurpose, EncodePrimaryPackagePurpose)
  {
    PackageEncodedSlot(x, "primaryPackagePurpose");
  }

  lemma PackageWritesReleaseDate(x: Package)
    ensures Slot(EncodePackage(x).fields, "releaseDate") == Present(x.releaseDate, EncodeString)
  {
    PackageEncodedSlot(x, "releaseDate");
  }

  lemma PackageWritesSourceInfo(x: Package)
    ensures Slot(EncodePackage(x).fields, "sourceInfo") == Present(x.sourceInfo, EncodeString)
  {
    PackageEncodedSlot(x, "sourceInfo");
  }

  lemma PackageWritesSummary(x: Package)
    ensures Slot(EncodePackage(x).fields, "summary") == Present(x.summary, EncodeString)
  {
    PackageEncodedSlot(x, "summary");
  }

  lemma PackageWritesSupplier(x: Package)
    ensures Slot(EncodePackage(x).fields, "supplier") == Present(x.supplier, EncodeString)
  {
    PackageEncodedSlot(x, "supplier");
  }

  lemma PackageWritesValidUntilDate(x: Package)
    ensures Slot(EncodePackage(x).fields, "validUntilDate") == Present(x.validUntilDate, EncodeString)
  {
    PackageEncodedSlot(x, "validUntilDate");
  }

  lemma PackageWritesVersionInfo(x: Package)
    ensures Slot(EncodePackage(x).fields, "versionInfo") == Present(x.versionInfo, EncodeString)
  {
    PackageEncodedSlot(x, "versionInfo");
  }

  function PackageKeys0(): set<string> {
    {"SPDXID", "annotations", "attributionTexts", "builtDate", "checksums", "comment", "copyrightText"}
  }

  function PackageKeys1(): set<string> {
    {"description", "downloadLocation", "externalRefs", "filesAnalyzed", "hasFiles", "homepage", "licenseComments"}
  }

  function PackageKeys2(): set<string> {
    {"licenseConcluded", "licenseDeclared", "licenseInfoFromFiles", "name", "originator", "packageFileName", "packageVerificationCode"}
  }

  function PackageKeys3(): set<string> {
    {"primaryPackagePurpose", "releaseDate", "sourceInfo", "summary", "supplier", "validUntilDate", "versionInfo"}
  }

  lemma PackageKeysSplit()
    ensures PackageKeys() == PackageKeys0() + PackageKeys1() + PackageKeys2() + PackageKeys3()
  {
  }

  lemma PackageSameSlots0(a: map<string, Json>, b: map<string, Json>)
    requires Slot(a, "SPDXID") == Slot(b, "SPDXID")
    requires Slot(a, "annotations") == Slot(b, "annotations")
    requires Slot(a, "attributionTexts") == Slot(b, "attributionTexts")
    requires Slot(a, "builtDate") == Slot(b, "builtDate")
    requires Slot(a, "checksums") == Slot(b, "checksums")
    requires Slot(a, "comment") == Slot(b, "comment")
    requires Slot(a, "copyrightText") == Slot(b, "copyrightText")
    ensures forall k | k in PackageKeys0() :: Slot(a, k) == Slot(b, k)
  {
  }

  lemma PackageSameSlots1(a: map<string, Json>, b: map<string, Json>)
    requires Slot(a, "description") == Slot(b, "description")
    requires Slot(a, "downloadLocation") == Slot(b, "downloadLocation")
    requires Slot(a, "externalRefs") == Slot(b, "externalRefs")
    requires Slot(a, "filesAnalyzed") == Slot(b, "filesAnalyzed")
    requires Slot(a, "hasFiles") == Slot(b, "hasFiles")
    requires Slot(a, "homepage") == Slot(b, "homepage")
    requires Slot(a, "licenseComments") == Slot(b, "licenseComments")
    ensures forall k | k in PackageKeys1() :: Slot(a, k) == Slot(b, k)
  {
  }

  lemma PackageSameSlots2(a: map<string, Json>, b: map<string, Json>)
    requires Slot(a, "licenseConcluded") == Slot(b, "licenseConcluded")
    requires Slot(a, "licenseDeclared") == Slot(b, "licenseDeclared")
    requires Slot(a, "licenseInfoFromFiles") == Slot(b, "licenseInfoFromFiles")
    requires Slot(a, "name") == Slot(b, "name")
    requires Slot(a, "originator") == Slot(b, "originator")
    requires Slot(a, "packageFileName") == Slot(b, "packageFileName")
    requires Slot(a, "packageVerificationCode") == Slot(b, "packageVerificationCode")
    ensures forall k | k in PackageKeys2() :: Slot(a, k) == Slot(b, k)
  {
  }

  lemma PackageSameSlots3(a: map<string, Json>, b: map<string, Json>)
    requires Slot(a, "primaryPackagePurpose") == Slot(b, "primaryPackagePurpose")
    requires Slot(a, "releaseDate") == Slot(b, "releaseDate")
    requires Slot(a, "sourceInfo") == Slot(b, "sourceInfo")
    requires Slot(a, "summary") == Slot(b, "summary")
    requires Slot(a, "supplier") == Slot(b, "supplier")
    requires Slot(a, "validUntilDate") == Slot(b, "validUntilDate")
    requires Slot(a, "versionInfo") == Slot(b, "versionInfo")
    ensures forall k | k in PackageKeys3() :: Slot(a, k) == Slot(b, k)
  {
  }

  lemma PackageDecodedFields(j: Json)
    requires DecodePackage(j).Ok?
    ensures Required(j.fields, "SPDXID", AsString) == Ok(DecodePackage(j).value.spdxId)
    ensures OptionalArray(j.fields, "annotations", DecodeAnnotation) == Ok(DecodePackage(j).value.annotations)
    ensures OptionalArray(j.fields, "attributionTexts", AsString) == Ok(DecodePackage(j).value.attributionTexts)
    ensures Optional(j.fields, "builtDate", AsString) == Ok(DecodePackage(j).value.builtDate)
    ensures OptionalArray(j.fields, "checksums", DecodeChecksum) == Ok(DecodePackage(j).value.checksums)
    ensures Optional(j.fields, "comment", AsString) == Ok(DecodePackage(j).value.comment)
    ensures Optional(j.fields, "copyrightText", AsString) == Ok(DecodePackage(j).value.copyrightText)
    ensures Optional(j.fields, "description", AsString) == Ok(DecodePackage(j).value.description)
    ensures Required(j.fields, "downloadLocation", AsString) == Ok(DecodePackage(j).value.downloadLocation)
    ensures OptionalArray(j.fields, "externalRefs", DecodeExternalRef) == Ok(DecodePackage(j).value.externalRefs)
    ensures Optional(j.fields, "filesAnalyzed", AsBool) == Ok(DecodePackage(j).value.filesAnalyzed)
    ensures OptionalArray(j.fields, "hasFiles", AsString) == Ok(DecodePackage(j).value.hasFiles)
    ensures Optional(j.fields, "homepage", AsString) == Ok(DecodePackage(j).value.homepage)
    ensures Optional(j.fields, "licenseComments", AsString) == Ok(DecodePackage(j).value.licenseComments)
    ensures Optional(j.fields, "licenseConcluded", AsString) == Ok(DecodePackage(j).value.licenseConcluded)
    ensures Optional(j.fields, "licenseDeclared", AsString) == Ok(DecodePackage(j).value.licenseDeclared)
    ensures OptionalArray(j.fields, "licenseInfoFromFiles", AsString) == Ok(DecodePackage(j).value.licenseInfoFromFiles)
    ensures Required(j.fields, "name", AsString) == Ok(DecodePackage(j).value.name)
    ensures Optional(j.fields, "originator", AsString) == Ok(DecodePackage(j).value.originator)
    ensures Optional(j.fields, "packageFileName", AsString) == Ok(DecodePackage(j).value.packageFileName)
    ensures Optional(j.fields, "packageVerificationCode", DecodePackageVerificationCode) == Ok(DecodePackage(j).value.packageVerificationCode)
    ensures Optional(j.fields, "primaryPackagePurpose", DecodePrimaryPackagePurpose) == Ok(DecodePackage(j).value.primaryPackagePurpose)
    ensures Optional(j.fields, "releaseDate", AsString) == Ok(DecodePackage(j).value.releaseDate)
    ensures Optional(j.fields, "sourceInfo", AsString) == Ok(DecodePackage(j).value.sourceInfo)
    ensures Optional(j.fields, "summary", AsString) == Ok(DecodePackage(j).value.summary)
    ensures Optional(j.fields, "supplier", AsString) == Ok(DecodePackage(j).value.supplier)
    ensures Optional(j.fields, "validUntilDate", AsString) == Ok(DecodePackage(j).value.validUntilDate)
    ensures Optional(j.fields, "versionInfo", AsString) == Ok(DecodePackage(j).value.versionInfo)
  {
  }

  lemma PackageFieldsLossless0(obj: map<string, Json>, x: Package)
    requires Required(obj, "SPDXID", AsString) == Ok(x.spdxId)
    requires OptionalArray(obj, "annotations", DecodeAnnotation) == Ok(x.annotations)
    requires OptionalArray(obj, "attributionTexts", AsString) == Ok(x.attributionTexts)
    requires Optional(obj, "builtDate", AsString) == Ok(x.builtDate)
    requires OptionalArray(obj, "checksums", DecodeChecksum) == Ok(x.checksums)
    requires Optional(obj, "comment", AsString) == Ok(x.comment)
    requires Optional(obj, "copyrightText", AsString) == Ok(x.copyrightText)
    ensures Slot(obj, "SPDXID") == Some(EncodeString(x.spdxId))
    ensures Slot(obj, "annotations") == PresentArray(x.annotations, EncodeAnnotation)
    ensures Slot(obj, "attributionTexts") == PresentArray(x.attributionTexts, EncodeString)
    ensures Slot(obj, "builtDate") == Present(x.builtDate, EncodeString)
    ensures Slot(obj, "checksums") == PresentArray(x.checksums, EncodeChecksum)
    ensures Slot(obj, "comment") == Present(x.comment, EncodeString)
    ensures Slot(obj, "copyrightText") == Present(x.copyrightText, EncodeString)
  {
    ScalarsLossless();
    forall e ensures Lossless(DecodeAnnotation, EncodeAnnotation, e) {
      AnnotationLossless(e);
    }
    forall e ensures Lossless(DecodeChecksum, EncodeChecksum, e) {
      ChecksumLossless(e);
    }
    RequiredLossless(obj, "SPDXID", AsString, EncodeString);
    OptionalArrayLossless(obj, "annotations", DecodeAnnotation, EncodeAnnotation);
    OptionalArrayLossless(obj, "attributionTexts", AsString, EncodeString);
    OptionalLossless(obj, "builtDate", AsString, EncodeString);
    OptionalArrayLossless(obj, "checksums", DecodeChecksum, EncodeChecksum);
    OptionalLossless(obj, "comment", AsString, EncodeString);
    OptionalLossless(obj, "copyrightText", AsString, EncodeString);
  }

  lemma PackageFieldsLossless1(obj: map<string, Json>, x: Package)
    requires Optional(obj, "description", AsString) == Ok(x.description)
    requires Required(obj, "downloadLocation", AsString) == Ok(x.downloadLocation)
    requires OptionalArray(obj, "externalRefs", DecodeExternalRef) == Ok(x.externalRefs)
    requires Optional(obj, "filesAnalyzed", AsBool) == Ok(x.filesAnalyzed)
    requires OptionalArray(obj, "hasFiles", AsString) == Ok(x.hasFiles)
    requires Optional(obj, "homepage", AsString) == Ok(x.homepage)
    requires Optional(obj, "licenseComments", AsString) == Ok(x.licenseComments)
    ensures Slot(obj, "description") == Present(x.description, EncodeString)
    ensures Slot(obj, "downloadLocation") == Some(EncodeString(x.downloadLocation))
    ensures Slot(obj, "externalRefs") == PresentArray(x.externalRefs, EncodeExternalRef)
    ensures Slot(obj, "filesAnalyzed") == Present(x.filesAnalyzed, EncodeBool)
    ensures Slot(obj, "hasFiles") == PresentArray(x.hasFiles, EncodeString)
    ensures Slot(obj, "homepage") == Present(x.homepage, EncodeString)
    ensures Slot(obj, "licenseComments") == Present(x.licenseComments, EncodeString)
  {
    ScalarsLossless();
    forall e ensures Lossless(DecodeExternalRef, EncodeExternalRef, e) {
      ExternalRefLossless(e);
    }
    OptionalLossless(obj, "description", AsString, EncodeString);
    RequiredLossless(obj, "downloadLocation", AsString, EncodeString);
    OptionalArrayLossless(obj, "externalRefs", DecodeExternalRef, EncodeExternalRef);
    OptionalLossless(obj, "filesAnalyzed", AsBool, EncodeBool);
    OptionalArrayLossless(obj, "hasFiles", AsString, EncodeString);
    OptionalLossless(obj, "homepage", AsString, EncodeString);
    OptionalLossless(obj, "licenseComments", AsString, EncodeString);
  }

  lemma PackageFieldsLossless2(obj: map<string, Json>, x: Package)
    requires Optional(obj, "licenseConcluded", AsString) == Ok(x.licenseConcluded)
    requires Optional(obj, "licenseDeclared", AsString) == Ok(x.licenseDeclared)
    requires OptionalArray(obj, "licenseInfoFromFiles", AsString) == Ok(x.licenseInfoFromFiles)
    requires Required(obj, "name", AsString) == Ok(x.name)
    requires Optional(obj, "originator", AsString) == Ok(x.originator)
    requires Optional(obj, "packageFileName", AsString) == Ok(x.packageFileName)
    requires Optional(obj, "packageVerificationCode", DecodePackageVerificationCode) == Ok(x.packageVerificationCode)
    ensures Slot(obj, "licenseConcluded") == Present(x.licenseConcluded, EncodeString)
    ensures Slot(obj, "licenseDeclared") == Present(x.licenseDeclared, EncodeString)
    ensures Slot(obj, "licenseInfoFromFiles") == PresentArray(x.licenseInfoFromFiles, EncodeString)
    ensures Slot(obj, "name") == Some(EncodeString(x.name))
    ensures Slot(obj, "originator") == Present(x.originator, EncodeString)
    ensures Slot(obj, "packageFileName") == Present(x.packageFileName, EncodeString)
    ensures Slot(obj, "packageVerificationCode") == Present(x.packageVerificationCode, EncodePackageVerificationCode)
  {
    ScalarsLossless();
    forall e ensures Lossless(DecodePackageVerificationCode, EncodePackageVerificationCode, e) {
      PackageVerificationCodeLossless(e);
    }
    OptionalLossless(obj, "licenseConcluded", AsString, EncodeString);
    OptionalLossless(obj, "licenseDeclared", AsString, EncodeString);
    OptionalArrayLossless(obj, "licenseInfoFromFiles", AsString, EncodeString);
    RequiredLossless(obj, "name", AsString, EncodeString);
    OptionalLossless(obj, "originator", AsString, EncodeString);
    OptionalLossless(obj, "packageFileName", AsString, EncodeString);
    OptionalLossless(obj, "packageVerificationCode", DecodePackageVerificationCode, EncodePackageVerificationCode);
  }

  lemma PackageFieldsLossless3(obj: map<string, Json>, x: Package)
    requires Optional(obj, "primaryPackagePurpose", DecodePrimaryPackagePurpose) == Ok(x.primaryPackagePurpose)
    requires Optional(obj, "releaseDate", AsString) == Ok(x.releaseDate)
    requires Optional(obj, "sourceInfo", AsString) == Ok(x.sourceInfo)
    requires Optional(obj, "summary", AsString) == Ok(x.summary)
    requires Optional(obj, "supplier", AsString) == Ok(x.supplier)
    requires Optional(obj, "validUntilDate", AsString) == Ok(x.validUntilDate)
    requires Optional(obj, "versionInfo", AsString) == Ok(x.versionInfo)
    ensures Slot(obj, "primaryPackagePurpose") == Present(x.primaryPackagePurpose, EncodePrimaryPackagePurpose)
    ensures Slot(obj, "releaseDate") == Present(x.releaseDate, EncodeString)
    ensures Slot(obj, "sourceInfo") == Present(x.sourceInfo, EncodeString)
    ensures Slot(obj, "summary") == Present(x.summary, EncodeString)
    ensures Slot(obj, "supplier") == Present(x.supplier, EncodeString)
    ensures Slot(obj, "validUntilDate") == Present(x.validUntilDate, EncodeString)
    ensures Slot(obj, "versionInfo") == Present(x.versionInfo, EncodeString)
  {
    EnumsLossless();
    ScalarsLossless();
    OptionalLossless(obj, "primaryPackagePurpose", DecodePrimaryPackagePurpose, EncodePrimaryPackagePurpose);
    OptionalLossless(obj, "releaseDate", AsString, EncodeString);
    OptionalLossless(obj, "sourceInfo", AsString, EncodeString);
    OptionalLossless(obj, "summary", AsString, EncodeString);
    OptionalLossless(obj, "supplier", AsString, EncodeString);
    OptionalLossless(obj, "validUntilDate", AsString, EncodeString);
    OptionalLossless(obj, "versionInfo", AsString, EncodeString);
  }

  lemma PackageEncodesTo(x: Package, obj: map<string, Json>)
    requires obj.Keys <= PackageKeys()
    requires Slot(obj, "SPDXID") == Some(EncodeString(x.spdxId))
    requires Slot(obj, "annotations") == PresentArray(x.annotations, EncodeAnnotation)
    requires Slot(obj, "attributionTexts") == PresentArray(x.attributionTexts, EncodeString)
    requires Slot(obj, "builtDate") == Present(x.builtDate, EncodeString)
    requires Slot(obj, "checksums") == PresentArray(x.checksums, EncodeChecksum)
    requires Slot(obj, "comment") == Present(x.comment, EncodeString)
    requires Slot(obj, "copyrightText") == Present(x.copyrightText, EncodeString)
    requires Slot(obj, "description") == Present(x.description, EncodeString)
    requires Slot(obj, "downloadLocation") == Some(EncodeString(x.downloadLocation))
    requires Slot(obj, "externalRefs") == PresentArray(x.externalRefs, EncodeExternalRef)
    requires Slot(obj, "filesAnalyzed") == Present(x.filesAnalyzed, EncodeBool)
    requires Slot(obj, "hasFiles") == PresentArray(x.hasFiles, EncodeString)
    requires Slot(obj, "homepage") == Present(x.homepage, EncodeString)
    requires Slot(obj, "licenseComments") == Present(x.licenseComments, EncodeString)
    requires Slot(obj, "licenseConcluded") == Present(x.licenseConcluded, EncodeString)
    requires Slot(obj, "licenseDeclared") == Present(x.licenseDeclared, EncodeString)
    requires Slot(obj, "licenseInfoFromFiles") == PresentArray(x.licenseInfoFromFiles, EncodeString)
    requires Slot(obj, "name") == Some(EncodeString(x.name))
    requires Slot(obj, "originator") == Present(x.originator, EncodeString)
    requires Slot(obj, "packageFileName") == Present(x.packageFileName, EncodeString)
    requires Slot(obj, "packageVerificationCode") == Present(x.packageVerificationCode, EncodePackageVerificationCode)
    requires Slot(obj, "primaryPackagePurpose") == Present(x.primaryPackagePurpose, EncodePrimaryPackagePurpose)
    requires Slot(obj, "releaseDate") == Present(x.releaseDate, EncodeString)
    requires Slot(obj, "sourceInfo") == Present(x.sourceInfo, EncodeString)
    requires Slot(obj, "summary") == Present(x.summary, EncodeString)
    requires Slot(obj, "supplier") == Present(x.supplier, EncodeString)
    requires Slot(obj, "validUntilDate") == Present(x.validUntilDate, EncodeString)
    requires Slot(obj, "versionInfo") == Present(x.versionInfo, EncodeString)
    ensures EncodePackage(x) == JObject(obj)
  {
    PackageWritesSpdxId(x);
    PackageWritesAnnotations(x);
    PackageWritesAttributionTexts(x);
    PackageWritesBuiltDate(x);
    PackageWritesChecksums(x);
    PackageWritesComment(x);
    PackageWritesCopyrightText(x);
    PackageWritesDescription(x);
    PackageWritesDownloadLocation(x);
    PackageWritesExternalRefs(x);
    PackageWritesFilesAnalyzed(x);
    PackageWritesHasFiles(x);
    PackageWritesHomepage(x);
    PackageWritesLicenseComments(x);
    PackageWritesLicenseConcluded(x);
    PackageWritesLicenseDeclared(x);
    PackageWritesLicenseInfoFromFiles(x);
    PackageWritesName(x);
    PackageWritesOriginator(x);
    PackageWritesPackageFileName(x);
    PackageWritesPackageVerificationCode(x);
    PackageWritesPrimaryPackagePurpose(x);
    PackageWritesReleaseDate(x);
    PackageWritesSourceInfo(x);
    PackageWritesSummary(x);
    PackageWritesSupplier(x);
    PackageWritesValidUntilDate(x);
    PackageWritesVersionInfo(x);
    PackageSameSlots0(EncodePackage(x).fields, obj);
    PackageSameSlots1(EncodePackage(x).fields, obj);
    PackageSameSlots2(EncodePackage(x).fields, obj);
    PackageSameSlots3(EncodePackage(x).fields, obj);
    PackageKeysSplit();
    SameObject(EncodePackage(x).fields, obj, PackageKeys());
  }

  lemma PackageLossless(j: Json)
    ensures DecodePackage(j).Ok? ==> EncodePackage(DecodePackage(j).value) == j
  {
    if DecodePackage(j).Ok? {
      var x := DecodePackage(j).value;
      PackageDecodedFields(j);
      PackageFieldsLossless0(j.fields, x);
      PackageFieldsLossless1(j.fields, x);
      PackageFieldsLossless2(j.fields, x);
      PackageFieldsLossless3(j.fields, x);
      PackageEncodesTo(x, j.fields);
    }
  }

  lemma PackageFieldsFaithful0(x: Package)
    ensures Required(EncodePackage(x).fields, "SPDXID", AsString) == Ok(x.spdxId)
    ensures OptionalArray(EncodePackage(x).fields, "annotations", DecodeAnnotation) == Ok(x.annotations)
    ensures OptionalArray(EncodePackage(x).fields, "attributionTexts", AsString) == Ok(x.attributionTexts)
    ensures Optional(EncodePackage(x).fields, "builtDate", AsString) == Ok(x.builtDate)
    ensures OptionalArray(EncodePackage(x).fields, "checksums", DecodeChecksum) == Ok(x.checksums)
    ensures Optional(EncodePackage(x).fields, "comment", AsString) == Ok(x.comment)
    ensures Optional(EncodePackage(x).fields, "copyrightText", AsString) == Ok(x.copyrightText)
  {
    var obj := EncodePackage(x).fields;
    PackageWritesSpdxId(x);
    PackageWritesAnnotations(x);
    PackageWritesAttributionTexts(x);
    PackageWritesBuiltDate(x);
    PackageWritesChecksums(x);
    PackageWritesComment(x);
    PackageWritesCopyrightText(x);
    ScalarsFaithful();
    RequiredFaithful(obj, "SPDXID", AsString, EncodeString, x.spdxId);
    if x.annotations.Some? {
      forall i | 0 <= i < |x.annotations.value| ensures Faithful(DecodeAnnotation, EncodeAnnotation, x.annotations.value[i]) {
        AnnotationFaithful(x.annotations.value[i]);
      }
    }
    OptionalArrayFaithful(obj, "annotations", DecodeAnnotation, EncodeAnnotation, x.annotations);
    OptionalArrayFaithful(obj, "attributionTexts", AsString, EncodeString, x.attributionTexts);
    OptionalFaithful(obj, "builtDate", AsString, EncodeString, x.builtDate);
    if x.checksums.Some? {
      forall i | 0 <= i < |x.checksums.value| ensures Faithful(DecodeChecksum, EncodeChecksum, x.checksums.value[i]) {
        ChecksumFaithful(x.checksums.value[i]);
      }
    }
    OptionalArrayFaithful(obj, "checksums", DecodeChecksum, EncodeChecksum, x.checksums);
    OptionalFaithful(obj, "comment", AsString, EncodeString, x.comment);
    OptionalFaithful(obj, "copyrightText", AsString, EncodeString, x.copyrightText);
  }

  lemma PackageFieldsFaithful1(x: Package)
    ensures Optional(EncodePackage(x).fields, "description", AsString) == Ok(x.description)
    ensures Required(EncodePackage(x).fields, "downloadLocation", AsString) == Ok(x.downloadLocation)
    ensures OptionalArray(EncodePackage(x).fields, "externalRefs", DecodeExternalRef) == Ok(x.externalRefs)
    ensures Optional(EncodePackage(x).fields, "filesAnalyzed", AsBool) == Ok(x.filesAnalyzed)
    ensures OptionalArray(EncodePackage(x).fields, "hasFiles", AsString) == Ok(x.hasFiles)
    ensures Optional(EncodePackage(x).fields, "homepage", AsString) == Ok(x.homepage)
    ensures Optional(EncodePackage(x).fields, "licenseComments", AsString) == Ok(x.licenseComments)
  {
    var obj := EncodePackage(x).fields;
    PackageWritesDescription(x);
    PackageWritesDownloadLocation(x);
    PackageWritesExternalRefs(x);
    PackageWritesFilesAnalyzed(x);
    PackageWritesHasFiles(x);
    PackageWritesHomepage(x);
    PackageWritesLicenseComments(x);
    ScalarsFaithful();
    OptionalFaithful(obj, "description", AsString, EncodeString, x.description);
    RequiredFaithful(obj, "downloadLocation", AsString, EncodeString, x.downloadLocation);
    if x.externalRefs.Some? {
      forall i | 0 <= i < |x.externalRefs.value| ensures Faithful(DecodeExternalRef, EncodeExternalRef, x.externalRefs.value[i]) {
        ExternalRefFaithful(x.externalRefs.value[i]);
      }
    }
    OptionalArrayFaithful(obj, "externalRefs", DecodeExternalRef, EncodeExternalRef, x.externalRefs);
    OptionalFaithful(obj, "filesAnalyzed", AsBool, EncodeBool, x.filesAnalyzed);
    OptionalArrayFaithful(obj, "hasFiles", AsString, EncodeString, x.hasFiles);
    OptionalFaithful(obj, "homepage", AsString, EncodeString, x.homepage);
    OptionalFaithful(obj, "licenseComments", AsString, EncodeString, x.licenseComments);
  }

  lemma PackageFieldsFaithful2(x: Package)
    ensures Optional(EncodePackage(x).fields, "licenseConcluded", AsString) == Ok(x.licenseConcluded)
    ensures Optional(EncodePackage(x).fields, "licenseDeclared", AsString) == Ok(x.licenseDeclared)
    ensures OptionalArray(EncodePackage(x).fields, "licenseInfoFromFiles", AsString) == Ok(x.licenseInfoFromFiles)
    ensures Required(EncodePackage(x).fields, "name", AsString) == Ok(x.name)
    ensures Optional(EncodePackage(x).fields, "originator", AsString) == Ok(x.originator)
    ensures Optional(EncodePackage(x).fields, "packageFileName", AsString) == Ok(x.packageFileName)
    ensures Optional(EncodePackage(x).fields, "packageVerificationCode", DecodePackageVerificationCode) == Ok(x.packageVerificationCode)
  {
    var obj := EncodePackage(x).fields;
    PackageWritesLicenseConcluded(x);
    PackageWritesLicenseDeclared(x);
    PackageWritesLicenseInfoFromFiles(x);
    PackageWritesName(x);
    PackageWritesOriginator(x);
    PackageWritesPackageFileName(x);
    PackageWritesPackageVerificationCode(x);
    ScalarsFaithful();
    OptionalFaithful(obj, "licenseConcluded", AsString, EncodeString, x.licenseConcluded);
    OptionalFaithful(obj, "licenseDeclared", AsString, EncodeString, x.licenseDeclared);
    OptionalArrayFaithful(obj, "licenseInfoFromFiles", AsString, EncodeString, x.licenseInfoFromFiles);
    RequiredFaithful(obj, "name", AsString, EncodeString, x.name);
    OptionalFaithful(obj, "originator", AsString, EncodeString, x.originator);
    OptionalFaithful(obj, "packageFileName", AsString, EncodeString, x.packageFileName);
    if x.packageVerificationCode.Some? {
      PackageVerificationCodeFaithful(x.packageVerificationCode.value);
    }
    OptionalFaithful(obj, "packageVerificationCode", DecodePackageVerificationCode, EncodePackageVerificationCode, x.packageVerificationCode);
  }

  lemma PackageFieldsFaithful3(x: Package)
    ensures Optional(EncodePackage(x).fields, "primaryPackagePurpose", DecodePrimaryPackagePurpose) == Ok(x.primaryPackagePurpose)
    ensures Optional(EncodePackage(x).fields, "releaseDate", AsString) == Ok(x.releaseDate)
    ensures Optional(EncodePackage(x).fields, "sourceInfo", AsString) == Ok(x.sourceInfo)
    ensures Optional(EncodePackage(x).fields, "summary", AsString) == Ok(x.summary)
    ensures Optional(EncodePackage(x).fields, "supplier", AsString) == Ok(x.supplier)
    ensures Optional(EncodePackage(x).fields, "validUntilDate", AsString) == Ok(x.validUntilDate)
    ensures Optional(EncodePackage(x).fields, "versionInfo", AsString) == Ok(x.versionInfo)
  {
    var obj := EncodePackage(x).fields;
    PackageWritesPrimaryPackagePurpose(x);
    PackageWritesReleaseDate(x);
    PackageWritesSourceInfo(x);
    PackageWritesSummary(x);
    PackageWritesSupplier(x);
    PackageWritesValidUntilDate(x);
    PackageWritesVersionInfo(x);
    EnumsFaithful();
    ScalarsFaithful();
    OptionalFaithful(obj, "primaryPackagePurpose", DecodePrimaryPackagePurpose, EncodePrimaryPackagePurpose, x.primaryPackagePurpose);
    OptionalFaithful(obj, "releaseDate", AsString, EncodeString, x.releaseDate);
    OptionalFaithful(obj, "sourceInfo", AsString, EncodeString, x.sourceInfo);
    OptionalFaithful(obj, "summary", AsString, EncodeString, x.summary);
    OptionalFaithful(obj, "supplier", AsString, EncodeString, x.supplier);
    OptionalFaithful(obj, "validUntilDate", AsString, EncodeString, x.validUntilDate);
    OptionalFaithful(obj, "versionInfo", AsString, EncodeString, x.versionInfo);
  }

  lemma PackageEncodedClosed(x: Package)
    ensures ClosedObject(EncodePackage(x), PackageKeys()) == Ok(EncodePackage(x).fields)
  {
  }

  lemma PackageFaithful(x: Package)
    ensures DecodePackage(EncodePackage(x)) == Ok(x)
  {
    PackageEncodedClosed(x);
    PackageFieldsFaithful0(x);
    PackageFieldsFaithful1(x);
    PackageFieldsFaithful2(x);
    PackageFieldsFaithful3(x);
  }

  lemma PackageFieldsAccepted0(obj: map<string, Json>)
    ensures Required(obj, "SPDXID", AsString).Ok? <==> HasRequired(obj, "SPDXID", IsString)
    ensures OptionalArray(obj, "annotations", DecodeAnnotation).Ok? <==> MayHaveArray(obj, "annotations", ConformsAnnotation)
    ensures OptionalArray(obj, "attributionTexts", AsString).Ok? <==> MayHaveArray(obj, "attributionTexts", IsString)
    ensures Optional(obj, "builtDate", AsString).Ok? <==> MayHave(obj, "builtDate", IsString)
    ensures OptionalArray(obj, "checksums", DecodeChecksum).Ok? <==> MayHaveArray(obj, "checksums", ConformsChecksum)
    ensures Optional(obj, "comment", AsString).Ok? <==> MayHave(obj, "comment", IsString)
    ensures Optional(obj, "copyrightText", AsString).Ok? <==> MayHave(obj, "copyrightText", IsString)
  {
    ScalarsAgree();
    forall e ensures Agrees(DecodeAnnotation, ConformsAnnotation, e) {
      AnnotationAccepts(e);
    }
    forall e ensures Agrees(DecodeChecksum, ConformsChecksum, e) {
      ChecksumAccepts(e);
    }
    RequiredAgrees(obj, "SPDXID", AsString, IsString);
    OptionalArrayAgrees(obj, "annotations", DecodeAnnotation, ConformsAnnotation);
    OptionalArrayAgrees(obj, "attributionTexts", AsString, IsString);
    OptionalAgrees(obj, "builtDate", AsString, IsString);
    OptionalArrayAgrees(obj, "checksums", DecodeChecksum, ConformsChecksum);
    OptionalAgrees(obj, "comment", AsString, IsString);
    OptionalAgrees(obj, "copyrightText", AsString, IsString);
  }

  lemma PackageFieldsAccepted1(obj: map<string, Json>)
    ensures Optional(obj, "description", AsString).Ok? <==> MayHave(obj, "description", IsString)
    ensures Required(obj, "downloadLocation", AsString).Ok? <==> HasRequired(obj, "downloadLocation", IsString)
    ensures OptionalArray(obj, "externalRefs", DecodeExternalRef).Ok? <==> MayHaveArray(obj, "externalRefs", ConformsExternalRef)
    ensures Optional(obj, "filesAnalyzed", AsBool).Ok? <==> MayHave(obj, "filesAnalyzed", IsBool)
    ensures OptionalArray(obj, "hasFiles", AsString).Ok? <==> MayHaveArray(obj, "hasFiles", IsString)
    ensures Optional(obj, "homepage", AsString).Ok? <==> MayHave(obj, "homepage", IsString)
    ensures Optional(obj, "licenseComments", AsString).Ok? <==> MayHave(obj, "licenseComments", IsString)
  {
    ScalarsAgree();
    forall e ensures Agrees(DecodeExternalRef, ConformsExternalRef, e) {
      ExternalRefAccepts(e);
    }
    OptionalAgrees(obj, "description", AsString, IsString);
    RequiredAgrees(obj, "downloadLocation", AsString, IsString);
    OptionalArrayAgrees(obj, "externalRefs", DecodeExternalRef, ConformsExternalRef);
    OptionalAgrees(obj, "filesAnalyzed", AsBool, IsBool);
    OptionalArrayAgrees(obj, "hasFiles", AsString, IsString);
    OptionalAgrees(obj, "homepage", AsString, IsString);
    OptionalAgrees(obj, "licenseComments", AsString, IsString);
  }

  lemma PackageFieldsAccepted2(obj: map<string, Json>)
    ensures Optional(obj, "licenseConcluded", AsString).Ok? <==> MayHave(obj, "licenseConcluded", IsString)
    ensures Optional(obj, "licenseDeclared", AsString).Ok? <==> MayHave(obj, "licenseDeclared", IsString)
    ensures OptionalArray(obj, "licenseInfoFromFiles", AsString).Ok? <==> MayHaveArray(obj, "licenseInfoFromFiles", IsString)
    ensures Required(obj, "name", AsString).Ok? <==> HasRequired(obj, "name", IsString)
    ensures Optional(obj, "originator", AsString).Ok? <==> MayHave(obj, "originator", IsString)
    ensures Optional(obj, "packageFileName", AsString).Ok? <==> MayHave(obj, "packageFileName", IsString)
    ensures Optional(obj, "packageVerificationCode", DecodePackageVerificationCode).Ok? <==> MayHave(obj, "packageVerificationCode", ConformsPackageVerificationCode)
  {
    ScalarsAgree();
    forall e ensures Agrees(DecodePackageVerificationCode, ConformsPackageVerificationCode, e) {
      PackageVerificationCodeAccepts(e);
    }
    OptionalAgrees(obj, "licenseConcluded", AsString, IsString);
    OptionalAgrees(obj, "licenseDeclared", AsString, IsString);
    OptionalArrayAgrees(obj, "licenseInfoFromFiles", AsString, IsString);
    RequiredAgrees(obj, "name", AsString, IsString);
    OptionalAgrees(obj, "originator", AsString, IsString);
    OptionalAgrees(obj, "packageFileName", AsString, IsString);
    OptionalAgrees(obj, "packageVerificationCode", DecodePackageVerificationCode, ConformsPackageVerificationCode);
  }

  lemma PackageFieldsAccepted3(obj: map<string, Json>)
    ensures Optional(obj, "primaryPackagePurpose", DecodePrimaryPackagePurpose).Ok? <==> MayHave(obj, "primaryPackagePurpose", IsPrimaryPackagePurpose)
    ensures Optional(obj, "releaseDate", AsString).Ok? <==> MayHave(obj, "releaseDate", IsString)
    ensures Optional(obj, "sourceInfo", AsString).Ok? <==> MayHave(obj, "sourceInfo", IsString)
    ensures Optional(obj, "summary", AsString).Ok? <==> MayHave(obj, "summary", IsString)
    ensures Optional(obj, "supplier", AsString).Ok? <==> MayHave(obj, "supplier", IsString)
    ensures Optional(obj, "validUntilDate", AsString).Ok? <==> MayHave(obj, "validUntilDate", IsString)
    ensures Optional(obj, "versionInfo", AsString).Ok? <==> MayHave(obj, "versionInfo", IsString)
  {
    EnumsAgree();
    ScalarsAgree();
    OptionalAgrees(obj, "primaryPackagePurpose", DecodePrimaryPackagePurpose, IsPrimaryPackagePurpose);
    OptionalAgrees(obj, "releaseDate", AsString, IsString);
    OptionalAgrees(obj, "sourceInfo", AsString, IsString);
    OptionalAgrees(obj, "summary", AsString, IsString);
    OptionalAgrees(obj, "supplier", AsString, IsString);
    OptionalAgrees(obj, "validUntilDate", AsString, IsString);
    OptionalAgrees(obj, "versionInfo", AsString, IsString);
  }

  lemma PackageDecodesWhenFieldsDo(j: Json)
    ensures DecodePackage(j).Ok? <==>
              (&& Closed(j, PackageKeys())
               && Required(j.fields, "SPDXID", AsString).Ok?
               && OptionalArray(j.fields, "annotations", DecodeAnnotation).Ok?
               && OptionalArray(j.fields, "attributionTexts", AsString).Ok?
               && Optional(j.fields, "builtDate", AsString).Ok?
               && OptionalArray(j.fields, "checksums", DecodeChecksum).Ok?
               && Optional(j.fields, "comment", AsString).Ok?
               && Optional(j.fields, "copyrightText", AsString).Ok?
               && Optional(j.fields, "description", AsString).Ok?
               && Required(j.fields, "downloadLocation", AsString).Ok?
               && OptionalArray(j.fields, "externalRefs", DecodeExternalRef).Ok?
               && Optional(j.fields, "filesAnalyzed", AsBool).Ok?
               && OptionalArray(j.fields, "hasFiles", AsString).Ok?
               && Optional(j.fields, "homepage", AsString).Ok?
               && Optional(j.fields, "licenseComments", AsString).Ok?
               && Optional(j.fields, "licenseConcluded", AsString).Ok?
               && Optional(j.fields, "licenseDeclared", AsString).Ok?
               && OptionalArray(j.fields, "licenseInfoFromFiles", AsString).Ok?
               && Required(j.fields, "name", AsString).Ok?
               && Optional(j.fields, "originator", AsString).Ok?
               && Optional(j.fields, "packageFileName", AsString).Ok?
               && Optional(j.fields, "packageVerificationCode", DecodePackageVerificationCode).Ok?
               && Optional(j.fields, "primaryPackagePurpose", DecodePrimaryPackagePurpose).Ok?
               && Optional(j.fields, "releaseDate", AsString).Ok?
               && Optional(j.fields, "sourceInfo", AsString).Ok?
               && Optional(j.fields, "summary", AsString).Ok?
               && Optional(j.fields, "supplier", AsString).Ok?
               && Optional(j.fields, "validUntilDate", AsString).Ok?
               && Optional(j.fields, "versionInfo", AsString).Ok?)
  {
  }

  lemma PackageAccepts(j: Json)
    ensures DecodePackage(j).Ok? <==> ConformsPackage(j)
  {
    PackageDecodesWhenFieldsDo(j);
    if Closed(j, PackageKeys()) {
      PackageFieldsAccepted0(j.fields);
      PackageFieldsAccepted1(j.fields);
      PackageFieldsAccepted2(j.fields);
      PackageFieldsAccepted3(j.fields);
    }
  }

  // ---------------------------------------------------------------- File

  lemma FileEncodedSlot(x: File, key: string)
    ensures Slot(EncodeFile(x).fields, key) == (if key in FileKeys() then FileSlot(x, key) else None)
  {
  }

  lemma FileWritesSpdxId(x: File)
    ensures Slot(EncodeFile(x).fields, "SPDXID") == Some(EncodeString(x.spdxId))
  {
    FileEncodedSlot(x, "SPDXID");
  }

  lemma FileWritesAnnotations(x: File)
    ensures Slot(EncodeFile(x).fields, "annotations") == PresentArray(x.annotations, EncodeAnnotation)
  {
    FileEncodedSlot(x, "annotations");
  }

  lemma FileWritesArtifactOfs(x: File)
    ensures Slot(EncodeFile(x).fields, "artifactOfs") == PresentArray(x.artifactOfs, EncodeObject)
  {
    FileEncodedSlot(x, "artifactOfs");
  }

  lemma FileWritesAttributionTexts(x: File)
    ensures Slot(EncodeFile(x).fields, "attributionTexts") == PresentArray(x.attributionTexts, EncodeString)
  {
    FileEncodedSlot(x, "attributionTexts");
  }

  lemma FileWritesChecksums(x: File)
    ensures Slot(EncodeFile(x).fields, "checksums") == Some(EncodeArray(x.checksums, EncodeChecksum))
  {
    FileEncodedSlot(x, "checksums");
  }

  lemma FileWritesComment(x: File)
    ensures Slot(EncodeFile(x).fields, "comment") == Present(x.comment, EncodeString)
  {
    FileEncodedSlot(x, "comment");
  }

  lemma FileWritesCopyrightText(x: File)
    ensures Slot(EncodeFile(x).fields, "copyrightText") == Present(x.copyrightText, EncodeString)
  {
    FileEncodedSlot(x, "copyrightText");
  }

  lemma FileWritesFileContributors(x: File)
    ensures Slot(EncodeFile(x).fields, "fileContributors") == PresentArray(x.fileContributors, EncodeString)
  {
    FileEncodedSlot(x, "fileContributors");
  }

  lemma FileWritesFileDependencies(x: File)
    ensures Slot(EncodeFile(x).fields, "fileDependencies") == PresentArray(x.fileDependencies, EncodeString)
  {
    FileEncodedSlot(x, "fileDependencies");
  }

  lemma FileWritesFileName(x: File)
    ensures Slot(EncodeFile(x).fields, "fileName") == Some(EncodeString(x.fileName))
  {
    FileEncodedSlot(x, "fileName");
  }

  lemma FileWritesFileTypes(x: File)
    ensures Slot(EncodeFile(x).fields, "fileTypes") == PresentArray(x.fileTypes, EncodeFileType)
  {
    FileEncodedSlot(x, "fileTypes");
  }

  lemma FileWritesLicenseComments(x: File)
    ensures Slot(EncodeFile(x).fields, "licenseComments") == Present(x.licenseComments, EncodeString)
  {
    FileEncodedSlot(x, "licenseComments");
  }

  lemma FileWritesLicenseConcluded(x: File)
    ensures Slot(EncodeFile(x).fields, "licenseConcluded") == Present(x.licenseConcluded, EncodeString)
  {
    FileEncodedSlot(x, "licenseConcluded");
  }

  lemma FileWritesLicenseInfoInFiles(x: File)
    ensures Slot(EncodeFile(x).fields, "licenseInfoInFiles") == PresentArray(x.licenseInfoInFiles, EncodeString)
  {
    FileEncodedSlot(x, "licenseInfoInFiles");
  }

  lemma FileWritesNoticeText(x: File)
    ensures Slot(EncodeFile(x).fields, "noticeText") == Present(x.noticeText, EncodeString)
  {
    FileEncodedSlot(x, "noticeText");
  }

  function FileKeys0(): set<string> {
    {"SPDXID", "annotations", "artifactOfs", "attributionTexts", "checksums", "comment", "copyrightText"}
  }

  function FileKeys1(): set<string> {
    {"fileContributors", "fileDependencies", "fileName", "fileTypes", "licenseComments", "licenseConcluded", "licenseInfoInFiles"}
  }

  function FileKeys2(): set<string> {
    {"noticeText"}
  }

  lemma FileKeysSplit()
    ensures FileKeys() == FileKeys0() + FileKeys1() + FileKeys2()
  {
  }

  lemma FileSameSlots0(a: map<string, Json>, b: map<string, Json>)
    requires Slot(a, "SPDXID") == Slot(b, "SPDXID")
    requires Slot(a, "annotations") == Slot(b, "annotations")
    requires Slot(a, "artifactOfs") == Slot(b, "artifactOfs")
    requires Slot(a, "attributionTexts") == Slot(b, "attributionTexts")
    requires Slot(a, "checksums") == Slot(b, "checksums")
    requires Slot(a, "comment") == Slot(b, "comment")
    requires Slot(a, "copyrightText") == Slot(b, "copyrightText")
    ensures forall k | k in FileKeys0() :: Slot(a, k) == Slot(b, k)
  {
  }

  lemma FileSameSlots1(a: map<string, Json>, b: map<string, Json>)
    requires Slot(a, "fileContributors") == Slot(b, "fileContributors")
    requires Slot(a, "fileDependencies") == Slot(b, "fileDependencies")
    requires Slot(a, "fileName") == Slot(b, "fileName")
    requires Slot(a, "fileTypes") == Slot(b, "fileTypes")
    requires Slot(a, "licenseComments") == Slot(b, "licenseComments")
    requires Slot(a, "licenseConcluded") == Slot(b, "licenseConcluded")
    requires Slot(a, "licenseInfoInFiles") == Slot(b, "licenseInfoInFiles")
    ensures forall k | k in FileKeys1() :: Slot(a, k) == Slot(b, k)
  {
  }

  lemma FileSameSlots2(a: map<string, Json>, b: map<string, Json>)
    requires Slot(a, "noticeText") == Slot(b, "noticeText")
    ensures forall k | k in FileKeys2() :: Slot(a, k) == Slot(b, k)
  {
  }

  lemma FileDecodedFields(j: Json)
    requires DecodeFile(j).Ok?
    ensures Required(j.fields, "SPDXID", AsString) == Ok(DecodeFile(j).value.spdxId)
    ensures OptionalArray(j.fields, "annotations", DecodeAnnotation) == Ok(DecodeFile(j).value.annotations)
    ensures OptionalArray(j.fields, "artifactOfs", AsObject) == Ok(DecodeFile(j).value.artifactOfs)
    ensures OptionalArray(j.fields, "attributionTexts", AsString) == Ok(DecodeFile(j).value.attributionTexts)
    ensures RequiredArray(j.fields, "checksums", DecodeChecksum, 1) == Ok(DecodeFile(j).value.checksums)
    ensures Optional(j.fields, "comment", AsString) == Ok(DecodeFile(j).value.comment)
    ensures Optional(j.fields, "copyrightText", AsString) == Ok(DecodeFile(j).value.copyrightText)
    ensures OptionalArray(j.fields, "fileContributors", AsString) == Ok(DecodeFile(j).value.fileContributors)
    ensures OptionalArray(j.fields, "fileDependencies", AsString) == Ok(DecodeFile(j).value.fileDependencies)
    ensures Required(j.fields, "fileName", AsString) == Ok(DecodeFile(j).value.fileName)
    ensures OptionalArray(j.fields, "fileTypes", DecodeFileType) == Ok(DecodeFile(j).value.fileTypes)
    ensures Optional(j.fields, "licenseComments", AsString) == Ok(DecodeFile(j).value.licenseComments)
    ensures Optional(j.fields, "licenseConcluded", AsString) == Ok(DecodeFile(j).value.licenseConcluded)
    ensures OptionalArray(j.fields, "licenseInfoInFiles", AsString) == Ok(DecodeFile(j).value.licenseInfoInFiles)
    ensures Optional(j.fields, "noticeText", AsString) == Ok(DecodeFile(j).value.noticeText)
  {
  }

  lemma FileFieldsLossless0(obj: map<string, Json>, x: File)
    requires Required(obj, "SPDXID", AsString) == Ok(x.spdxId)
    requires OptionalArray(obj, "annotations", DecodeAnnotation) == Ok(x.annotations)
    requires OptionalArray(obj, "artifactOfs", AsObject) == Ok(x.artifactOfs)
    requires OptionalArray(obj, "attributionTexts", AsString) == Ok(x.attributionTexts)
    requires RequiredArray(obj, "checksums", DecodeChecksum, 1) == Ok(x.checksums)
    requires Optional(obj, "comment", AsString) == Ok(x.comment)
    requires Optional(obj, "copyrightText", AsString) == Ok(x.copyrightText)
    ensures Slot(obj, "SPDXID") == Some(EncodeString(x.spdxId))
    ensures Slot(obj, "annotations") == PresentArray(x.annotations, EncodeAnnotation)
    ensures Slot(obj, "artifactOfs") == PresentArray(x.artifactOfs, EncodeObject)
    ensures Slot(obj, "attributionTexts") == PresentArray(x.attributionTexts, EncodeString)
    ensures Slot(obj, "checksums") == Some(EncodeArray(x.checksums, EncodeChecksum))
    ensures Slot(obj, "comment") == Present(x.comment, EncodeString)
    ensures Slot(obj, "copyrightText") == Present(x.copyrightText, EncodeString)
  {
    ScalarsLossless();
    forall e ensures Lossless(DecodeAnnotation, EncodeAnnotation, e) {
      AnnotationLossless(e);
    }
    forall e ensures Lossless(DecodeChecksum, EncodeChecksum, e) {
      ChecksumLossless(e);
    }
    RequiredLossless(obj, "SPDXID", AsString, EncodeString);
    OptionalArrayLossless(obj, "annotations", DecodeAnnotation, EncodeAnnotation);
    OptionalArrayLossless(obj, "artifactOfs", AsObject, EncodeObject);
    OptionalArrayLossless(obj, "attributionTexts", AsString, EncodeString);
    RequiredArrayLossless(obj, "checksums", DecodeChecksum, EncodeChecksum, 1);
    OptionalLossless(obj, "comment", AsString, EncodeString);
    OptionalLossless(obj, "copyrightText", AsString, EncodeString);
  }

  lemma FileFieldsLossless1(obj: map<string, Json>, x: File)
    requires OptionalArray(obj, "fileContributors", AsString) == Ok(x.fileContributors)
    requires OptionalArray(obj, "fileDependencies", AsString) == Ok(x.fileDependencies)
    requires Required(obj, "fileName", AsString) == Ok(x.fileName)
    requires OptionalArray(obj, "fileTypes", DecodeFileType) == Ok(x.fileTypes)
    requires Optional(obj, "licenseComments", AsString) == Ok(x.licenseComments)
    requires Optional(obj, "licenseConcluded", AsString) == Ok(x.licenseConcluded)
    requires OptionalArray(obj, "licenseInfoInFiles", AsString) == Ok(x.licenseInfoInFiles)
    ensures Slot(obj, "fileContributors") == PresentArray(x.fileContributors, EncodeString)
    ensures Slot(obj, "fileDependencies") == PresentArray(x.fileDependencies, EncodeString)
    ensures Slot(obj, "fileName") == Some(EncodeString(x.fileName))
    ensures Slot(obj, "fileTypes") == PresentArray(x.fileTypes, EncodeFileType)
    ensures Slot(obj, "licenseComments") == Present(x.licenseComments, EncodeString)
    ensures Slot(obj, "licenseConcluded") == Present(x.licenseConcluded, EncodeString)
    ensures Slot(obj, "licenseInfoInFiles") == PresentArray(x.licenseInfoInFiles, EncodeString)
  {
    ScalarsLossless();
    EnumsLossless();
    OptionalArrayLossless(obj, "fileContributors", AsString, EncodeString);
    OptionalArrayLossless(obj, "fileDependencies", AsString, EncodeString);
    RequiredLossless(obj, "fileName", AsString, EncodeString);
    OptionalArrayLossless(obj, "fileTypes", DecodeFileType, EncodeFileType);
    OptionalLossless(obj, "licenseComments", AsString, EncodeString);
    OptionalLossless(obj, "licenseConcluded", AsString, EncodeString);
    OptionalArrayLossless(obj, "licenseInfoInFiles", AsString, EncodeString);
  }

  lemma FileFieldsLossless2(obj: map<string, Json>, x: File)
    requires Optional(obj, "noticeText", AsString) == Ok(x.noticeText)
    ensures Slot(obj, "noticeText") == Present(x.noticeText, EncodeString)
  {
    ScalarsLossless();
    OptionalLossless(obj, "noticeText", AsString, EncodeString);
  }

  lemma FileEncodesTo(x: File, obj: map<string, Json>)
    requires obj.Keys <= FileKeys()
    requires Slot(obj, "SPDXID") == Some(EncodeString(x.spdxId))
    requires Slot(obj, "annotations") == PresentArray(x.annotations, EncodeAnnotation)
    requires Slot(obj, "artifactOfs") == PresentArray(x.artifactOfs, EncodeObject)
    requires Slot(obj, "attributionTexts") == PresentArray(x.attributionTexts, EncodeString)
    requires Slot(obj, "checksums") == Some(EncodeArray(x.checksums, EncodeChecksum))
    requires Slot(obj, "comment") == Present(x.comment, EncodeString)
    requires Slot(obj, "copyrightText") == Present(x.copyrightText, EncodeString)
    requires Slot(obj, "fileContributors") == PresentArray(x.fileContributors, EncodeString)
    requires Slot(obj, "fileDependencies") == PresentArray(x.fileDependencies, EncodeString)
    requires Slot(obj, "fileName") == Some(EncodeString(x.fileName))
    requires Slot(obj, "fileTypes") == PresentArray(x.fileTypes, EncodeFileType)
    requires Slot(obj, "licenseComments") == Present(x.licenseComments, EncodeString)
    requires Slot(obj, "licenseConcluded") == Present(x.licenseConcluded, EncodeString)
    requires Slot(obj, "licenseInfoInFiles") == PresentArray(x.licenseInfoInFiles, EncodeString)
    requires Slot(obj, "noticeText") == Present(x.noticeText, EncodeString)
    ensures EncodeFile(x) == JObject(obj)
  {
    FileWritesSpdxId(x);
    FileWritesAnnotations(x);
    FileWritesArtifactOfs(x);
    FileWritesAttributionTexts(x);
    FileWritesChecksums(x);
    FileWritesComment(x);
    FileWritesCopyrightText(x);
    FileWritesFileContributors(x);
    FileWritesFileDependencies(x);
    FileWritesFileName(x);
    FileWritesFileTypes(x);
    FileWritesLicenseComments(x);
    FileWritesLicenseConcluded(x);
    FileWritesLicenseInfoInFiles(x);
    FileWritesNoticeText(x);
    FileSameSlots0(EncodeFile(x).fields, obj);
    FileSameSlots1(EncodeFile(x).fields, obj);
    FileSameSlots2(EncodeFile(x).fields, obj);
    FileKeysSplit();
    SameObject(EncodeFile(x).fields, obj, FileKeys());
  }

  lemma FileLossless(j: Json)
    ensures DecodeFile(j).Ok? ==> EncodeFile(DecodeFile(j).value) == j
  {
    if DecodeFile(j).Ok? {
      var x := DecodeFile(j).value;
      FileDecodedFields(j);
      FileFieldsLossless0(j.fields, x);
      FileFieldsLossless1(j.fields, x);
      FileFieldsLossless2(j.fields, x);
      FileEncodesTo(x, j.fields);
    }
  }

  lemma FileFieldsFaithful0(x: File)
    requires x.Valid()
    ensures Required(EncodeFile(x).fields, "SPDXID", AsString) == Ok(x.spdxId)
    ensures OptionalArray(EncodeFile(x).fields, "annotations", DecodeAnnotation) == Ok(x.annotations)
    ensures OptionalArray(EncodeFile(x).fields, "artifactOfs", AsObject) == Ok(x.artifactOfs)
    ensures OptionalArray(EncodeFile(x).fields, "attributionTexts", AsString) == Ok(x.attributionTexts)
    ensures RequiredArray(EncodeFile(x).fields, "checksums", DecodeChecksum, 1) == Ok(x.checksums)
    ensures Optional(EncodeFile(x).fields, "comment", AsString) == Ok(x.comment)
    ensures Optional(EncodeFile(x).fields, "copyrightText", AsString) == Ok(x.copyrightText)
  {
    var obj := EncodeFile(x).fields;
    FileWritesSpdxId(x);
    FileWritesAnnotations(x);
    FileWritesArtifactOfs(x);
    FileWritesAttributionTexts(x);
    FileWritesChecksums(x);
    FileWritesComment(x);
    FileWritesCopyrightText(x);
    ScalarsFaithful();
    RequiredFaithful(obj, "SPDXID", AsString, EncodeString, x.spdxId);
    if x.annotations.Some? {
      forall i | 0 <= i < |x.annotations.value| ensures Faithful(DecodeAnnotation, EncodeAnnotation, x.annotations.value[i]) {
        AnnotationFaithful(x.annotations.value[i]);
      }
    }
    OptionalArrayFaithful(obj, "annotations", DecodeAnnotation, EncodeAnnotation, x.annotations);
    OptionalArrayFaithful(obj, "artifactOfs", AsObject, EncodeObject, x.artifactOfs);
    OptionalArrayFaithful(obj, "attributionTexts", AsString, EncodeString, x.attributionTexts);
    forall i | 0 <= i < |x.checksums| ensures Faithful(DecodeChecksum, EncodeChecksum, x.checksums[i]) {
      ChecksumFaithful(x.checksums[i]);
    }
    RequiredArrayFaithful(obj, "checksums", DecodeChecksum, EncodeChecksum, 1, x.checksums);
    OptionalFaithful(obj, "comment", AsString, EncodeString, x.comment);
    OptionalFaithful(obj, "copyrightText", AsString, EncodeString, x.copyrightText);
  }

  lemma FileFieldsFaithful1(x: File)
    requires x.Valid()
    ensures OptionalArray(EncodeFile(x).fields, "fileContributors", AsString) == Ok(x.fileContributors)
    ensures OptionalArray(EncodeFile(x).fields, "fileDependencies", AsString) == Ok(x.fileDependencies)
    ensures Required(EncodeFile(x).fields, "fileName", AsString) == Ok(x.fileName)
    ensures OptionalArray(EncodeFile(x).fields, "fileTypes", DecodeFileType) == Ok(x.fileTypes)
    ensures Optional(EncodeFile(x).fields, "licenseComments", AsString) == Ok(x.licenseComments)
    ensures Optional(EncodeFile(x).fields, "licenseConcluded", AsString) == Ok(x.licenseConcluded)
    ensures OptionalArray(EncodeFile(x).fields, "licenseInfoInFiles", AsString) == Ok(x.licenseInfoInFiles)
  {
    var obj := EncodeFile(x).fields;
    FileWritesFileContributors(x);
    FileWritesFileDependencies(x);
    FileWritesFileName(x);
    FileWritesFileTypes(x);
    FileWritesLicenseComments(x);
    FileWritesLicenseConcluded(x);
    FileWritesLicenseInfoInFiles(x);
    ScalarsFaithful();
    EnumsFaithful();
    OptionalArrayFaithful(obj, "fileContributors", AsString, EncodeString, x.fileContributors);
    OptionalArrayFaithful(obj, "fileDependencies", AsString, EncodeString, x.fileDependencies);
    RequiredFaithful(obj, "fileName", AsString, EncodeString, x.fileName);
    OptionalArrayFaithful(obj, "fileTypes", DecodeFileType, EncodeFileType, x.fileTypes);
    OptionalFaithful(obj, "licenseComments", AsString, EncodeString, x.licenseComments);
    OptionalFaithful(obj, "licenseConcluded", AsString, EncodeString, x.licenseConcluded);
    OptionalArrayFaithful(obj, "licenseInfoInFiles", AsString, EncodeString, x.licenseInfoInFiles);
  }

  lemma FileFieldsFaithful2(x: File)
    requires x.Valid()
    ensures Optional(EncodeFile(x).fields, "noticeText", AsString) == Ok(x.noticeText)
  {
    var obj := EncodeFile(x).fields;
    FileWritesNoticeText(x);
    ScalarsFaithful();
    OptionalFaithful(obj, "noticeText", AsString, EncodeString, x.noticeText);
  }

  lemma FileEncodedClosed(x: File)
    ensures ClosedObject(EncodeFile(x), FileKeys()) == Ok(EncodeFile(x).fields)
  {
  }

  lemma FileFaithful(x: File)
    requires x.Valid()
    ensures DecodeFile(EncodeFile(x)) == Ok(x)
  {
    FileEncodedClosed(x);
    FileFieldsFaithful0(x);
    FileFieldsFaithful1(x);
    FileFieldsFaithful2(x);
  }

  lemma FileFieldsAccepted0(obj: map<string, Json>)
    ensures Required(obj, "SPDXID", AsString).Ok? <==> HasRequired(obj, "SPDXID", IsString)
    ensures OptionalArray(obj, "annotations", DecodeAnnotation).Ok? <==> MayHaveArray(obj, "annotations", ConformsAnnotation)
    ensures OptionalArray(obj, "artifactOfs", AsObject).Ok? <==> MayHaveArray(obj, "artifactOfs", IsObject)
    ensures OptionalArray(obj, "attributionTexts", AsString).Ok? <==> MayHaveArray(obj, "attributionTexts", IsString)
    ensures RequiredArray(obj, "checksums", DecodeChecksum, 1).Ok? <==> HasRequiredArray(obj, "checksums", ConformsChecksum, 1)
    ensures Optional(obj, "comment", AsString).Ok? <==> MayHave(obj, "comment", IsString)
    ensures Optional(obj, "copyrightText", AsString).Ok? <==> MayHave(obj, "copyrightText", IsString)
  {
    ScalarsAgree();
    forall e ensures Agrees(DecodeAnnotation, ConformsAnnotation, e) {
      AnnotationAccepts(e);
    }
    forall e ensures Agrees(DecodeChecksum, ConformsChecksum, e) {
      ChecksumAccepts(e);
    }
    RequiredAgrees(obj, "SPDXID", AsString, IsString);
    OptionalArrayAgrees(obj, "annotations", DecodeAnnotation, ConformsAnnotation);
    OptionalArrayAgrees(obj, "artifactOfs", AsObject, IsObject);
    OptionalArrayAgrees(obj, "attributionTexts", AsString, IsString);
    RequiredArrayAgrees(obj, "checksums", DecodeChecksum, ConformsChecksum, 1);
    OptionalAgrees(obj, "comment", AsString, IsString);
    OptionalAgrees(obj, "copyrightText", AsString, IsString);
  }

  lemma FileFieldsAccepted1(obj: map<string, Json>)
    ensures OptionalArray(obj, "fileContributors", AsString).Ok? <==> MayHaveArray(obj, "fileContributors", IsString)
    ensures OptionalArray(obj, "fileDependencies", AsString).Ok? <==> MayHaveArray(obj, "fileDependencies", IsString)
    ensures Required(obj, "fileName", AsString).Ok? <==> HasRequired(obj, "fileName", IsString)
    ensures OptionalArray(obj, "fileTypes", DecodeFileType).Ok? <==> MayHaveArray(obj, "fileTypes", IsFileType)
    ensures Optional(obj, "licenseComments", AsString).Ok? <==> MayHave(obj, "licenseComments", IsString)
    ensures Optional(obj, "licenseConcluded", AsString).Ok? <==> MayHave(obj, "licenseConcluded", IsString)
    ensures OptionalArray(obj, "licenseInfoInFiles", AsString).Ok? <==> MayHaveArray(obj, "licenseInfoInFiles", IsString)
  {
    ScalarsAgree();
    EnumsAgree();
    OptionalArrayAgrees(obj, "fileContributors", AsString, IsString);
    OptionalArrayAgrees(obj, "fileDependencies", AsString, IsString);
    RequiredAgrees(obj, "fileName", AsString, IsString);
    OptionalArrayAgrees(obj, "fileTypes", DecodeFileType, IsFileType);
    OptionalAgrees(obj, "licenseComments", AsString, IsString);
    OptionalAgrees(obj, "licenseConcluded", AsString, IsString);
    OptionalArrayAgrees(obj, "licenseInfoInFiles", AsString, IsString);
  }

  lemma FileFieldsAccepted2(obj: map<string, Json>)
    ensures Optional(obj, "noticeText", AsString).Ok? <==> MayHave(obj, "noticeText", IsString)
  {
    ScalarsAgree();
    OptionalAgrees(obj, "noticeText", AsString, IsString);
  }

  lemma FileDecodesWhenFieldsDo(j: Json)
    ensures DecodeFile(j).Ok? <==>
              (&& Closed(j, FileKeys())
               && Required(j.fields, "SPDXID", AsString).Ok?
               && OptionalArray(j.fields, "annotations", DecodeAnnotation).Ok?
               && OptionalArray(j.fields, "artifactOfs", AsObject).Ok?
               && OptionalArray(j.fields, "attributionTexts", AsString).Ok?
               && RequiredArray(j.fields, "checksums", DecodeChecksum, 1).Ok?
               && Optional(j.fields, "comment", AsString).Ok?
               && Optional(j.fields, "copyrightText", AsString).Ok?
               && OptionalArray(j.fields, "fileContributors", AsString).Ok?
               && OptionalArray(j.fields, "fileDependencies", AsString).Ok?
               && Required(j.fields, "fileName", AsString).Ok?
               && OptionalArray(j.fields, "fileTypes", DecodeFileType).Ok?
               && Optional(j.fields, "licenseComments", AsString).Ok?
               && Optional(j.fields, "licenseConcluded", AsString).Ok?
               && OptionalArray(j.fields, "licenseInfoInFiles", AsString).Ok?
               && Optional(j.fields, "noticeText", AsString).Ok?)
  {
  }

  lemma FileAccepts(j: Json)
    ensures DecodeFile(j).Ok? <==> ConformsFile(j)
  {
    FileDecodesWhenFieldsDo(j);
    if Closed(j, FileKeys()) {
      FileFieldsAccepted0(j.fields);
      FileFieldsAccepted1(j.fields);
      FileFieldsAccepted2(j.fields);
    }
  }

  // ---------------------------------------------------------------- Pointer

  lemma PointerEncodedSlot(x: Pointer, key: string)
    ensures Slot(EncodePointer(x).fields, key) == (if key in PointerKeys() then PointerSlot(x, key) else None)
  {
  }

  lemma PointerWritesReference(x: Pointer)
    ensures Slot(EncodePointer(x).fields, "reference") == Some(EncodeString(x.reference))
  {
    PointerEncodedSlot(x, "reference");
  }

  lemma PointerWritesOffset(x: Pointer)
    ensures Slot(EncodePointer(x).fields, "offset") == Present(x.offset, EncodeInt)
  {
    PointerEncodedSlot(x, "offset");
  }

  lemma PointerWritesLineNumber(x: Pointer)
    ensures Slot(EncodePointer(x).fields, "lineNumber") == Present(x.lineNumber, EncodeInt)
  {
    PointerEncodedSlot(x, "lineNumber");
  }

  lemma PointerSameSlots(a: map<string, Json>, b: map<string, Json>)
    requires Slot(a, "reference") == Slot(b, "reference")
    requires Slot(a, "offset") == Slot(b, "offset")
    requires Slot(a, "lineNumber") == Slot(b, "lineNumber")
    ensures forall k | k in PointerKeys() :: Slot(a, k) == Slot(b, k)
  {
  }

  lemma PointerDecodedFields(j: Json)
    requires DecodePointer(j).Ok?
    ensures Required(j.fields, "reference", AsString) == Ok(DecodePointer(j).value.reference)
    ensures Optional(j.fields, "offset", AsInt) == Ok(DecodePointer(j).value.offset)
    ensures Optional(j.fields, "lineNumber", AsInt) == Ok(DecodePointer(j).value.lineNumber)
  {
  }

  lemma PointerFieldsLossless(obj: map<string, Json>, x: Pointer)
    requires Required(obj, "reference", AsString) == Ok(x.reference)
    requires Optional(obj, "offset", AsInt) == Ok(x.offset)
    requires Optional(obj, "lineNumber", AsInt) == Ok(x.lineNumber)
    ensures Slot(obj, "reference") == Some(EncodeString(x.reference))
    ensures Slot(obj, "offset") == Present(x.offset, EncodeInt)
    ensures Slot(obj, "lineNumber") == Present(x.lineNumber, EncodeInt)
  {
    ScalarsLossless();
    RequiredLossless(obj, "reference", AsString, EncodeString);
    OptionalLossless(obj, "offset", AsInt, EncodeInt);
    OptionalLossless(obj, "lineNumber", AsInt, EncodeInt);
  }

  lemma PointerEncodesTo(x: Pointer, obj: map<string, Json>)
    requires obj.Keys <= PointerKeys()
    requires Slot(obj, "reference") == Some(EncodeString(x.reference))
    requires Slot(obj, "offset") == Present(x.offset, EncodeInt)
    requires Slot(obj, "lineNumber") == Present(x.lineNumber, EncodeInt)
    ensures EncodePointer(x) == JObject(obj)
  {
    PointerWritesReference(x);
    PointerWritesOffset(x);
    PointerWritesLineNumber(x);
    PointerSameSlots(EncodePointer(x).fields, obj);
    SameObject(EncodePointer(x).fields, obj, PointerKeys());
  }

  lemma PointerLossless(j: Json)
    ensures DecodePointer(j).Ok? ==> EncodePointer(DecodePointer(j).value) == j
  {
    if DecodePointer(j).Ok? {
      var x := DecodePointer(j).value;
      PointerDecodedFields(j);
      PointerFieldsLossless(j.fields, x);
      PointerEncodesTo(x, j.fields);
    }
  }

  lemma PointerFieldsFaithful(x: Pointer)
    ensures Required(EncodePointer(x).fields, "reference", AsString) == Ok(x.reference)
    ensures Optional(EncodePointer(x).fields, "offset", AsInt) == Ok(x.offset)
    ensures Optional(EncodePointer(x).fields, "lineNumber", AsInt) == Ok(x.lineNumber)
  {
    var obj := EncodePointer(x).fields;
    PointerWritesReference(x);
    PointerWritesOffset(x);
    PointerWritesLineNumber(x);
    ScalarsFaithful();
    RequiredFaithful(obj, "reference", AsString, EncodeString, x.reference);
    OptionalFaithful(obj, "offset", AsInt, EncodeInt, x.offset);
    OptionalFaithful(obj, "lineNumber", AsInt, EncodeInt, x.lineNumber);
  }

  lemma PointerEncodedClosed(x: Pointer)
    ensures ClosedObject(EncodePointer(x), PointerKeys()) == Ok(EncodePointer(x).fields)
  {
  }

  lemma PointerFaithful(x: Pointer)
    ensures DecodePointer(EncodePointer(x)) == Ok(x)
  {
    PointerEncodedClosed(x);
    PointerFieldsFaithful(x);
  }

  lemma PointerFieldsAccepted(obj: map<string, Json>)
    ensures Required(obj, "reference", AsString).Ok? <==> HasRequired(obj, "reference", IsString)
    ensures Optional(obj, "offset", AsInt).Ok? <==> MayHave(obj, "offset", IsInteger)
    ensures Optional(obj, "lineNumber", AsInt).Ok? <==> MayHave(obj, "lineNumber", IsInteger)
  {
    ScalarsAgree();
    RequiredAgrees(obj, "reference", AsString, IsString);
    OptionalAgrees(obj, "offset", AsInt, IsInteger);
    OptionalAgrees(obj, "lineNumber", AsInt, IsInteger);
  }

  lemma PointerAccepts(j: Json)
    ensures DecodePointer(j).Ok? <==> ConformsPointer(j)
  {
    if Closed(j, PointerKeys()) {
      PointerFieldsAccepted(j.fields);
    }
  }

  // ---------------------------------------------------------------- Range

  lemma RangeEncodedSlot(x: Range, key: string)
    ensures Slot(EncodeRange(x).fields, key) == (if key in RangeKeys() then RangeSlot(x, key) else None)
  {
  }

  lemma RangeWritesEndPointer(x: Range)
    ensures Slot(EncodeRange(x).fields, "endPointer") == Some(EncodePointer(x.endPointer))
  {
    RangeEncodedSlot(x, "endPointer");
  }

  lemma RangeWritesStartPointer(x: Range)
    ensures Slot(EncodeRange(x).fields, "startPointer") == Some(EncodePointer(x.startPointer))
  {
    RangeEncodedSlot(x, "startPointer");
  }

  lemma RangeSameSlots(a: map<string, Json>, b: map<string, Json>)
    requires Slot(a, "endPointer") == Slot(b, "endPointer")
    requires Slot(a, "startPointer") == Slot(b, "startPointer")
    ensures forall k | k in RangeKeys() :: Slot(a, k) == Slot(b, k)
  {
  }

  lemma RangeDecodedFields(j: Json)
    requires DecodeRange(j).Ok?
    ensures Required(j.fields, "endPointer", DecodePointer) == Ok(DecodeRange(j).value.endPointer)
    ensures Required(j.fields, "startPointer", DecodePointer) == Ok(DecodeRange(j).value.startPointer)
  {
  }

  lemma RangeFieldsLossless(obj: map<string, Json>, x: Range)
    requires Required(obj, "endPointer", DecodePointer) == Ok(x.endPointer)
    requires Required(obj, "startPointer", DecodePointer) == Ok(x.startPointer)
    ensures Slot(obj, "endPointer") == Some(EncodePointer(x.endPointer))
    ensures Slot(obj, "startPointer") == Some(EncodePointer(x.startPointer))
  {
    forall e ensures Lossless(DecodePointer, EncodePointer, e) {
      PointerLossless(e);
    }
    RequiredLossless(obj, "endPointer", DecodePointer, EncodePointer);
    RequiredLossless(obj, "startPointer", DecodePointer, EncodePointer);
  }

  lemma RangeEncodesTo(x: Range, obj: map<string, Json>)
    requires obj.Keys <= RangeKeys()
    requires Slot(obj, "endPointer") == Some(EncodePointer(x.endPointer))
    requires Slot(obj, "startPointer") == Some(EncodePointer(x.startPointer))
    ensures EncodeRange(x) == JObject(obj)
  {
    RangeWritesEndPointer(x);
    RangeWritesStartPointer(x);
    RangeSameSlots(EncodeRange(x).fields, obj);
    SameObject(EncodeRange(x).fields, obj, RangeKeys());
  }

  lemma RangeLossless(j: Json)
    ensures DecodeRange(j).Ok? ==> EncodeRange(DecodeRange(j).value) == j
  {
    if DecodeRange(j).Ok? {
      var x := DecodeRange(j).value;
      RangeDecodedFields(j);
      RangeFieldsLossless(j.fields, x);
      RangeEncodesTo(x, j.fields);
    }
  }

  lemma RangeFieldsFaithful(x: Range)
    ensures Required(EncodeRange(x).fields, "endPointer", DecodePointer) == Ok(x.endPointer)
    ensures Required(EncodeRange(x).fields, "startPointer", DecodePointer) == Ok(x.startPointer)
  {
    var obj := EncodeRange(x).fields;
    RangeWritesEndPointer(x);
    RangeWritesStartPointer(x);
    PointerFaithful(x.endPointer);
    RequiredFaithful(obj, "endPointer", DecodePointer, EncodePointer, x.endPointer);
    PointerFaithful(x.startPointer);
    RequiredFaithful(obj, "startPointer", DecodePointer, EncodePointer, x.startPointer);
  }

  lemma RangeEncodedClosed(x: Range)
    ensures ClosedObject(EncodeRange(x), RangeKeys()) == Ok(EncodeRange(x).fields)
  {
  }

  lemma RangeFaithful(x: Range)
    ensures DecodeRange(EncodeRange(x)) == Ok(x)
  {
    RangeEncodedClosed(x);
    RangeFieldsFaithful(x);
  }

  lemma RangeFieldsAccepted(obj: map<string, Json>)
    ensures Required(obj, "endPointer", DecodePointer).Ok? <==> HasRequired(obj, "endPointer", ConformsPointer)
    ensures Required(obj, "startPointer", DecodePointer).Ok? <==> HasRequired(obj, "startPointer", ConformsPointer)
  {
    forall e ensures Agrees(DecodePointer, ConformsPointer, e) {
      PointerAccepts(e);
    }
    RequiredAgrees(obj, "endPointer", DecodePointer, ConformsPointer);
    RequiredAgrees(obj, "startPointer", DecodePointer, ConformsPointer);
  }

  lemma RangeAccepts(j: Json)
    ensures DecodeRange(j).Ok? <==> ConformsRange(j)
  {
    if Closed(j, RangeKeys()) {
      RangeFieldsAccepted(j.fields);
    }
  }

  // ---------------------------------------------------------------- Snippet

  lemma SnippetEncodedSlot(x: Snippet, key: string)
    ensures Slot(EncodeSnippet(x).fields, key) == (if key in SnippetKeys() then SnippetSlot(x, key) else None)
  {
  }

  lemma SnippetWritesSpdxId(x: Snippet)
    ensures Slot(EncodeSnippet(x).fields, "SPDXID") == Some(EncodeString(x.spdxId))
  {
    SnippetEncodedSlot(x, "SPDXID");
  }

  lemma SnippetWritesAnnotations(x: Snippet)
    ensures Slot(EncodeSnippet(x).fields, "annotations") == PresentArray(x.annotations, EncodeAnnotation)
  {
    SnippetEncodedSlot(x, "annotations");
  }

  lemma SnippetWritesAttributionTexts(x: Snippet)
    ensures Slot(EncodeSnippet(x).fields, "attributionTexts") == PresentArray(x.attributionTexts, EncodeString)
  {
    SnippetEncodedSlot(x, "attributionTexts");
  }

  lemma SnippetWritesComment(x: Snippet)
    ensures Slot(EncodeSnippet(x).fields, "comment") == Present(x.comment, EncodeString)
  {
    SnippetEncodedSlot(x, "comment");
  }

  lemma SnippetWritesCopyrightText(x: Snippet)
    ensures Slot(EncodeSnippet(x).fields, "copyrightText") == Present(x.copyrightText, EncodeString)
  {
    SnippetEncodedSlot(x, "copyrightText");
  }

  lemma SnippetWritesLicenseComments(x: Snippet)
    ensures Slot(EncodeSnippet(x).fields, "licenseComments") == Present(x.licenseComments, EncodeString)
  {
    SnippetEncodedSlot(x, "licenseComments");
  }

  lemma SnippetWritesLicenseConcluded(x: Snippet)
    ensures Slot(EncodeSnippet(x).fields, "licenseConcluded") == Present(x.licenseConcluded, EncodeString)
  {
    SnippetEncodedSlot(x, "licenseConcluded");
  }

  lemma SnippetWritesLicenseInfoInSnippets(x: Snippet)
    ensures Slot(EncodeSnippet(x).fields, "licenseInfoInSnippets") == PresentArray(x.licenseInfoInSnippets, EncodeString)
  {
    SnippetEncodedSlot(x, "licenseInfoInSnippets");
  }

  lemma SnippetWritesName(x: Snippet)
    ensures Slot(EncodeSnippet(x).fields, "name") == Some(EncodeString(x.name))
  {
    SnippetEncodedSlot(x, "name");
  }

  lemma SnippetWritesRanges(x: Snippet)
    ensures Slot(EncodeSnippet(x).fields, "ranges") == Some(EncodeArray(x.ranges, EncodeRange))
  {
    SnippetEncodedSlot(x, "ranges");
  }

  lemma SnippetWritesSnippetFromFile(x: Snippet)
    ensures Slot(EncodeSnippet(x).fields, "snippetFromFile") == Some(EncodeString(x.snippetFromFile))
  {
    SnippetEncodedSlot(x, "snippetFromFile");
  }

  function SnippetKeys0(): set<string> {
    {"SPDXID", "annotations", "attributionTexts", "comment", "copyrightText", "licenseComments", "licenseConcluded"}
  }

  function SnippetKeys1(): set<string> {
    {"licenseInfoInSnippets", "name", "ranges", "snippetFromFile"}
  }

  lemma SnippetKeysSplit()
    ensures SnippetKeys() == SnippetKeys0() + SnippetKeys1()
  {
  }

  lemma SnippetSameSlots0(a: map<string, Json>, b: map<string, Json>)
    requires Slot(a, "SPDXID") == Slot(b, "SPDXID")
    requires Slot(a, "annotations") == Slot(b, "annotations")
    requires Slot(a, "attributionTexts") == Slot(b, "attributionTexts")
    requires Slot(a, "comment") == Slot(b, "comment")
    requires Slot(a, "copyrightText") == Slot(b, "copyrightText")
    requires Slot(a, "licenseComments") == Slot(b, "licenseComments")
    requires Slot(a, "licenseConcluded") == Slot(b, "licenseConcluded")
    ensures forall k | k in SnippetKeys0() :: Slot(a, k) == Slot(b, k)
  {
  }

  lemma SnippetSameSlots1(a: map<string, Json>, b: map<string, Json>)
    requires Slot(a, "licenseInfoInSnippets") == Slot(b, "licenseInfoInSnippets")
    requires Slot(a, "name") == Slot(b, "name")
    requires Slot(a, "ranges") == Slot(b, "ranges")
    requires Slot(a, "snippetFromFile") == Slot(b, "snippetFromFile")
    ensures forall k | k in SnippetKeys1() :: Slot(a, k) == Slot(b, k)
  {
  }

  lemma SnippetDecodedFields(j: Json)
    requires DecodeSnippet(j).Ok?
    ensures Required(j.fields, "SPDXID", AsString) == Ok(DecodeSnippet(j).value.spdxId)
    ensures OptionalArray(j.fields, "annotations", DecodeAnnotation) == Ok(DecodeSnippet(j).value.annotations)
    ensures OptionalArray(j.fields, "attributionTexts", AsString) == Ok(DecodeSnippet(j).value.attributionTexts)
    ensures Optional(j.fields, "comment", AsString) == Ok(DecodeSnippet(j).value.comment)
    ensures Optional(j.fields, "copyrightText", AsString) == Ok(DecodeSnippet(j).value.copyrightText)
    ensures Optional(j.fields, "licenseComments", AsString) == Ok(DecodeSnippet(j).value.licenseComments)
    ensures Optional(j.fields, "licenseConcluded", AsString) == Ok(DecodeSnippet(j).value.licenseConcluded)
    ensures OptionalArray(j.fields, "licenseInfoInSnippets", AsString) == Ok(DecodeSnippet(j).value.licenseInfoInSnippets)
    ensures Required(j.fields, "name", AsString) == Ok(DecodeSnippet(j).value.name)
    ensures RequiredArray(j.fields, "ranges", DecodeRange, 1) == Ok(DecodeSnippet(j).value.ranges)
    ensures Required(j.fields, "snippetFromFile", AsString) == Ok(DecodeSnippet(j).value.snippetFromFile)
  {
  }

  lemma SnippetFieldsLossless0(obj: map<string, Json>, x: Snippet)
    requires Required(obj, "SPDXID", AsString) == Ok(x.spdxId)
    requires OptionalArray(obj, "annotations", DecodeAnnotation) == Ok(x.annotations)
    requires OptionalArray(obj, "attributionTexts", AsString) == Ok(x.attributionTexts)
    requires Optional(obj, "comment", AsString) == Ok(x.comment)
    requires Optional(obj, "copyrightText", AsString) == Ok(x.copyrightText)
    requires Optional(obj, "licenseComments", AsString) == Ok(x.licenseComments)
    requires Optional(obj, "licenseConcluded", AsString) == Ok(x.licenseConcluded)
    ensures Slot(obj, "SPDXID") == Some(EncodeString(x.spdxId))
    ensures Slot(obj, "annotations") == PresentArray(x.annotations, EncodeAnnotation)
    ensures Slot(obj, "attributionTexts") == PresentArray(x.attributionTexts, EncodeString)
    ensures Slot(obj, "comment") == Present(x.comment, EncodeString)
    ensures Slot(obj, "copyrightText") == Present(x.copyrightText, EncodeString)
    ensures Slot(obj, "licenseComments") == Present(x.licenseComments, EncodeString)
    ensures Slot(obj, "licenseConcluded") == Present(x.licenseConcluded, EncodeString)
  {
    ScalarsLossless();
    forall e ensures Lossless(DecodeAnnotation, EncodeAnnotation, e) {
      AnnotationLossless(e);
    }
    RequiredLossless(obj, "SPDXID", AsString, EncodeString);
    OptionalArrayLossless(obj, "annotations", DecodeAnnotation, EncodeAnnotation);
    OptionalArrayLossless(obj, "attributionTexts", AsString, EncodeString);
    OptionalLossless(obj, "comment", AsString, EncodeString);
    OptionalLossless(obj, "copyrightText", AsString, EncodeString);
    OptionalLossless(obj, "licenseComments", AsString, EncodeString);
    OptionalLossless(obj, "licenseConcluded", AsString, EncodeString);
  }

  lemma SnippetFieldsLossless1(obj: map<string, Json>, x: Snippet)
    requires OptionalArray(obj, "licenseInfoInSnippets", AsString) == Ok(x.licenseInfoInSnippets)
    requires Required(obj, "name", AsString) == Ok(x.name)
    requires RequiredArray(obj, "ranges", DecodeRange, 1) == Ok(x.ranges)
    requires Required(obj, "snippetFromFile", AsString) == Ok(x.snippetFromFile)
    ensures Slot(obj, "licenseInfoInSnippets") == PresentArray(x.licenseInfoInSnippets, EncodeString)
    ensures Slot(obj, "name") == Some(EncodeString(x.name))
    ensures Slot(obj, "ranges") == Some(EncodeArray(x.ranges, EncodeRange))
    ensures Slot(obj, "snippetFromFile") == Some(EncodeString(x.snippetFromFile))
  {
    ScalarsLossless();
    forall e ensures Lossless(DecodeRange, EncodeRange, e) {
      RangeLossless(e);
    }
    OptionalArrayLossless(obj, "licenseInfoInSnippets", AsString, EncodeString);
    RequiredLossless(obj, "name", AsString, EncodeString);
    RequiredArrayLossless(obj, "ranges", DecodeRange, EncodeRange, 1);
    RequiredLossless(obj, "snippetFromFile", AsString, EncodeString);
  }

  lemma SnippetEncodesTo(x: Snippet, obj: map<string, Json>)
    requires obj.Keys <= SnippetKeys()
    requires Slot(obj, "SPDXID") == Some(EncodeString(x.spdxId))
    requires Slot(obj, "annotations") == PresentArray(x.annotations, EncodeAnnotation)
    requires Slot(obj, "attributionTexts") == PresentArray(x.attributionTexts, EncodeString)
    requires Slot(obj, "comment") == Present(x.comment, EncodeString)
    requires Slot(obj, "copyrightText") == Present(x.copyrightText, EncodeString)
    requires Slot(obj, "licenseComments") == Present(x.licenseComments, EncodeString)
    requires Slot(obj, "licenseConcluded") == Present(x.licenseConcluded, EncodeString)
    requires Slot(obj, "licenseInfoInSnippets") == PresentArray(x.licenseInfoInSnippets, EncodeString)
    requires Slot(obj, "name") == Some(EncodeString(x.name))
    requires Slot(obj, "ranges") == Some(EncodeArray(x.ranges, EncodeRange))
    requires Slot(obj, "snippetFromFile") == Some(EncodeString(x.snippetFromFile))
    ensures EncodeSnippet(x) == JObject(obj)
  {
    SnippetWritesSpdxId(x);
    SnippetWritesAnnotations(x);
    SnippetWritesAttributionTexts(x);
    SnippetWritesComment(x);
    SnippetWritesCopyrightText(x);
    SnippetWritesLicenseComments(x);
    SnippetWritesLicenseConcluded(x);
    SnippetWritesLicenseInfoInSnippets(x);
    SnippetWritesName(x);
    SnippetWritesRanges(x);
    SnippetWritesSnippetFromFile(x);
    SnippetSameSlots0(EncodeSnippet(x).fields, obj);
    SnippetSameSlots1(EncodeSnippet(x).fields, obj);
    SnippetKeysSplit();
    SameObject(EncodeSnippet(x).fields, obj, SnippetKeys());
  }

  lemma SnippetLossless(j: Json)
    ensures DecodeSnippet(j).Ok? ==> EncodeSnippet(DecodeSnippet(j).value) == j
  {
    if DecodeSnippet(j).Ok? {
      var x := DecodeSnippet(j).value;
      SnippetDecodedFields(j);
      SnippetFieldsLossless0(j.fields, x);
      SnippetFieldsLossless1(j.fields, x);
      SnippetEncodesTo(x, j.fields);
    }
  }

  lemma SnippetFieldsFaithful0(x: Snippet)
    requires x.Valid()
    ensures Required(EncodeSnippet(x).fields, "SPDXID", AsString) == Ok(x.spdxId)
    ensures OptionalArray(EncodeSnippet(x).fields, "annotations", DecodeAnnotation) == Ok(x.annotations)
    ensures OptionalArray(EncodeSnippet(x).fields, "attributionTexts", AsString) == Ok(x.attributionTexts)
    ensures Optional(EncodeSnippet(x).fields, "comment", AsString) == Ok(x.comment)
    ensures Optional(EncodeSnippet(x).fields, "copyrightText", AsString) == Ok(x.copyrightText)
    ensures Optional(EncodeSnippet(x).fields, "licenseComments", AsString) == Ok(x.licenseComments)
    ensures Optional(EncodeSnippet(x).fields, "licenseConcluded", AsString) == Ok(x.licenseConcluded)
  {
    var obj := EncodeSnippet(x).fields;
    SnippetWritesSpdxId(x);
    SnippetWritesAnnotations(x);
    SnippetWritesAttributionTexts(x);
    SnippetWritesComment(x);
    SnippetWritesCopyrightText(x);
    SnippetWritesLicenseComments(x);
    SnippetWritesLicenseConcluded(x);
    ScalarsFaithful();
    RequiredFaithful(obj, "SPDXID", AsString, EncodeString, x.spdxId);
    if x.annotations.Some? {
      forall i | 0 <= i < |x.annotations.value| ensures Faithful(DecodeAnnotation, EncodeAnnotation, x.annotations.value[i]) {
        AnnotationFaithful(x.annotations.value[i]);
      }
    }
    OptionalArrayFaithful(obj, "annotations", DecodeAnnotation, EncodeAnnotation, x.annotations);
    OptionalArrayFaithful(obj, "attributionTexts", AsString, EncodeString, x.attributionTexts);
    OptionalFaithful(obj, "comment", AsString, EncodeString, x.comment);
    OptionalFaithful(obj, "copyrightText", AsString, EncodeString, x.copyrightText);
    OptionalFaithful(obj, "licenseComments", AsString, EncodeString, x.licenseComments);
    OptionalFaithful(obj, "licenseConcluded", AsString, EncodeString, x.licenseConcluded);
  }

  lemma SnippetFieldsFaithful1(x: Snippet)
    requires x.Valid()
    ensures OptionalArray(EncodeSnippet(x).fields, "licenseInfoInSnippets", AsString) == Ok(x.licenseInfoInSnippets)
    ensures Required(EncodeSnippet(x).fields, "name", AsString) == Ok(x.name)
    ensures RequiredArray(EncodeSnippet(x).fields, "ranges", DecodeRange, 1) == Ok(x.ranges)
    ensures Required(EncodeSnippet(x).fields, "snippetFromFile", AsString) == Ok(x.snippetFromFile)
  {
    var obj := EncodeSnippet(x).fields;
    SnippetWritesLicenseInfoInSnippets(x);
    SnippetWritesName(x);
    SnippetWritesRanges(x);
    SnippetWritesSnippetFromFile(x);
    ScalarsFaithful();
    OptionalArrayFaithful(obj, "licenseInfoInSnippets", AsString, EncodeString, x.licenseInfoInSnippets);
    RequiredFaithful(obj, "name", AsString, EncodeString, x.name);
    forall i | 0 <= i < |x.ranges| ensures Faithful(DecodeRange, EncodeRange, x.ranges[i]) {
      RangeFaithful(x.ranges[i]);
    }
    RequiredArrayFaithful(obj, "ranges", DecodeRange, EncodeRange, 1, x.ranges);
    RequiredFaithful(obj, "snippetFromFile", AsString, EncodeString, x.snippetFromFile);
  }

  lemma SnippetEncodedClosed(x: Snippet)
    ensures ClosedObject(EncodeSnippet(x), SnippetKeys()) == Ok(EncodeSnippet(x).fields)
  {
  }

  lemma SnippetFaithful(x: Snippet)
    requires x.Valid()
    ensures DecodeSnippet(EncodeSnippet(x)) == Ok(x)
  {
    SnippetEncodedClosed(x);
    SnippetFieldsFaithful0(x);
    SnippetFieldsFaithful1(x);
  }

  lemma SnippetFieldsAccepted0(obj: map<string, Json>)
    ensures Required(obj, "SPDXID", AsString).Ok? <==> HasRequired(obj, "SPDXID", IsString)
    ensures OptionalArray(obj, "annotations", DecodeAnnotation).Ok? <==> MayHaveArray(obj, "annotations", ConformsAnnotation)
    ensures OptionalArray(obj, "attributionTexts", AsString).Ok? <==> MayHaveArray(obj, "attributionTexts", IsString)
    ensures Optional(obj, "comment", AsString).Ok? <==> MayHave(obj, "comment", IsString)
    ensures Optional(obj, "copyrightText", AsString).Ok? <==> MayHave(obj, "copyrightText", IsString)
    ensures Optional(obj, "licenseComments", AsString).Ok? <==> MayHave(obj, "licenseComments", IsString)
    ensures Optional(obj, "licenseConcluded", AsString).Ok? <==> MayHave(obj, "licenseConcluded", IsString)
  {
    ScalarsAgree();
    forall e ensures Agrees(DecodeAnnotation, ConformsAnnotation, e) {
      AnnotationAccepts(e);
    }
    RequiredAgrees(obj, "SPDXID", AsString, IsString);
    OptionalArrayAgrees(obj, "annotations", DecodeAnnotation, ConformsAnnotation);
    OptionalArrayAgrees(obj, "attributionTexts", AsString, IsString);
    OptionalAgrees(obj, "comment", AsString, IsString);
    OptionalAgrees(obj, "copyrightText", AsString, IsString);
    OptionalAgrees(obj, "licenseComments", AsString, IsString);
    OptionalAgrees(obj, "licenseConcluded", AsString, IsString);
  }

  lemma SnippetFieldsAccepted1(obj: map<string, Json>)
    ensures OptionalArray(obj, "licenseInfoInSnippets", AsString).Ok? <==> MayHaveArray(obj, "licenseInfoInSnippets", IsString)
    ensures Required(obj, "name", AsString).Ok? <==> HasRequired(obj, "name", IsString)
    ensures RequiredArray(obj, "ranges", DecodeRange, 1).Ok? <==> HasRequiredArray(obj, "ranges", ConformsRange, 1)
    ensures Required(obj, "snippetFromFile", AsString).Ok? <==> HasRequired(obj, "snippetFromFile", IsString)
  {
    ScalarsAgree();
    forall e ensures Agrees(DecodeRange, ConformsRange, e) {
      RangeAccepts(e);
    }
    OptionalArrayAgrees(obj, "licenseInfoInSnippets", AsString, IsString);
    RequiredAgrees(obj, "name", AsString, IsString);
    RequiredArrayAgrees(obj, "ranges", DecodeRange, ConformsRange, 1);
    RequiredAgrees(obj, "snippetFromFile", AsString, IsString);
  }

  lemma SnippetDecodesWhenFieldsDo(j: Json)
    ensures DecodeSnippet(j).Ok? <==>
              (&& Closed(j, SnippetKeys())
               && Required(j.fields, "SPDXID", AsString).Ok?
               && OptionalArray(j.fields, "annotations", DecodeAnnotation).Ok?
               && OptionalArray(j.fields, "attributionTexts", AsString).Ok?
               && Optional(j.fields, "comment", AsString).Ok?
               && Optional(j.fields, "copyrightText", AsString).Ok?
               && Optional(j.fields, "licenseComments", AsString).Ok?
               && Optional(j.fields, "licenseConcluded", AsString).Ok?
               && OptionalArray(j.fields, "licenseInfoInSnippets", AsString).Ok?
               && Required(j.fields, "name", AsString).Ok?
               && RequiredArray(j.fields, "ranges", DecodeRange, 1).Ok?
               && Required(j.fields, "snippetFromFile", AsString).Ok?)
  {
  }

  lemma SnippetAccepts(j: Json)
    ensures DecodeSnippet(j).Ok? <==> ConformsSnippet(j)
  {
    SnippetDecodesWhenFieldsDo(j);
    if Closed(j, SnippetKeys()) {
      SnippetFieldsAccepted0(j.fields);
      SnippetFieldsAccepted1(j.fields);
    }
  }

  // ---------------------------------------------------------------- Relationship

  lemma RelationshipEncodedSlot(x: Relationship, key: string)
    ensures Slot(EncodeRelationship(x).fields, key) == (if key in RelationshipKeys() then RelationshipSlot(x, key) else None)
  {
  }

  lemma RelationshipWritesSpdxElementId(x: Relationship)
    ensures Slot(EncodeRelationship(x).fields, "spdxElementId") == Some(EncodeString(x.spdxElementId))
  {
    RelationshipEncodedSlot(x, "spdxElementId");
  }

  lemma RelationshipWritesComment(x: Relationship)
    ensures Slot(EncodeRelationship(x).fields, "comment") == Present(x.comment, EncodeString)
  {
    RelationshipEncodedSlot(x, "comment");
  }

  lemma RelationshipWritesRelatedSpdxElement(x: Relationship)
    ensures Slot(EncodeRelationship(x).fields, "relatedSpdxElement") == Some(EncodeString(x.relatedSpdxElement))
  {
    RelationshipEncodedSlot(x, "relatedSpdxElement");
  }

  lemma RelationshipWritesRelationshipType(x: Relationship)
    ensures Slot(EncodeRelationship(x).fields, "relationshipType") == Some(EncodeRelationshipType(x.relationshipType))
  {
    RelationshipEncodedSlot(x, "relationshipType");
  }

  lemma RelationshipSameSlots(a: map<string, Json>, b: map<string, Json>)
    requires Slot(a, "spdxElementId") == Slot(b, "spdxElementId")
    requires Slot(a, "comment") == Slot(b, "comment")
    requires Slot(a, "relatedSpdxElement") == Slot(b, "relatedSpdxElement")
    requires Slot(a, "relationshipType") == Slot(b, "relationshipType")
    ensures forall k | k in RelationshipKeys() :: Slot(a, k) == Slot(b, k)
  {
  }

  lemma RelationshipDecodedFields(j: Json)
    requires DecodeRelationship(j).Ok?
    ensures Required(j.fields, "spdxElementId", AsString) == Ok(DecodeRelationship(j).value.spdxElementId)
    ensures Optional(j.fields, "comment", AsString) == Ok(DecodeRelationship(j).value.comment)
    ensures Required(j.fields, "relatedSpdxElement", AsString) == Ok(DecodeRelationship(j).value.relatedSpdxElement)
    ensures Required(j.fields, "relationshipType", DecodeRelationshipType) == Ok(DecodeRelationship(j).value.relationshipType)
  {
  }

  lemma RelationshipFieldsLossless(obj: map<string, Json>, x: Relationship)
    requires Required(obj, "spdxElementId", AsString) == Ok(x.spdxElementId)
    requires Optional(obj, "comment", AsString) == Ok(x.comment)
    requires Required(obj, "relatedSpdxElement", AsString) == Ok(x.relatedSpdxElement)
    requires Required(obj, "relationshipType", DecodeRelationshipType) == Ok(x.relationshipType)
    ensures Slot(obj, "spdxElementId") == Some(EncodeString(x.spdxElementId))
    ensures Slot(obj, "comment") == Present(x.comment, EncodeString)
    ensures Slot(obj, "relatedSpdxElement") == Some(EncodeString(x.relatedSpdxElement))
    ensures Slot(obj, "relationshipType") == Some(EncodeRelationshipType(x.relationshipType))
  {
    ScalarsLossless();
    EnumsLossless();
    RequiredLossless(obj, "spdxElementId", AsString, EncodeString);
    OptionalLossless(obj, "comment", AsString, EncodeString);
    RequiredLossless(obj, "relatedSpdxElement", AsString, EncodeString);
    RequiredLossless(obj, "relationshipType", DecodeRelationshipType, EncodeRelationshipType);
  }

  lemma RelationshipEncodesTo(x: Relationship, obj: map<string, Json>)
    requires obj.Keys <= RelationshipKeys()
    requires Slot(obj, "spdxElementId") == Some(EncodeString(x.spdxElementId))
    requires Slot(obj, "comment") == Present(x.comment, EncodeString)
    requires Slot(obj, "relatedSpdxElement") == Some(EncodeString(x.relatedSpdxElement))
    requires Slot(obj, "relationshipType") == Some(EncodeRelationshipType(x.relationshipType))
    ensures EncodeRelationship(x) == JObject(obj)
  {
    RelationshipWritesSpdxElementId(x);
    RelationshipWritesComment(x);
    RelationshipWritesRelatedSpdxElement(x);
    RelationshipWritesRelationshipType(x);
    RelationshipSameSlots(EncodeRelationship(x).fields, obj);
    SameObject(EncodeRelationship(x).fields, obj, RelationshipKeys());
  }

  lemma RelationshipLossless(j: Json)
    ensures DecodeRelationship(j).Ok? ==> EncodeRelationship(DecodeRelationship(j).value) == j
  {
    if DecodeRelationship(j).Ok? {
      var x := DecodeRelationship(j).value;
      RelationshipDecodedFields(j);
      RelationshipFieldsLossless(j.fields, x);
      RelationshipEncodesTo(x, j.fields);
    }
  }

  lemma RelationshipFieldsFaithful(x: Relationship)
    ensures Required(EncodeRelationship(x).fields, "spdxElementId", AsString) == Ok(x.spdxElementId)
    ensures Optional(EncodeRelationship(x).fields, "comment", AsString) == Ok(x.comment)
    ensures Required(EncodeRelationship(x).fields, "relatedSpdxElement", AsString) == Ok(x.relatedSpdxElement)
    ensures Required(EncodeRelationship(x).fields, "relationshipType", DecodeRelationshipType) == Ok(x.relationshipType)
  {
    var obj := EncodeRelationship(x).fields;
    RelationshipWritesSpdxElementId(x);
    RelationshipWritesComment(x);
    RelationshipWritesRelatedSpdxElement(x);
    RelationshipWritesRelationshipType(x);
    ScalarsFaithful();
    EnumsFaithful();
    RequiredFaithful(obj, "spdxElementId", AsString, EncodeString, x.spdxElementId);
    OptionalFaithful(obj, "comment", AsString, EncodeString, x.comment);
    RequiredFaithful(obj, "relatedSpdxElement", AsString, EncodeString, x.relatedSpdxElement);
    RequiredFaithful(obj, "relationshipType", DecodeRelationshipType, EncodeRelationshipType, x.relationshipType);
  }

  lemma RelationshipEncodedClosed(x: Relationship)
    ensures ClosedObject(EncodeRelationship(x), RelationshipKeys()) == Ok(EncodeRelationship(x).fields)
  {
  }

  lemma RelationshipFaithful(x: Relationship)
    ensures DecodeRelationship(EncodeRelationship(x)) == Ok(x)
  {
    RelationshipEncodedClosed(x);
    RelationshipFieldsFaithful(x);
  }

  lemma RelationshipFieldsAccepted(obj: map<string, Json>)
    ensures Required(obj, "spdxElementId", AsString).Ok? <==> HasRequired(obj, "spdxElementId", IsString)
    ensures Optional(obj, "comment", AsString).Ok? <==> MayHave(obj, "comment", IsString)
    ensures Required(obj, "relatedSpdxElement", AsString).Ok? <==> HasRequired(obj, "relatedSpdxElement", IsString)
    ensures Required(obj, "relationshipType", DecodeRelationshipType).Ok? <==> HasRequired(obj, "relationshipType", IsRelationshipType)
  {
    ScalarsAgree();
    EnumsAgree();
    RequiredAgrees(obj, "spdxElementId", AsString, IsString);
    OptionalAgrees(obj, "comment", AsString, IsString);
    RequiredAgrees(obj, "relatedSpdxElement", AsString, IsString);
    RequiredAgrees(obj, "relationshipType", DecodeRelationshipType, IsRelationshipType);
  }

  lemma RelationshipAccepts(j: Json)
    ensures DecodeRelationship(j).Ok? <==> ConformsRelationship(j)
  {
    if Closed(j, RelationshipKeys()) {
      RelationshipFieldsAccepted(j.fields);
    }
  }

  // ---------------------------------------------------------------- Document

  lemma DocumentEncodedSlot(x: Document, key: string)
    ensures Slot(EncodeDocument(x).fields, key) == (if key in DocumentKeys() then DocumentSlot(x, key) else None)
  {
  }

  lemma DocumentWritesSpdxId(x: Document)
    ensures Slot(EncodeDocument(x).fields, "SPDXID") == Some(EncodeString(x.spdxId))
  {
    DocumentEncodedSlot(x, "SPDXID");
  }

  lemma DocumentWritesAnnotations(x: Document)
    ensures Slot(EncodeDocument(x).fields, "annotations") == PresentArray(x.annotations, EncodeAnnotation)
  {
    DocumentEncodedSlot(x, "annotations");
  }

  lemma DocumentWritesComment(x: Document)
    ensures Slot(EncodeDocument(x).fields, "comment") == Present(x.comment, EncodeString)
  {
    DocumentEncodedSlot(x, "comment");
  }

  lemma DocumentWritesCreationInfo(x: Document)
    ensures Slot(EncodeDocument(x).fields, "creationInfo") == Some(EncodeCreationInfo(x.creationInfo))
  {
    DocumentEncodedSlot(x, "creationInfo");
  }

  lemma DocumentWritesDataLicense(x: Document)
    ensures Slot(EncodeDocument(x).fields, "dataLicense") == Some(EncodeString(x.dataLicense))
  {
    DocumentEncodedSlot(x, "dataLicense");
  }

  lemma DocumentWritesExternalDocumentRefs(x: Document)
    ensures Slot(EncodeDocument(x).fields, "externalDocumentRefs") == PresentArray(x.externalDocumentRefs, EncodeExternalDocumentRef)
  {
    DocumentEncodedSlot(x, "externalDocumentRefs");
  }

  lemma DocumentWritesHasExtractedLicensingInfos(x: Document)
    ensures Slot(EncodeDocument(x).fields, "hasExtractedLicensingInfos") == PresentArray(x.hasExtractedLicensingInfos, EncodeHasExtractedLicensingInfo)
  {
    DocumentEncodedSlot(x, "hasExtractedLicensingInfos");
  }

  lemma DocumentWritesName(x: Document)
    ensures Slot(EncodeDocument(x).fields, "name") == Some(EncodeString(x.name))
  {
    DocumentEncodedSlot(x, "name");
  }

  lemma DocumentWritesRevieweds(x: Document)
    ensures Slot(EncodeDocument(x).fields, "revieweds") == PresentArray(x.revieweds, EncodeReviewed)
  {
    DocumentEncodedSlot(x, "revieweds");
  }

  lemma DocumentWritesSpdxVersion(x: Document)
    ensures Slot(EncodeDocument(x).fields, "spdxVersion") == Some(EncodeString(x.spdxVersion))
  {
    DocumentEncodedSlot(x, "spdxVersion");
  }

  lemma DocumentWritesDocumentNamespace(x: Document)
    ensures Slot(EncodeDocument(x).fields, "documentNamespace") == Present(x.documentNamespace, EncodeString)
  {
    DocumentEncodedSlot(x, "documentNamespace");
  }

  lemma DocumentWritesDocumentDescribes(x: Document)
    ensures Slot(EncodeDocument(x).fields, "documentDescribes") == PresentArray(x.documentDescribes, EncodeString)
  {
    DocumentEncodedSlot(x, "documentDescribes");
  }

  lemma DocumentWritesPackages(x: Document)
    ensures Slot(EncodeDocument(x).fields, "packages") == PresentArray(x.packages, EncodePackage)
  {
    DocumentEncodedSlot(x, "packages");
  }

  lemma DocumentWritesFiles(x: Document)
    ensures Slot(EncodeDocument(x).fields, "files") == PresentArray(x.files, EncodeFile)
  {
    DocumentEncodedSlot(x, "files");
  }

  lemma DocumentWritesSnippets(x: Document)
    ensures Slot(EncodeDocument(x).fields, "snippets") == PresentArray(x.snippets, EncodeSnippet)
  {
    DocumentEncodedSlot(x, "snippets");
  }

  lemma DocumentWritesRelationships(x: Document)
    ensures Slot(EncodeDocument(x).fields, "relationships") == PresentArray(x.relationships, EncodeRelationship)
  {
    DocumentEncodedSlot(x, "relationships");
  }

  function DocumentKeys0(): set<string> {
    {"SPDXID", "annotations"}
  }

  function DocumentKeys1(): set<string> {
    {"comment", "creationInfo"}
  }

  function DocumentKeys2(): set<string> {
    {"dataLicense", "externalDocumentRefs"}
  }

  function DocumentKeys3(): set<string> {
    {"hasExtractedLicensingInfos", "name"}
  }

  function DocumentKeys4(): set<string> {
    {"revieweds", "spdxVersion"}
  }

  function DocumentKeys5(): set<string> {
    {"documentNamespace", "documentDescribes"}
  }

  function DocumentKeys6(): set<string> {
    {"packages", "files"}
  }

  function DocumentKeys7(): set<string> {
    {"snippets", "relationships"}
  }

  lemma DocumentKeysSplit()
    ensures DocumentKeys() == DocumentKeys0() + DocumentKeys1() + DocumentKeys2() + DocumentKeys3() + DocumentKeys4() + DocumentKeys5() + DocumentKeys6() + DocumentKeys7()
  {
  }

  lemma DocumentSameSlots0(a: map<string, Json>, b: map<string, Json>)
    requires Slot(a, "SPDXID") == Slot(b, "SPDXID")
    requires Slot(a, "annotations") == Slot(b, "annotations")
    ensures forall k | k in DocumentKeys0() :: Slot(a, k) == Slot(b, k)
  {
  }

  lemma DocumentSameSlots1(a: map<string, Json>, b: map<string, Json>)
    requires Slot(a, "comment") == Slot(b, "comment")
    requires Slot(a, "creationInfo") == Slot(b, "creationInfo")
    ensures forall k | k in DocumentKeys1() :: Slot(a, k) == Slot(b, k)
  {
  }

  lemma DocumentSameSlots2(a: map<string, Json>, b: map<string, Json>)
    requires Slot(a, "dataLicense") == Slot(b, "dataLicense")
    requires Slot(a, "externalDocumentRefs") == Slot(b, "externalDocumentRefs")
    ensures forall k | k in DocumentKeys2() :: Slot(a, k) == Slot(b, k)
  {
  }

  lemma DocumentSameSlots3(a: map<string, Json>, b: map<string, Json>)
    requires Slot(a, "hasExtractedLicensingInfos") == Slot(b, "hasExtractedLicensingInfos")
    requires Slot(a, "name") == Slot(b, "name")
    ensures forall k | k in DocumentKeys3() :: Slot(a, k) == Slot(b, k)
  {
  }

  lemma DocumentSameSlots4(a: map<string, Json>, b: map<string, Json>)
    requires Slot(a, "revieweds") == Slot(b, "revieweds")
    requires Slot(a, "spdxVersion") == Slot(b, "spdxVersion")
    ensures forall k | k in DocumentKeys4() :: Slot(a, k) == Slot(b, k)
  {
  }

  lemma DocumentSameSlots5(a: map<string, Json>, b: map<string, Json>)
    requires Slot(a, "documentNamespace") == Slot(b, "documentNamespace")
    requires Slot(a, "documentDescribes") == Slot(b, "documentDescribes")
    ensures forall k | k in DocumentKeys5() :: Slot(a, k) == Slot(b, k)
  {
  }

  lemma DocumentSameSlots6(a: map<string, Json>, b: map<string, Json>)
    requires Slot(a, "packages") == Slot(b, "packages")
    requires Slot(a, "files") == Slot(b, "files")
    ensures forall k | k in DocumentKeys6() :: Slot(a, k) == Slot(b, k)
  {
  }

  lemma DocumentSameSlots7(a: map<string, Json>, b: map<string, Json>)
    requires Slot(a, "snippets") == Slot(b, "snippets")
    requires Slot(a, "relationships") == Slot(b, "relationships")
    ensures forall k | k in DocumentKeys7() :: Slot(a, k) == Slot(b, k)
  {
  }

  lemma DocumentDecodedFields(j: Json)
    requires DecodeDocument(j).Ok?
    ensures Required(j.fields, "SPDXID", AsString) == Ok(DecodeDocument(j).value.spdxId)
    ensures OptionalArray(j.fields, "annotations", DecodeAnnotation) == Ok(DecodeDocument(j).value.annotations)
    ensures Optional(j.fields, "comment", AsString) == Ok(DecodeDocument(j).value.comment)
    ensures Required(j.fields, "creationInfo", DecodeCreationInfo) == Ok(DecodeDocument(j).value.creationInfo)
    ensures Required(j.fields, "dataLicense", AsString) == Ok(DecodeDocument(j).value.dataLicense)
    ensures OptionalArray(j.fields, "externalDocumentRefs", DecodeExternalDocumentRef) == Ok(DecodeDocument(j).value.externalDocumentRefs)
    ensures OptionalArray(j.fields, "hasExtractedLicensingInfos", DecodeHasExtractedLicensingInfo) == Ok(DecodeDocument(j).value.hasExtractedLicensingInfos)
    ensures Required(j.fields, "name", AsString) == Ok(DecodeDocument(j).value.name)
    ensures OptionalArray(j.fields, "revieweds", DecodeReviewed) == Ok(DecodeDocument(j).value.revieweds)
    ensures Required(j.fields, "spdxVersion", AsString) == Ok(DecodeDocument(j).value.spdxVersion)
    ensures Optional(j.fields, "documentNamespace", AsString) == Ok(DecodeDocument(j).value.documentNamespace)
    ensures OptionalArray(j.fields, "documentDescribes", AsString) == Ok(DecodeDocument(j).value.documentDescribes)
    ensures OptionalArray(j.fields, "packages", DecodePackage) == Ok(DecodeDocument(j).value.packages)
    ensures OptionalArray(j.fields, "files", DecodeFile) == Ok(DecodeDocument(j).value.files)
    ensures OptionalArray(j.fields, "snippets", DecodeSnippet) == Ok(DecodeDocument(j).value.snippets)
    ensures OptionalArray(j.fields, "relationships", DecodeRelationship) == Ok(DecodeDocument(j).value.relationships)
  {
  }

  lemma DocumentFieldsLossless0(obj: map<string, Json>, x: Document)
    requires Required(obj, "SPDXID", AsString) == Ok(x.spdxId)
    requires OptionalArray(obj, "annotations", DecodeAnnotation) == Ok(x.annotations)
    ensures Slot(obj, "SPDXID") == Some(EncodeString(x.spdxId))
    ensures Slot(obj, "annotations") == PresentArray(x.annotations, EncodeAnnotation)
  {
    ScalarsLossless();
    forall e ensures Lossless(DecodeAnnotation, EncodeAnnotation, e) {
      AnnotationLossless(e);
    }
    RequiredLossless(obj, "SPDXID", AsString, EncodeString);
    OptionalArrayLossless(obj, "annotations", DecodeAnnotation, EncodeAnnotation);
  }

  lemma DocumentFieldsLossless1(obj: map<string, Json>, x: Document)
    requires Optional(obj, "comment", AsString) == Ok(x.comment)
    requires Required(obj, "creationInfo", DecodeCreationInfo) == Ok(x.creationInfo)
    ensures Slot(obj, "comment") == Present(x.comment, EncodeString)
    ensures Slot(obj, "creationInfo") == Some(EncodeCreationInfo(x.creationInfo))
  {
    ScalarsLossless();
    forall e ensures Lossless(DecodeCreationInfo, EncodeCreationInfo, e) {
      CreationInfoLossless(e);
    }
    OptionalLossless(obj, "comment", AsString, EncodeString);
    RequiredLossless(obj, "creationInfo", DecodeCreationInfo, EncodeCreationInfo);
  }

  lemma DocumentFieldsLossless2(obj: map<string, Json>, x: Document)
    requires Required(obj, "dataLicense", AsString) == Ok(x.dataLicense)
    requires OptionalArray(obj, "externalDocumentRefs", DecodeExternalDocumentRef) == Ok(x.externalDocumentRefs)
    ensures Slot(obj, "dataLicense") == Some(EncodeString(x.dataLicense))
    ensures Slot(obj, "externalDocumentRefs") == PresentArray(x.externalDocumentRefs, EncodeExternalDocumentRef)
  {
    ScalarsLossless();
    forall e ensures Lossless(DecodeExternalDocumentRef, EncodeExternalDocumentRef, e) {
      ExternalDocumentRefLossless(e);
    }
    RequiredLossless(obj, "dataLicense", AsString, EncodeString);
    OptionalArrayLossless(obj, "externalDocumentRefs", DecodeExternalDocumentRef, EncodeExternalDocumentRef);
  }

  lemma DocumentFieldsLossless3(obj: map<string, Json>, x: Document)
    requires OptionalArray(obj, "hasExtractedLicensingInfos", DecodeHasExtractedLicensingInfo) == Ok(x.hasExtractedLicensingInfos)
    requires Required(obj, "name", AsString) == Ok(x.name)
    ensures Slot(obj, "hasExtractedLicensingInfos") == PresentArray(x.hasExtractedLicensingInfos, EncodeHasExtractedLicensingInfo)
    ensures Slot(obj, "name") == Some(EncodeString(x.name))
  {
    ScalarsLossless();
    forall e ensures Lossless(DecodeHasExtractedLicensingInfo, EncodeHasExtractedLicensingInfo, e) {
      HasExtractedLicensingInfoLossless(e);
    }
    OptionalArrayLossless(obj, "hasExtractedLicensingInfos", DecodeHasExtractedLicensingInfo, EncodeHasExtractedLicensingInfo);
    RequiredLossless(obj, "name", AsString, EncodeString);
  }

  lemma DocumentFieldsLossless4(obj: map<string, Json>, x: Document)
    requires OptionalArray(obj, "revieweds", DecodeReviewed) == Ok(x.revieweds)
    requires Required(obj, "spdxVersion", AsString) == Ok(x.spdxVersion)
    ensures Slot(obj, "revieweds") == PresentArray(x.revieweds, EncodeReviewed)
    ensures Slot(obj, "spdxVersion") == Some(EncodeString(x.spdxVersion))
  {
    ScalarsLossless();
    forall e ensures Lossless(DecodeReviewed, EncodeReviewed, e) {
      ReviewedLossless(e);
    }
    OptionalArrayLossless(obj, "revieweds", DecodeReviewed, EncodeReviewed);
    RequiredLossless(obj, "spdxVersion", AsString, EncodeString);
  }

  lemma DocumentFieldsLossless5(obj: map<string, Json>, x: Document)
    requires Optional(obj, "documentNamespace", AsString) == Ok(x.documentNamespace)
    requires OptionalArray(obj, "documentDescribes", AsString) == Ok(x.documentDescribes)
    ensures Slot(obj, "documentNamespace") == Present(x.documentNamespace, EncodeString)
    ensures Slot(obj, "documentDescribes") == PresentArray(x.documentDescribes, EncodeString)
  {
    ScalarsLossless();
    OptionalLossless(obj, "documentNamespace", AsString, EncodeString);
    OptionalArrayLossless(obj, "documentDescribes", AsString, EncodeString);
  }

  lemma DocumentFieldsLossless6(obj: map<string, Json>, x: Document)
    requires OptionalArray(obj, "packages", DecodePackage) == Ok(x.packages)
    requires OptionalArray(obj, "files", DecodeFile) == Ok(x.files)
    ensures Slot(obj, "packages") == PresentArray(x.packages, EncodePackage)
    ensures Slot(obj, "files") == PresentArray(x.files, EncodeFile)
  {
    forall e ensures Lossless(DecodePackage, EncodePackage, e) {
      PackageLossless(e);
    }
    forall e ensures Lossless(DecodeFile, EncodeFile, e) {
      FileLossless(e);
    }
    OptionalArrayLossless(obj, "packages", DecodePackage, EncodePackage);
    OptionalArrayLossless(obj, "files", DecodeFile, EncodeFile);
  }

  lemma DocumentFieldsLossless7(obj: map<string, Json>, x: Document)
    requires OptionalArray(obj, "snippets", DecodeSnippet) == Ok(x.snippets)
    requires OptionalArray(obj, "relationships", DecodeRelationship) == Ok(x.relationships)
    ensures Slot(obj, "snippets") == PresentArray(x.snippets, EncodeSnippet)
    ensures Slot(obj, "relationships") == PresentArray(x.relationships, EncodeRelationship)
  {
    forall e ensures Lossless(DecodeSnippet, EncodeSnippet, e) {
      SnippetLossless(e);
    }
    forall e ensures Lossless(DecodeRelationship, EncodeRelationship, e) {
      RelationshipLossless(e);
    }
    OptionalArrayLossless(obj, "snippets", DecodeSnippet, EncodeSnippet);
    OptionalArrayLossless(obj, "relationships", DecodeRelationship, EncodeRelationship);
  }

  lemma DocumentEncodesTo(x: Document, obj: map<string, Json>)
    requires obj.Keys <= DocumentKeys()
    requires Slot(obj, "SPDXID") == Some(EncodeString(x.spdxId))
    requires Slot(obj, "annotations") == PresentArray(x.annotations, EncodeAnnotation)
    requires Slot(obj, "comment") == Present(x.comment, EncodeString)
    requires Slot(obj, "creationInfo") == Some(EncodeCreationInfo(x.creationInfo))
    requires Slot(obj, "dataLicense") == Some(EncodeString(x.dataLicense))
    requires Slot(obj, "externalDocumentRefs") == PresentArray(x.externalDocumentRefs, EncodeExternalDocumentRef)
    requires Slot(obj, "hasExtractedLicensingInfos") == PresentArray(x.hasExtractedLicensingInfos, EncodeHasExtractedLicensingInfo)
    requires Slot(obj, "name") == Some(EncodeString(x.name))
    requires Slot(obj, "revieweds") == PresentArray(x.revieweds, EncodeReviewed)
    requires Slot(obj, "spdxVersion") == Some(EncodeString(x.spdxVersion))
    requires Slot(obj, "documentNamespace") == Present(x.documentNamespace, EncodeString)
    requires Slot(obj, "documentDescribes") == PresentArray(x.documentDescribes, EncodeString)
    requires Slot(obj, "packages") == PresentArray(x.packages, EncodePackage)
    requires Slot(obj, "files") == PresentArray(x.files, EncodeFile)
    requires Slot(obj, "snippets") == PresentArray(x.snippets, EncodeSnippet)
    requires Slot(obj, "relationships") == PresentArray(x.relationships, EncodeRelationship)
    ensures EncodeDocument(x) == JObject(obj)
  {
    DocumentWritesSpdxId(x);
    DocumentWritesAnnotations(x);
    DocumentWritesComment(x);
    DocumentWritesCreationInfo(x);
    DocumentWritesDataLicense(x);
    DocumentWritesExternalDocumentRefs(x);
    DocumentWritesHasExtractedLicensingInfos(x);
    DocumentWritesName(x);
    DocumentWritesRevieweds(x);
    DocumentWritesSpdxVersion(x);
    DocumentWritesDocumentNamespace(x);
    DocumentWritesDocumentDescribes(x);
    DocumentWritesPackages(x);
    DocumentWritesFiles(x);
    DocumentWritesSnippets(x);
    DocumentWritesRelationships(x);
    DocumentSameSlots0(EncodeDocument(x).fields, obj);
    DocumentSameSlots1(EncodeDocument(x).fields, obj);
    DocumentSameSlots2(EncodeDocument(x).fields, obj);
    DocumentSameSlots3(EncodeDocument(x).fields, obj);
    DocumentSameSlots4(EncodeDocument(x).fields, obj);
    DocumentSameSlots5(EncodeDocument(x).fields, obj);
    DocumentSameSlots6(EncodeDocument(x).fields, obj);
    DocumentSameSlots7(EncodeDocument(x).fields, obj);
    DocumentKeysSplit();
    SameObject(EncodeDocument(x).fields, obj, DocumentKeys());
  }

  lemma DocumentLossless(j: Json)
    ensures DecodeDocument(j).Ok? ==> EncodeDocument(DecodeDocument(j).value) == j
  {
    if DecodeDocument(j).Ok? {
      var x := DecodeDocument(j).value;
      DocumentDecodedFields(j);
      DocumentFieldsLossless0(j.fields, x);
      DocumentFieldsLossless1(j.fields, x);
      DocumentFieldsLossless2(j.fields, x);
      DocumentFieldsLossless3(j.fields, x);
      DocumentFieldsLossless4(j.fields, x);
      DocumentFieldsLossless5(j.fields, x);
      DocumentFieldsLossless6(j.fields, x);
      DocumentFieldsLossless7(j.fields, x);
      DocumentEncodesTo(x, j.fields);
    }
  }

  lemma DocumentFieldsFaithful0(x: Document)
    requires x.Valid()
    ensures Required(EncodeDocument(x).fields, "SPDXID", AsString) == Ok(x.spdxId)
    ensures OptionalArray(EncodeDocument(x).fields, "annotations", DecodeAnnotation) == Ok(x.annotations)
  {
    var obj := EncodeDocument(x).fields;
    DocumentWritesSpdxId(x);
    DocumentWritesAnnotations(x);
    ScalarsFaithful();
    RequiredFaithful(obj, "SPDXID", AsString, EncodeString, x.spdxId);
    if x.annotations.Some? {
      forall i | 0 <= i < |x.annotations.value| ensures Faithful(DecodeAnnotation, EncodeAnnotation, x.annotations.value[i]) {
        AnnotationFaithful(x.annotations.value[i]);
      }
    }
    OptionalArrayFaithful(obj, "annotations", DecodeAnnotation, EncodeAnnotation, x.annotations);
  }

  lemma DocumentFieldsFaithful1(x: Document)
    requires x.Valid()
    ensures Optional(EncodeDocument(x).fields, "comment", AsString) == Ok(x.comment)
    ensures Required(EncodeDocument(x).fields, "creationInfo", DecodeCreationInfo) == Ok(x.creationInfo)
  {
    var obj := EncodeDocument(x).fields;
    DocumentWritesComment(x);
    DocumentWritesCreationInfo(x);
    ScalarsFaithful();
    OptionalFaithful(obj, "comment", AsString, EncodeString, x.comment);
    CreationInfoFaithful(x.creationInfo);
    RequiredFaithful(obj, "creationInfo", DecodeCreationInfo, EncodeCreationInfo, x.creationInfo);
  }

  lemma DocumentFieldsFaithful2(x: Document)
    requires x.Valid()
    ensures Required(EncodeDocument(x).fields, "dataLicense", AsString) == Ok(x.dataLicense)
    ensures OptionalArray(EncodeDocument(x).fields, "externalDocumentRefs", DecodeExternalDocumentRef) == Ok(x.externalDocumentRefs)
  {
    var obj := EncodeDocument(x).fields;
    DocumentWritesDataLicense(x);
    DocumentWritesExternalDocumentRefs(x);
    ScalarsFaithful();
    RequiredFaithful(obj, "dataLicense", AsString, EncodeString, x.dataLicense);
    if x.externalDocumentRefs.Some? {
      forall i | 0 <= i < |x.externalDocumentRefs.value| ensures Faithful(DecodeExternalDocumentRef, EncodeExternalDocumentRef, x.externalDocumentRefs.value[i]) {
        ExternalDocumentRefFaithful(x.externalDocumentRefs.value[i]);
      }
    }
    OptionalArrayFaithful(obj, "externalDocumentRefs", DecodeExternalDocumentRef, EncodeExternalDocumentRef, x.externalDocumentRefs);
  }

  lemma DocumentFieldsFaithful3(x: Document)
    requires x.Valid()
    ensures OptionalArray(EncodeDocument(x).fields, "hasExtractedLicensingInfos", DecodeHasExtractedLicensingInfo) == Ok(x.hasExtractedLicensingInfos)
    ensures Required(EncodeDocument(x).fields, "name", AsString) == Ok(x.name)
  {
    var obj := EncodeDocument(x).fields;
    DocumentWritesHasExtractedLicensingInfos(x);
    DocumentWritesName(x);
    ScalarsFaithful();
    if x.hasExtractedLicensingInfos.Some? {
      forall i | 0 <= i < |x.hasExtractedLicensingInfos.value| ensures Faithful(DecodeHasExtractedLicensingInfo, EncodeHasExtractedLicensingInfo, x.hasExtractedLicensingInfos.value[i]) {
        HasExtractedLicensingInfoFaithful(x.hasExtractedLicensingInfos.value[i]);
      }
    }
    OptionalArrayFaithful(obj, "hasExtractedLicensingInfos", DecodeHasExtractedLicensingInfo, EncodeHasExtractedLicensingInfo, x.hasExtractedLicensingInfos);
    RequiredFaithful(obj, "name", AsString, EncodeString, x.name);
  }

  lemma DocumentFieldsFaithful4(x: Document)
    requires x.Valid()
    ensures OptionalArray(EncodeDocument(x).fields, "revieweds", DecodeReviewed) == Ok(x.revieweds)
    ensures Required(EncodeDocument(x).fields, "spdxVersion", AsString) == Ok(x.spdxVersion)
  {
    var obj := EncodeDocument(x).fields;
    DocumentWritesRevieweds(x);
    DocumentWritesSpdxVersion(x);
    ScalarsFaithful();
    if x.revieweds.Some? {
      forall i | 0 <= i < |x.revieweds.value| ensures Faithful(DecodeReviewed, EncodeReviewed, x.revieweds.value[i]) {
        ReviewedFaithful(x.revieweds.value[i]);
      }
    }
    OptionalArrayFaithful(obj, "revieweds", DecodeReviewed, EncodeReviewed, x.revieweds);
    RequiredFaithful(obj, "spdxVersion", AsString, EncodeString, x.spdxVersion);
  }

  lemma DocumentFieldsFaithful5(x: Document)
    requires x.Valid()
    ensures Optional(EncodeDocument(x).fields, "documentNamespace", AsString) == Ok(x.documentNamespace)
    ensures OptionalArray(EncodeDocument(x).fields, "documentDescribes", AsString) == Ok(x.documentDescribes)
  {
    var obj := EncodeDocument(x).fields;
    DocumentWritesDocumentNamespace(x);
    DocumentWritesDocumentDescribes(x);
    ScalarsFaithful();
    OptionalFaithful(obj, "documentNamespace", AsString, EncodeString, x.documentNamespace);
    OptionalArrayFaithful(obj, "documentDescribes", AsString, EncodeString, x.documentDescribes);
  }

  lemma DocumentFieldsFaithful6(x: Document)
    requires x.Valid()
    ensures OptionalArray(EncodeDocument(x).fields, "packages", DecodePackage) == Ok(x.packages)
    ensures OptionalArray(EncodeDocument(x).fields, "files", DecodeFile) == Ok(x.files)
  {
    var obj := EncodeDocument(x).fields;
    DocumentWritesPackages(x);
    DocumentWritesFiles(x);
    if x.packages.Some? {
      forall i | 0 <= i < |x.packages.value| ensures Faithful(DecodePackage, EncodePackage, x.packages.value[i]) {
        PackageFaithful(x.packages.value[i]);
      }
    }
    OptionalArrayFaithful(obj, "packages", DecodePackage, EncodePackage, x.packages);
    if x.files.Some? {
      forall i | 0 <= i < |x.files.value| ensures Faithful(DecodeFile, EncodeFile, x.files.value[i]) {
        FileFaithful(x.files.value[i]);
      }
    }
    OptionalArrayFaithful(obj, "files", DecodeFile, EncodeFile, x.files);
  }

  lemma DocumentFieldsFaithful7(x: Document)
    requires x.Valid()
    ensures OptionalArray(EncodeDocument(x).fields, "snippets", DecodeSnippet) == Ok(x.snippets)
    ensures OptionalArray(EncodeDocument(x).fields, "relationships", DecodeRelationship) == Ok(x.relationships)
  {
    var obj := EncodeDocument(x).fields;
    DocumentWritesSnippets(x);
    DocumentWritesRelationships(x);
    if x.snippets.Some? {
      forall i | 0 <= i < |x.snippets.value| ensures Faithful(DecodeSnippet, EncodeSnippet, x.snippets.value[i]) {
        SnippetFaithful(x.snippets.value[i]);
      }
    }
    OptionalArrayFaithful(obj, "snippets", DecodeSnippet, EncodeSnippet, x.snippets);
    if x.relationships.Some? {
      forall i | 0 <= i < |x.relationships.value| ensures Faithful(DecodeRelationship, EncodeRelationship, x.relationships.value[i]) {
        RelationshipFaithful(x.relationships.value[i]);
      }
    }
    OptionalArrayFaithful(obj, "relationships", DecodeRelationship, EncodeRelationship, x.relationships);
  }

  lemma DocumentEncodedClosed(x: Document)
    ensures ClosedObject(EncodeDocument(x), DocumentKeys()) == Ok(EncodeDocument(x).fields)
  {
  }

  lemma DocumentFaithful(x: Document)
    requires x.Valid()
    ensures DecodeDocument(EncodeDocument(x)) == Ok(x)
  {
    DocumentEncodedClosed(x);
    DocumentFieldsFaithful0(x);
    DocumentFieldsFaithful1(x);
    DocumentFieldsFaithful2(x);
    DocumentFieldsFaithful3(x);
    DocumentFieldsFaithful4(x);
    DocumentFieldsFaithful5(x);
    DocumentFieldsFaithful6(x);
    DocumentFieldsFaithful7(x);
  }

  lemma DocumentFieldsAccepted0(obj: map<string, Json>)
    ensures Required(obj, "SPDXID", AsString).Ok? <==> HasRequired(obj, "SPDXID", IsString)
    ensures OptionalArray(obj, "annotations", DecodeAnnotation).Ok? <==> MayHaveArray(obj, "annotations", ConformsAnnotation)
  {
    ScalarsAgree();
    forall e ensures Agrees(DecodeAnnotation, ConformsAnnotation, e) {
      AnnotationAccepts(e);
    }
    RequiredAgrees(obj, "SPDXID", AsString, IsString);
    OptionalArrayAgrees(obj, "annotations", DecodeAnnotation, ConformsAnnotation);
  }

  lemma DocumentFieldsAccepted1(obj: map<string, Json>)
    ensures Optional(obj, "comment", AsString).Ok? <==> MayHave(obj, "comment", IsString)
    ensures Required(obj, "creationInfo", DecodeCreationInfo).Ok? <==> HasRequired(obj, "creationInfo", ConformsCreationInfo)
  {
    ScalarsAgree();
    forall e ensures Agrees(DecodeCreationInfo, ConformsCreationInfo, e) {
      CreationInfoAccepts(e);
    }
    OptionalAgrees(obj, "comment", AsString, IsString);
    RequiredAgrees(obj, "creationInfo", DecodeCreationInfo, ConformsCreationInfo);
  }

  lemma DocumentFieldsAccepted2(obj: map<string, Json>)
    ensures Required(obj, "dataLicense", AsString).Ok? <==> HasRequired(obj, "dataLicense", IsString)
    ensures OptionalArray(obj, "externalDocumentRefs", DecodeExternalDocumentRef).Ok? <==> MayHaveArray(obj, "externalDocumentRefs", ConformsExternalDocumentRef)
  {
    ScalarsAgree();
    forall e ensures Agrees(DecodeExternalDocumentRef, ConformsExternalDocumentRef, e) {
      ExternalDocumentRefAccepts(e);
    }
    RequiredAgrees(obj, "dataLicense", AsString, IsString);
    OptionalArrayAgrees(obj, "externalDocumentRefs", DecodeExternalDocumentRef, ConformsExternalDocumentRef);
  }

  lemma DocumentFieldsAccepted3(obj: map<string, Json>)
    ensures OptionalArray(obj, "hasExtractedLicensingInfos", DecodeHasExtractedLicensingInfo).Ok? <==> MayHaveArray(obj, "hasExtractedLicensingInfos", ConformsHasExtractedLicensingInfo)
    ensures Required(obj, "name", AsString).Ok? <==> HasRequired(obj, "name", IsString)
  {
    ScalarsAgree();
    forall e ensures Agrees(DecodeHasExtractedLicensingInfo, ConformsHasExtractedLicensingInfo, e) {
      HasExtractedLicensingInfoAccepts(e);
    }
    OptionalArrayAgrees(obj, "hasExtractedLicensingInfos", DecodeHasExtractedLicensingInfo, ConformsHasExtractedLicensingInfo);
    RequiredAgrees(obj, "name", AsString, IsString);
  }

  lemma DocumentFieldsAccepted4(obj: map<string, Json>)
    ensures OptionalArray(obj, "revieweds", DecodeReviewed).Ok? <==> MayHaveArray(obj, "revieweds", ConformsReviewed)
    ensures Required(obj, "spdxVersion", AsString).Ok? <==> HasRequired(obj, "spdxVersion", IsString)
  {
    ScalarsAgree();
    forall e ensures Agrees(DecodeReviewed, ConformsReviewed, e) {
      ReviewedAccepts(e);
    }
    OptionalArrayAgrees(obj, "revieweds", DecodeReviewed, ConformsReviewed);
    RequiredAgrees(obj, "spdxVersion", AsString, IsString);
  }

  lemma DocumentFieldsAccepted5(obj: map<string, Json>)
    ensures Optional(obj, "documentNamespace", AsString).Ok? <==> MayHave(obj, "documentNamespace", IsString)
    ensures OptionalArray(obj, "documentDescribes", AsString).Ok? <==> MayHaveArray(obj, "documentDescribes", IsString)
  {
    ScalarsAgree();
    OptionalAgrees(obj, "documentNamespace", AsString, IsString);
    OptionalArrayAgrees(obj, "documentDescribes", AsString, IsString);
  }

  lemma DocumentFieldsAccepted6(obj: map<string, Json>)
    ensures OptionalArray(obj, "packages", DecodePackage).Ok? <==> MayHaveArray(obj, "packages", ConformsPackage)
    ensures OptionalArray(obj, "files", DecodeFile).Ok? <==> MayHaveArray(obj, "files", ConformsFile)
  {
    forall e ensures Agrees(DecodePackage, ConformsPackage, e) {
      PackageAccepts(e);
    }
    forall e ensures Agrees(DecodeFile, ConformsFile, e) {
      FileAccepts(e);
    }
    OptionalArrayAgrees(obj, "packages", DecodePackage, ConformsPackage);
    OptionalArrayAgrees(obj, "files", DecodeFile, ConformsFile);
  }

  lemma DocumentFieldsAccepted7(obj: map<string, Json>)
    ensures OptionalArray(obj, "snippets", DecodeSnippet).Ok? <==> MayHaveArray(obj, "snippets", ConformsSnippet)
    ensures OptionalArray(obj, "relationships", DecodeRelationship).Ok? <==> MayHaveArray(obj, "relationships", ConformsRelationship)
  {
    forall e ensures Agrees(DecodeSnippet, ConformsSnippet, e) {
      SnippetAccepts(e);
    }
    forall e ensures Agrees(DecodeRelationship, ConformsRelationship, e) {
      RelationshipAccepts(e);
    }
    OptionalArrayAgrees(obj, "snippets", DecodeSnippet, ConformsSnippet);
    OptionalArrayAgrees(obj, "relationships", DecodeRelationship, ConformsRelationship);
  }

  lemma DocumentDecodesWhenFieldsDo(j: Json)
    ensures DecodeDocument(j).Ok? <==>
              (&& Closed(j, DocumentKeys())
               && Required(j.fields, "SPDXID", AsString).Ok?
               && OptionalArray(j.fields, "annotations", DecodeAnnotation).Ok?
               && Optional(j.fields, "comment", AsString).Ok?
               && Required(j.fields, "creationInfo", DecodeCreationInfo).Ok?
               && Required(j.fields, "dataLicense", AsString).Ok?
               && OptionalArray(j.fields, "externalDocumentRefs", DecodeExternalDocumentRef).Ok?
               && OptionalArray(j.fields, "hasExtractedLicensingInfos", DecodeHasExtractedLicensingInfo).Ok?
               && Required(j.fields, "name", AsString).Ok?
               && OptionalArray(j.fields, "revieweds", DecodeReviewed).Ok?
               && Required(j.fields, "spdxVersion", AsString).Ok?
               && Optional(j.fields, "documentNamespace", AsString).Ok?
               && OptionalArray(j.fields, "documentDescribes", AsString).Ok?
               && OptionalArray(j.fields, "packages", DecodePackage).Ok?
               && OptionalArray(j.fields, "files", DecodeFile).Ok?
               && OptionalArray(j.fields, "snippets", DecodeSnippet).Ok?
               && OptionalArray(j.fields, "relationships", DecodeRelationship).Ok?)
  {
  }

  lemma DocumentAccepts(j: Json)
    ensures DecodeDocument(j).Ok? <==> ConformsDocument(j)
  {
    DocumentDecodesWhenFieldsDo(j);
    if Closed(j, DocumentKeys()) {
      DocumentFieldsAccepted0(j.fields);
      DocumentFieldsAccepted1(j.fields);
      DocumentFieldsAccepted2(j.fields);
      DocumentFieldsAccepted3(j.fields);
      DocumentFieldsAccepted4(j.fields);
      DocumentFieldsAccepted5(j.fields);
      DocumentFieldsAccepted6(j.fields);
      DocumentFieldsAccepted7(j.fields);
    }
  }

  // ---------------------------------------------------------------- validity

  /** A decoded document meets every declared minimum list length, at every depth. */
  lemma DocumentDecodedValid(j: Json)
    ensures DecodeDocument(j).Ok? ==> DecodeDocument(j).value.Valid()
  {
    if DecodeDocument(j).Ok? {
      var x := DecodeDocument(j).value;
      DocumentDecodedFields(j);
      assert DecodeCreationInfo(j.fields["creationInfo"]) == Ok(x.creationInfo);
      OptionalArrayEach(j.fields, "files", DecodeFile, (f: File) => f.Valid());
      OptionalArrayEach(j.fields, "snippets", DecodeSnippet, (s: Snippet) => s.Valid());
    }
  }
}
