/**
  What the SPDX 2.3 model is relied on for, beyond the three record laws:
  the example records its tests build round-trip exactly, a document written
  out satisfies the schema, nested and minimum-length violations reject the
  whole document, an unknown enumeration literal is reported with its path,
  an optional field keeps "never supplied" apart from "false", lists keep
  their order and identifiers are taken as they are.
 */
module Model23Properties {
  import opened Wrappers
  import opened Json
  import opened Codec
  import opened Model23Enums
  import opened Model23
  import opened Model23Laws

  // ---------------------------------------------------------------- writing

  /** Every document the model can hold is written out as JSON that satisfies the schema. */
  lemma EncodedDocumentConforms(x: Document)
    requires x.Valid()
    ensures ConformsDocument(EncodeDocument(x))
  {
    DocumentFaithful(x);
    DocumentAccepts(EncodeDocument(x));
  }

  /** A document read and written again is the object that was read, whenever it is read at all. */
  lemma DocumentRoundTrip(j: Json)
    requires ConformsDocument(j)
    ensures DecodeDocument(j).Ok?
    ensures EncodeDocument(DecodeDocument(j).value) == j
  {
    DocumentAccepts(j);
    DocumentLossless(j);
  }

  /** The checksum used throughout the tests is read and written back unchanged. */
  lemma ChecksumExampleRoundTrip()
    ensures var j := JObject(map[
                "algorithm" := JString("SHA1"),
                "checksumValue" := JString("10c72b88de4c5f3095ebe20b4d8afbedb32b8f")]);
            && DecodeChecksum(j) == Ok(Checksum("SHA1", "10c72b88de4c5f3095ebe20b4d8afbedb32b8f"))
            && EncodeChecksum(DecodeChecksum(j).value) == j
  {
    var j := JObject(map[
      "algorithm" := JString("SHA1"),
      "checksumValue" := JString("10c72b88de4c5f3095ebe20b4d8afbedb32b8f")]);
    ChecksumLossless(j);
  }

  /** The package-manager reference of the tests, which leaves its comment out, is written back without one. */
  lemma ExternalRefExampleRoundTrip()
    ensures var j := JObject(map[
                "referenceCategory" := JString("PACKAGE-MANAGER"),
                "referenceType" := JString("purl"),
                "referenceLocator" := JString("pkg:pypi/lxml@3.3.5")]);
            && DecodeExternalRef(j) == Ok(ExternalRef(None, "PACKAGE-MANAGER", "pkg:pypi/lxml@3.3.5", "purl"))
            && EncodeExternalRef(DecodeExternalRef(j).value) == j
  {
    var j := JObject(map[
      "referenceCategory" := JString("PACKAGE-MANAGER"),
      "referenceType" := JString("purl"),
      "referenceLocator" := JString("pkg:pypi/lxml@3.3.5")]);
    ExternalRefLossless(j);
  }

  // ---------------------------------------------------------------- optional fields

  /** `filesAnalyzed` is written when it was supplied, as false too, and left out when it never was. */
  lemma FilesAnalyzedWrittenWhenSet(x: Package)
    ensures x.filesAnalyzed.None? <==> "filesAnalyzed" !in EncodePackage(x).fields
    ensures x.filesAnalyzed == Some(false) ==>
              Slot(EncodePackage(x).fields, "filesAnalyzed") == Some(JBool(false))
  {
    PackageWritesFilesAnalyzed(x);
  }

  /** A creation comment that was never supplied is not written, and one that was is written as given. */
  lemma CreationCommentWrittenWhenSet(x: CreationInfo)
    ensures x.comment.None? <==> "comment" !in EncodeCreationInfo(x).fields
    ensures x.comment.Some? ==> Slot(EncodeCreationInfo(x).fields, "comment") == Some(JString(x.comment.value))
  {
    CreationInfoWritesComment(x);
  }

  // ---------------------------------------------------------------- rejection

  /** A package without a name anywhere in the package list makes the whole document fail. */
  lemma NamelessPackageRejected(j: Json, i: nat)
    requires j.JObject? && "packages" in j.fields && j.fields["packages"].JArray?
    requires i < |j.fields["packages"].items|
    requires j.fields["packages"].items[i].JObject?
    requires "name" !in j.fields["packages"].items[i].fields
    ensures DecodeDocument(j).Err?
  {
    var p := j.fields["packages"].items[i];
    PackageAccepts(p);
    assert !ConformsPackage(p);
    assert !MayHaveArray(j.fields, "packages", ConformsPackage);
    DocumentAccepts(j);
  }

  /** A file must list at least one checksum: an empty list is refused. */
  lemma FileWithoutChecksumRejected(j: Json)
    requires j.JObject? && "checksums" in j.fields && j.fields["checksums"] == JArray([])
    ensures DecodeFile(j).Err?
  {
    FileAccepts(j);
    assert !HasRequiredArray(j.fields, "checksums", ConformsChecksum, 1);
  }

  /** Creation information must name at least one creator. */
  lemma NoCreatorsRejected(j: Json)
    requires j.JObject? && "creators" in j.fields && j.fields["creators"] == JArray([])
    ensures DecodeCreationInfo(j).Err?
  {
    CreationInfoAccepts(j);
    assert !HasRequiredArray(j.fields, "creators", IsString, 1);
  }

  /** A snippet must cover at least one range. */
  lemma SnippetWithoutRangesRejected(j: Json)
    requires j.JObject? && "ranges" in j.fields && j.fields["ranges"] == JArray([])
    ensures DecodeSnippet(j).Err?
  {
    SnippetAccepts(j);
    assert !HasRequiredArray(j.fields, "ranges", ConformsRange, 1);
  }

  /**
    An algorithm name that is not one of the enumeration's literals, such as
    the lower-case "sha1", is reported as a bad literal under "algorithm".
   */
  lemma UnknownAlgorithmRejected(name: string, value: string)
    requires !IsAlgorithmLiteral(name)
    ensures DecodeChecksum(JObject(map["algorithm" := JString(name), "checksumValue" := JString(value)]))
         == Err(Error([Key("algorithm")], BadLiteral(name)))
  {
    var j := JObject(map["algorithm" := JString(name), "checksumValue" := JString(value)]);
    assert ClosedObject(j, ChecksumKeys()) == Ok(j.fields);
    assert DecodeAlgorithm(JString(name)) == Fail(BadLiteral(name));
    assert [Key("algorithm")] + [] == [Key("algorithm")];
    assert Required(j.fields, "algorithm", DecodeAlgorithm) == Err(Error([Key("algorithm")], BadLiteral(name)));
  }

  lemma LowerCaseSha1Rejected(value: string)
    ensures DecodeChecksum(JObject(map["algorithm" := JString("sha1"), "checksumValue" := JString(value)]))
         == Err(Error([Key("algorithm")], BadLiteral("sha1")))
  {
    assert !IsAlgorithmLiteral("sha1");
    UnknownAlgorithmRejected("sha1", value);
  }

  /** Enumeration literals are matched exactly: hyphens and case are part of the literal, not the member's name. */
  lemma EnumLiteralsExact()
    ensures DecodeAlgorithm(JString("SHA3-384")) == Ok("SHA3-384")
    ensures DecodeAlgorithm(JString("BLAKE2b-512")) == Ok("BLAKE2b-512")
    ensures DecodeReferenceCategory(JString("PACKAGE-MANAGER")) == Ok("PACKAGE-MANAGER")
    ensures DecodeReferenceCategory(JString("PACKAGE_MANAGER")) == Fail(BadLiteral("PACKAGE_MANAGER"))
  {
    assert IsAlgorithmLiteral("SHA3-384") && IsAlgorithmLiteral("BLAKE2b-512");
    assert !IsReferenceCategoryLiteral("PACKAGE_MANAGER");
  }

  // ---------------------------------------------------------------- lists and identifiers

  /** The checksums of a package are read one per list item, in the order written. */
  lemma PackageChecksumsInOrder(j: Json)
    requires DecodePackage(j).Ok? && "checksums" in j.fields
    ensures j.fields["checksums"].JArray? && DecodePackage(j).value.checksums.Some?
    ensures |DecodePackage(j).value.checksums.value| == |j.fields["checksums"].items|
    ensures forall i | 0 <= i < |j.fields["checksums"].items| ::
              DecodeChecksum(j.fields["checksums"].items[i]) == Ok(DecodePackage(j).value.checksums.value[i])
  {
    PackageDecodedFields(j);
    OptionalArrayInOrder(j.fields, "checksums", DecodeChecksum);
  }

  /** The packages of a document are read one per list item, in the order written. */
  lemma PackagesInOrder(j: Json)
    requires DecodeDocument(j).Ok? && "packages" in j.fields
    ensures j.fields["packages"].JArray? && DecodeDocument(j).value.packages.Some?
    ensures |DecodeDocument(j).value.packages.value| == |j.fields["packages"].items|
    ensures forall i | 0 <= i < |j.fields["packages"].items| ::
              DecodePackage(j.fields["packages"].items[i]) == Ok(DecodeDocument(j).value.packages.value[i])
  {
    DocumentDecodedFields(j);
    OptionalArrayInOrder(j.fields, "packages", DecodePackage);
  }

  /** The relationships of a document are read one per list item, in the order written. */
  lemma RelationshipsInOrder(j: Json)
    requires DecodeDocument(j).Ok? && "relationships" in j.fields
    ensures j.fields["relationships"].JArray? && DecodeDocument(j).value.relationships.Some?
    ensures |DecodeDocument(j).value.relationships.value| == |j.fields["relationships"].items|
    ensures forall i | 0 <= i < |j.fields["relationships"].items| ::
              DecodeRelationship(j.fields["relationships"].items[i])
                == Ok(DecodeDocument(j).value.relationships.value[i])
  {
    DocumentDecodedFields(j);
    OptionalArrayInOrder(j.fields, "relationships", DecodeRelationship);
  }

  /** A relationship is accepted between any two identifiers: nothing checks that they name an element. */
  lemma RelationshipIdentifiersUnchecked(from: string, to: string, kind: RelationshipType)
    ensures DecodeRelationship(JObject(map[
              "spdxElementId" := JString(from),
              "relatedSpdxElement" := JString(to),
              "relationshipType" := JString(kind)]))
         == Ok(Relationship(from, None, to, kind))
  {
    var x := Relationship(from, None, to, kind);
    var j := JObject(map[
      "spdxElementId" := JString(from),
      "relatedSpdxElement" := JString(to),
      "relationshipType" := JString(kind)]);
    RelationshipFaithful(x);
    RelationshipWritesSpdxElementId(x);
    RelationshipWritesComment(x);
    RelationshipWritesRelatedSpdxElement(x);
    RelationshipWritesRelationshipType(x);
    RelationshipSameSlots(EncodeRelationship(x).fields, j.fields);
    SameObject(EncodeRelationship(x).fields, j.fields, RelationshipKeys());
  }
}
