# turbo-spdx: the SPDX 2.3 document model, in Dafny

turbo-spdx describes an SPDX 2.3 software bill of materials as a tree of
pydantic records: a `Document` with its creation information, packages,
files, snippets, relationships, annotations, reviews, external document
references and extracted licenses, down to checksums and snippet pointers.
Every record is closed: an object with a key the record does not declare is
refused. A field declared with `...` is required, and one declared
`Optional[...]` may be left out. A list field may declare a minimum length.
Enumerations subclass `str`, so a member is its wire literal. A document is
read from JSON with `Document(**data)` and written back with
`.json(exclude_unset=True, by_alias=True)`. The tests rely on this
round-trip being exact.

This project models that tree and both directions of it:

- `wrappers.dfy` defines `Option` and `Result`.
- `json.dfy` defines the JSON value tree. Objects are maps, so key order
  never matters.
- `codec.dfy` holds what every record shares:
  - errors, each with its path from the root;
  - decoders for scalars, lists and closed objects;
  - one combinator for each way a field is declared, with its encoder and
    its schema predicate;
  - the field-level laws.
- `enums.dfy` holds the six enumerations, each as the subset of strings
  made of its literals.
- `model23.dfy` holds one datatype per record. For each record X it defines
  the declared keys (`XKeys`), a decoder (`DecodeX`), an encoder
  (`EncodeX`, built from `XSlot`, the wire value of one key) and the
  schema the declaration amounts to (`ConformsX`). The copies the source
  makes of some classes are one datatype each here: `Annotation1` to
  `Annotation3` are `Annotation`, `Checksum1` and `Checksum2` are
  `Checksum`, and `StartPointer` and `EndPointer` are `Pointer`. The field
  `match` of `CrossRef` is named `matchStatus`, and `SPDXID` is named
  `spdxId`. On the wire both keep their names.
- `laws.dfy` proves three laws for every record:
  - **lossless:** decode then encode is the identity on objects;
  - **faithful:** encode then decode is the identity on records that meet
    their minimum list lengths;
  - **accepts:** the decoder accepts exactly the objects that satisfy
    the schema.

  The proofs go a few fields at a time.
- `properties.dfy` holds the consequences the source and its tests rely on:
  - the written document satisfies the schema;
  - the test examples round-trip;
  - nested and minimum-length violations reject the document;
  - enumeration literals are matched exactly;
  - optional fields keep "never supplied" apart from "false";
  - lists keep their order;
  - identifiers are not checked.
- `builder.dfy` models the three version-string expressions of the model
  builder: stripping one leading `v`, the schema directory suffix (dots
  become underscores) and the model directory suffix (dots deleted).

Decoding first refuses undeclared keys, then reads the fields in declaration order, and reports the first failure.

## Model

| member | source | states |
|---|---|---|
| Codec.ClosedObject | src/turbo_spdx/model_23/__init__.py:27-29 | an object is accepted exactly when every key it holds is declared; otherwise the error is UnknownKeys naming every undeclared key (`extra = Extra.forbid` on each class) |
| Codec.DecodeItems | src/turbo_spdx/model_23/__init__.py:343-349 | a list decodes exactly when every item does; the result has one value per item, each the decoding of the item at the same position |
| Codec.DecodeArray | src/turbo_spdx/model_23/__init__.py:63-76 | a list shorter than its declared minimum is rejected with TooFewItems(minimum, length); a decoded list is never shorter than the minimum |
| Codec.ScalarsLossless | src/turbo_spdx/model_23/__init__.py:54-83 | decoding a string, boolean, integer or open object and encoding it again gives back the same JSON value |
| Codec.ScalarsFaithful | src/turbo_spdx/model_23/__init__.py:54-83 | encoding a string, boolean, integer or open object and decoding it gives back the same value |
| Codec.ScalarsAgree | src/turbo_spdx/model_23/__init__.py:54-83 | each scalar decoder accepts exactly the JSON values of its kind |
| Codec.ArrayLossless | src/turbo_spdx/model_23/__init__.py:343-349 | a decoded list encodes back to the same array, item by item, when the item codec loses nothing |
| Codec.ArrayFaithful | src/turbo_spdx/model_23/__init__.py:343-349 | a list at least as long as its minimum encodes and decodes back to itself, in order, when each item does |
| Codec.ArrayAgrees | src/turbo_spdx/model_23/__init__.py:63-76 | a list decodes exactly when it is an array of at least the minimum length whose every item satisfies the item schema |
| Codec.RequiredLossless | src/turbo_spdx/model_23/__init__.py:55-62 | a required field that decodes encodes back to exactly the value found under its key |
| Codec.OptionalLossless | src/turbo_spdx/model_23/__init__.py:77-83 | an optional field that decodes is written back as the same value when present and left out when absent |
| Codec.RequiredArrayLossless | src/turbo_spdx/model_23/__init__.py:63-76 | a required list field that decodes is written back as the same array |
| Codec.OptionalArrayLossless | src/turbo_spdx/model_23/__init__.py:343-349 | an optional list field that decodes is written back as the same array when present and left out when absent |
| Codec.RequiredFaithful | src/turbo_spdx/model_23/__init__.py:55-62 | a required value written under its key is read back unchanged |
| Codec.OptionalFaithful | src/turbo_spdx/model_23/__init__.py:77-83 | an optional value is read back unchanged, and an unset one is read back as unset rather than as a default |
| Codec.RequiredArrayFaithful | src/turbo_spdx/model_23/__init__.py:63-76 | a required list meeting its minimum is read back unchanged and in order |
| Codec.OptionalArrayFaithful | src/turbo_spdx/model_23/__init__.py:343-349 | an optional list is read back unchanged and in order, and an unset one as unset |
| Codec.RequiredAgrees | src/turbo_spdx/model_23/__init__.py:55-62 | a required field decodes exactly when its key is present and its value satisfies the field's schema |
| Codec.OptionalAgrees | src/turbo_spdx/model_23/__init__.py:77-83 | an optional field decodes exactly when its key is absent or its value satisfies the field's schema |
| Codec.RequiredArrayAgrees | src/turbo_spdx/model_23/__init__.py:63-76 | a required list decodes exactly when present, long enough and made of conforming items |
| Codec.OptionalArrayAgrees | src/turbo_spdx/model_23/__init__.py:343-349 | an optional list decodes exactly when absent or made of conforming items |
| Codec.OptionalArrayEach | src/turbo_spdx/model_23/__init__.py:884-899 | whatever the item decoder guarantees of its results holds of every item of a decoded optional list |
| Codec.OptionalArrayInOrder | src/turbo_spdx/model_23/__init__.py:884-899 | a supplied optional list decodes to one value per item, each decoded from the item at the same position |
| Model23Enums.AnnotationTypeFromString | src/turbo_spdx/model_23/__init__.py:22-24 | a string is accepted exactly when it is one of the AnnotationType literals, written exactly (case and hyphens included), and is then the member itself |
| Model23Enums.AlgorithmFromString | src/turbo_spdx/model_23/__init__.py:86-103 | a string is accepted exactly when it is one of the Algorithm literals, written exactly (case and hyphens included), and is then the member itself |
| Model23Enums.ReferenceCategoryFromString | src/turbo_spdx/model_23/__init__.py:245-249 | a string is accepted exactly when it is one of the ReferenceCategory literals, written exactly (case and hyphens included), and is then the member itself |
| Model23Enums.PrimaryPackagePurposeFromString | src/turbo_spdx/model_23/__init__.py:296-308 | a string is accepted exactly when it is one of the PrimaryPackagePurpose literals, written exactly (case and hyphens included), and is then the member itself |
| Model23Enums.FileTypeFromString | src/turbo_spdx/model_23/__init__.py:514-525 | a string is accepted exactly when it is one of the FileType literals, written exactly (case and hyphens included), and is then the member itself |
| Model23Enums.RelationshipTypeFromString | src/turbo_spdx/model_23/__init__.py:741-786 | a string is accepted exactly when it is one of the RelationshipType literals, written exactly (case and hyphens included), and is then the member itself |
| Model23Enums.EnumsLossless | src/turbo_spdx/model_23/__init__.py:86-103 | an enumeration value read from JSON is written back as the same string |
| Model23Enums.EnumsFaithful | src/turbo_spdx/model_23/__init__.py:86-103 | every enumeration member is written as its literal and read back as the same member |
| Model23Enums.EnumsAgree | src/turbo_spdx/model_23/__init__.py:245-249 | each enumeration decoder accepts exactly the strings that are its literals |
| Model23.DecodeAnnotation | src/turbo_spdx/model_23/__init__.py:27-47 | a Annotation is read only from an object holding no undeclared key and every required key (`annotationDate`, `annotationType`, `annotator`, `comment`); an undeclared key is reported as UnknownKeys |
| Model23.DecodeCreationInfo | src/turbo_spdx/model_23/__init__.py:50-83 | a CreationInfo is read only from an object holding no undeclared key and every required key (`created`, `creators`); an undeclared key is reported as UnknownKeys; the decoded record meets every minimum list length |
| Model23.DecodeChecksum | src/turbo_spdx/model_23/__init__.py:106-124 | a Checksum is read only from an object holding no undeclared key and every required key (`algorithm`, `checksumValue`); an undeclared key is reported as UnknownKeys |
| Model23.DecodeExternalDocumentRef | src/turbo_spdx/model_23/__init__.py:127-150 | a ExternalDocumentRef is read only from an object holding no undeclared key and every required key (`checksum`, `externalDocumentId`, `spdxDocument`); an undeclared key is reported as UnknownKeys |
| Model23.DecodeCrossRef | src/turbo_spdx/model_23/__init__.py:153-179 | a CrossRef is read only from an object holding no undeclared key and every required key (`url`); an undeclared key is reported as UnknownKeys |
| Model23.DecodeHasExtractedLicensingInfo | src/turbo_spdx/model_23/__init__.py:182-211 | a HasExtractedLicensingInfo is read only from an object holding no undeclared key and every required key (`extractedText`, `licenseId`); an undeclared key is reported as UnknownKeys |
| Model23.DecodeReviewed | src/turbo_spdx/model_23/__init__.py:214-234 | a Reviewed is read only from an object holding no undeclared key and every required key (`reviewDate`); an undeclared key is reported as UnknownKeys |
| Model23.DecodeExternalRef | src/turbo_spdx/model_23/__init__.py:252-274 | a ExternalRef is read only from an object holding no undeclared key and every required key (`referenceCategory`, `referenceLocator`, `referenceType`); an undeclared key is reported as UnknownKeys |
| Model23.DecodePackageVerificationCode | src/turbo_spdx/model_23/__init__.py:277-293 | a PackageVerificationCode is read only from an object holding no undeclared key and every required key (`packageVerificationCodeValue`); an undeclared key is reported as UnknownKeys |
| Model23.DecodePackage | src/turbo_spdx/model_23/__init__.py:311-503 | a Package is read only from an object holding no undeclared key and every required key (`SPDXID`, `downloadLocation`, `name`); an undeclared key is reported as UnknownKeys |
| Model23.DecodeFile | src/turbo_spdx/model_23/__init__.py:528-634 | a File is read only from an object holding no undeclared key and every required key (`SPDXID`, `checksums`, `fileName`); an undeclared key is reported as UnknownKeys; the decoded record meets every minimum list length |
| Model23.DecodePointer | src/turbo_spdx/model_23/__init__.py:641-651 | a Pointer is read only from an object holding no undeclared key and every required key (`reference`); an undeclared key is reported as UnknownKeys |
| Model23.DecodeRange | src/turbo_spdx/model_23/__init__.py:654-659 | a Range is read only from an object holding no undeclared key and every required key (`endPointer`, `startPointer`); an undeclared key is reported as UnknownKeys |
| Model23.DecodeSnippet | src/turbo_spdx/model_23/__init__.py:662-738 | a Snippet is read only from an object holding no undeclared key and every required key (`SPDXID`, `name`, `ranges`, `snippetFromFile`); an undeclared key is reported as UnknownKeys; the decoded record meets every minimum list length |
| Model23.DecodeRelationship | src/turbo_spdx/model_23/__init__.py:789-800 | a Relationship is read only from an object holding no undeclared key and every required key (`spdxElementId`, `relatedSpdxElement`, `relationshipType`); an undeclared key is reported as UnknownKeys |
| Model23.DecodeDocument | src/turbo_spdx/model_23/__init__.py:803-899 | a Document is read only from an object holding no undeclared key and every required key (`SPDXID`, `creationInfo`, `dataLicense`, `name`, `spdxVersion`); an undeclared key is reported as UnknownKeys |
| Model23Laws.AnnotationLossless | src/turbo_spdx/model_23/__init__.py:27-47 | an object that decodes as a Annotation is written back as exactly the same object: no key added, dropped or changed, unset optionals still absent |
| Model23Laws.AnnotationFaithful | src/turbo_spdx/model_23/__init__.py:27-47 | every Annotation is written as an object that reads back as the same Annotation |
| Model23Laws.AnnotationAccepts | src/turbo_spdx/model_23/__init__.py:27-47 | an object decodes as a Annotation exactly when it conforms to the Annotation schema: declared keys only, required keys present, each value of its declared kind, enumeration literal or list length |
| Model23Laws.CreationInfoLossless | src/turbo_spdx/model_23/__init__.py:50-83 | an object that decodes as a CreationInfo is written back as exactly the same object: no key added, dropped or changed, unset optionals still absent |
| Model23Laws.CreationInfoFaithful | src/turbo_spdx/model_23/__init__.py:50-83 | every CreationInfo meeting its minimum list lengths is written as an object that reads back as the same CreationInfo |
| Model23Laws.CreationInfoAccepts | src/turbo_spdx/model_23/__init__.py:50-83 | an object decodes as a CreationInfo exactly when it conforms to the CreationInfo schema: declared keys only, required keys present, each value of its declared kind, enumeration literal or list length |
| Model23Laws.ChecksumLossless | src/turbo_spdx/model_23/__init__.py:106-124 | an object that decodes as a Checksum is written back as exactly the same object: no key added, dropped or changed, unset optionals still absent |
| Model23Laws.ChecksumFaithful | src/turbo_spdx/model_23/__init__.py:106-124 | every Checksum is written as an object that reads back as the same Checksum |
| Model23Laws.ChecksumAccepts | src/turbo_spdx/model_23/__init__.py:106-124 | an object decodes as a Checksum exactly when it conforms to the Checksum schema: declared keys only, required keys present, each value of its declared kind, enumeration literal or list length |
| Model23Laws.ExternalDocumentRefLossless | src/turbo_spdx/model_23/__init__.py:127-150 | an object that decodes as a ExternalDocumentRef is written back as exactly the same object: no key added, dropped or changed, unset optionals still absent |
| Model23Laws.ExternalDocumentRefFaithful | src/turbo_spdx/model_23/__init__.py:127-150 | every ExternalDocumentRef is written as an object that reads back as the same ExternalDocumentRef |
| Model23Laws.ExternalDocumentRefAccepts | src/turbo_spdx/model_23/__init__.py:127-150 | an object decodes as a ExternalDocumentRef exactly when it conforms to the ExternalDocumentRef schema: declared keys only, required keys present, each value of its declared kind, enumeration literal or list length |
| Model23Laws.CrossRefLossless | src/turbo_spdx/model_23/__init__.py:153-179 | an object that decodes as a CrossRef is written back as exactly the same object: no key added, dropped or changed, unset optionals still absent |
| Model23Laws.CrossRefFaithful | src/turbo_spdx/model_23/__init__.py:153-179 | every CrossRef is written as an object that reads back as the same CrossRef |
| Model23Laws.CrossRefAccepts | src/turbo_spdx/model_23/__init__.py:153-179 | an object decodes as a CrossRef exactly when it conforms to the CrossRef schema: declared keys only, required keys present, each value of its declared kind, enumeration literal or list length |
| Model23Laws.HasExtractedLicensingInfoLossless | src/turbo_spdx/model_23/__init__.py:182-211 | an object that decodes as a HasExtractedLicensingInfo is written back as exactly the same object: no key added, dropped or changed, unset optionals still absent |
| Model23Laws.HasExtractedLicensingInfoFaithful | src/turbo_spdx/model_23/__init__.py:182-211 | every HasExtractedLicensingInfo is written as an object that reads back as the same HasExtractedLicensingInfo |
| Model23Laws.HasExtractedLicensingInfoAccepts | src/turbo_spdx/model_23/__init__.py:182-211 | an object decodes as a HasExtractedLicensingInfo exactly when it conforms to the HasExtractedLicensingInfo schema: declared keys only, required keys present, each value of its declared kind, enumeration literal or list length |
| Model23Laws.ReviewedLossless | src/turbo_spdx/model_23/__init__.py:214-234 | an object that decodes as a Reviewed is written back as exactly the same object: no key added, dropped or changed, unset optionals still absent |
| Model23Laws.ReviewedFaithful | src/turbo_spdx/model_23/__init__.py:214-234 | every Reviewed is written as an object that reads back as the same Reviewed |
| Model23Laws.ReviewedAccepts | src/turbo_spdx/model_23/__init__.py:214-234 | an object decodes as a Reviewed exactly when it conforms to the Reviewed schema: declared keys only, required keys present, each value of its declared kind, enumeration literal or list length |
| Model23Laws.ExternalRefLossless | src/turbo_spdx/model_23/__init__.py:252-274 | an object that decodes as a ExternalRef is written back as exactly the same object: no key added, dropped or changed, unset optionals still absent |
| Model23Laws.ExternalRefFaithful | src/turbo_spdx/model_23/__init__.py:252-274 | every ExternalRef is written as an object that reads back as the same ExternalRef |
| Model23Laws.ExternalRefAccepts | src/turbo_spdx/model_23/__init__.py:252-274 | an object decodes as a ExternalRef exactly when it conforms to the ExternalRef schema: declared keys only, required keys present, each value of its declared kind, enumeration literal or list length |
| Model23Laws.PackageVerificationCodeLossless | src/turbo_spdx/model_23/__init__.py:277-293 | an object that decodes as a PackageVerificationCode is written back as exactly the same object: no key added, dropped or changed, unset optionals still absent |
| Model23Laws.PackageVerificationCodeFaithful | src/turbo_spdx/model_23/__init__.py:277-293 | every PackageVerificationCode is written as an object that reads back as the same PackageVerificationCode |
| Model23Laws.PackageVerificationCodeAccepts | src/turbo_spdx/model_23/__init__.py:277-293 | an object decodes as a PackageVerificationCode exactly when it conforms to the PackageVerificationCode schema: declared keys only, required keys present, each value of its declared kind, enumeration literal or list length |
| Model23Laws.PackageLossless | src/turbo_spdx/model_23/__init__.py:311-503 | an object that decodes as a Package is written back as exactly the same object: no key added, dropped or changed, unset optionals still absent |
| Model23Laws.PackageFaithful | src/turbo_spdx/model_23/__init__.py:311-503 | every Package is written as an object that reads back as the same Package |
| Model23Laws.PackageAccepts | src/turbo_spdx/model_23/__init__.py:311-503 | an object decodes as a Package exactly when it conforms to the Package schema: declared keys only, required keys present, each value of its declared kind, enumeration literal or list length |
| Model23Laws.FileLossless | src/turbo_spdx/model_23/__init__.py:528-634 | an object that decodes as a File is written back as exactly the same object: no key added, dropped or changed, unset optionals still absent |
| Model23Laws.FileFaithful | src/turbo_spdx/model_23/__init__.py:528-634 | every File meeting its minimum list lengths is written as an object that reads back as the same File |
| Model23Laws.FileAccepts | src/turbo_spdx/model_23/__init__.py:528-634 | an object decodes as a File exactly when it conforms to the File schema: declared keys only, required keys present, each value of its declared kind, enumeration literal or list length |
| Model23Laws.PointerLossless | src/turbo_spdx/model_23/__init__.py:641-651 | an object that decodes as a Pointer is written back as exactly the same object: no key added, dropped or changed, unset optionals still absent |
| Model23Laws.PointerFaithful | src/turbo_spdx/model_23/__init__.py:641-651 | every Pointer is written as an object that reads back as the same Pointer |
| Model23Laws.PointerAccepts | src/turbo_spdx/model_23/__init__.py:641-651 | an object decodes as a Pointer exactly when it conforms to the Pointer schema: declared keys only, required keys present, each value of its declared kind, enumeration literal or list length |
| Model23Laws.RangeLossless | src/turbo_spdx/model_23/__init__.py:654-659 | an object that decodes as a Range is written back as exactly the same object: no key added, dropped or changed, unset optionals still absent |
| Model23Laws.RangeFaithful | src/turbo_spdx/model_23/__init__.py:654-659 | every Range is written as an object that reads back as the same Range |
| Model23Laws.RangeAccepts | src/turbo_spdx/model_23/__init__.py:654-659 | an object decodes as a Range exactly when it conforms to the Range schema: declared keys only, required keys present, each value of its declared kind, enumeration literal or list length |
| Model23Laws.SnippetLossless | src/turbo_spdx/model_23/__init__.py:662-738 | an object that decodes as a Snippet is written back as exactly the same object: no key added, dropped or changed, unset optionals still absent |
| Model23Laws.SnippetFaithful | src/turbo_spdx/model_23/__init__.py:662-738 | every Snippet meeting its minimum list lengths is written as an object that reads back as the same Snippet |
| Model23Laws.SnippetAccepts | src/turbo_spdx/model_23/__init__.py:662-738 | an object decodes as a Snippet exactly when it conforms to the Snippet schema: declared keys only, required keys present, each value of its declared kind, enumeration literal or list length |
| Model23Laws.RelationshipLossless | src/turbo_spdx/model_23/__init__.py:789-800 | an object that decodes as a Relationship is written back as exactly the same object: no key added, dropped or changed, unset optionals still absent |
| Model23Laws.RelationshipFaithful | src/turbo_spdx/model_23/__init__.py:789-800 | every Relationship is written as an object that reads back as the same Relationship |
| Model23Laws.RelationshipAccepts | src/turbo_spdx/model_23/__init__.py:789-800 | an object decodes as a Relationship exactly when it conforms to the Relationship schema: declared keys only, required keys present, each value of its declared kind, enumeration literal or list length |
| Model23Laws.DocumentLossless | src/turbo_spdx/model_23/__init__.py:803-899 | an object that decodes as a Document is written back as exactly the same object: no key added, dropped or changed, unset optionals still absent |
| Model23Laws.DocumentFaithful | src/turbo_spdx/model_23/__init__.py:803-899 | every Document meeting its minimum list lengths is written as an object that reads back as the same Document |
| Model23Laws.DocumentAccepts | src/turbo_spdx/model_23/__init__.py:803-899 | an object decodes as a Document exactly when it conforms to the Document schema: declared keys only, required keys present, each value of its declared kind, enumeration literal or list length |
| Model23Laws.DocumentDecodedValid | src/turbo_spdx/model_23/__init__.py:63-76 | a decoded document meets every minimum list length at every depth: creators, file checksums, snippet ranges |
| Model23Properties.EncodedDocumentConforms | tests/test_model.py:221-228 | every document the model holds is written as JSON that satisfies the document schema |
| Model23Properties.DocumentRoundTrip | tests/test_roundtrip.py:7-16 | a document that conforms to the schema is read, and writing it back gives the object that was read |
| Model23Properties.ChecksumExampleRoundTrip | tests/test_model.py:193-195 | the SHA1 checksum of the tests reads as Checksum(SHA1, value) and is written back unchanged |
| Model23Properties.ExternalRefExampleRoundTrip | tests/test_model.py:197-199 | the package-manager reference of the tests reads with no comment and is written back without one |
| Model23Properties.FilesAnalyzedWrittenWhenSet | src/turbo_spdx/model_23/__init__.py:381-390 | `filesAnalyzed` is left out exactly when it was never supplied, and a supplied false is written as false |
| Model23Properties.CreationCommentWrittenWhenSet | src/turbo_spdx/model_23/__init__.py:54 | the creation comment is left out exactly when it was never supplied, and written as given otherwise |
| Model23Properties.NamelessPackageRejected | src/turbo_spdx/model_23/__init__.py:433 | a package without `name` anywhere in the package list makes the whole document fail to decode |
| Model23Properties.FileWithoutChecksumRejected | src/turbo_spdx/model_23/__init__.py:564-571 | a file whose checksum list is empty is rejected |
| Model23Properties.NoCreatorsRejected | src/turbo_spdx/model_23/__init__.py:63-76 | creation information whose creator list is empty is rejected |
| Model23Properties.SnippetWithoutRangesRejected | src/turbo_spdx/model_23/__init__.py:724-731 | a snippet whose range list is empty is rejected |
| Model23Properties.UnknownAlgorithmRejected | src/turbo_spdx/model_23/__init__.py:86-103 | a checksum whose algorithm is not a literal is rejected with BadLiteral of that name, under the path `algorithm` |
| Model23Properties.LowerCaseSha1Rejected | src/turbo_spdx/model_23/__init__.py:86-103 | the lower-case algorithm `sha1` is rejected with BadLiteral("sha1") under `algorithm` |
| Model23Properties.EnumLiteralsExact | src/turbo_spdx/model_23/__init__.py:245-249 | `SHA3-384`, `BLAKE2b-512` and `PACKAGE-MANAGER` are accepted as written, and the member name `PACKAGE_MANAGER` is rejected |
| Model23Properties.PackageChecksumsInOrder | src/turbo_spdx/model_23/__init__.py:343-349 | a package's checksums are read one per list item, in the order written |
| Model23Properties.PackagesInOrder | src/turbo_spdx/model_23/__init__.py:888-890 | a document's packages are read one per list item, in the order written |
| Model23Properties.RelationshipsInOrder | src/turbo_spdx/model_23/__init__.py:897-899 | a document's relationships are read one per list item, in the order written |
| Model23Properties.RelationshipIdentifiersUnchecked | src/turbo_spdx/model_23/__init__.py:789-800 | a relationship between any two identifiers is accepted: nothing checks that they name an element |
| Builder.StripLeadingV | builder.py:186-197 | a version starting with `v` or `V` loses exactly that first character, any other version is unchanged, and the result is always a suffix at most one character shorter |
| Builder.StripLeadingVUndoesPrefix | builder.py:196 | putting `v` or `V` in front of a version and stripping it gives the version back |
| Builder.StripLeadingVExamples | builder.py:196 | `v2.3` and `V2.3` become `2.3`, `vv2.3` becomes `v2.3`, `2.3v` and the empty string are unchanged |
| Builder.SchemaDirSuffix | builder.py:43 | the schema directory suffix has the version's length, with every dot turned into an underscore and every other character where it was |
| Builder.ModelDirSuffix | builder.py:75 | the model directory suffix holds no dot and exactly the version's other characters, so it is shorter by the number of dots |
| Builder.ReplaceAppend | builder.py:43 | replacing a character in a joined string is the join of the replacements, so characters keep their order |
| Builder.ModelDirSuffixAppend | builder.py:75 | the model directory suffix of a joined version is the join of the suffixes: the kept characters stay in order |
| Builder.ModelDirSuffixOneChar | builder.py:75 | a lone dot is deleted and any other character is kept; with the append law, the suffix is the version's non-dot characters in their order |
| Builder.DirSuffixExamples | builder.py:43 | version `2.3` gives the schema suffix `2_3` and the model suffix `23` |

## Left out

- Explicit JSON `null` for an optional field is rejected as a value of the
  wrong kind. pydantic accepts it and writes `null` back. No example
  document uses it.
- pydantic's coercions are not modelled. Each field takes exactly its JSON
  kind. pydantic would, for instance, turn a number into a string or the
  string `"true"` into a boolean.
- pydantic collects every validation error and reports undeclared keys
  after the errors of the declared fields. The decoders here check for
  undeclared keys first, then read the fields in declaration order, and stop
  at the first failure. Which inputs are rejected is the same; the error
  report is not: an object with an undeclared key and a missing field is
  reported here as UnknownKeys, where pydantic's first error is the missing
  field.
- JSON numbers with a fraction are not modelled. No field of the model is
  a float, and `JInt` stands for every integer.
- Parsing and printing JSON text (`json.loads`, `.json()`) is left out.
  The model works on the parsed value tree, so duplicate keys and
  whitespace are outside it.
- The `description` metadata of the fields is left out, and so is the
  second validation pass with the `jsonschema` library against the
  published schema, with its regular expressions and date-time formats.
  `ConformsX` is the schema the class declarations themselves amount to.
- Reading the example documents from disk is left out.
- The rest of `builder.py` is I/O and calls into other programs:
  - the schema download over HTTP;
  - the existence checks and directory creation;
  - the `datamodel-codegen`, `black` and `isort` runs;
  - the rewriting of the copyright header;
  - the command-line handler and help text.
- References between elements are not checked. The source checks none, so
  the model checks none.
- Model23.EncodeDocument: it has no contract of its own. What it writes is
  stated by Model23Laws.DocumentLossless and Model23Laws.DocumentFaithful,
  and likewise for every other record's encoder.
