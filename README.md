# MCL Sickbay, modelled in Dafny

Sickbay is the clinical data model of the Consortium for Molecular and Cellular
Characterization of Screen-Detected Lesions. This project models three parts of it and proves
properties of each.

- **Vocabulary resolution** (`model/enums.py`) is in `Vocabulary`, `Vocabularies` and
  `VocabularyFacts`.
  - Each closed vocabulary is the ordered list of its declarations (token, label).
  - A declaration whose label repeats an earlier one is an alias, not a member, as in Python's
    `Enum`. A member is identified by the index of its first declaration.
  - `Resolve` first tries the exact token. If that fails it runs `_missing_name_`: the first
    member whose lowercased label equals the lowercased input.
  - `Vocabulary.MissingName` is that for-loop, proved equal to the recursive specification
    `CaseInsensitiveMatch`. The general lemmas prove soundness, first match, failure iff no
    match, case invariance and alias determinism. `VocabularyFacts` proves the concrete cases.
- **The JSON projection** (`json.py`) is in `PyValues`, `Encoder` and `EncoderFacts`.
  - It works over abstract Python values: objects are an attribute map plus a class, and dicts
    are ordered lists of entries.
  - Each encoder class is a constructor of `Encoder`, and `Parent` is its `super()`.
  - `Encoder.Node` and `Encoder.Default` specify one encoder's `default`.
  - The methods build the same dict by successive assignments into a `Dict` object, as the
    source does. Each is proved equal to its specification.
  - The attribute tuples are passed in a `Tuples` record. `SourceTuples` holds the tuples the
    source declares, and `EncoderFacts.SourceTuplesPlain` proves that they meet `PlainTuples`,
    the condition the general lemmas assume.
- **The entity schema** (`model/*.py`) is in `Schema`, `Tables`, `Relationships`, `Store` and
  `StoreExamples`.
  - Every mapped class is a datatype. Required columns are plain values, nullable columns are
    `Option`s, and vocabulary columns hold member indices constrained by `IsMember`.
  - `ValidX` predicates hold the `String(n)` bounds, the signed 32-bit range of PostgreSQL's
    `INTEGER` for every `Integer` column, and the vocabulary ranges.
  - The joined-table subclasses are a tagged `detail`, whose discriminators `OrganType` and
    `GenomicType` give the source's `polymorphic_identity` strings.
  - `Tables` lays a family out as its base table plus one table per subclass, sharing the
    primary key. It proves that loading the split tables gives back the objects.
  - `Store` holds one sequence of rows per table. Each relationship collection is derived from
    the foreign key and sorted by the declared `order_by` column. It is proved to agree with the
    child's reference to its parent (`back_populates`).

The model orders `String` keys by code point, as a C (byte-order) collation does; see
"## Left out" for the locale collations this does not cover.

## Model

| member | source | states |
|---|---|---|
| Vocabulary.Lower | src/mcl/sickbay/model/enums.py:16 | `value.lower()` on ASCII: same length, each letter lowered, every other character kept |
| Vocabulary.FirstWithLabel | src/mcl/sickbay/model/enums.py:437-444 | the first declaration with exactly a given label, or none if no later declaration has it; this is how an alias finds its member |
| Vocabulary.Canonical | src/mcl/sickbay/model/enums.py:443-444 | the member a declaration stands for is a member, no later than the declaration, with the same label |
| Vocabulary.TokenFrom | src/mcl/sickbay/model/enums.py:13-20 | the exact-token lookup finds a declaration with that token, or reports that none has it |
| Vocabulary.LabelFrom | src/mcl/sickbay/model/enums.py:17-20 | the fallback search returns the earliest member whose lowercased label matches, or fails exactly when no member matches |
| Vocabulary.MissingName | src/mcl/sickbay/model/enums.py:15-20 | the loop with its early return computes the case-insensitive match of the specification |
| Vocabulary.ResolveSound | src/mcl/sickbay/model/enums.py:18-19 | a resolved name is a member; it was reached through a token of that member's label, or its label equals the input up to case |
| Vocabulary.FallbackFirstMatch | src/mcl/sickbay/model/enums.py:17-19 | the fallback's result is the earliest declaration whose lowercased label equals the lowercased input |
| Vocabulary.FallbackFailsIffNoMatch | src/mcl/sickbay/model/enums.py:20 | the fallback returns `None` exactly when no label equals the input up to case |
| Vocabulary.ResolveFailsIffNoMatch | src/mcl/sickbay/model/enums.py:13-20 | the whole lookup fails exactly when no token equals the input and no label equals it up to case |
| Vocabulary.FallbackIgnoresTokens | src/mcl/sickbay/model/enums.py:16-18 | the fallback reads labels only: vocabularies with the same labels give the same answer whatever their tokens |
| Vocabulary.FallbackCaseInvariant | src/mcl/sickbay/model/enums.py:16 | two inputs with the same lowercase form get the same fallback answer |
| Vocabulary.ResolveCaseInvariant | src/mcl/sickbay/model/enums.py:16-19 | two inputs that are no token and agree up to case resolve alike, both to one member or both to nothing |
| Vocabulary.AliasTokensAgree | src/mcl/sickbay/model/enums.py:443-444 | the tokens of a member and of its alias both resolve to the first-declared member |
| Vocabulary.ResolveOwnToken | src/mcl/sickbay/model/enums.py:13-20 | every member is found by its own token |
| Vocabulary.ResolveAnyCaseOfLabel | src/mcl/sickbay/model/enums.py:16-19 | in a coherent vocabulary, any spelling of a member's label, in any case, resolves to that member |
| Vocabulary.ResolveLabelSpellings | src/mcl/sickbay/model/enums.py:16-19 | the label as declared, lowercased and uppercased each resolve to the member |
| VocabularyFacts.GenderIsCoherent | src/mcl/sickbay/model/enums.py:30-36 | `Gender` has distinct tokens and members with labels distinct up to case, and a token equal to a label up to case belongs to a declaration with that label |
| VocabularyFacts.GradeIsCoherent | src/mcl/sickbay/model/enums.py:235-240 | the same for `Grade` |
| VocabularyFacts.PolarAnswerIsCoherent | src/mcl/sickbay/model/enums.py:108-114 | the same for `PolarAnswer` |
| VocabularyFacts.TestResultsIsCoherent | src/mcl/sickbay/model/enums.py:437-444 | the same for `TestResults`, whose alias repeats a label exactly |
| VocabularyFacts.PrognosticGroupStage8IsCoherent | src/mcl/sickbay/model/enums.py:417-427 | the same for the corrected `PrognosticGroupStage8` |
| VocabularyFacts.GenderAndGradeLabelsRoundTrip | src/mcl/sickbay/model/enums.py:30-36 | every spelling of a `Gender` or `Grade` label, in any case, names that member |
| VocabularyFacts.FemaleInAnyCase | src/mcl/sickbay/model/enums.py:32 | "female", "Female" and "FEMALE" all name `Gender.female` |
| VocabularyFacts.TokenCaseIsNotFolded | src/mcl/sickbay/model/enums.py:36 | `not_reported` and "NOT REPORTED" name `Gender.not_reported`, but "NOT_REPORTED" names nothing |
| VocabularyFacts.MaybeIsNoPolarAnswer | src/mcl/sickbay/model/enums.py:108-114 | "Maybe" is no `PolarAnswer` |
| VocabularyFacts.DataNotAvailableAlias | src/mcl/sickbay/model/enums.py:443-444 | `cannot_be_determined` is an alias, not a member; its token and every case of the shared label give `data_not_available` |
| VocabularyFacts.AliasLabelSpelling | src/mcl/sickbay/model/enums.py:443-444 | every input equal to "data not available" up to case gives `TestResults.data_not_available` |
| VocabularyFacts.StageIAUnresolvableAsWritten | src/mcl/sickbay/model/enums.py:420 | with the label as declared ('lA'), the stage "IA" cannot be looked up, although "IB" can |
| VocabularyFacts.StageIAResolvesCorrected | src/mcl/sickbay/model/enums.py:417-427 | with the label read as "IA", "IA" and "ia" give stage IA and "IB" keeps giving stage IB |
| PyValues.SubclassTransitive | src/mcl/sickbay/json.py:56 | `isinstance` through the class chain: a subclass of a subclass is a subclass |
| PyValues.GetAttr | src/mcl/sickbay/json.py:60 | reading an attribute succeeds exactly when the object has it, yields its value, and otherwise fails with `AttributeError` |
| PyValues.GetAttrOr | src/mcl/sickbay/json.py:45 | `getattr(obj, name, None)`: the attribute when there is one, `None` otherwise |
| PyValues.Len | src/mcl/sickbay/json.py:81 | `len` succeeds on collections, whose length is non-zero exactly when they are truthy |
| PyValues.Iterate | src/mcl/sickbay/json.py:83 | iterating a list or tuple yields its items, non-empty exactly when it is truthy |
| PyValues.Lookup | src/mcl/sickbay/json.py:57-61 | a dict lookup misses exactly when the key is absent |
| PyValues.Assign | src/mcl/sickbay/json.py:49-50 | `d[k] = v` changes the value under `k` only; a new key goes last, and an existing key keeps its place |
| PyValues.AssignKeepsKeysUnique | src/mcl/sickbay/json.py:49-50 | assignment never duplicates a key |
| PyValues.Tag | src/mcl/sickbay/json.py:59 | the class tag is `__<module>.<class>__` |
| Encoder.EncoderFor | src/mcl/sickbay/json.py:178-185 | an exact-class table yields only an encoder whose class is the object's very class |
| Encoder.FollowAll | src/mcl/sickbay/json.py:83 | the comprehension over an attribute path succeeds exactly when every item's path can be followed, with one result per item in order |
| Encoder.Collect | src/mcl/sickbay/json.py:261 | a list comprehension of encodings succeeds exactly when every item is encoded, with the encodings in order, and otherwise fails with the first item's error |
| Encoder.SuperDictOf | src/mcl/sickbay/json.py:78 | `super().default(obj)` gives the parent encoder's dict, or its error |
| Encoder.Dict.Set | src/mcl/sickbay/json.py:49-50 | `d[key] = value` on the dict object |
| Encoder.AddAttributes | src/mcl/sickbay/json.py:38-50 | the loop leaves exactly the specification's dict: each listed attribute in turn, skipped when absent or `None`, an enumeration member as `{label, token}`, anything else as is |
| Encoder.EncodeDefault | src/mcl/sickbay/json.py:30-37 | `default` of any encoder computes `Encoder.Default`: its own node for the classes it handles, its parent's answer otherwise, down to dates, enumeration names and the non-serializable error |
| Encoder.EncodeSuper | src/mcl/sickbay/json.py:78 | `super().default(obj)` as a fresh dict holding the parent's node |
| Encoder.EncodeNode | src/mcl/sickbay/json.py:56-68 | the `isinstance` branch of each encoder builds its node |
| Encoder.EncodeMetadata | src/mcl/sickbay/json.py:53-71 | the metadata dict: the class tag, `labcasID`, then the provenance attributes; fails when `labcasID` is missing |
| Encoder.EncodeOrgan | src/mcl/sickbay/json.py:74-86 | the organ dict extends the metadata dict with `identifier`, `organType` and the precancer types if any |
| Encoder.EncodeSubtype | src/mcl/sickbay/json.py:101-108 | a subtype encoder takes its parent's dict and adds its own attributes (breast, prostate, lung, pancreas, Smart-3SEQ) |
| Encoder.EncodeGenomics | src/mcl/sickbay/json.py:195-205 | the genomics dict adds `specimen_ID`, the date as a triple, then the genomics attributes |
| Encoder.EncodeClinicalCore | src/mcl/sickbay/json.py:243-269 | the participant dict adds `participant_ID`, the attributes, then each collection that is non-empty |
| Encoder.EncodeBiospecimen | src/mcl/sickbay/json.py:282-297 | the specimen dict adds `specimen_ID`, the attributes, then the adjacent specimens, genomics and images if present |
| Encoder.EncodeImaging | src/mcl/sickbay/json.py:302-310 | the image dict adds `identifier` and `some_attribute` |
| Encoder.SetIfPresent | src/mcl/sickbay/json.py:288-289 | `if coll: d[key] = …` writes the key only when there is a value |
| EncoderFacts.AddAttributesLookup | src/mcl/sickbay/json.py:44-50 | after `addAttributes` a key holds its old value unless it is listed with a non-`None` attribute; then it holds that value, an enumeration member as `{label, token}` |
| EncoderFacts.AddAttributesKeys | src/mcl/sickbay/json.py:44-50 | `addAttributes` removes and moves no key, adds only listed names, and keeps keys unique |
| EncoderFacts.EnumProjectionRoundTrip | src/mcl/sickbay/json.py:47-48 | the `{label, token}` written for a member gives that member back, by its token and, in a coherent vocabulary, by its label |
| EncoderFacts.HandledChain | src/mcl/sickbay/json.py:53-56 | every encoded class derives from `LabCASMetadata`, and each subclass encoder's class derives from its parent encoder's class |
| EncoderFacts.HandledByAncestors | src/mcl/sickbay/json.py:56 | an object an encoder handles is handled by its parent encoder too |
| EncoderFacts.SuperIsParentNode | src/mcl/sickbay/json.py:78 | inside the `isinstance` branch, `super().default(obj)` is exactly the parent encoder's node |
| EncoderFacts.SubtypeExtendsParent | src/mcl/sickbay/json.py:101-108 | a subtype encoder fails exactly when its parent does, with the same error, and otherwise adds its attributes to the parent's dict |
| EncoderFacts.SubtypeKeepsParentEntries | src/mcl/sickbay/json.py:104-106 | a subtype's dict keeps every key of its parent's dict, and every key it does not list keeps its value |
| EncoderFacts.SourceTuplesPlain | src/mcl/sickbay/json.py:64-67 | the declared attribute tuples hold no class tag, `labcasID`, organ or collection key |
| EncoderFacts.MetadataNodeShape | src/mcl/sickbay/json.py:56-69 | the metadata encoder succeeds exactly when `labcasID` is present; its dict starts with the class tag (True), then `labcasID`, then only provenance attributes |
| EncoderFacts.NotAMetadataKey | src/mcl/sickbay/json.py:58-68 | no key other than the tag, `labcasID` and the provenance attributes is in the metadata dict |
| EncoderFacts.ProjectionWrittenIffNonEmpty | src/mcl/sickbay/json.py:81-83 | a projected list (`prior_lesions`, `core_races`, `core_tobaccos`, precancer types, adjacent specimens) is produced exactly when the collection is not `None` and non-empty, as the names read from each item in order; the node lemmas state where it lands in the dict |
| EncoderFacts.ChildrenWrittenIffTruthy | src/mcl/sickbay/json.py:257-266 | a child collection is written exactly when it is truthy, as the encodings of its items in order |
| EncoderFacts.TableEncodesExactClass | src/mcl/sickbay/json.py:178-185 | a table encodes an object it lists with the encoder for that very class, which handles it |
| EncoderFacts.UnlistedOrganSubclassIsKeyError | src/mcl/sickbay/json.py:266 | a further subclass of `Organ` that `ORGAN_ENCODERS` does not list raises `KeyError` |
| EncoderFacts.UnlistedGenomicsSubclassIsKeyError | src/mcl/sickbay/json.py:261 | likewise for `GENOMICS_ENCODERS` |
| EncoderFacts.DefaultOfNonObject | src/mcl/sickbay/json.py:32-37 | every encoder turns a date into its (year, month, day) triple and an enumeration member into its name, and refuses any other non-object |
| EncoderFacts.DefaultOfForeignObject | src/mcl/sickbay/json.py:37 | every encoder refuses an object whose class does not derive from `LabCASMetadata` |
| EncoderFacts.OrganNodeShape | src/mcl/sickbay/json.py:78-83 | an organ dict holds `identifier` and `organType`, and holds the precancer types exactly when the list is non-empty, as the `hp_type` names in order |
| EncoderFacts.OrganWithoutPrecancerTypesFails | src/mcl/sickbay/json.py:81 | an organ without a `histopathology_precancer_types` attribute cannot be encoded by the organ encoder or its subtypes |
| EncoderFacts.GenomicsNodeDate | src/mcl/sickbay/json.py:199-201 | a genomics dict always holds `sequencing_date` as the (year, month, day) triple of the object's date |
| EncoderFacts.GenomicsSubtypeKeepsDate | src/mcl/sickbay/json.py:213-217 | the Smart-3SEQ dict keeps the genomics `sequencing_date` |
| EncoderFacts.ClinicalCoreIsBaseWithCollections | src/mcl/sickbay/json.py:246-267 | a participant dict is its base dict with the seven collections written one after the other |
| EncoderFacts.ClinicalCoreBaseShape | src/mcl/sickbay/json.py:246-248 | the base holds `participant_ID` and no collection key |
| EncoderFacts.ClinicalCoreCollectionsWrittenIffNonEmpty | src/mcl/sickbay/json.py:249-266 | a participant dict holds `participant_ID`, and holds each collection exactly when the object's collection is non-empty or truthy |
| EncoderFacts.BiospecimenIsBaseWithCollections | src/mcl/sickbay/json.py:284-295 | a specimen dict is its base dict (metadata, `specimen_ID`, attributes) with `adjacent_specimens`, `genomics` and `images` written one after the other |
| EncoderFacts.BiospecimenBaseShape | src/mcl/sickbay/json.py:285-287 | the specimen base holds `specimen_ID` and no collection key |
| EncoderFacts.BiospecimenNodeShape | src/mcl/sickbay/json.py:284-295 | a specimen dict always holds `specimen_ID`, and holds each of `adjacent_specimens`, `genomics` and `images` exactly when the object's attribute of that name is truthy |
| EncoderFacts.BiospecimenCollectionValues | src/mcl/sickbay/json.py:288-295 | each collection key of a specimen dict holds what the encoder made of that collection, and nothing when it was falsy |
| EncoderFacts.BiospecimenCollectionsWrittenIffTruthy | src/mcl/sickbay/json.py:288-295 | a written `adjacent_specimens` is the `adjacent_specimen_ID` of each adjacent specimen in order; written `genomics` and `images` hold one encoding per member, in order, each by the encoder of the member's class or `ImagingEncoder` |
| Relationships.StrLeTotal | src/mcl/sickbay/model/clinicalcore.py:127-128 | the order of `String` keys is total |
| Relationships.StrLeTransitive | src/mcl/sickbay/model/clinicalcore.py:127-128 | the order of `String` keys is transitive |
| Relationships.StrLeAntisymmetric | src/mcl/sickbay/model/clinicalcore.py:127-128 | the order of `String` keys is antisymmetric |
| Relationships.KeyLeTotal | src/mcl/sickbay/model/clinicalcore.py:127-131 | the `order_by` order is total |
| Relationships.KeyLeTransitive | src/mcl/sickbay/model/clinicalcore.py:127-131 | the `order_by` order is transitive |
| Relationships.KeyLeAntisymmetric | src/mcl/sickbay/model/clinicalcore.py:127-131 | the `order_by` order is antisymmetric |
| Relationships.Insert | src/mcl/sickbay/model/clinicalcore.py:127-131 | inserting into a sorted sequence keeps it sorted and adds exactly that row |
| Relationships.OrderBy | src/mcl/sickbay/model/clinicalcore.py:127-131 | `order_by`: the rows sorted by the key, a permutation of the input |
| Relationships.Where | src/mcl/sickbay/model/clinicalcore.py:113 | the rows whose foreign key names the parent, each as often as in the table, and no other |
| Relationships.Collection | src/mcl/sickbay/model/clinicalcore.py:127-131 | a relationship collection is sorted, holds each matching row as often as the table does, and holds a row exactly when its foreign key names the parent |
| Relationships.CollectionStrictlyAscending | src/mcl/sickbay/model/clinicalcore.py:107 | with unique primary keys, a collection is strictly ascending |
| Relationships.Owner | src/mcl/sickbay/model/clinicalcore.py:114 | a many-to-one reference resolves to a parent whose key is the foreign key, or to none when no parent has it |
| Relationships.BackPopulated | src/mcl/sickbay/model/clinicalcore.py:113-114 | `back_populates`: with unique parent keys, a row is in a parent's collection exactly when its reference resolves to that parent |
| Schema.DaysInMonth | src/mcl/sickbay/model/base.py:24 | a month has 28 to 31 days, and 29 exactly for February of a leap year (the `Date` column) |
| Schema.OrganIdentity | src/mcl/sickbay/model/organs.py:75-76 | each organ kind's `polymorphic_identity` ("organs", "breastOrgans", "prostateOrgans") fits the `String(24)` discriminator |
| Schema.OrganKindFor | src/mcl/sickbay/model/organs.py:132 | a discriminator value that names a kind is that kind's identity |
| Schema.OrganIdentityRoundTrip | src/mcl/sickbay/model/organs.py:176 | a discriminator value names a kind exactly when it is that kind's identity |
| Schema.OrganType | src/mcl/sickbay/model/organs.py:75-76 | an organ's `organType` fits the column and names its own subclass |
| Schema.GenomicsIdentity | src/mcl/sickbay/model/genomics.py:71-72 | each genomics kind's identity ("genomics", "smart3SeqGenomics") fits the `String(24)` discriminator |
| Schema.GenomicsKindFor | src/mcl/sickbay/model/genomics.py:90 | a discriminator value that names a kind is that kind's identity |
| Schema.GenomicsIdentityRoundTrip | src/mcl/sickbay/model/genomics.py:72 | a discriminator value names a kind exactly when it is that kind's identity |
| Schema.GenomicType | src/mcl/sickbay/model/genomics.py:71-72 | a record's `genomicType` fits the column and names its own subclass |
| Tables.Find | src/mcl/sickbay/model/organs.py:84 | a row looked up by primary key is a row of the table with that key, or no row has the key |
| Tables.Collect | src/mcl/sickbay/model/organs.py:50-77 | loading every row succeeds with one object per row in order, or fails with one row's error |
| Tables.CollectAllSucceed | src/mcl/sickbay/model/organs.py:50-77 | when every row loads, the load yields those objects |
| Tables.OrganBaseRow | src/mcl/sickbay/model/organs.py:54 | an organ's base row keeps its identifier and stores its discriminator |
| Tables.BreastRows | src/mcl/sickbay/model/organs.py:84 | every `breastOrgans` row is the breast fields of an organ with that identifier |
| Tables.ProstateRows | src/mcl/sickbay/model/organs.py:170 | every `prostateOrgans` row is the prostate field of an organ with that identifier |
| Tables.SplitOrgans | src/mcl/sickbay/model/organs.py:50-77 | one base row per organ, in order |
| Tables.LoadOrgan | src/mcl/sickbay/model/organs.py:75-76 | a loaded organ keeps the row's identifier, and its subclass is the one the row's discriminator names |
| Tables.LoadOrgans | src/mcl/sickbay/model/organs.py:50-77 | a successful load gives one organ per base row |
| Tables.FindBreastRow | src/mcl/sickbay/model/organs.py:84 | with distinct identifiers, a breast organ's subclass row is found by its identifier |
| Tables.FindProstateRow | src/mcl/sickbay/model/organs.py:170 | likewise for a prostate organ |
| Tables.LoadSplitOrgans | src/mcl/sickbay/model/organs.py:84 | with distinct identifiers, loading the split tables gives back exactly the organs |
| Tables.BreastRowsReferenceBaseRows | src/mcl/sickbay/model/organs.py:84 | every `breastOrgans` row's identifier names a base row whose discriminator is "breastOrgans" |
| Tables.ProstateRowsReferenceBaseRows | src/mcl/sickbay/model/organs.py:170 | every `prostateOrgans` row's identifier names a base row whose discriminator is "prostateOrgans" |
| Tables.GenomicsBaseRow | src/mcl/sickbay/model/genomics.py:32 | a record's base row keeps its `specimen_ID` and stores its discriminator |
| Tables.Smart3SeqRows | src/mcl/sickbay/model/genomics.py:79 | every Smart-3SEQ row is the fields of a record with that `specimen_ID` |
| Tables.SplitGenomics | src/mcl/sickbay/model/genomics.py:28-72 | one base row per record, in order |
| Tables.LoadGenomicsRow | src/mcl/sickbay/model/genomics.py:71-72 | a loaded record keeps the row's key, and its subclass is the one the discriminator names |
| Tables.LoadGenomics | src/mcl/sickbay/model/genomics.py:28-72 | a successful load gives one record per base row |
| Tables.FindSmart3SeqRow | src/mcl/sickbay/model/genomics.py:79 | with distinct keys, a Smart-3SEQ record's subclass row is found by its key |
| Tables.LoadSplitGenomics | src/mcl/sickbay/model/genomics.py:79 | with distinct keys, loading the split tables gives back exactly the records |
| Tables.Smart3SeqRowsReferenceBaseRows | src/mcl/sickbay/model/genomics.py:79 | every Smart-3SEQ row's key names a base row whose discriminator is "smart3SeqGenomics" |
| Store.BreastKeysDistinct | src/mcl/sickbay/model/organs.py:84 | distinct organ identifiers make the breast organs' keys distinct |
| Store.CoreBiospecimens | src/mcl/sickbay/model/clinicalcore.py:127 | `core.biospecimens`: sorted by `specimen_ID`, exactly the specimens whose foreign key names the participant, and, in a store with unique keys, exactly those whose `clinicalCore` is the participant |
| Store.CoreGenomics | src/mcl/sickbay/model/clinicalcore.py:128 | `core.genomics`, likewise, sorted by `specimen_ID` |
| Store.CoreImages | src/mcl/sickbay/model/clinicalcore.py:129 | `core.images`, likewise, sorted by `identifier` |
| Store.CoreOrgans | src/mcl/sickbay/model/clinicalcore.py:130 | `core.organs`, likewise, sorted by `identifier` |
| Store.CorePriorLesions | src/mcl/sickbay/model/clinicalcore.py:131 | `core.prior_lesions`, likewise, sorted by `identifier` |
| Store.SpecimenAdjacentSpecimens | src/mcl/sickbay/model/specimens.py:103-107 | `specimen.adjacent_specimens`: sorted by `identifier`, exactly the rows whose `biospecimen_identifier` names the specimen, and those whose `biospecimen` is it |
| Store.SpecimenGenomics | src/mcl/sickbay/model/specimens.py:113 | `specimen.genomics`, likewise, sorted by `specimen_ID` |
| Store.SpecimenImages | src/mcl/sickbay/model/specimens.py:114 | `specimen.images`, likewise, sorted by `identifier` |
| Store.BreastPrecancerTypes | src/mcl/sickbay/model/organs.py:160-164 | `breast.histopathology_precancer_types`: sorted by `identifier`, exactly the rows whose `breastOrgan_identifier` names the breast organ, and those whose `breastOrgan` is it |
| Store.CorePriorLesionsCollected | src/mcl/sickbay/model/clinicalcore.py:113-114 | with unique keys and resolving foreign keys, every lesion with a set foreign key is in some participant's `prior_lesions` |
| Store.CoreBiospecimensCollected | src/mcl/sickbay/model/specimens.py:71-72 | likewise for `biospecimens` |
| Store.CoreOrgansCollected | src/mcl/sickbay/model/organs.py:67-68 | likewise for `organs` |
| Store.CoreGenomicsCollected | src/mcl/sickbay/model/genomics.py:60-61 | likewise for a participant's `genomics` |
| Store.CoreImagesCollected | src/mcl/sickbay/model/images.py:33-34 | likewise for a participant's `images` |
| Store.SpecimenAdjacentSpecimensCollected | src/mcl/sickbay/model/specimens.py:92-93 | likewise for `adjacent_specimens` |
| Store.SpecimenGenomicsCollected | src/mcl/sickbay/model/genomics.py:62-63 | likewise for a specimen's `genomics` |
| Store.SpecimenImagesCollected | src/mcl/sickbay/model/images.py:35-36 | likewise for a specimen's `images` |
| Store.BreastPrecancerTypesCollected | src/mcl/sickbay/model/organs.py:149-150 | every precancer type with a set foreign key is in some breast organ's list |
| StoreExamples.SampleCoreValid | src/mcl/sickbay/model/clinicalcore.py:42-99 | a participant with the ID, file URL and numeric values of the `db.py` test participant (every vocabulary field at its first member instead of that participant's members) satisfies every column constraint |
| StoreExamples.WideConsentDaysInvalid | src/mcl/sickbay/model/clinicalcore.py:50 | a `days_to_consent` of 2^31, beyond the 32-bit `INTEGER` range, is refused |
| StoreExamples.LongParticipantInvalid | src/mcl/sickbay/model/clinicalcore.py:46 | a participant ID longer than 14 characters is refused |
| StoreExamples.SampleLesionsValid | src/mcl/sickbay/model/clinicalcore.py:110-113 | the sample lesions are valid rows |
| StoreExamples.LesionStoreKeysDistinct | src/mcl/sickbay/model/clinicalcore.py:107 | the sample lesions have distinct identifiers |
| StoreExamples.LesionStoreForeignKeysResolve | src/mcl/sickbay/model/clinicalcore.py:113 | the sample lesions' foreign keys name the participant |
| StoreExamples.PriorLesionsInIdentifierOrder | src/mcl/sickbay/model/clinicalcore.py:131 | rows stored as identifiers 2, 3, 1 give the participant the list [1, 2]: only its own lesions, in identifier order |

## Left out

- Database I/O, `db.py`, packaging and DDL creation are not modelled: the command line, password
  prompt, engine, session, commits and `createMetadata`. The sample rows of `db.py` only shaped
  the example participant.
- SQLAlchemy itself is not modelled: sessions, transactions, sequence generation (identifiers
  are given integers), storage of enumeration members by name, and how `back_populates` is kept
  up to date. The model states the outcome the mappings declare: FK-derived, ordered collections.
- Enumeration columns hold member indices. The SQL `Enum` type, which stores members by name,
  is not modelled.
- Float columns are Dafny `real`s with no arithmetic, so nothing about floating point is
  modelled.
- Vocabulary.Lower: case folding is ASCII only, while Python's `str.lower` lowers all of Unicode.
  Most labels are ASCII, but some are not: the `Income` labels (`enums.py:97-100`)
  contain the en dash U+2013, which both foldings leave alone. The divergence is on inputs: a
  non-ASCII input whose Unicode lowercase is an ASCII label resolves in the source but not in the
  model. For example, `str.lower` maps U+212A KELVIN SIGN to 'k', so `Gender['UN\u212ANOWN']`
  gives `Gender.unknown` through `enums.py:16-19`, while `Vocabulary.Resolve` returns `None`.
- Relationships.StrLe: the `order_by` of `String` keys (`biospecimens` and `genomics` by
  `specimen_ID`, `clinicalcore.py:127-128` and `specimens.py:113`) is carried out by PostgreSQL
  (`db.py:329-333`) under the database's collation. The model assumes a C (byte-order)
  collation. Under a locale collation such as en_US.UTF-8, where "a1" sorts before "B1" and
  punctuation such as '_' is ignored at the first level, `Store.CoreBiospecimens`,
  `Store.CoreGenomics` and `Store.SpecimenGenomics` can come out in a different order. Which rows
  they hold is unaffected.
- The text that `json.JSONEncoder` finally renders is not modelled; only the dict and list tree
  that `default` returns is.
- The JSON projection works over abstract objects, not over the schema's datatypes, because
  `json.py` and the model classes disagree in four places:
  - `json.py` reads `labcasID`, but the metadata mixin declares `labcasFileURL`;
  - it reads `core_races` and `core_tobaccos`, which `ClinicalCore` never declares;
  - it reads `histopathology_precancer_types` on every organ, but only breast organs have it;
  - it imports `LungOrgan` and `PancreasOrgan`, which the model package does not export. Their
    classes are named here for the encoder table only.
  With the schema's objects, the encoder fails on these attributes as
  `EncoderFacts.MetadataNodeShape` and `EncoderFacts.OrganWithoutPrecancerTypesFails` show.
- No reconciliation of the "inscribed" reference columns is modelled: they are plain optional
  strings, and no code in the repository matches them to parents.
- `specimen_parent_ID` and `adjacent_specimen_ID` are plain strings without foreign keys. Nothing
  checks that they resolve or that parent chains are acyclic, and neither does the model.
- Store.ValidStore: column constraints, unique keys and resolving foreign keys are stated as
  predicates. The database's enforcement of them on insert is not modelled.
- StoreExamples: no lemma states that a whole sample store is valid. The combined predicate over
  every table's column constraints is too costly to check on a literal, so the examples state
  its parts (the participant, the lesions, the keys, the foreign keys) separately.
- Vocabularies: all enumeration tables are transcribed. The per-table coherence facts are proved
  for `Gender`, `Grade`, `PolarAnswer`, `TestResults` and `PrognosticGroupStage8` only; the
  general lemmas hold for the others under the coherence they assume.

## Findings

| source | as written | input that shows it | evidently intended | confidence | as-written member | corrected member |
|---|---|---|---|---|---|---|
| src/mcl/sickbay/model/enums.py:420 | the label of `PrognosticGroupStage8.la` is 'lA', with a lower-case L | looking up "IA" (or "ia") finds no member, while "IB" finds `ib` | the AJCC stage "IA", as the token `la` and the neighbouring labels 'IB', 'IIA' call for | not executed | VocabularyFacts.StageIAUnresolvableAsWritten | VocabularyFacts.StageIAResolvesCorrected |
