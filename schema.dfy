/** The entities of the clinical data model, one datatype per mapped class. A column declared
    `nullable=False` (and every primary key) is a plain field; every other column is an `Option`.
    A column typed by an enumeration holds the declaration index of a member of that vocabulary.
    A `Float` column is an opaque `real`. `String(n)` bounds and vocabulary membership are what
    each entity's `Valid` predicate checks.

    Joined-table inheritance is a tagged union: an `Organ` carries an `OrganDetail`, a `Genomics`
    record a `GenomicsDetail`, and the discriminator column (`organType`, `genomicType`) is derived
    from the tag. */
module Schema {
  import opened Wrappers
  import opened Vocabulary
  import opened Vocabularies

  // ---------------------------------------------------------------------------------------------
  // Column types

  /** A `Date` column: a calendar date as Python's `datetime.date` holds it. */
  datatype Date = Date(year: int, month: int, day: int)

  predicate IsLeapYear(y: int) {
    y % 4 == 0 && (y % 100 != 0 || y % 400 == 0)
  }

  /** The number of days in month `m` of year `y` of the proleptic Gregorian calendar. */
  function DaysInMonth(y: int, m: int): (r: int)
    requires 1 <= m <= 12
    ensures 28 <= r <= 31
    ensures r == 29 <==> m == 2 && IsLeapYear(y)
  {
    if m == 2 then (if IsLeapYear(y) then 29 else 28)
    else if m == 4 || m == 6 || m == 9 || m == 11 then 30
    else 31
  }

  /** The dates `datetime.date` accepts: years 1 to 9999 and a day that exists in its month. */
  predicate ValidDate(d: Date) {
    1 <= d.year <= 9999 && 1 <= d.month <= 12 && 1 <= d.day <= DaysInMonth(d.year, d.month)
  }

  /** A `String(n)` value. */
  predicate Fits(s: string, n: nat) {
    |s| <= n
  }

  /** A nullable `String(n)` value. */
  predicate FitsOpt(s: Option<string>, n: nat) {
    s.Some? ==> |s.value| <= n
  }

  /** An `Integer` value: PostgreSQL's `INTEGER` is a signed 32-bit number. */
  predicate Int32(v: int) {
    -0x8000_0000 <= v < 0x8000_0000
  }

  /** A nullable `Integer` value. */
  predicate Int32Opt(v: Option<int>) {
    v.Some? ==> Int32(v.value)
  }

  /** A value of a column typed by vocabulary `v`: one of its members, never an alias. */
  predicate In(v: Vocab, i: nat) {
    IsMember(v, i)
  }

  /** A value of a nullable column typed by vocabulary `v`. */
  predicate InOpt(v: Vocab, i: Option<nat>) {
    i.Some? ==> IsMember(v, i.value)
  }

  // ---------------------------------------------------------------------------------------------
  // The LabCAS metadata mixin

  /** The provenance columns every clinical class mixes in. None of them is a key. */
  datatype Metadata = Metadata(
    labcasFileURL: string,
    fileName: Option<string>,
    dateFileGenerated: Option<Date>,
    siteID: Option<int>,
    submittingInvestigatorID: Option<int>,
    processingLevel: Option<string>,
    fileType: Option<string>)

  predicate ValidMetadata(m: Metadata) {
    && Fits(m.labcasFileURL, 2000)
    && FitsOpt(m.fileName, 255)
    && (m.dateFileGenerated.Some? ==> ValidDate(m.dateFileGenerated.value))
    && Int32Opt(m.siteID)
    && Int32Opt(m.submittingInvestigatorID)
    && FitsOpt(m.processingLevel, 16)
    && FitsOpt(m.fileType, 32)
  }

  // ---------------------------------------------------------------------------------------------
  // Clinical core

  /** A participant's core clinical data, keyed by `participant_ID`. */
  datatype ClinicalCore = ClinicalCore(
    meta: Metadata,
    participant_ID: string,
    anchor_type: nat,
    days_to_consent: Option<int>,
    days_to_enrollment: Option<int>,
    gender: nat,
    ethnicity: nat,
    race: nat,
    vital_status: Option<nat>,
    days_to_vital_status_reference: Option<int>,
    age_at_index: int,
    days_to_birth: Option<int>,
    year_of_birth: int,
    education: nat,
    income: nat,
    height: real,
    days_to_weight_recorded: int,
    weight: real,
    prior_cancer: nat,
    current_lesion_type: nat,
    days_to_diagnosis: int,
    year_of_diagnosis: int,
    age_at_diagnosis: int,
    how_detected: nat,
    days_to_detection_date: int,
    days_to_last_screen_date: int,
    days_to_last_neg_screen_date: int,
    mode_of_detection: nat,
    lesion_type: nat,
    specimen_collected: nat,
    age_at_menses_start: Option<int>,
    menses_stop: Option<nat>,
    age_at_menses_stop: Option<int>,
    biomarker_tested: nat,
    relative_with_cancer_history: nat,
    relative_with_cancer_history_count: Option<int>,
    tobacco_smoking_status: nat,
    type_tobacco_used: nat,
    tobacco_smoking_onset_age: Option<int>,
    tobacco_smoking_quit_age: Option<int>,
    years_smoked: Option<int>,
    cigarettes_per_day: Option<int>,
    alcohol_history: nat,
    alcohol_drinks_per_day: Option<int>,
    alcohol_days_per_week: Option<int>)

  predicate ValidClinicalCore(c: ClinicalCore) {
    && ValidMetadata(c.meta)
    && Fits(c.participant_ID, 14)
    && In(Anchors, c.anchor_type)
    && In(Gender, c.gender)
    && In(Ethnicity, c.ethnicity)
    && In(Race, c.race)
    && InOpt(VitalStatus, c.vital_status)
    && In(Education, c.education)
    && In(Income, c.income)
    && In(PolarAnswer, c.prior_cancer)
    && In(Lesion, c.current_lesion_type)
    && In(Detection, c.how_detected)
    && In(Mode, c.mode_of_detection)
    && In(Neoplasm, c.lesion_type)
    && In(PolarAnswer, c.specimen_collected)
    && InOpt(ImpertinentAnswer, c.menses_stop)
    && In(PolarAnswer, c.biomarker_tested)
    && In(ImpertinentPolarAnswer, c.relative_with_cancer_history)
    && In(SmokingStatus, c.tobacco_smoking_status)
    && In(Tobacco, c.type_tobacco_used)
    && In(PolarAnswer, c.alcohol_history)
    && Int32Opt(c.days_to_consent)
    && Int32Opt(c.days_to_enrollment)
    && Int32Opt(c.days_to_vital_status_reference)
    && Int32(c.age_at_index)
    && Int32Opt(c.days_to_birth)
    && Int32(c.year_of_birth)
    && Int32(c.days_to_weight_recorded)
    && Int32(c.days_to_diagnosis)
    && Int32(c.year_of_diagnosis)
    && Int32(c.age_at_diagnosis)
    && Int32(c.days_to_detection_date)
    && Int32(c.days_to_last_screen_date)
    && Int32(c.days_to_last_neg_screen_date)
    && Int32Opt(c.age_at_menses_start)
    && Int32Opt(c.age_at_menses_stop)
    && Int32Opt(c.relative_with_cancer_history_count)
    && Int32Opt(c.tobacco_smoking_onset_age)
    && Int32Opt(c.tobacco_smoking_quit_age)
    && Int32Opt(c.years_smoked)
    && Int32Opt(c.cigarettes_per_day)
    && Int32Opt(c.alcohol_drinks_per_day)
    && Int32Opt(c.alcohol_days_per_week)
  }

  /** A lesion a participant had before: `identifier` is drawn from a sequence, and the row may
      belong to one clinical core. */
  datatype PriorLesion = PriorLesion(
    identifier: int,
    lesion_type: nat,
    clinicalCore_participant_ID: Option<string>)

  predicate ValidPriorLesion(p: PriorLesion) {
    Int32(p.identifier) && In(Lesion, p.lesion_type) && FitsOpt(p.clinicalCore_participant_ID, 14)
  }

  // ---------------------------------------------------------------------------------------------
  // Organs

  /** The columns of the `breastOrgans` table besides its key. */
  datatype BreastFields = BreastFields(
    anchor_type: nat,
    grade: nat,
    laterality: nat,
    site: nat,
    size: int,
    necrosis: nat,
    necrosis_location: nat,
    surgical_margin: Option<nat>,
    recurrence: nat,
    pathologic_T_stage_7: Option<nat>,
    pathologic_N_stage_7: Option<nat>,
    pathologic_M_stage_7: Option<nat>,
    clinical_T_stage_7: Option<nat>,
    clinical_N_stage_7: Option<nat>,
    clinical_M_stage_7: Option<nat>,
    disease_stage_7: Option<nat>,
    path_TNM_class_T_8: Option<nat>,
    path_TNM_class_M_8: Option<nat>,
    clinical_TNM_class_T_8: Option<nat>,
    clinical_TNM_class_N_8: Option<nat>,
    clinical_TNM_class_M_8: Option<nat>,
    disease_stage_ajcc_8: Option<nat>,
    genetic_testing: nat,
    brca1: nat,
    brca2: nat,
    estrogen_receptor: nat,
    er_percent_positivity: Option<int>,
    progesterone_receptor: nat,
    her2_immunohistochemistry: nat,
    her2_in_situ_hybridization: Option<nat>,
    ki_67_percent_positive_nuclei: Option<int>,
    menopausal_status: nat,
    ecog_score: nat,
    method_of_detection: nat,
    days_to_detection_date: int,
    days_to_last_screening_mammo: int,
    days_to_last_negative_screening_mammo: int,
    detected_between_screening_intervals: nat,
    multifocal_disease: nat,
    multicentric_disease: nat,
    imaging_workup: nat,
    birads_density: nat)

  predicate ValidBreast(b: BreastFields) {
    && In(Anchors, b.anchor_type)
    && In(Grade, b.grade)
    && In(Laterality, b.laterality)
    && In(BreastSite, b.site)
    && In(MysteriousPolarAnswer, b.necrosis)
    && In(NecrosisLocation, b.necrosis_location)
    && InOpt(MarginalStatus, b.surgical_margin)
    && In(MysteriousPolarAnswer, b.recurrence)
    && InOpt(TStage7, b.pathologic_T_stage_7)
    && InOpt(PathologicNStage7, b.pathologic_N_stage_7)
    && InOpt(PathologicMStage7, b.pathologic_M_stage_7)
    && InOpt(TStage7, b.clinical_T_stage_7)
    && InOpt(ClinicalNStage7, b.clinical_N_stage_7)
    && InOpt(ClinicalMStage7, b.clinical_M_stage_7)
    && InOpt(GroupStage7, b.disease_stage_7)
    && InOpt(TStage8, b.path_TNM_class_T_8)
    && InOpt(PathologicMStage8, b.path_TNM_class_M_8)
    && InOpt(TStage8, b.clinical_TNM_class_T_8)
    && InOpt(ClinicalTNMCategoryN8, b.clinical_TNM_class_N_8)
    && InOpt(ClinicalTNMCategoryM8, b.clinical_TNM_class_M_8)
    && InOpt(PrognosticGroupStage8, b.disease_stage_ajcc_8)
    && In(GeneticTestingAnswer, b.genetic_testing)
    && In(TestResults, b.brca1)
    && In(TestResults, b.brca2)
    && In(EstrogenTestResults, b.estrogen_receptor)
    && In(TestResults, b.progesterone_receptor)
    && In(HER2Results, b.her2_immunohistochemistry)
    && InOpt(HER2InSituHybridization, b.her2_in_situ_hybridization)
    && In(Menopause, b.menopausal_status)
    && In(ECOGScore, b.ecog_score)
    && In(BreastCancerDetectionMethod, b.method_of_detection)
    && In(MysteriousPolarAnswer, b.detected_between_screening_intervals)
    && In(MysteriousPolarAnswer, b.multifocal_disease)
    && In(MysteriousPolarAnswer, b.multicentric_disease)
    && In(BreastImagingWorkup, b.imaging_workup)
    && In(BIRADSTissues, b.birads_density)
    && Int32(b.size)
    && Int32Opt(b.er_percent_positivity)
    && Int32Opt(b.ki_67_percent_positive_nuclei)
    && Int32(b.days_to_detection_date)
    && Int32(b.days_to_last_screening_mammo)
    && Int32(b.days_to_last_negative_screening_mammo)
  }

  /** What distinguishes the organ classes: a plain `Organ`, a `BreastOrgan` with its columns, or a
      `ProstateOrgan` with its one optional column. */
  datatype OrganDetail =
    | PlainOrgan
    | Breast(b: BreastFields)
    | Prostate(depth_or_whatever: Option<int>)

  /** An organ, keyed by `identifier`; the subclasses share the key. The inscribed participant ID
      is a free string kept for later association; only `clinicalCore_participant_ID` is a foreign
      key. */
  datatype Organ = Organ(
    meta: Metadata,
    identifier: int,
    inscribed_clinicalCore_participant_ID: Option<string>,
    clinicalCore_participant_ID: Option<string>,
    detail: OrganDetail)

  predicate ValidOrgan(o: Organ) {
    && ValidMetadata(o.meta)
    && Int32(o.identifier)
    && FitsOpt(o.inscribed_clinicalCore_participant_ID, 14)
    && FitsOpt(o.clinicalCore_participant_ID, 14)
    && (o.detail.Breast? ==> ValidBreast(o.detail.b))
    && (o.detail.Prostate? ==> Int32Opt(o.detail.depth_or_whatever))
  }

  /** One precancerous histopathology of a breast; the row may belong to one breast organ. */
  datatype HistopathologyPrecancerType = HistopathologyPrecancerType(
    identifier: int,
    hp_type: nat,
    breastOrgan_identifier: Option<int>)

  predicate ValidHistopathologyPrecancerType(h: HistopathologyPrecancerType) {
    Int32(h.identifier) && In(PrecancerousHistopathology, h.hp_type) && Int32Opt(h.breastOrgan_identifier)
  }

  /** The mapped organ classes. */
  datatype OrganKind = OrganBase | BreastOrganKind | ProstateOrganKind

  function OrganKindOf(d: OrganDetail): OrganKind {
    match d
    case PlainOrgan => OrganBase
    case Breast(_) => BreastOrganKind
    case Prostate(_) => ProstateOrganKind
  }

  /** The `polymorphic_identity` of each organ class. */
  function OrganIdentity(k: OrganKind): (r: string)
    ensures Fits(r, 24)
  {
    match k
    case OrganBase => "organs"
    case BreastOrganKind => "breastOrgans"
    case ProstateOrganKind => "prostateOrgans"
  }

  /** The organ class a discriminator value names, if any. */
  function OrganKindFor(s: string): (r: Option<OrganKind>)
    ensures r.Some? ==> OrganIdentity(r.value) == s
  {
    if s == "organs" then Some(OrganBase)
    else if s == "breastOrgans" then Some(BreastOrganKind)
    else if s == "prostateOrgans" then Some(ProstateOrganKind)
    else None
  }

  /** The discriminator names each class and nothing else: the identities are distinct, and a
      string names a class exactly when it is that class's identity. */
  lemma OrganIdentityRoundTrip(k: OrganKind, s: string)
    ensures OrganKindFor(s) == Some(k) <==> OrganIdentity(k) == s
  {
  }

  /** The `organType` column of an organ row. */
  function OrganType(o: Organ): (r: string)
    ensures Fits(r, 24)
    ensures OrganKindFor(r) == Some(OrganKindOf(o.detail))
  {
    OrganIdentity(OrganKindOf(o.detail))
  }

  // ---------------------------------------------------------------------------------------------
  // Specimens

  /** A biological specimen, keyed by `specimen_ID`. `specimen_parent_ID` is a free string, not a
      foreign key: it may name no specimen, and nothing rules out cycles. */
  datatype Biospecimen = Biospecimen(
    meta: Metadata,
    specimen_ID: string,
    specimen_ID_local: Option<string>,
    specimen_parent_ID: Option<string>,
    specimen_type: nat,
    anatomical_site: nat,
    tumor_tissue_type: nat,
    precancer_type: nat,
    precancer_type_other: Option<string>,
    specimen_laterality: nat,
    acquisition_method: nat,
    acquisition_method_other: Option<string>,
    days_to_collection: int,
    time_excision_to_processing: int,
    ischemic_time: Option<real>,
    portion_weight: Option<real>,
    total_volume: Option<real>,
    preservation_method: nat,
    preservation_method_other: Option<string>,
    fixative_used: nat,
    fixatives_other: Option<string>,
    fixation_duration: Option<int>,
    processing_duration: int,
    analyte_type: nat,
    analyte_type_other: Option<string>,
    protocol_number: Option<int>,
    protocol_version: Option<int>,
    storage_method: nat,
    storage_method_other: Option<string>,
    days_to_storage: int,
    slide_charge_type: nat,
    section_thickness: Option<real>,
    days_to_shipping: Option<int>,
    shipping_conditions: Option<nat>,
    shipping_destination: Option<nat>,
    inscribed_clinicalCore_participant_ID: Option<string>,
    clinicalCore_participant_ID: Option<string>)

  predicate ValidBiospecimen(b: Biospecimen) {
    && ValidMetadata(b.meta)
    && Fits(b.specimen_ID, 16)
    && FitsOpt(b.specimen_ID_local, 25)
    && FitsOpt(b.specimen_parent_ID, 16)
    && In(Specimen, b.specimen_type)
    && In(AnatomicalSite, b.anatomical_site)
    && In(TumorTissue, b.tumor_tissue_type)
    && In(Precancers, b.precancer_type)
    && FitsOpt(b.precancer_type_other, 100)
    && In(Laterality, b.specimen_laterality)
    && In(RulesOfAcquisition, b.acquisition_method)
    && FitsOpt(b.acquisition_method_other, 100)
    && In(Preserves, b.preservation_method)
    && FitsOpt(b.preservation_method_other, 100)
    && In(Fixatives, b.fixative_used)
    && FitsOpt(b.fixatives_other, 100)
    && In(Analytes, b.analyte_type)
    && FitsOpt(b.analyte_type_other, 100)
    && In(Storage, b.storage_method)
    && FitsOpt(b.storage_method_other, 30)
    && In(SlideCharges, b.slide_charge_type)
    && InOpt(Packaging, b.shipping_conditions)
    && InOpt(Destinations, b.shipping_destination)
    && FitsOpt(b.inscribed_clinicalCore_participant_ID, 14)
    && FitsOpt(b.clinicalCore_participant_ID, 14)
    && Int32(b.days_to_collection)
    && Int32(b.time_excision_to_processing)
    && Int32Opt(b.fixation_duration)
    && Int32(b.processing_duration)
    && Int32Opt(b.protocol_number)
    && Int32Opt(b.protocol_version)
    && Int32(b.days_to_storage)
    && Int32Opt(b.days_to_shipping)
  }

  /** A specimen adjacent to another. `adjacent_specimen_ID` is a free string, not a foreign key:
      it may name no specimen. The row may belong to one biospecimen. */
  datatype AdjacentSpecimen = AdjacentSpecimen(
    identifier: int,
    adjacent_specimen_ID: string,
    biospecimen_identifier: Option<string>)

  predicate ValidAdjacentSpecimen(a: AdjacentSpecimen) {
    Int32(a.identifier) && Fits(a.adjacent_specimen_ID, 16) && FitsOpt(a.biospecimen_identifier, 16)
  }

  // ---------------------------------------------------------------------------------------------
  // Genomics

  /** The columns of the `smart3SeqGenomics` table besides its key. */
  datatype Smart3SeqFields = Smart3SeqFields(
    input_type: nat,
    number_PCR_cycles: int,
    number_libraries_in_pool: int,
    index_sequence: string,
    indexing_type: nat,
    indexing_type_other: Option<string>)

  predicate ValidSmart3Seq(s: Smart3SeqFields) {
    && In(Smart3SeqInput, s.input_type)
    && Fits(s.index_sequence, 30)
    && In(Smart3SeqIndexing, s.indexing_type)
    && FitsOpt(s.indexing_type_other, 20)
    && Int32(s.number_PCR_cycles)
    && Int32(s.number_libraries_in_pool)
  }

  /** What distinguishes the genomics classes. */
  datatype GenomicsDetail = PlainGenomics | Smart3Seq(s: Smart3SeqFields)

  /** A genomics record, keyed by `specimen_ID`; the subclass shares the key. It may name a
      clinical core and a biospecimen, each independently of the other and of its inscribed
      references. */
  datatype Genomics = Genomics(
    meta: Metadata,
    specimen_ID: string,
    sequencing_center: int,
    sequencing_date: Date,
    sequencing_batch_id: string,
    library_name: string,
    library_strategy: nat,
    library_source: nat,
    library_selection: nat,
    library_strand: nat,
    library_layout: Option<bool>,
    sequencing_platform: nat,
    read_length: Option<string>,
    rin: Option<real>,
    adapter_name: Option<string>,
    adapter_sequence: Option<string>,
    flow_cell_barcode: Option<string>,
    size_selection_range: Option<int>,
    target_capture_kit_target_region: Option<string>,
    inscribed_clinicalCore_participant_ID: Option<string>,
    inscribed_biospecimen_specimen_ID: Option<string>,
    clinicalCore_participant_ID: Option<string>,
    biospecimen_specimen_ID: Option<string>,
    detail: GenomicsDetail)

  predicate ValidGenomics(g: Genomics) {
    && ValidMetadata(g.meta)
    && Fits(g.specimen_ID, 50)
    && ValidDate(g.sequencing_date)
    && Fits(g.sequencing_batch_id, 12)
    && Fits(g.library_name, 40)
    && In(SequencingTechnique, g.library_strategy)
    && In(SequencingOrigin, g.library_source)
    && In(GenomicMethod, g.library_selection)
    && In(GenomicStranding, g.library_strand)
    && In(GenomicAnalyzer, g.sequencing_platform)
    && FitsOpt(g.read_length, 10)
    && FitsOpt(g.adapter_name, 40)
    && FitsOpt(g.adapter_sequence, 20)
    && FitsOpt(g.flow_cell_barcode, 20)
    && FitsOpt(g.target_capture_kit_target_region, 50)
    && FitsOpt(g.inscribed_clinicalCore_participant_ID, 50)
    && FitsOpt(g.inscribed_biospecimen_specimen_ID, 50)
    && FitsOpt(g.clinicalCore_participant_ID, 50)
    && FitsOpt(g.biospecimen_specimen_ID, 50)
    && (g.detail.Smart3Seq? ==> ValidSmart3Seq(g.detail.s))
    && Int32(g.sequencing_center)
    && Int32Opt(g.size_selection_range)
  }

  /** The mapped genomics classes. */
  datatype GenomicsKind = GenomicsBase | Smart3SeqKind

  function GenomicsKindOf(d: GenomicsDetail): GenomicsKind {
    match d
    case PlainGenomics => GenomicsBase
    case Smart3Seq(_) => Smart3SeqKind
  }

  /** The `polymorphic_identity` of each genomics class. */
  function GenomicsIdentity(k: GenomicsKind): (r: string)
    ensures Fits(r, 24)
  {
    match k
    case GenomicsBase => "genomics"
    case Smart3SeqKind => "smart3SeqGenomics"
  }

  /** The genomics class a discriminator value names, if any. */
  function GenomicsKindFor(s: string): (r: Option<GenomicsKind>)
    ensures r.Some? ==> GenomicsIdentity(r.value) == s
  {
    if s == "genomics" then Some(GenomicsBase)
    else if s == "smart3SeqGenomics" then Some(Smart3SeqKind)
    else None
  }

  /** A string names a genomics class exactly when it is that class's identity. */
  lemma GenomicsIdentityRoundTrip(k: GenomicsKind, s: string)
    ensures GenomicsKindFor(s) == Some(k) <==> GenomicsIdentity(k) == s
  {
  }

  /** The `genomicType` column of a genomics row. */
  function GenomicType(g: Genomics): (r: string)
    ensures Fits(r, 24)
    ensures GenomicsKindFor(r) == Some(GenomicsKindOf(g.detail))
  {
    GenomicsIdentity(GenomicsKindOf(g.detail))
  }

  // ---------------------------------------------------------------------------------------------
  // Imaging

  /** An image, keyed by `identifier`; it may belong to a clinical core, a biospecimen, both or
      neither. */
  datatype Imaging = Imaging(
    meta: Metadata,
    identifier: int,
    some_attribute: Option<int>,
    inscribed_clinicalCore_participant_ID: Option<string>,
    inscribed_biospecimen_specimen_ID: Option<string>,
    clinicalCore_participant_ID: Option<string>,
    biospecimen_specimen_ID: Option<string>)

  predicate ValidImaging(i: Imaging) {
    && ValidMetadata(i.meta)
    && FitsOpt(i.inscribed_clinicalCore_participant_ID, 50)
    && FitsOpt(i.inscribed_biospecimen_specimen_ID, 50)
    && FitsOpt(i.clinicalCore_participant_ID, 50)
    && FitsOpt(i.biospecimen_specimen_ID, 50)
    && Int32(i.identifier)
    && Int32Opt(i.some_attribute)
  }
}
