/** The JSON encoders of `mcl/sickbay/json.py`: each encoder's `default` turns one object into a
    dict by taking its parent encoder's dict and assigning more keys. The functions here define
    what each encoder returns; the class `Dict` and the methods below build the same dicts the way
    the encoders do, by successive assignments. */
module Encoder {
  import opened Wrappers
  import opened PyValues

  // ---------------------------------------------------------------------------------------------
  // The classes the encoders test with `isinstance` and look up in their tables.

  /** The declarative base of every mapped class. */
  const BaseClass: Cls := Cls("mcl.sickbay.model.base", "Base", [])
  const LabCASMetadataClass: Cls := Cls("mcl.sickbay.model.base", "LabCASMetadata", [])
  const ClinicalCoreClass: Cls := Cls("mcl.sickbay.model.clinicalcore", "ClinicalCore", [BaseClass, LabCASMetadataClass])
  const BiospecimenClass: Cls := Cls("mcl.sickbay.model.specimens", "Biospecimen", [BaseClass, LabCASMetadataClass])
  const GenomicsClass: Cls := Cls("mcl.sickbay.model.genomics", "Genomics", [BaseClass, LabCASMetadataClass])
  const Smart3SeqGenomicsClass: Cls := Cls("mcl.sickbay.model.genomics", "Smart3SeqGenomics", [GenomicsClass])
  const ImagingClass: Cls := Cls("mcl.sickbay.model.images", "Imaging", [BaseClass, LabCASMetadataClass])
  const OrganClass: Cls := Cls("mcl.sickbay.model.organs", "Organ", [BaseClass, LabCASMetadataClass])
  const BreastOrganClass: Cls := Cls("mcl.sickbay.model.organs", "BreastOrgan", [OrganClass])
  const ProstateOrganClass: Cls := Cls("mcl.sickbay.model.organs", "ProstateOrgan", [OrganClass])
  /** The model package defines no lung or pancreas organ; these stand for the classes the encoders
      import, placed beside the other organs. */
  const LungOrganClass: Cls := Cls("mcl.sickbay.model.organs", "LungOrgan", [OrganClass])
  const PancreasOrganClass: Cls := Cls("mcl.sickbay.model.organs", "PancreasOrgan", [OrganClass])

  // ---------------------------------------------------------------------------------------------
  // The attribute tuples each encoder copies with `addAttributes`.

  function MetadataAttributes(): seq<string> { ["fileName", "siteID", "submittingInvestigatorID", "processingLevel", "fileType", "consortium", "protocolID", "dateFileGenerated"] }
  function BreastAttributes(): seq<string> { ["anchor_type", "grade", "laterality", "site", "size", "necrosis", "necrosis_location", "surgical_margin", "recurrence", "pathologic_T_stage_7", "pathologic_N_stage_7", "pathologic_M_stage_7", "clinical_T_stage_7", "clinical_N_stage_7", "clinical_M_stage_7", "disease_stage_7", "path_TNM_class_T_8", "path_TNM_class_M_8", "clinical_TNM_class_T_8", "clinical_TNM_class_N_8", "clinical_TNM_class_M_8", "disease_stage_ajcc_8", "genetic_testing", "brca1", "brca2", "estrogen_receptor", "er_percent_positivity", "progesterone_receptor", "her2_immunohistochemistry", "her2_in_situ_hybridization", "ki_67_percent_positive_nuclei", "menopausal_status", "ecog_score", "method_of_detection", "days_to_detection_date", "days_to_last_screening_mammo", "days_to_last_negative_screening_mammo", "detected_between_screening_intervals", "multifocal_disease", "multicentric_disease", "imaging_workup", "birads_density"] }
  function ProstateAttributes(): seq<string> { ["histologic_type", "histologic_subtype", "morphologic_cytologic_subtypes", "morphologic_cytologic_subcategories", "gleason_score_dominant_nodule", "gleason_grade_group", "percent_gleason_pattern_4", "tumor_extent", "location_dominant_nodule", "location_secondary_nodule", "local_extent", "location_extent_extraprostatic_extension", "margins", "location_nature_positive_margins", "summed_length_positive_margin", "highest_grade_at_margin", "seminal_vesicle_invasion", "lymphatic_invasion", "pelvic_lymph_nodes", "tumor_in_pelvic_lymph_nodes", "lymph_nodes_metastatic_carcinoma", "lymph_nodes_tested", "lymph_node_location", "extranodal_extension_identified", "ajcc_extent_of_invasion_primary_tumor", "ajcc_extent_of_invasion_regional_lymph_nodes", "ajcc_extent_of_invasion_summary_margins", "ajcc_staging_system_edition", "ajcc_clinical_m", "ajcc_clinical_n", "ajcc_clinical_t", "ajcc_clinical_stage", "ajcc_pathologic_m", "ajcc_pathologic_n", "ajcc_pathologic_t", "ajcc_pathologic_stage", "additonal_findings_uninvolved_prostate", "prior_malignancy", "prior_treatment"] }
  function LungAttributes(): seq<string> { ["histopathology_precancer_type", "histopathology_precancer_type_other", "collection_method", "lymphocytes", "neutrophils", "plasma_cells", "macrophages", "lung_location", "lobe_bronchial_location", "segment", "branch", "histologic_type", "primary_adenocarcinoma_differentiation_type", "tumor_grade", "ajcc_staging_system_edition", "ajcc_clinical_m", "ajcc_clinical_n", "ajcc_clinical_t", "ajcc_clinical_stage", "ajcc_pathologic_m", "ajcc_pathologic_n", "ajcc_pathologic_t", "ajcc_pathologic_stage", "lymph_nodes_tested", "lymph_nodes_positive", "prior_malignancy", "prior_treatment"] }
  function PancreasAttributes(): seq<string> { ["histological_grading", "histological_subtypes_ipmn", "tumor_pathology_location", "lesion_focality", "number_lesions", "mitotic_rate", "necrosis", "path_number_of_tumors", "path_tumor_size_largest_lesion", "lesion_size", "path_ipmn_grade_at_excision", "final_path_duct_communication", "path_management_recommendation", "path_acc_num_diag_biopsy", "path_immunohistochemistry", "path_immunohistochemistry_outcome", "histology_grading", "exocrine_pathologic_T_AJCC_8", "exocrine_pathologic_N_AJCC_8", "exocrine_pathologic_M_AJCC_8", "exocrine_clinical_T_AJCC_8", "exocrine_clinical_N_AJCC_8", "exocrine_clinical_M_AJCC_8", "exocrine_group_stage_AJCC_8", "neuroendocrine_pathologic_T_AJCC_8", "neuroendocrine_pathologic_N_AJCC_8", "neuroendocrine_pathologic_M_AJCC_8", "neuroendocrine_clinical_T_AJCC_8", "neuroendocrine_clinical_N_AJCC_8", "neuroendocrine_clinical_M_AJCC_8", "neuroendocrine_group_stage"] }
  function GenomicsAttributes(): seq<string> { ["sequencing_center", "sequencing_batch_id", "library_name", "library_strategy", "library_source", "library_selection", "library_strand", "library_layout", "sequencing_platform", "read_length", "rin", "adapter_name", "adapter_sequence", "flow_cell_barcode", "size_selection_range", "target_capture_kit_target_region"] }
  function Smart3SeqAttributes(): seq<string> { ["input_type", "number_PCR_cycles", "number_libraries_in_pool", "index_sequence", "indexing_type", "indexing_type_other"] }
  function ClinicalCoreAttributes(): seq<string> { ["anchor_type", "year_of_birth", "age_at_index", "height", "days_to_weight_recorded", "weight", "days_to_diagnosis", "year_of_diagnosis", "age_at_diagnosis", "days_to_detection_date", "days_to_last_screen_date", "days_to_last_neg_screen_date", "gender", "ethnicity", "race", "education", "income", "prior_cancer", "current_lesion_type", "how_detected", "mode_of_detection", "lesion_type", "specimen_collected", "biomarker_tested", "relative_with_cancer_history", "tobacco_smoking_status", "type_tobacco_used", "alcohol_history", "days_to_consent", "days_to_enrollment", "vital_status", "days_to_vital_status_reference", "days_to_birth", "age_at_menses_start", "menses_stop", "age_at_menses_stop", "relative_with_cancer_history_count", "tobacco_smoking_onset_age", "tobacco_smoking_quit_age", "years_smoked", "cigarettes_per_day", "alcohol_drinks_per_day", "alcohol_days_per_week"] }
  function BiospecimenAttributes(): seq<string> { ["specimen_ID_local", "specimen_parent_ID", "specimen_type", "anatomical_site", "tumor_tissue_type", "precancer_type", "precancer_type_other", "specimen_laterality", "acquisition_method", "acquisition_method_other", "days_to_collection", "time_excision_to_processing", "ischemic_time", "portion_weight", "total_volume", "preservation_method", "preservation_method_other", "fixative_used", "fixatives_other", "fixation_duration", "processing_duration", "analyte_type", "analyte_type_other", "protocol_number", "protocol_version", "storage_method", "storage_method_other", "days_to_storage", "slide_charge_type", "section_thickness", "days_to_shipping", "shipping_conditions", "shipping_destination"] }
  function ImagingAttributes(): seq<string> { ["some_attribute"] }

  /** The attribute tuples of all the encoders, one field per encoder that declares one. The
      encoders below are defined for any tuples; `SourceTuples` holds the declared ones. */
  datatype Tuples = Tuples(
    metadata: seq<string>,
    breast: seq<string>,
    prostate: seq<string>,
    lung: seq<string>,
    pancreas: seq<string>,
    genomics: seq<string>,
    smart3Seq: seq<string>,
    clinicalCore: seq<string>,
    biospecimen: seq<string>,
    imaging: seq<string>)

  const SourceTuples: Tuples := Tuples(MetadataAttributes(), BreastAttributes(), ProstateAttributes(),
    LungAttributes(), PancreasAttributes(), GenomicsAttributes(), Smart3SeqAttributes(),
    ClinicalCoreAttributes(), BiospecimenAttributes(), ImagingAttributes())

  // ---------------------------------------------------------------------------------------------
  // The encoder classes.

  datatype Encoder =
    | SickbayEncoder
    | LabCASMetadataEncoder
    | OrganEncoder
    | BreastOrganEncoder
    | ProstateOrganEncoder
    | LungOrganEncoder
    | PancreasOrganEncoder
    | GenomicsEncoder
    | Smart3SeqGenomicsEncoder
    | ClinicalCoreEncoder
    | BiospecimenEncoder
    | ImagingEncoder
  {
    /** The encoder this one subclasses, which `super().default` reaches. */
    function Parent(): Encoder
      requires this != SickbayEncoder
    {
      match this
      case LabCASMetadataEncoder => SickbayEncoder
      case BreastOrganEncoder => OrganEncoder
      case ProstateOrganEncoder => OrganEncoder
      case LungOrganEncoder => OrganEncoder
      case PancreasOrganEncoder => OrganEncoder
      case Smart3SeqGenomicsEncoder => GenomicsEncoder
      case _ => LabCASMetadataEncoder
    }

    /** The distance to `SickbayEncoder` along `Parent`. */
    function Height(): nat {
      match this
      case SickbayEncoder => 0
      case LabCASMetadataEncoder => 1
      case BreastOrganEncoder => 3
      case ProstateOrganEncoder => 3
      case LungOrganEncoder => 3
      case PancreasOrganEncoder => 3
      case Smart3SeqGenomicsEncoder => 3
      case _ => 2
    }

    /** The class this encoder's `isinstance` test names. */
    function Handled(): Cls
      requires this != SickbayEncoder
    {
      match this
      case LabCASMetadataEncoder => LabCASMetadataClass
      case OrganEncoder => OrganClass
      case BreastOrganEncoder => BreastOrganClass
      case ProstateOrganEncoder => ProstateOrganClass
      case LungOrganEncoder => LungOrganClass
      case PancreasOrganEncoder => PancreasOrganClass
      case GenomicsEncoder => GenomicsClass
      case Smart3SeqGenomicsEncoder => Smart3SeqGenomicsClass
      case ClinicalCoreEncoder => ClinicalCoreClass
      case BiospecimenEncoder => BiospecimenClass
      case ImagingEncoder => ImagingClass
    }
  }

  /** The exact-class tables `ORGAN_ENCODERS` and `GENOMICS_ENCODERS`. */
  datatype Table = OrganEncoders | GenomicsEncoders

  /** How the members of a child collection are encoded: always with one encoder, or with the
      encoder a table gives for the member's class. */
  datatype ChildEncoding = Using(enc: Encoder) | ByClass(table: Table)

  /** When a projected collection is written: `x is not None and len(x) > 0`, or `if x:`. */
  datatype Guard = NonEmpty | IfTruthy

  /** `TABLE[x.__class__]`; only objects have a class the tables know. */
  function EncoderFor(t: Table, x: Py): (r: Option<Encoder>)
    ensures r.Some? ==> x.PyObj? && r.value != SickbayEncoder && x.cls == r.value.Handled()
  {
    if !x.PyObj? then None
    else match t
      case OrganEncoders =>
        if x.cls == OrganClass then Some(OrganEncoder)
        else if x.cls == BreastOrganClass then Some(BreastOrganEncoder)
        else if x.cls == ProstateOrganClass then Some(ProstateOrganEncoder)
        else if x.cls == LungOrganClass then Some(LungOrganEncoder)
        else if x.cls == PancreasOrganClass then Some(PancreasOrganEncoder)
        else None
      case GenomicsEncoders =>
        if x.cls == GenomicsClass then Some(GenomicsEncoder)
        else if x.cls == Smart3SeqGenomicsClass then Some(Smart3SeqGenomicsEncoder)
        else None
  }

  // ---------------------------------------------------------------------------------------------
  // What the encoders return.

  /** What `addAttributes` stores for an attribute value: an enumeration member as the two-entry dict
      of its label and token, anything else as it is. */
  function AttributeValue(v: Py): Py {
    if v.PyEnum? then PyDict([("label", PyStr(v.value)), ("token", PyStr(v.name))]) else v
  }

  /** The dict `addAttributes(obj, names, d)` leaves behind, the names taken in order. */
  function WithAttributes(d: Entries, obj: Py, names: seq<string>): Entries
    decreases |names|
  {
    if |names| == 0 then d
    else
      var before := WithAttributes(d, obj, names[..|names| - 1]);
      var name := names[|names| - 1];
      var value := GetAttrOr(obj, name);
      if value == PyNone then before else Assign(before, name, AttributeValue(value))
  }

  /** `SickbayEncoder.default`: a date becomes its (year, month, day) triple, an enumeration member
      its name; `json.JSONEncoder.default` rejects anything else. */
  function BaseDefault(x: Py): Result<Py, Error> {
    match x
    case PyDate(y, m, d) => Success(PyTuple([PyInt(y), PyInt(m), PyInt(d)]))
    case PyEnum(name, _) => Success(PyStr(name))
    case _ => Failure(NotSerializable)
  }

  /** The values reached from `x` along the attribute path, e.g. `x.hp_type.name`. */
  function Follow(x: Py, path: seq<string>): Result<Py, Error>
    decreases |path|
  {
    if |path| == 0 then Success(x)
    else
      var a :- GetAttr(x, path[0]);
      Follow(a, path[1..])
  }

  /** The list comprehension `[i.<path> for i in items]`, failing at the first item that fails. */
  function FollowAll(items: seq<Py>, path: seq<string>): (r: Result<seq<Py>, Error>)
    ensures r.Success? <==> forall i :: 0 <= i < |items| ==> Follow(items[i], path).Success?
    ensures r.Success? ==> |r.value| == |items|
    ensures r.Success? ==> forall i :: 0 <= i < |items| ==> r.value[i] == Follow(items[i], path).value
    decreases |items|
  {
    if |items| == 0 then Success([])
    else
      var h :- Follow(items[0], path);
      var t :- FollowAll(items[1..], path);
      Success([h] + t)
  }

  /** The outcomes of a comprehension, in order: the first failure, or all the values. */
  function Collect(rs: seq<Result<Py, Error>>): (r: Result<seq<Py>, Error>)
    ensures r.Success? <==> forall i :: 0 <= i < |rs| ==> rs[i].Success?
    ensures r.Success? ==> |r.value| == |rs| && forall i :: 0 <= i < |rs| ==> rs[i] == Success(r.value[i])
    ensures r.Failure? ==> exists i :: 0 <= i < |rs| && rs[i] == Failure(r.error) && forall j :: 0 <= j < i ==> rs[j].Success?
    decreases |rs|
  {
    if |rs| == 0 then Success([])
    else
      var h :- rs[0];
      var t :- Collect(rs[1..]);
      Success([h] + t)
  }

  /** `d[key] = value` when there is a value to write. */
  function SetIfSome(d: Entries, key: string, value: Option<Py>): Entries {
    if value.Some? then Assign(d, key, value.value) else d
  }

  /** The list of `i.<path>` for the items of `obj.<key>`, or `None` when the guard says the
      collection is empty. */
  function Projection(obj: Py, key: string, path: seq<string>, guard: Guard): Result<Option<Py>, Error> {
    var v :- GetAttr(obj, key);
    var present :-
      match guard
      case IfTruthy => Success(Truthy(v))
      case NonEmpty =>
        if v == PyNone then Success(false)
        else
          var n :- Len(v);
          Success(n > 0);
    if !present then Success(None)
    else
      var items :- Iterate(v);
      var values :- FollowAll(items, path);
      Success(Some(PyList(values)))
  }

  function Weight(x: Py): nat {
    if x.PyObj? then 1 else 0
  }

  predicate Handles(enc: Encoder, x: Py) {
    enc != SickbayEncoder && x.PyObj? && IsSubclass(x.cls, enc.Handled())
  }

  /** `enc.default(x)`: the encoder whose class `x` is an instance of builds the node; any other
      passes `x` on to its parent. */
  function Default(tu: Tuples, enc: Encoder, x: Py): Result<Py, Error>
    decreases Weight(x), x, enc.Height(), 3
  {
    if enc == SickbayEncoder then BaseDefault(x)
    else if Handles(enc, x) then
      var d :- Node(tu, enc, x);
      Success(PyDict(d))
    else Default(tu, enc.Parent(), x)
  }

  /** `d = super().default(obj)`, which must be a dict for the keys that follow. */
  function SuperDict(tu: Tuples, enc: Encoder, x: Py): Result<Entries, Error>
    requires enc != SickbayEncoder
    decreases Weight(x), x, enc.Height(), 0
  {
    match Default(tu, enc.Parent(), x)
    case Failure(e) => Failure(e)
    case Success(PyDict(d)) => Success(d)
    case Success(_) => Failure(NotSubscriptable)
  }

  /** `SuperDict` in terms of the parent encoder's result. */
  lemma SuperDictOf(tu: Tuples, enc: Encoder, x: Py, p: Result<Py, Error>)
    requires enc != SickbayEncoder && p == Default(tu, enc.Parent(), x)
    ensures SuperDict(tu, enc, x) == if p.Failure? then Failure(p.error) else if p.value.PyDict? then Success(p.value.entries) else Failure(NotSubscriptable)
  {
  }

  /** The encoding of the child collection `x.<key>`, or `None` when it is falsy. */
  function Children(tu: Tuples, x: Py, key: string, child: ChildEncoding): Result<Option<Py>, Error>
    requires x.PyObj?
    decreases 1, x, 0, 0
  {
    if key !in x.attrs then Failure(AttributeError(key))
    else
      var v := x.attrs[key];
      if !Truthy(v) then Success(None)
      else
        var items :- Iterate(v);
        var encoded :- Collect(seq(|items|, i requires 0 <= i < |items| => EncodeChild(tu, child, items[i])));
        Success(Some(PyList(encoded)))
  }

  /** One member of a child collection, encoded as `ClinicalCoreEncoder` and `BiospecimenEncoder`
      do it. */
  function EncodeChild(tu: Tuples, child: ChildEncoding, x: Py): Result<Py, Error>
    decreases Weight(x), x, 4, 0
  {
    match child
    case Using(enc) => Default(tu, enc, x)
    case ByClass(t) =>
      match EncoderFor(t, x)
      case None => Failure(KeyError)
      case Some(enc) => Default(tu, enc, x)
  }

  /** The attributes a subtype encoder adds to its parent's dict. */
  function OwnAttributes(tu: Tuples, enc: Encoder): seq<string> {
    match enc
    case BreastOrganEncoder => tu.breast
    case ProstateOrganEncoder => tu.prostate
    case LungOrganEncoder => tu.lung
    case PancreasOrganEncoder => tu.pancreas
    case Smart3SeqGenomicsEncoder => tu.smart3Seq
    case _ => []
  }

  predicate IsSubtypeEncoder(enc: Encoder) {
    enc.BreastOrganEncoder? || enc.ProstateOrganEncoder? || enc.LungOrganEncoder? || enc.PancreasOrganEncoder? || enc.Smart3SeqGenomicsEncoder?
  }

  /** The dict the `isinstance` branch of `enc.default(x)` returns. */
  function Node(tu: Tuples, enc: Encoder, x: Py): Result<Entries, Error>
    requires Handles(enc, x)
    decreases Weight(x), x, enc.Height(), 2
  {
    if IsSubtypeEncoder(enc) then
      // the organ subtypes and `Smart3SeqGenomicsEncoder`: the parent's dict and their own attributes
      var d :- SuperDict(tu, enc, x);
      Success(WithAttributes(d, x, OwnAttributes(tu, enc)))
    else match enc
    case LabCASMetadataEncoder =>
      var id :- GetAttr(x, "labcasID");
      Success(WithAttributes(Assign(Assign([], Tag(x.cls), PyBool(true)), "labcasID", id), x, tu.metadata))
    case OrganEncoder =>
      var d :- SuperDict(tu, enc, x);
      var id :- GetAttr(x, "identifier");
      var t :- GetAttr(x, "organType");
      var hp :- Projection(x, "histopathology_precancer_types", ["hp_type", "name"], NonEmpty);
      Success(SetIfSome(Assign(Assign(d, "identifier", id), "organType", t), "histopathology_precancer_types", hp))
    case GenomicsEncoder =>
      var d :- SuperDict(tu, enc, x);
      var id :- GetAttr(x, "specimen_ID");
      var when :- GetAttr(x, "sequencing_date");
      var y :- GetAttr(when, "year");
      var m :- GetAttr(when, "month");
      var day :- GetAttr(when, "day");
      var d := Assign(Assign(d, "specimen_ID", id), "sequencing_date", PyTuple([y, m, day]));
      Success(WithAttributes(d, x, tu.genomics))
    case ClinicalCoreEncoder =>
      var d :- SuperDict(tu, enc, x);
      var id :- GetAttr(x, "participant_ID");
      ParticipantCollections(tu, x, WithAttributes(Assign(d, "participant_ID", id), x, tu.clinicalCore))
    case BiospecimenEncoder =>
      var d :- SuperDict(tu, enc, x);
      var id :- GetAttr(x, "specimen_ID");
      SpecimenCollections(tu, x, WithAttributes(Assign(d, "specimen_ID", id), x, tu.biospecimen))
    case ImagingEncoder =>
      var d :- SuperDict(tu, enc, x);
      var id :- GetAttr(x, "identifier");
      Success(WithAttributes(Assign(d, "identifier", id), x, tu.imaging))
    case _ => assert false; Failure(KeyError)
  }

  /** The collections `ClinicalCoreEncoder` adds to a participant's dict `d`, in order: the
      projected lesion types, races and tobacco types, then the encoded biospecimens, genomics,
      images and organs. */
  function ParticipantCollections(tu: Tuples, x: Py, d: Entries): Result<Entries, Error>
    requires x.PyObj?
    decreases 1, x, 0, 1
  {
    var lesions :- Projection(x, "prior_lesions", ["lesion_type", "name"], NonEmpty);
    var d := SetIfSome(d, "prior_lesions", lesions);
    var races :- Projection(x, "core_races", ["race", "name"], NonEmpty);
    var d := SetIfSome(d, "core_races", races);
    var tobaccos :- Projection(x, "core_tobaccos", ["type_tobacco_used", "name"], NonEmpty);
    var d := SetIfSome(d, "core_tobaccos", tobaccos);
    var specimens :- Children(tu, x, "biospecimens", Using(BiospecimenEncoder));
    var d := SetIfSome(d, "biospecimens", specimens);
    var genomics :- Children(tu, x, "genomics", ByClass(GenomicsEncoders));
    var d := SetIfSome(d, "genomics", genomics);
    var images :- Children(tu, x, "images", Using(ImagingEncoder));
    var d := SetIfSome(d, "images", images);
    var organs :- Children(tu, x, "organs", ByClass(OrganEncoders));
    Success(SetIfSome(d, "organs", organs))
  }

  /** The collections `BiospecimenEncoder` adds to a specimen's dict `d`, in order: the projected
      adjacent specimen identifiers, then the encoded genomics and images. */
  function SpecimenCollections(tu: Tuples, x: Py, d: Entries): Result<Entries, Error>
    requires x.PyObj?
    decreases 1, x, 0, 1
  {
    var adjacent :- Projection(x, "adjacent_specimens", ["adjacent_specimen_ID"], IfTruthy);
    var d := SetIfSome(d, "adjacent_specimens", adjacent);
    var genomics :- Children(tu, x, "genomics", ByClass(GenomicsEncoders));
    var d := SetIfSome(d, "genomics", genomics);
    var images :- Children(tu, x, "images", Using(ImagingEncoder));
    Success(SetIfSome(d, "images", images))
  }

  // ---------------------------------------------------------------------------------------------
  // The encoders as they run: a dict object filled by successive assignments.

  /** A Python dict. */
  class Dict {
    var entries: Entries

    constructor (e: Entries)
      ensures entries == e
    {
      entries := e;
    }

    /** `d[key] = value`. */
    method Set(key: string, value: Py)
      modifies this
      ensures entries == Assign(old(entries), key, value)
    {
      entries := Assign(entries, key, value);
    }
  }

  /** `SickbayEncoder.addAttributes(obj, names, d)`. */
  method AddAttributes(obj: Py, names: seq<string>, d: Dict)
    modifies d
    ensures d.entries == WithAttributes(old(d.entries), obj, names)
  {
    for i := 0 to |names|
      invariant d.entries == WithAttributes(old(d.entries), obj, names[..i])
    {
      assert names[..i + 1][..i] == names[..i];
      var value := GetAttrOr(obj, names[i]);
      if value != PyNone {
        if value.PyEnum? {
          d.Set(names[i], PyDict([("label", PyStr(value.value)), ("token", PyStr(value.name))]));
        } else {
          d.Set(names[i], value);
        }
      }
    }
    assert names[..|names|] == names;
  }

  /** `enc.default(x)`. */
  method EncodeDefault(tu: Tuples, enc: Encoder, x: Py) returns (r: Result<Py, Error>)
    ensures r == Default(tu, enc, x)
    decreases enc.Height(), 3
  {
    if enc == SickbayEncoder {
      if x.PyDate? {
        return Success(PyTuple([PyInt(x.year), PyInt(x.month), PyInt(x.day)]));
      } else if x.PyEnum? {
        return Success(PyStr(x.name));
      }
      return Failure(NotSerializable);
    }
    if Handles(enc, x) {
      var d :- EncodeNode(tu, enc, x);
      return Success(PyDict(d.entries));
    }
    r := EncodeDefault(tu, enc.Parent(), x);
  }

  /** `d = super().default(obj)`. */
  method EncodeSuper(tu: Tuples, enc: Encoder, x: Py) returns (r: Result<Dict, Error>)
    requires enc != SickbayEncoder
    ensures r.Success? ==> fresh(r.value) && SuperDict(tu, enc, x) == Success(r.value.entries)
    ensures r.Failure? ==> SuperDict(tu, enc, x) == Failure(r.error)
    decreases enc.Height(), 0
  {
    var p := EncodeDefault(tu, enc.Parent(), x);
    SuperDictOf(tu, enc, x, p);
    if p.Failure? {
      return Failure(p.error);
    }
    if !p.value.PyDict? {
      return Failure(NotSubscriptable);
    }
    var d := new Dict(p.value.entries);
    return Success(d);
  }

  /** The `isinstance` branch of `enc.default(x)`. */
  method EncodeNode(tu: Tuples, enc: Encoder, x: Py) returns (r: Result<Dict, Error>)
    requires Handles(enc, x)
    ensures r.Success? ==> fresh(r.value) && Node(tu, enc, x) == Success(r.value.entries)
    ensures r.Failure? ==> Node(tu, enc, x) == Failure(r.error)
    decreases enc.Height(), 2
  {
    match enc
    case LabCASMetadataEncoder => r := EncodeMetadata(tu, x);
    case OrganEncoder => r := EncodeOrgan(tu, x);
    case GenomicsEncoder => r := EncodeGenomics(tu, x);
    case ClinicalCoreEncoder => r := EncodeClinicalCore(tu, x);
    case BiospecimenEncoder => r := EncodeBiospecimen(tu, x);
    case ImagingEncoder => r := EncodeImaging(tu, x);
    case BreastOrganEncoder => r := EncodeSubtype(tu, enc, x);
    case ProstateOrganEncoder => r := EncodeSubtype(tu, enc, x);
    case LungOrganEncoder => r := EncodeSubtype(tu, enc, x);
    case PancreasOrganEncoder => r := EncodeSubtype(tu, enc, x);
    case Smart3SeqGenomicsEncoder => r := EncodeSubtype(tu, enc, x);
  }

  /** `LabCASMetadataEncoder.default` for a metadata object: the class tag, `labcasID`, then the
      provenance attributes. */
  method EncodeMetadata(tu: Tuples, x: Py) returns (r: Result<Dict, Error>)
    requires Handles(LabCASMetadataEncoder, x)
    ensures r.Success? ==> fresh(r.value) && Node(tu, LabCASMetadataEncoder, x) == Success(r.value.entries)
    ensures r.Failure? ==> Node(tu, LabCASMetadataEncoder, x) == Failure(r.error)
    decreases 1, 1
  {
    var id :- GetAttr(x, "labcasID");
    var d := new Dict([]);
    d.Set(Tag(x.cls), PyBool(true));
    d.Set("labcasID", id);
    AddAttributes(x, tu.metadata, d);
    return Success(d);
  }

  /** `OrganEncoder.default` for an organ: the metadata dict extended by `identifier`, `organType`
      and the precancer types when there are any. */
  method EncodeOrgan(tu: Tuples, x: Py) returns (r: Result<Dict, Error>)
    requires Handles(OrganEncoder, x)
    ensures r.Success? ==> fresh(r.value) && Node(tu, OrganEncoder, x) == Success(r.value.entries)
    ensures r.Failure? ==> Node(tu, OrganEncoder, x) == Failure(r.error)
    decreases 2, 1
  {
    var d :- EncodeSuper(tu, OrganEncoder, x);
    var id :- GetAttr(x, "identifier");
    d.Set("identifier", id);
    var t :- GetAttr(x, "organType");
    d.Set("organType", t);
    var hp :- Projection(x, "histopathology_precancer_types", ["hp_type", "name"], NonEmpty);
    SetIfPresent(d, "histopathology_precancer_types", hp);
    return Success(d);
  }

  /** The `isinstance` branch of the organ subtype encoders and of `Smart3SeqGenomicsEncoder`:
      `d = super().default(obj)`, then their own attribute tuple. */
  method EncodeSubtype(tu: Tuples, enc: Encoder, x: Py) returns (r: Result<Dict, Error>)
    requires IsSubtypeEncoder(enc) && Handles(enc, x)
    ensures r.Success? ==> fresh(r.value) && Node(tu, enc, x) == Success(r.value.entries)
    ensures r.Failure? ==> Node(tu, enc, x) == Failure(r.error)
    decreases enc.Height(), 1
  {
    var d :- EncodeSuper(tu, enc, x);
    AddAttributes(x, OwnAttributes(tu, enc), d);
    return Success(d);
  }

  /** `GenomicsEncoder.default` for a genomics record: `specimen_ID`, the sequencing date as a
      (year, month, day) triple, then the genomics attributes. */
  method EncodeGenomics(tu: Tuples, x: Py) returns (r: Result<Dict, Error>)
    requires Handles(GenomicsEncoder, x)
    ensures r.Success? ==> fresh(r.value) && Node(tu, GenomicsEncoder, x) == Success(r.value.entries)
    ensures r.Failure? ==> Node(tu, GenomicsEncoder, x) == Failure(r.error)
    decreases 2, 1
  {
    var d :- EncodeSuper(tu, GenomicsEncoder, x);
    var id :- GetAttr(x, "specimen_ID");
    d.Set("specimen_ID", id);
    var when :- GetAttr(x, "sequencing_date");
    var y :- GetAttr(when, "year");
    var m :- GetAttr(when, "month");
    var day :- GetAttr(when, "day");
    d.Set("sequencing_date", PyTuple([y, m, day]));
    AddAttributes(x, tu.genomics, d);
    return Success(d);
  }

  /** `ClinicalCoreEncoder.default` for a participant: `participant_ID`, the attributes, then each
      collection that is non-empty. */
  method EncodeClinicalCore(tu: Tuples, x: Py) returns (r: Result<Dict, Error>)
    requires Handles(ClinicalCoreEncoder, x)
    ensures r.Success? ==> fresh(r.value) && Node(tu, ClinicalCoreEncoder, x) == Success(r.value.entries)
    ensures r.Failure? ==> Node(tu, ClinicalCoreEncoder, x) == Failure(r.error)
    decreases 2, 1
  {
    var d :- EncodeSuper(tu, ClinicalCoreEncoder, x);
    var id :- GetAttr(x, "participant_ID");
    d.Set("participant_ID", id);
    AddAttributes(x, tu.clinicalCore, d);
    var lesions :- Projection(x, "prior_lesions", ["lesion_type", "name"], NonEmpty);
    SetIfPresent(d, "prior_lesions", lesions);
    var races :- Projection(x, "core_races", ["race", "name"], NonEmpty);
    SetIfPresent(d, "core_races", races);
    var tobaccos :- Projection(x, "core_tobaccos", ["type_tobacco_used", "name"], NonEmpty);
    SetIfPresent(d, "core_tobaccos", tobaccos);
    var specimens :- Children(tu, x, "biospecimens", Using(BiospecimenEncoder));
    SetIfPresent(d, "biospecimens", specimens);
    var genomics :- Children(tu, x, "genomics", ByClass(GenomicsEncoders));
    SetIfPresent(d, "genomics", genomics);
    var images :- Children(tu, x, "images", Using(ImagingEncoder));
    SetIfPresent(d, "images", images);
    var organs :- Children(tu, x, "organs", ByClass(OrganEncoders));
    SetIfPresent(d, "organs", organs);
    return Success(d);
  }

  /** `BiospecimenEncoder.default` for a specimen: `specimen_ID`, the attributes, then the adjacent
      specimens, genomics and images when present. */
  method EncodeBiospecimen(tu: Tuples, x: Py) returns (r: Result<Dict, Error>)
    requires Handles(BiospecimenEncoder, x)
    ensures r.Success? ==> fresh(r.value) && Node(tu, BiospecimenEncoder, x) == Success(r.value.entries)
    ensures r.Failure? ==> Node(tu, BiospecimenEncoder, x) == Failure(r.error)
    decreases 2, 1
  {
    var d :- EncodeSuper(tu, BiospecimenEncoder, x);
    var id :- GetAttr(x, "specimen_ID");
    d.Set("specimen_ID", id);
    AddAttributes(x, tu.biospecimen, d);
    var adjacent :- Projection(x, "adjacent_specimens", ["adjacent_specimen_ID"], IfTruthy);
    SetIfPresent(d, "adjacent_specimens", adjacent);
    var genomics :- Children(tu, x, "genomics", ByClass(GenomicsEncoders));
    SetIfPresent(d, "genomics", genomics);
    var images :- Children(tu, x, "images", Using(ImagingEncoder));
    SetIfPresent(d, "images", images);
    return Success(d);
  }

  /** `ImagingEncoder.default` for an image: `identifier`, then the imaging attributes. */
  method EncodeImaging(tu: Tuples, x: Py) returns (r: Result<Dict, Error>)
    requires Handles(ImagingEncoder, x)
    ensures r.Success? ==> fresh(r.value) && Node(tu, ImagingEncoder, x) == Success(r.value.entries)
    ensures r.Failure? ==> Node(tu, ImagingEncoder, x) == Failure(r.error)
    decreases 2, 1
  {
    var d :- EncodeSuper(tu, ImagingEncoder, x);
    var id :- GetAttr(x, "identifier");
    d.Set("identifier", id);
    AddAttributes(x, tu.imaging, d);
    return Success(d);
  }

  /** `if <collection>: d[key] = <encoded collection>`. */
  method SetIfPresent(d: Dict, key: string, value: Option<Py>)
    modifies d
    ensures d.entries == SetIfSome(old(d.entries), key, value)
  {
    if value.Some? {
      d.Set(key, value.value);
    }
  }
}
