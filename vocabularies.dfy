/** The closed vocabularies of the clinical data model, one table per enumeration, each listing
    its declarations (token, label) in declaration order. `TestResults` declares
    `cannot_be_determined` as an alias of `data_not_available` (same label). */
module Vocabularies {
  import opened Vocabulary

  const Anchors: Vocab := [
    ("first_positive_biopsy_confirming_diagnosis_date", "First positive biopsy confirming diagnosis date"),
    ("first_imaging_date", "First imaging date"),
    ("highly_suspicious_lesion_imaging_date", "Highly suspicious lesion imaging date")
  ]

  const Gender: Vocab := [
    ("female", "Female"),
    ("male", "Male"),
    ("unknown", "Unknown"),
    ("unspecified", "Unspecified"),
    ("not_reported", "Not reported")
  ]

  const Ethnicity: Vocab := [
    ("hispanic", "Hispanic or Latino"),
    ("not_hispanic", "Not Hispanic or Latino"),
    ("unknown", "Unknown"),
    ("not_reported", "Not reported")
  ]

  const Race: Vocab := [
    ("white", "White"),
    ("american_inidan_or_alaska_native", "American Indian or Alaska Native"),
    ("black_or_african_american", "Black or African American"),
    ("asian", "Asian"),
    ("native_hawaiian_or_other_pacific_islander", "Native Hawaiian or other Pacific Islander"),
    ("other", "Other"),
    ("unknown", "Unknown"),
    ("not_reported", "Not reported")
  ]

  const VitalStatus: Vocab := [
    ("alive", "Alive"),
    ("dead", "Dead"),
    ("unknown", "Unknown"),
    ("not_reported", "Not reported")
  ]

  const Specimen: Vocab := [
    ("tissue", "Tissue"),
    ("blood", "Blood"),
    ("aliquot", "Aliquot"),
    ("analyte", "Analyte")
  ]

  const AnatomicalSite: Vocab := [
    ("breast", "Breast"),
    ("lung", "Lung"),
    ("pancreas", "Pancreas"),
    ("prostate", "Prostate")
  ]

  const Education: Vocab := [
    ("some_high_school", "Some high school"),
    ("high_school_graduate", "High school graduate"),
    ("post_high_school_training", "Post high school training"),
    ("some_college", "Some college"),
    ("college_graduate", "College graduate"),
    ("postgraduate_professional", "Postgraduate/professional"),
    ("unknown", "Unknown"),
    ("not_reported", "Not reported")
  ]

  const Income: Vocab := [
    ("ten_thousand_to_24999", "$10,000\U{2013}$24,999"),
    ("twenty_five_thousand_to_44999", "$25,000\U{2013}$44,999"),
    ("forty_five_thousand_to_74999", "$45,000\U{2013}$74,999"),
    ("seventy_five_thousand_to_100000", "$75,000\U{2013}$100,000"),
    ("greater_than_100000", "Greater than $100,000"),
    ("less_than_10000", "Less than $10,000"),
    ("refused", "Refused"),
    ("unknown", "Unknown"),
    ("not_reported", "Not reported")
  ]

  const PolarAnswer: Vocab := [
    ("yes", "Yes"),
    ("no", "No"),
    ("unknown", "Unknown"),
    ("not_reported", "Not reported"),
    ("refused", "Refused")
  ]

  const ImpertinentAnswer: Vocab := [
    ("yes", "Yes"),
    ("no", "No"),
    ("unknown", "Unknown"),
    ("not_reported", "Not reported"),
    ("not_applicable", "Not applicable")
  ]

  const ImpertinentPolarAnswer: Vocab := [
    ("yes", "Yes"),
    ("no", "No"),
    ("unknown", "Unknown"),
    ("not_reported", "Not reported"),
    ("not_applicable", "Not applicable"),
    ("refused", "Refused")
  ]

  const MysteriousPolarAnswer: Vocab := [
    ("yes", "Yes"),
    ("no", "No"),
    ("data_not_available", "Data not available"),
    ("unknown", "Unknown")
  ]

  const Lesion: Vocab := [
    ("bladder", "Bladder"),
    ("bone", "Bone"),
    ("brain", "Brain"),
    ("breast", "Breast"),
    ("cervix", "Cervix"),
    ("colon", "Colon"),
    ("endometrium", "Endometrium"),
    ("esophagus", "Esophagus"),
    ("gallbladder", "Gallbladder"),
    ("head_and_neck_mouth_nose_throat", "Head & neck (mouth, nose, and throat)"),
    ("kidney", "Kidney"),
    ("leukemia", "Leukemia"),
    ("liver", "Liver"),
    ("lung", "Lung"),
    ("lymphoma_including_hodgkins", "Lymphoma, including Hodgkins"),
    ("mesothelioma", "Mesothelioma"),
    ("multiple_myeloma", "Multiple myeloma"),
    ("ovary", "Ovary"),
    ("pancreas", "Pancreas"),
    ("prostate", "Prostate"),
    ("rectum", "Rectum"),
    ("skin_melanoma_no_basal_or_squamous", "Skin (melanoma, no basal or squamous)"),
    ("stomach", "Stomach"),
    ("testis", "Testis"),
    ("thyroid", "Thyroid"),
    ("uterus", "Uterus"),
    ("vagina", "Vagina"),
    ("unknown", "Unknown"),
    ("not_reported", "Not reported"),
    ("not_applicable", "Not applicable")
  ]

  const Detection: Vocab := [
    ("screening", "Screening"),
    ("symptom_driven_patient_detected", "Symptom driven/Patient detected"),
    ("incidental", "Incidental")
  ]

  const Mode: Vocab := [
    ("imaging", "Imaging"),
    ("physical_exam", "Physical exam"),
    ("laboratory_test", "Laboratory test")
  ]

  const Neoplasm: Vocab := [
    ("primary", "Primary"),
    ("metastatic", "Metastatic")
  ]

  const SmokingStatus: Vocab := [
    ("current_smoker", "Current smoker"),
    ("former_smoker", "Former smoker"),
    ("never_smoker", "Never smoker"),
    ("unknown", "Unknown"),
    ("not_reported", "Not reported")
  ]

  const Tobacco: Vocab := [
    ("cigarettes", "Cigarettes"),
    ("cigar", "Cigar"),
    ("electronic_cigarettes", "Electronic cigarettes"),
    ("pipe", "Pipe"),
    ("smokeless_tobacco", "Smokeless tobacco"),
    ("vapor", "Vapor"),
    ("other", "Other"),
    ("unknown", "Unknown"),
    ("not_reported", "Not reported"),
    ("not_applicable", "Not applicable")
  ]

  const PrecancerousHistopathology: Vocab := [
    ("usual_ductal_hyperplasia_udh", "Usual ductal hyperplasia (UDH)"),
    ("atypical_ductal_hyperplasia_adh", "Atypical ductal hyperplasia (ADH)"),
    ("dcis_paget_disease", "DCIS-Paget disease"),
    ("dcis_solid_mosaic_microanicar", "DCIS-Solid (mosaic, microanicar)"),
    ("dcis_cribiform", "DCIS-Cribiform"),
    ("dcis_micropapillary", "DCIS-Micropapillary"),
    ("dcis_papillary", "DCIS-Papillary"),
    ("dcis_comedo", "DCIS-Comedo"),
    ("dcis_nos", "DCIS, NOS"),
    ("lobular_carcinoma_in_situ_lcis", "Lobular carcinoma in situ (LCIS)")
  ]

  const Grade: Vocab := [
    ("low", "Low"),
    ("intermediate", "Intermediate"),
    ("high", "High"),
    ("data_not_available", "Data not available")
  ]

  const Laterality: Vocab := [
    ("bilateral", "Bilateral"),
    ("left", "Left"),
    ("right", "Right"),
    ("unknown", "Unknown"),
    ("not_reported", "Not reported"),
    ("not_applicable", "Not applicable")
  ]

  const BreastSite: Vocab := [
    ("upper_outer_quadrant", "Upper outer quadrant"),
    ("lower_outer_quadrant", "Lower outer quadrant"),
    ("upper_inner_quadrant", "Upper inner quadrant"),
    ("lower_inner_quadrant", "Lower inner quadrant"),
    ("central", "Central"),
    ("nipple", "Nipple"),
    ("data_not_available", "Data not available")
  ]

  const NecrosisLocation: Vocab := [
    ("focal", "Focal"),
    ("central", "Central"),
    ("unknown", "Unknown"),
    ("data_not_available", "Data not available")
  ]

  const MarginalStatus: Vocab := [
    ("equivocal", "Equivocal"),
    ("negative_finding", "Negative finding"),
    ("not_evaluable", "Not evaluable"),
    ("positive_finding", "Positive finding"),
    ("unknown", "Unknown")
  ]

  const TStage7: Vocab := [
    ("t0", "T0"),
    ("t1", "T1"),
    ("t1a", "T1a"),
    ("t1b", "T1b"),
    ("t1c", "T1c"),
    ("t1mi", "T1mi"),
    ("t2", "T2"),
    ("t3", "T3"),
    ("t4", "T4"),
    ("t4a", "T4a"),
    ("t4b", "T4b"),
    ("t4c", "T4c"),
    ("t4d", "T4d"),
    ("tis", "Tis"),
    ("tis_pagets", "Tis (Paget's)"),
    ("tis_lcis", "Tis (LCIS)"),
    ("tis_dcis", "Tis (DCIS)"),
    ("tx", "TX")
  ]

  const TStage8: Vocab := [
    ("t0", "T0"),
    ("t1", "T1"),
    ("t1a", "T1a"),
    ("t1b", "T1b"),
    ("t1c", "T1c"),
    ("t1mi", "T1mi"),
    ("t2", "T2"),
    ("t3", "T3"),
    ("t4", "T4"),
    ("t4a", "T4a"),
    ("t4b", "T4b"),
    ("t4c", "T4c"),
    ("t4d", "T4d"),
    ("tis", "Tis"),
    ("tis_pagets", "Tis (Pagets)"),
    ("tis_dcis", "Tis (DCIS)"),
    ("tx", "TX")
  ]

  const PathologicNStage7: Vocab := [
    ("pn0", "pN0"),
    ("pn0_i_plus", "pN0(i+)"),
    ("pn0_i_minus", "pN0(i-)"),
    ("pn0_mol_plus", "pN0(mol+)"),
    ("pn0_mol_minus", "pN0(mol-)"),
    ("pn1", "pN1"),
    ("pn1a", "pN1a"),
    ("pn1b", "pN1b"),
    ("pn1c", "pN1c"),
    ("pn1mi", "pN1mi"),
    ("pn2", "pN2"),
    ("pn2a", "pN2a"),
    ("pn2b", "pN2b"),
    ("pn3", "pN3"),
    ("pn3a", "pN3a"),
    ("pn3b", "pN3b"),
    ("pn3c", "pN3c"),
    ("pnx", "pNX")
  ]

  const PathologicMStage7: Vocab := [
    ("m1", "M1")
  ]

  const PathologicMStage8: Vocab := [
    ("pm1", "pM1")
  ]

  const ClinicalNStage7: Vocab := [
    ("n3c", "N3c"),
    ("n3b", "N3b"),
    ("n3a", "N3a"),
    ("n3", "N3"),
    ("n2b", "N2b"),
    ("n2a", "N2a"),
    ("n2", "N2"),
    ("n1", "N1"),
    ("n0", "N0"),
    ("nx", "NX")
  ]

  const ClinicalMStage7: Vocab := [
    ("m0", "M0"),
    ("m1", "M1"),
    ("m0_i_plus", "M0(i+)")
  ]

  const GroupStage7: Vocab := [
    ("zero", "0"),
    ("ia", "IA"),
    ("ib", "IB"),
    ("iia", "IIA"),
    ("iib", "IIB"),
    ("iiia", "IIIA"),
    ("iiib", "IIIB"),
    ("iiic", "IIIC"),
    ("iv", "IV"),
    ("stage_unknown", "Stage unknown")
  ]

  const ClinicalTNMCategoryN8: Vocab := [
    ("cn0", "cN0"),
    ("cn1", "cN1"),
    ("cn1mi", "cN1mi"),
    ("cn2", "cN2"),
    ("cn2a", "cN2a"),
    ("cn2b", "cN2b"),
    ("cn3", "cN3"),
    ("n3a", "N3a"),
    ("cn3b", "cN3b"),
    ("cn3c", "cN3c"),
    ("cnx", "cNX")
  ]

  const ClinicalTNMCategoryM8: Vocab := [
    ("cm0", "cM0"),
    ("cm0_i_plus", "cM0(i+)"),
    ("cm1", "cM1"),
    ("pm1", "pM1")
  ]

  /** As declared: the label of `la` is spelled with a lower-case L, so the stage "IA" that the
      neighbouring labels and AJCC edition 8 call for is not a label of this vocabulary. */
  const PrognosticGroupStage8AsWritten: Vocab := [
    ("zero", "0"),
    ("la", "lA"),
    ("ib", "IB"),
    ("iia", "IIA"),
    ("iib", "IIB"),
    ("iiia", "IIIA"),
    ("iiic", "IIIC"),
    ("iv", "IV")
  ]

  /** The same table with the label of `la` read as the stage "IA"; the rest of the model uses
      this one. */
  const PrognosticGroupStage8: Vocab := [
    ("zero", "0"),
    ("la", "IA"),
    ("ib", "IB"),
    ("iia", "IIA"),
    ("iib", "IIB"),
    ("iiia", "IIIA"),
    ("iiic", "IIIC"),
    ("iv", "IV")
  ]

  const GeneticTestingAnswer: Vocab := [
    ("done", "Done"),
    ("not_done", "Not done"),
    ("unknown", "Unknown"),
    ("data_not_available", "Data not available")
  ]

  const TestResults: Vocab := [
    ("positive", "Positive"),
    ("negative", "Negative"),
    ("not_tested", "Not tested"),
    ("unknown", "Unknown"),
    ("data_not_available", "Data not available"),
    ("cannot_be_determined", "Data not available")
  ]

  const EstrogenTestResults: Vocab := [
    ("positive", "Positive"),
    ("low_positive", "Low positive"),
    ("negative", "Negative"),
    ("cannot_be_determined", "Cannot be determined"),
    ("not_tested", "Not tested"),
    ("data_not_available", "Data not available")
  ]

  const HER2Results: Vocab := [
    ("negative_score_0", "Negative (Score 0)"),
    ("negative_score_1_plus", "Negative (Score 1+)"),
    ("equivocal_score_2_plus", "Equivocal (Score 2+)"),
    ("positive_score_3_plus", "Positive (Score 3+)"),
    ("cannot_be_determined", "Cannot be determined"),
    ("not_tested", "Not tested"),
    ("data_not_available", "Data not available")
  ]

  const HER2InSituHybridization: Vocab := [
    ("negative_not_amplified", "Negative (not amplified)"),
    ("positive_amplified", "Positive (amplified)"),
    ("cannot_be_determined", "Cannot be determined"),
    ("not_tested", "Not tested"),
    ("pending", "Pending"),
    ("unknown", "Unknown"),
    ("data_not_available", "Data not available")
  ]

  const Menopause: Vocab := [
    ("premenopausal", "Premenopausal"),
    ("perimenopausal", "Perimenopausal"),
    ("postmenopausal", "Postmenopausal"),
    ("unknown", "Unknown"),
    ("data_not_available", "Data not available")
  ]

  const ECOGScore: Vocab := [
    ("s0", "0"),
    ("s1", "1"),
    ("s2", "2"),
    ("s3", "3"),
    ("s4", "4"),
    ("s5", "5"),
    ("unknown", "Unknown"),
    ("data_not_available", "Data not available")
  ]

  const BreastCancerDetectionMethod: Vocab := [
    ("clinical_exam_palpation", "Clinical exam (palpation)"),
    ("screening_mammogram", "Screening mammogram"),
    ("screening_mri", "Screening MRI"),
    ("self_exam", "Self exam"),
    ("nipple_discharge", "Nipple discharge"),
    ("other", "Other"),
    ("unknown", "Unknown")
  ]

  const BreastImagingWorkup: Vocab := [
    ("mammogram", "Mammogram"),
    ("ultrasound", "Ultrasound"),
    ("mri", "MRI"),
    ("pet_ct", "PET/CT"),
    ("ct", "CT"),
    ("multiple_imaging_modalities", "Multiple imaging modalities"),
    ("data_not_available", "Data not available")
  ]

  const BIRADSTissues: Vocab := [
    ("predominantly_fatty", "Predominantly fatty"),
    ("scattered_fibroglandular_densities", "Scattered fibroglandular densities"),
    ("heterogeneously_dense", "Heterogeneously dense"),
    ("extremely_dense", "Extremely dense")
  ]

  const SequencingTechnique: Vocab := [
    ("rna_seq", "RNA-Seq"),
    ("mirna_seq", "miRNA-Seq"),
    ("ncrna_seq", "ncRNA-Seq"),
    ("rna_seq_cage", "RNA-Seq (CAGE)"),
    ("rna_seq_race", "RNA-Seq (RACE)"),
    ("chip_seq", "ChIP-Seq"),
    ("mnase_seq", "MNase-Seq"),
    ("mbd_seq", "MBD-Seq"),
    ("mre_seq", "MRE-Seq"),
    ("bisulfite_seq", "Bisulfite-Seq"),
    ("bisulfite_se_reduced_representation", "Bisulfite-Se (reduced representation)"),
    ("medip_seq", "MeDIP-Seq"),
    ("dnase_hypersensitivity", "Dnase-Hypersensitivity"),
    ("tn_seq", "Tn-Seq"),
    ("faire_seq", "FAIRE-seq"),
    ("selex", "SELEX"),
    ("rip_seq", "RIP-Seq"),
    ("chia_pet", "ChIA-PET"),
    ("wgs", "WGS"),
    ("wxs", "WXS"),
    ("validation", "Validation"),
    ("amplicon", "Amplicon"),
    ("other", "Other")
  ]

  const SequencingOrigin: Vocab := [
    ("dna", "DNA"),
    ("rna", "RNA"),
    ("bulk_cells", "Bulk cells"),
    ("bulk_nuclei", "Bulk nuclei"),
    ("bulk_tissue", "Bulk tissue"),
    ("single_cells", "Single-cells"),
    ("single_nuclei", "Single-nuclei")
  ]

  const GenomicMethod: Vocab := [
    ("hybrid_selection", "Hybrid Selection"),
    ("pcr", "PCR"),
    ("affinity_enrichment", "Affinity Enrichment"),
    ("poly_t_enrichment", "Poly-T Enrichment"),
    ("random", "Random"),
    ("rrna_depletion", "rRNA Depletion"),
    ("mirna_size_fractionation", "miRNA Size Fractionation"),
    ("other", "Other")
  ]

  const GenomicStranding: Vocab := [
    ("unstranded", "Unstranded"),
    ("first_stranded", "First_Stranded"),
    ("second_stranded", "Second_Stranded"),
    ("not_applicable", "Not Applicable")
  ]

  const GenomicAnalyzer: Vocab := [
    ("gs_flx_titanium", "454 GS FLX Titanium"),
    ("ab_solid_4", "AB SOLiD 4"),
    ("ab_solid_2", "AB SOLiD 2"),
    ("ab_solid_3", "AB SOLiD 3"),
    ("complete_genomics", "Complete Genomics"),
    ("illumina_hiseq_x_ten", "Illumina HiSeq X Ten"),
    ("illumina_hiseq_x_five", "Illumina HiSeq X Five"),
    ("illumina_genome_analyzer_ii", "Illumina Genome Analyzer II"),
    ("illumina_genome_analyzer_iix", "Illumina Genome Analyzer IIx"),
    ("illumina_hiseq_2000", "Illumina HiSeq 2000"),
    ("illumina_hiseq_2500", "Illumina HiSeq 2500"),
    ("illumina_hiseq_4000", "Illumina HiSeq 4000"),
    ("illumina_miseq", "Illumina MiSeq"),
    ("illumina_nextseq", "Illumina NextSeq"),
    ("ion_torrent_pgm", "Ion Torrent PGM"),
    ("ion_torrent_proton", "Ion Torrent Proton"),
    ("ion_torrent_s5", "Ion Torrent S5"),
    ("pacbio_rs", "PacBio RS"),
    ("other", "Other"),
    ("unknown", "Unknown"),
    ("not_reported", "Not Reported")
  ]

  const Smart3SeqInput: Vocab := [
    ("tissue_on_cap", "Tissue on cap"),
    ("tissue_in_tube", "Tissue in tube"),
    ("rna_in_tube", "RNA in tube")
  ]

  const Smart3SeqIndexing: Vocab := [
    ("single", "Single"),
    ("dual", "Dual"),
    ("other", "Other")
  ]

  const TumorTissue: Vocab := [
    ("premalignant", "Premalignant"),
    ("metastatic", "Metastatic"),
    ("primary", "Primary"),
    ("recurrence", "Recurrence"),
    ("nos", "NOS"),
    ("xenograft", "Xenograft"),
    ("unknown", "Unknown"),
    ("not_reported", "Not reported"),
    ("not_applicable", "Not applicable")
  ]

  const Precancers: Vocab := [
    ("dcis", "DCIS"),
    ("luad_aah", "LUAD-AAH"),
    ("luad_ais", "LUAD-AIS"),
    ("luad_mia", "LUAD-MIA"),
    ("lusc_metaplasia", "LUSC-Metaplasia"),
    ("lusc_dysplasia", "LUSC-Dysplasia"),
    ("lusc_cis", "LUSC-CIS"),
    ("panin", "PanIN"),
    ("ipmn", "IPMN"),
    ("pin", "PIN"),
    ("other", "Other"),
    ("not_applicable", "Not applicable")
  ]

  const RulesOfAcquisition: Vocab := [
    ("core_biopsy", "Core Biopsy"),
    ("incisional_biopsy", "Incisional Biopsy"),
    ("excisional_biopsy", "Excisional Biopsy"),
    ("blood_draw", "Blood draw"),
    ("surgical_resection", "Surgical Resection"),
    ("fine_needle_aspiration", "Fine needle aspiration"),
    ("autopsy", "Autopsy"),
    ("other", "Other"),
    ("unknown", "Unknown"),
    ("not_reported", "Not reported"),
    ("not_applicable", "Not applicable")
  ]

  const Preserves: Vocab := [
    ("cryopreserved", "Cryopreserved"),
    ("cryopreservation_in_liquid_nitrogen_dead_tissue", "Cryopreservation in liquid nitrogen (dead tissue)"),
    ("cryopreservation_in_dry_ice_dead_tissue", "Cryopreservation in dry ice (dead tissue)"),
    ("cryopreservation_of_live_cells_in_liquid_nitrogen", "Cryopreservation of live cells in liquid nitrogen"),
    ("formalin_fixed_paraffin_embedded_ffpe", "Formalin fixed paraffin embedded (FFPE)"),
    ("formalin_fixed___unbuffered", "Formalin fixed - unbuffered"),
    ("formalin_fixed___buffered", "Formalin fixed - buffered"),
    ("fresh", "Fresh"),
    ("fresh_dissociated", "Fresh dissociated"),
    ("fresh_dissociated_and_single_cell_sorted", "Fresh dissociated and single cell sorted"),
    ("fresh_dissociated_and_single_cell_sorted_into_plates", "Fresh dissociated and single cell sorted into plates"),
    ("o_c_t", "OCT"),
    ("snap_frozen", "Snap frozen"),
    ("frozen", "Frozen"),
    ("negative_80_degrees_c", "-80 degrees C"),
    ("liquid_nitrogen", "Liquid nitrogen"),
    ("other", "Other"),
    ("unknown", "Unknown"),
    ("not_reported", "Not reported")
  ]

  const Fixatives: Vocab := [
    ("acetone", "Acetone"),
    ("alcohol", "Alcohol"),
    ("formalin", "Formalin"),
    ("glutaraldehyde", "Glutaraldehyde"),
    ("oct_media", "OCT media"),
    ("rnalater", "RNAlater"),
    ("saline", "Saline"),
    ("ninety_five_ethanol", "95% Ethanol"),
    ("dimidoester", "Dimidoester"),
    ("carbodiimide", "Carbodiimide"),
    ("dimethylacetamide", "Dimethylacetamide"),
    ("para_benzoquinone", "Para-benzoquinone"),
    ("paxgene_tissue", "PAXgene Tissue"),
    ("other", "Other"),
    ("none", "None"),
    ("unknown", "Unknown"),
    ("not_recorded", "Not recorded")
  ]

  const Analytes: Vocab := [
    ("cfdna", "cfDNA"),
    ("dna", "DNA"),
    ("ebv_immortalized_normal", "EBV immortalized Normal"),
    ("ffpe_dna", "FFPE DNA"),
    ("ffpe_rna", "FFPE RNA"),
    ("genomeplex_rubicon_amplified_dna", "GenomePlex (Rubicon) Amplified DNA"),
    ("repli_g_qiagen_dna", "Repli-G (Qiagen) DNA"),
    ("repli_g_pooled_qiagen_dna", "Repli-G Pooled (Qiagen) DNA"),
    ("repli_g_x_quiagen_dna", "Repli-G X (Quiagen) DNA"),
    ("rna", "RNA"),
    ("total_rna", "Total RNA"),
    ("whole_blood", "Whole blood"),
    ("serum", "Serum"),
    ("plasma", "Plasma"),
    ("peripheral_blood_mononuclear_cells_pbmc", "Peripheral blood mononuclear cells (PBMC)"),
    ("other", "Other"),
    ("not_applicable", "Not applicable")
  ]

  const Storage: Vocab := [
    ("ambient_temperature", "Ambient temperature"),
    ("cut_slide", "Cut slide"),
    ("fresh", "Fresh"),
    ("frozen_at__70c", "Frozen at -70C"),
    ("frozen_at__80c", "Frozen at -80C"),
    ("frozen_at__150c", "Frozen at -150C"),
    ("frozen_in_liquid_nitrogen", "Frozen in liquid nitrogen"),
    ("frozen_in_vapor_phase", "Frozen in vapor phase"),
    ("paraffin_block", "Paraffin block"),
    ("rnalater_at_4c", "RNAlater at 4C"),
    ("rnalater_at_25c", "RNAlater at 25C"),
    ("rnalater_at__20c", "RNAlater at -20C"),
    ("other", "Other")
  ]

  const SlideCharges: Vocab := [
    ("uncharged", "Uncharged"),
    ("charged", "Charged"),
    ("other", "Other"),
    ("unknown", "Unknown"),
    ("not_recorded", "Not recorded"),
    ("not_applicable", "Not applicable")
  ]

  const Packaging: Vocab := [
    ("ambient_pack", "Ambient pack"),
    ("cold_pack", "Cold pack"),
    ("ice_pack", "Ice pack"),
    ("dry_ice", "Dry ice"),
    ("liquid_nitrogen", "Liquid nitrogen"),
    ("specimen_at_room_temperature", "Specimen at room temperature"),
    ("other_shipping", "Other shipping"),
    ("unknown", "Unknown"),
    ("not_recorded", "Not recorded")
  ]

  const Destinations: Vocab := [
    ("broad_institute", "Broad Institute"),
    ("bu", "BU"),
    ("dartmouth", "Dartmouth"),
    ("john_hopkins", "John Hopkins"),
    ("md_anderson", "MD Anderson"),
    ("stanford", "Stanford"),
    ("ucdavis", "UCDavis"),
    ("ucla", "UCLA"),
    ("ucsd", "UCSD"),
    ("ucsf", "UCSF"),
    ("uvm", "UVM"),
    ("vanderbilt", "Vanderbilt")
  ]

}
