/** Joined-table inheritance as the mappings declare it: every organ has a row in `organs` carrying
    the `organType` discriminator, and a breast or prostate organ has, besides, a row in
    `breastOrgans` or `prostateOrgans` whose primary key is the same `identifier`, a foreign key to
    the base row. The genomics classes are laid out the same way over `specimen_ID`. `Split` is
    that layout; `Load` rebuilds the entities from the tables by the discriminator and the shared
    key, and the round-trip lemmas show that it gives back what was split. */
module Tables {
  import opened Wrappers
  import opened Schema

  // ---------------------------------------------------------------------------------------------
  // Subtype tables

  /** The first row of a subtype table with key `k`. */
  function Find<K(==), D>(rows: seq<(K, D)>, k: K): (r: Option<D>)
    ensures r.Some? ==> (k, r.value) in rows
    ensures r.None? ==> forall i :: 0 <= i < |rows| ==> rows[i].0 != k
  {
    if |rows| == 0 then None
    else if rows[0].0 == k then Some(rows[0].1)
    else
      var r := Find(rows[1..], k);
      assert r.Some? ==> (k, r.value) in rows[1..];
      r
  }

  /** The outcomes of loading a list of rows, failing at the first failure. */
  function Collect<T, E>(rs: seq<Result<T, E>>): (r: Result<seq<T>, E>)
    ensures r.Success? ==> |r.value| == |rs| && forall i :: 0 <= i < |rs| ==> rs[i] == Success(r.value[i])
    ensures r.Failure? ==> exists i :: 0 <= i < |rs| && rs[i] == Failure(r.error)
  {
    if |rs| == 0 then Success([])
    else match rs[0]
      case Failure(e) => Failure(e)
      case Success(x) =>
        match Collect(rs[1..])
        case Failure(e) => assert rs[1..][0..] == rs[1..]; Failure(e)
        case Success(xs) => Success([x] + xs)
  }

  /** `Collect` of outcomes that all succeed is their values. */
  lemma {:induction false} CollectAllSucceed<T, E>(rs: seq<Result<T, E>>, xs: seq<T>)
    requires |rs| == |xs| && forall i :: 0 <= i < |rs| ==> rs[i] == Success(xs[i])
    ensures Collect(rs) == Success(xs)
  {
    if |rs| > 0 {
      CollectAllSucceed(rs[1..], xs[1..]);
      assert xs == [xs[0]] + xs[1..];
    }
  }

  /** Why a base row cannot be loaded: its discriminator names no class, or its subtype row is
      missing. */
  datatype LoadError = UnknownIdentity(identity: Option<string>) | MissingSubtypeRow

  // ---------------------------------------------------------------------------------------------
  // Organs

  /** A row of the `organs` table: the columns common to all organs and the discriminator. */
  datatype OrganRow = OrganRow(
    meta: Metadata,
    identifier: int,
    inscribed_clinicalCore_participant_ID: Option<string>,
    clinicalCore_participant_ID: Option<string>,
    organType: Option<string>)

  /** The three organ tables. */
  datatype OrganTables = OrganTables(
    organs: seq<OrganRow>,
    breastOrgans: seq<(int, BreastFields)>,
    prostateOrgans: seq<(int, Option<int>)>)

  function OrganBaseRow(o: Organ): (r: OrganRow)
    ensures r.identifier == o.identifier && r.organType == Some(OrganType(o))
  {
    OrganRow(o.meta, o.identifier, o.inscribed_clinicalCore_participant_ID, o.clinicalCore_participant_ID,
      Some(OrganType(o)))
  }

  /** The `breastOrgans` rows of some organs, in order. */
  function BreastRows(os: seq<Organ>): (r: seq<(int, BreastFields)>)
    ensures forall x <- r :: exists o <- os :: o.identifier == x.0 && o.detail == Breast(x.1)
  {
    if |os| == 0 then []
    else
      var rest := BreastRows(os[1..]);
      assert forall x <- rest :: exists o <- os :: o.identifier == x.0 && o.detail == Breast(x.1) by {
        forall x <- rest ensures exists o <- os :: o.identifier == x.0 && o.detail == Breast(x.1) {
          var o :| o in os[1..] && o.identifier == x.0 && o.detail == Breast(x.1);
          assert o in os;
        }
      }
      match os[0].detail
      case Breast(b) => [(os[0].identifier, b)] + rest
      case _ => rest
  }

  /** The `prostateOrgans` rows of some organs, in order. */
  function ProstateRows(os: seq<Organ>): (r: seq<(int, Option<int>)>)
    ensures forall x <- r :: exists o <- os :: o.identifier == x.0 && o.detail == Prostate(x.1)
  {
    if |os| == 0 then []
    else
      var rest := ProstateRows(os[1..]);
      assert forall x <- rest :: exists o <- os :: o.identifier == x.0 && o.detail == Prostate(x.1) by {
        forall x <- rest ensures exists o <- os :: o.identifier == x.0 && o.detail == Prostate(x.1) {
          var o :| o in os[1..] && o.identifier == x.0 && o.detail == Prostate(x.1);
          assert o in os;
        }
      }
      match os[0].detail
      case Prostate(d) => [(os[0].identifier, d)] + rest
      case _ => rest
  }

  /** How some organs are stored: one base row each, in order, and one subtype row for each breast
      and prostate organ. */
  function SplitOrgans(os: seq<Organ>): (t: OrganTables)
    ensures |t.organs| == |os|
    ensures forall i :: 0 <= i < |os| ==> t.organs[i] == OrganBaseRow(os[i])
  {
    OrganTables(seq(|os|, i requires 0 <= i < |os| => OrganBaseRow(os[i])), BreastRows(os), ProstateRows(os))
  }

  /** The organ a base row stands for, by its discriminator and its subtype row. */
  function LoadOrgan(t: OrganTables, row: OrganRow): (r: Result<Organ, LoadError>)
    ensures r.Success? ==> r.value.identifier == row.identifier && row.organType == Some(OrganType(r.value))
  {
    var kind := if row.organType.Some? then OrganKindFor(row.organType.value) else None;
    if kind.None? then Failure(UnknownIdentity(row.organType))
    else
      var detail :=
        match kind.value
        case OrganBase => Some(PlainOrgan)
        case BreastOrganKind => (var b := Find(t.breastOrgans, row.identifier); if b.Some? then Some(Breast(b.value)) else None)
        case ProstateOrganKind => (var d := Find(t.prostateOrgans, row.identifier); if d.Some? then Some(Prostate(d.value)) else None);
      if detail.None? then Failure(MissingSubtypeRow)
      else
        Success(Organ(row.meta, row.identifier, row.inscribed_clinicalCore_participant_ID,
          row.clinicalCore_participant_ID, detail.value))
  }

  /** The organs of the tables, one per base row in order. */
  function LoadOrgans(t: OrganTables): (r: Result<seq<Organ>, LoadError>)
    ensures r.Success? ==> |r.value| == |t.organs|
  {
    Collect(seq(|t.organs|, i requires 0 <= i < |t.organs| => LoadOrgan(t, t.organs[i])))
  }

  /** Organs are keyed by `identifier`. */
  predicate DistinctOrganIds(os: seq<Organ>) {
    forall i, j :: 0 <= i < j < |os| ==> os[i].identifier != os[j].identifier
  }

  /** With distinct keys, a breast organ's subtype row is found by its key. */
  lemma {:induction false} FindBreastRow(os: seq<Organ>, i: nat)
    requires DistinctOrganIds(os) && i < |os| && os[i].detail.Breast?
    ensures Find(BreastRows(os), os[i].identifier) == Some(os[i].detail.b)
  {
    if i > 0 {
      assert DistinctOrganIds(os[1..]);
      FindBreastRow(os[1..], i - 1);
      assert os[1..][i - 1] == os[i];
    }
  }

  /** With distinct keys, a prostate organ's subtype row is found by its key. */
  lemma {:induction false} FindProstateRow(os: seq<Organ>, i: nat)
    requires DistinctOrganIds(os) && i < |os| && os[i].detail.Prostate?
    ensures Find(ProstateRows(os), os[i].identifier) == Some(os[i].detail.depth_or_whatever)
  {
    if i > 0 {
      assert DistinctOrganIds(os[1..]);
      FindProstateRow(os[1..], i - 1);
      assert os[1..][i - 1] == os[i];
    }
  }

  /** Loading what was split gives back the organs, subclass and all, when their keys are
      distinct. */
  lemma LoadSplitOrgans(os: seq<Organ>)
    requires DistinctOrganIds(os)
    ensures LoadOrgans(SplitOrgans(os)) == Success(os)
  {
    var t := SplitOrgans(os);
    var rs := seq(|t.organs|, i requires 0 <= i < |t.organs| => LoadOrgan(t, t.organs[i]));
    forall i | 0 <= i < |os|
      ensures rs[i] == Success(os[i])
    {
      OrganIdentityRoundTrip(OrganKindOf(os[i].detail), OrganType(os[i]));
      match os[i].detail
      case PlainOrgan =>
      case Breast(_) => FindBreastRow(os, i);
      case Prostate(_) => FindProstateRow(os, i);
    }
    CollectAllSucceed(rs, os);
  }

  /** Every `breastOrgans` row has the key of a base row whose discriminator names the breast
      class: the one-to-one foreign key from `breastOrgans.identifier` to `organs.identifier`. */
  lemma BreastRowsReferenceBaseRows(os: seq<Organ>)
    ensures var t := SplitOrgans(os);
      forall x <- t.breastOrgans :: exists r <- t.organs :: r.identifier == x.0 && r.organType == Some("breastOrgans")
  {
    var t := SplitOrgans(os);
    forall x <- t.breastOrgans
      ensures exists r <- t.organs :: r.identifier == x.0 && r.organType == Some("breastOrgans")
    {
      var o :| o in os && o.identifier == x.0 && o.detail == Breast(x.1);
      var i :| 0 <= i < |os| && os[i] == o;
      assert t.organs[i] == OrganBaseRow(o);
    }
  }

  /** Every `prostateOrgans` row has the key of a base row whose discriminator names the prostate
      class: the one-to-one foreign key from `prostateOrgans.identifier` to `organs.identifier`. */
  lemma ProstateRowsReferenceBaseRows(os: seq<Organ>)
    ensures var t := SplitOrgans(os);
      forall x <- t.prostateOrgans :: exists r <- t.organs :: r.identifier == x.0 && r.organType == Some("prostateOrgans")
  {
    var t := SplitOrgans(os);
    forall x <- t.prostateOrgans
      ensures exists r <- t.organs :: r.identifier == x.0 && r.organType == Some("prostateOrgans")
    {
      var o :| o in os && o.identifier == x.0 && o.detail == Prostate(x.1);
      var i :| 0 <= i < |os| && os[i] == o;
      assert t.organs[i] == OrganBaseRow(o);
    }
  }

  // ---------------------------------------------------------------------------------------------
  // Genomics

  /** A row of the `genomics` table: the common columns and the discriminator. */
  datatype GenomicsRow = GenomicsRow(
    meta: Metadata,
    specimen_ID: string,
    sequencing_center: int,
    sequencing_date: Date,
    sequencing_batch_id: string,
    library_name: string,
    library_strategy: nat,
    library_source: nat,
    library_selection: nat,
    library_strand: nat,
    library_layout: Option<bool>,
    sequencing_platform: nat,
    read_length: Option<string>,
    rin: Option<real>,
    adapter_name: Option<string>,
    adapter_sequence: Option<string>,
    flow_cell_barcode: Option<string>,
    size_selection_range: Option<int>,
    target_capture_kit_target_region: Option<string>,
    inscribed_clinicalCore_participant_ID: Option<string>,
    inscribed_biospecimen_specimen_ID: Option<string>,
    clinicalCore_participant_ID: Option<string>,
    biospecimen_specimen_ID: Option<string>,
    genomicType: Option<string>)

  /** The two genomics tables. */
  datatype GenomicsTables = GenomicsTables(
    genomics: seq<GenomicsRow>,
    smart3SeqGenomics: seq<(string, Smart3SeqFields)>)

  function GenomicsBaseRow(g: Genomics): (r: GenomicsRow)
    ensures r.specimen_ID == g.specimen_ID && r.genomicType == Some(GenomicType(g))
  {
    GenomicsRow(g.meta, g.specimen_ID, g.sequencing_center, g.sequencing_date, g.sequencing_batch_id,
      g.library_name, g.library_strategy, g.library_source, g.library_selection, g.library_strand,
      g.library_layout, g.sequencing_platform, g.read_length, g.rin, g.adapter_name, g.adapter_sequence,
      g.flow_cell_barcode, g.size_selection_range, g.target_capture_kit_target_region,
      g.inscribed_clinicalCore_participant_ID, g.inscribed_biospecimen_specimen_ID,
      g.clinicalCore_participant_ID, g.biospecimen_specimen_ID, Some(GenomicType(g)))
  }

  /** The `smart3SeqGenomics` rows of some genomics records, in order. */
  function Smart3SeqRows(gs: seq<Genomics>): (r: seq<(string, Smart3SeqFields)>)
    ensures forall x <- r :: exists g <- gs :: g.specimen_ID == x.0 && g.detail == Smart3Seq(x.1)
  {
    if |gs| == 0 then []
    else
      var rest := Smart3SeqRows(gs[1..]);
      assert forall x <- rest :: exists g <- gs :: g.specimen_ID == x.0 && g.detail == Smart3Seq(x.1) by {
        forall x <- rest ensures exists g <- gs :: g.specimen_ID == x.0 && g.detail == Smart3Seq(x.1) {
          var g :| g in gs[1..] && g.specimen_ID == x.0 && g.detail == Smart3Seq(x.1);
          assert g in gs;
        }
      }
      match gs[0].detail
      case Smart3Seq(s) => [(gs[0].specimen_ID, s)] + rest
      case _ => rest
  }

  /** How some genomics records are stored: one base row each, in order, and one subtype row for
      each Smart-3SEQ record. */
  function SplitGenomics(gs: seq<Genomics>): (t: GenomicsTables)
    ensures |t.genomics| == |gs|
    ensures forall i :: 0 <= i < |gs| ==> t.genomics[i] == GenomicsBaseRow(gs[i])
  {
    GenomicsTables(seq(|gs|, i requires 0 <= i < |gs| => GenomicsBaseRow(gs[i])), Smart3SeqRows(gs))
  }

  /** The genomics record a base row stands for, by its discriminator and its subtype row. */
  function LoadGenomicsRow(t: GenomicsTables, row: GenomicsRow): (r: Result<Genomics, LoadError>)
    ensures r.Success? ==> r.value.specimen_ID == row.specimen_ID && row.genomicType == Some(GenomicType(r.value))
  {
    var kind := if row.genomicType.Some? then GenomicsKindFor(row.genomicType.value) else None;
    if kind.None? then Failure(UnknownIdentity(row.genomicType))
    else
      var detail :=
        match kind.value
        case GenomicsBase => Some(PlainGenomics)
        case Smart3SeqKind => (var s := Find(t.smart3SeqGenomics, row.specimen_ID); if s.Some? then Some(Smart3Seq(s.value)) else None);
      if detail.None? then Failure(MissingSubtypeRow)
      else
        Success(Genomics(row.meta, row.specimen_ID, row.sequencing_center, row.sequencing_date,
          row.sequencing_batch_id, row.library_name, row.library_strategy, row.library_source,
          row.library_selection, row.library_strand, row.library_layout, row.sequencing_platform,
          row.read_length, row.rin, row.adapter_name, row.adapter_sequence, row.flow_cell_barcode,
          row.size_selection_range, row.target_capture_kit_target_region,
          row.inscribed_clinicalCore_participant_ID, row.inscribed_biospecimen_specimen_ID,
          row.clinicalCore_participant_ID, row.biospecimen_specimen_ID, detail.value))
  }

  /** The genomics records of the tables, one per base row in order. */
  function LoadGenomics(t: GenomicsTables): (r: Result<seq<Genomics>, LoadError>)
    ensures r.Success? ==> |r.value| == |t.genomics|
  {
    Collect(seq(|t.genomics|, i requires 0 <= i < |t.genomics| => LoadGenomicsRow(t, t.genomics[i])))
  }

  /** Genomics records are keyed by `specimen_ID`. */
  predicate DistinctGenomicsIds(gs: seq<Genomics>) {
    forall i, j :: 0 <= i < j < |gs| ==> gs[i].specimen_ID != gs[j].specimen_ID
  }

  /** With distinct keys, a Smart-3SEQ record's subtype row is found by its key. */
  lemma {:induction false} FindSmart3SeqRow(gs: seq<Genomics>, i: nat)
    requires DistinctGenomicsIds(gs) && i < |gs| && gs[i].detail.Smart3Seq?
    ensures Find(Smart3SeqRows(gs), gs[i].specimen_ID) == Some(gs[i].detail.s)
  {
    if i > 0 {
      assert DistinctGenomicsIds(gs[1..]);
      FindSmart3SeqRow(gs[1..], i - 1);
      assert gs[1..][i - 1] == gs[i];
    }
  }

  /** Loading what was split gives back the genomics records when their keys are distinct. */
  lemma LoadSplitGenomics(gs: seq<Genomics>)
    requires DistinctGenomicsIds(gs)
    ensures LoadGenomics(SplitGenomics(gs)) == Success(gs)
  {
    var t := SplitGenomics(gs);
    var rs := seq(|t.genomics|, i requires 0 <= i < |t.genomics| => LoadGenomicsRow(t, t.genomics[i]));
    forall i | 0 <= i < |gs|
      ensures rs[i] == Success(gs[i])
    {
      GenomicsIdentityRoundTrip(GenomicsKindOf(gs[i].detail), GenomicType(gs[i]));
      if gs[i].detail.Smart3Seq? {
        FindSmart3SeqRow(gs, i);
      }
    }
    CollectAllSucceed(rs, gs);
  }

  /** Every `smart3SeqGenomics` row has the key of a base row whose discriminator names the
      subtype: the one-to-one foreign key to `genomics.specimen_ID`. */
  lemma Smart3SeqRowsReferenceBaseRows(gs: seq<Genomics>)
    ensures var t := SplitGenomics(gs);
      forall x <- t.smart3SeqGenomics :: exists r <- t.genomics :: r.specimen_ID == x.0 && r.genomicType == Some("smart3SeqGenomics")
  {
    var t := SplitGenomics(gs);
    forall x <- t.smart3SeqGenomics
      ensures exists r <- t.genomics :: r.specimen_ID == x.0 && r.genomicType == Some("smart3SeqGenomics")
    {
      var g :| g in gs && g.specimen_ID == x.0 && g.detail == Smart3Seq(x.1);
      var i :| 0 <= i < |gs| && gs[i] == g;
      assert t.genomics[i] == GenomicsBaseRow(g);
    }
  }
}
