/** The rows of every table, and the relationship collections the mappings derive from their
    foreign keys: each collection holds exactly the child rows whose foreign key names the parent,
    in ascending order of the declared `order_by` column, and agrees with the child's many-to-one
    reference to its parent (`back_populates`). */
module Store {
  import opened Wrappers
  import opened Schema
  import opened Relationships

  /** The contents of the database, one sequence of rows per mapped class. A breast or prostate
      organ is a row of `organs`, and a Smart-3SEQ record a row of `genomics`, with its subclass
      in its detail. */
  datatype Store = Store(
    clinicalCores: seq<ClinicalCore>,
    priorLesions: seq<PriorLesion>,
    biospecimens: seq<Biospecimen>,
    adjacentSpecimens: seq<AdjacentSpecimen>,
    organs: seq<Organ>,
    precancerTypes: seq<HistopathologyPrecancerType>,
    genomics: seq<Genomics>,
    images: seq<Imaging>)

  // ---------------------------------------------------------------------------------------------
  // Keys and foreign keys

  /** The keys the parents are referenced by; only a breast organ can be named by
      `breastOrgan_identifier`. */
  function CorePk(c: ClinicalCore): Option<string> { Some(c.participant_ID) }
  function SpecimenPk(b: Biospecimen): Option<string> { Some(b.specimen_ID) }
  function BreastPk(o: Organ): Option<int> { if o.detail.Breast? then Some(o.identifier) else None }

  /** The `order_by` column of each child class. */
  function LesionKey(p: PriorLesion): Key { IntKey(p.identifier) }
  function SpecimenKey(b: Biospecimen): Key { StrKey(b.specimen_ID) }
  function AdjacentKey(a: AdjacentSpecimen): Key { IntKey(a.identifier) }
  function OrganKey(o: Organ): Key { IntKey(o.identifier) }
  function PrecancerKey(h: HistopathologyPrecancerType): Key { IntKey(h.identifier) }
  function GenomicsKey(g: Genomics): Key { StrKey(g.specimen_ID) }
  function ImageKey(i: Imaging): Key { IntKey(i.identifier) }

  /** The foreign key columns. */
  function LesionCore(p: PriorLesion): Option<string> { p.clinicalCore_participant_ID }
  function SpecimenCore(b: Biospecimen): Option<string> { b.clinicalCore_participant_ID }
  function AdjacentSpecimenOf(a: AdjacentSpecimen): Option<string> { a.biospecimen_identifier }
  function OrganCore(o: Organ): Option<string> { o.clinicalCore_participant_ID }
  function PrecancerBreast(h: HistopathologyPrecancerType): Option<int> { h.breastOrgan_identifier }
  function GenomicsCore(g: Genomics): Option<string> { g.clinicalCore_participant_ID }
  function GenomicsSpecimen(g: Genomics): Option<string> { g.biospecimen_specimen_ID }
  function ImageCore(i: Imaging): Option<string> { i.clinicalCore_participant_ID }
  function ImageSpecimen(i: Imaging): Option<string> { i.biospecimen_specimen_ID }

  /** The parent a child's reference resolves to (`child.clinicalCore`, `child.biospecimen`,
      `child.breastOrgan`). */
  function CoreOf(st: Store, fk: Option<string>): Option<ClinicalCore> {
    Owner(st.clinicalCores, CorePk, fk)
  }

  function SpecimenOf(st: Store, fk: Option<string>): Option<Biospecimen> {
    Owner(st.biospecimens, SpecimenPk, fk)
  }

  function BreastOf(st: Store, fk: Option<int>): Option<Organ> {
    Owner(st.organs, BreastPk, fk)
  }

  /** Every primary key is unique in its table. */
  predicate KeysDistinct(st: Store) {
    && DistinctParents(st.clinicalCores, CorePk)
    && DistinctKeys(st.priorLesions, LesionKey)
    && DistinctParents(st.biospecimens, SpecimenPk)
    && DistinctKeys(st.adjacentSpecimens, AdjacentKey)
    && DistinctKeys(st.organs, OrganKey)
    && DistinctKeys(st.precancerTypes, PrecancerKey)
    && DistinctKeys(st.genomics, GenomicsKey)
    && DistinctKeys(st.images, ImageKey)
  }

  /** Every foreign key that is set names a row of the table it references. */
  predicate ForeignKeysResolve(st: Store) {
    && (forall p <- st.priorLesions :: p.clinicalCore_participant_ID.Some? ==> CoreOf(st, p.clinicalCore_participant_ID).Some?)
    && (forall b <- st.biospecimens :: b.clinicalCore_participant_ID.Some? ==> CoreOf(st, b.clinicalCore_participant_ID).Some?)
    && (forall a <- st.adjacentSpecimens :: a.biospecimen_identifier.Some? ==> SpecimenOf(st, a.biospecimen_identifier).Some?)
    && (forall o <- st.organs :: o.clinicalCore_participant_ID.Some? ==> CoreOf(st, o.clinicalCore_participant_ID).Some?)
    && (forall h <- st.precancerTypes :: h.breastOrgan_identifier.Some? ==> BreastOf(st, h.breastOrgan_identifier).Some?)
    && (forall g <- st.genomics :: g.clinicalCore_participant_ID.Some? ==> CoreOf(st, g.clinicalCore_participant_ID).Some?)
    && (forall g <- st.genomics :: g.biospecimen_specimen_ID.Some? ==> SpecimenOf(st, g.biospecimen_specimen_ID).Some?)
    && (forall i <- st.images :: i.clinicalCore_participant_ID.Some? ==> CoreOf(st, i.clinicalCore_participant_ID).Some?)
    && (forall i <- st.images :: i.biospecimen_specimen_ID.Some? ==> SpecimenOf(st, i.biospecimen_specimen_ID).Some?)
  }

  /** Every row satisfies its columns' constraints: `String(n)` lengths, 32-bit `Integer`s,
      calendar dates and vocabulary members. */
  predicate RowsValid(st: Store) {
    && (forall c <- st.clinicalCores :: ValidClinicalCore(c))
    && (forall p <- st.priorLesions :: ValidPriorLesion(p))
    && (forall b <- st.biospecimens :: ValidBiospecimen(b))
    && (forall a <- st.adjacentSpecimens :: ValidAdjacentSpecimen(a))
    && (forall o <- st.organs :: ValidOrgan(o))
    && (forall h <- st.precancerTypes :: ValidHistopathologyPrecancerType(h))
    && (forall g <- st.genomics :: ValidGenomics(g))
    && (forall i <- st.images :: ValidImaging(i))
  }

  /** What the database enforces: column constraints, unique primary keys, resolving foreign keys. */
  predicate ValidStore(st: Store) {
    RowsValid(st) && KeysDistinct(st) && ForeignKeysResolve(st)
  }

  /** Distinct organ identifiers make the breast organs' keys distinct. */
  lemma BreastKeysDistinct(os: seq<Organ>)
    requires DistinctKeys(os, OrganKey)
    ensures DistinctParents(os, BreastPk)
  {
    forall i, j | 0 <= i < j < |os| && BreastPk(os[i]).Some?
      ensures BreastPk(os[i]) != BreastPk(os[j])
    {
      assert OrganKey(os[i]) != OrganKey(os[j]);
    }
  }

  // ---------------------------------------------------------------------------------------------
  // The collections of a clinical core

  /** `core.biospecimens`. */
  function CoreBiospecimens(st: Store, c: ClinicalCore): (r: seq<Biospecimen>)
    ensures SortedBy(r, SpecimenKey)
    ensures forall x :: multiset(r)[x] == if x.clinicalCore_participant_ID == Some(c.participant_ID) then multiset(st.biospecimens)[x] else 0
    ensures forall x :: x in r <==> x in st.biospecimens && x.clinicalCore_participant_ID == Some(c.participant_ID)
    ensures DistinctKeys(st.biospecimens, SpecimenKey) ==> StrictlyAscending(r, SpecimenKey)
    ensures c in st.clinicalCores && KeysDistinct(st) ==>
      forall x <- st.biospecimens :: x in r <==> CoreOf(st, x.clinicalCore_participant_ID) == Some(c)
  {
    var r := Collection(st.biospecimens, SpecimenCore, c.participant_ID, SpecimenKey);
    assert DistinctKeys(st.biospecimens, SpecimenKey) ==> StrictlyAscending(r, SpecimenKey) by {
      if DistinctKeys(st.biospecimens, SpecimenKey) {
        CollectionStrictlyAscending(st.biospecimens, SpecimenCore, c.participant_ID, SpecimenKey);
      }
    }
    assert c in st.clinicalCores && KeysDistinct(st) ==>
      forall x <- st.biospecimens :: x in r <==> CoreOf(st, x.clinicalCore_participant_ID) == Some(c) by {
      if c in st.clinicalCores && KeysDistinct(st) {
        forall x <- st.biospecimens
          ensures x in r <==> CoreOf(st, x.clinicalCore_participant_ID) == Some(c)
        {
          BackPopulated(st.biospecimens, SpecimenCore, SpecimenKey, st.clinicalCores, CorePk, c, x);
        }
      }
    }
    r
  }

  /** `core.genomics`. */
  function CoreGenomics(st: Store, c: ClinicalCore): (r: seq<Genomics>)
    ensures SortedBy(r, GenomicsKey)
    ensures forall g :: multiset(r)[g] == if g.clinicalCore_participant_ID == Some(c.participant_ID) then multiset(st.genomics)[g] else 0
    ensures forall g :: g in r <==> g in st.genomics && g.clinicalCore_participant_ID == Some(c.participant_ID)
    ensures DistinctKeys(st.genomics, GenomicsKey) ==> StrictlyAscending(r, GenomicsKey)
    ensures c in st.clinicalCores && KeysDistinct(st) ==>
      forall g <- st.genomics :: g in r <==> CoreOf(st, g.clinicalCore_participant_ID) == Some(c)
  {
    var r := Collection(st.genomics, GenomicsCore, c.participant_ID, GenomicsKey);
    assert DistinctKeys(st.genomics, GenomicsKey) ==> StrictlyAscending(r, GenomicsKey) by {
      if DistinctKeys(st.genomics, GenomicsKey) {
        CollectionStrictlyAscending(st.genomics, GenomicsCore, c.participant_ID, GenomicsKey);
      }
    }
    assert c in st.clinicalCores && KeysDistinct(st) ==>
      forall g <- st.genomics :: g in r <==> CoreOf(st, g.clinicalCore_participant_ID) == Some(c) by {
      if c in st.clinicalCores && KeysDistinct(st) {
        forall g <- st.genomics
          ensures g in r <==> CoreOf(st, g.clinicalCore_participant_ID) == Some(c)
        {
          BackPopulated(st.genomics, GenomicsCore, GenomicsKey, st.clinicalCores, CorePk, c, g);
        }
      }
    }
    r
  }

  /** `core.images`. */
  function CoreImages(st: Store, c: ClinicalCore): (r: seq<Imaging>)
    ensures SortedBy(r, ImageKey)
    ensures forall i :: multiset(r)[i] == if i.clinicalCore_participant_ID == Some(c.participant_ID) then multiset(st.images)[i] else 0
    ensures forall i :: i in r <==> i in st.images && i.clinicalCore_participant_ID == Some(c.participant_ID)
    ensures DistinctKeys(st.images, ImageKey) ==> StrictlyAscending(r, ImageKey)
    ensures c in st.clinicalCores && KeysDistinct(st) ==>
      forall i <- st.images :: i in r <==> CoreOf(st, i.clinicalCore_participant_ID) == Some(c)
  {
    var r := Collection(st.images, ImageCore, c.participant_ID, ImageKey);
    assert DistinctKeys(st.images, ImageKey) ==> StrictlyAscending(r, ImageKey) by {
      if DistinctKeys(st.images, ImageKey) {
        CollectionStrictlyAscending(st.images, ImageCore, c.participant_ID, ImageKey);
      }
    }
    assert c in st.clinicalCores && KeysDistinct(st) ==>
      forall i <- st.images :: i in r <==> CoreOf(st, i.clinicalCore_participant_ID) == Some(c) by {
      if c in st.clinicalCores && KeysDistinct(st) {
        forall i <- st.images
          ensures i in r <==> CoreOf(st, i.clinicalCore_participant_ID) == Some(c)
        {
          BackPopulated(st.images, ImageCore, ImageKey, st.clinicalCores, CorePk, c, i);
        }
      }
    }
    r
  }

  /** `core.organs`. */
  function CoreOrgans(st: Store, c: ClinicalCore): (r: seq<Organ>)
    ensures SortedBy(r, OrganKey)
    ensures forall x :: multiset(r)[x] == if x.clinicalCore_participant_ID == Some(c.participant_ID) then multiset(st.organs)[x] else 0
    ensures forall x :: x in r <==> x in st.organs && x.clinicalCore_participant_ID == Some(c.participant_ID)
    ensures DistinctKeys(st.organs, OrganKey) ==> StrictlyAscending(r, OrganKey)
    ensures c in st.clinicalCores && KeysDistinct(st) ==>
      forall x <- st.organs :: x in r <==> CoreOf(st, x.clinicalCore_participant_ID) == Some(c)
  {
    var r := Collection(st.organs, OrganCore, c.participant_ID, OrganKey);
    assert DistinctKeys(st.organs, OrganKey) ==> StrictlyAscending(r, OrganKey) by {
      if DistinctKeys(st.organs, OrganKey) {
        CollectionStrictlyAscending(st.organs, OrganCore, c.participant_ID, OrganKey);
      }
    }
    assert c in st.clinicalCores && KeysDistinct(st) ==>
      forall x <- st.organs :: x in r <==> CoreOf(st, x.clinicalCore_participant_ID) == Some(c) by {
      if c in st.clinicalCores && KeysDistinct(st) {
        forall x <- st.organs
          ensures x in r <==> CoreOf(st, x.clinicalCore_participant_ID) == Some(c)
        {
          BackPopulated(st.organs, OrganCore, OrganKey, st.clinicalCores, CorePk, c, x);
        }
      }
    }
    r
  }

  /** `core.prior_lesions`. */
  function CorePriorLesions(st: Store, c: ClinicalCore): (r: seq<PriorLesion>)
    ensures SortedBy(r, LesionKey)
    ensures forall p :: multiset(r)[p] == if p.clinicalCore_participant_ID == Some(c.participant_ID) then multiset(st.priorLesions)[p] else 0
    ensures forall p :: p in r <==> p in st.priorLesions && p.clinicalCore_participant_ID == Some(c.participant_ID)
    ensures DistinctKeys(st.priorLesions, LesionKey) ==> StrictlyAscending(r, LesionKey)
    ensures c in st.clinicalCores && KeysDistinct(st) ==>
      forall p <- st.priorLesions :: p in r <==> CoreOf(st, p.clinicalCore_participant_ID) == Some(c)
  {
    var r := Collection(st.priorLesions, LesionCore, c.participant_ID, LesionKey);
    assert DistinctKeys(st.priorLesions, LesionKey) ==> StrictlyAscending(r, LesionKey) by {
      if DistinctKeys(st.priorLesions, LesionKey) {
        CollectionStrictlyAscending(st.priorLesions, LesionCore, c.participant_ID, LesionKey);
      }
    }
    assert c in st.clinicalCores && KeysDistinct(st) ==>
      forall p <- st.priorLesions :: p in r <==> CoreOf(st, p.clinicalCore_participant_ID) == Some(c) by {
      if c in st.clinicalCores && KeysDistinct(st) {
        forall p <- st.priorLesions
          ensures p in r <==> CoreOf(st, p.clinicalCore_participant_ID) == Some(c)
        {
          BackPopulated(st.priorLesions, LesionCore, LesionKey, st.clinicalCores, CorePk, c, p);
        }
      }
    }
    r
  }

  // ---------------------------------------------------------------------------------------------
  // The collections of a biospecimen

  /** `specimen.adjacent_specimens`. */
  function SpecimenAdjacentSpecimens(st: Store, b: Biospecimen): (r: seq<AdjacentSpecimen>)
    ensures SortedBy(r, AdjacentKey)
    ensures forall a :: multiset(r)[a] == if a.biospecimen_identifier == Some(b.specimen_ID) then multiset(st.adjacentSpecimens)[a] else 0
    ensures forall a :: a in r <==> a in st.adjacentSpecimens && a.biospecimen_identifier == Some(b.specimen_ID)
    ensures DistinctKeys(st.adjacentSpecimens, AdjacentKey) ==> StrictlyAscending(r, AdjacentKey)
    ensures b in st.biospecimens && KeysDistinct(st) ==>
      forall a <- st.adjacentSpecimens :: a in r <==> SpecimenOf(st, a.biospecimen_identifier) == Some(b)
  {
    var r := Collection(st.adjacentSpecimens, AdjacentSpecimenOf, b.specimen_ID, AdjacentKey);
    assert DistinctKeys(st.adjacentSpecimens, AdjacentKey) ==> StrictlyAscending(r, AdjacentKey) by {
      if DistinctKeys(st.adjacentSpecimens, AdjacentKey) {
        CollectionStrictlyAscending(st.adjacentSpecimens, AdjacentSpecimenOf, b.specimen_ID, AdjacentKey);
      }
    }
    assert b in st.biospecimens && KeysDistinct(st) ==>
      forall a <- st.adjacentSpecimens :: a in r <==> SpecimenOf(st, a.biospecimen_identifier) == Some(b) by {
      if b in st.biospecimens && KeysDistinct(st) {
        forall a <- st.adjacentSpecimens
          ensures a in r <==> SpecimenOf(st, a.biospecimen_identifier) == Some(b)
        {
          BackPopulated(st.adjacentSpecimens, AdjacentSpecimenOf, AdjacentKey, st.biospecimens, SpecimenPk, b, a);
        }
      }
    }
    r
  }

  /** `specimen.genomics`. */
  function SpecimenGenomics(st: Store, b: Biospecimen): (r: seq<Genomics>)
    ensures SortedBy(r, GenomicsKey)
    ensures forall g :: multiset(r)[g] == if g.biospecimen_specimen_ID == Some(b.specimen_ID) then multiset(st.genomics)[g] else 0
    ensures forall g :: g in r <==> g in st.genomics && g.biospecimen_specimen_ID == Some(b.specimen_ID)
    ensures DistinctKeys(st.genomics, GenomicsKey) ==> StrictlyAscending(r, GenomicsKey)
    ensures b in st.biospecimens && KeysDistinct(st) ==>
      forall g <- st.genomics :: g in r <==> SpecimenOf(st, g.biospecimen_specimen_ID) == Some(b)
  {
    var r := Collection(st.genomics, GenomicsSpecimen, b.specimen_ID, GenomicsKey);
    assert DistinctKeys(st.genomics, GenomicsKey) ==> StrictlyAscending(r, GenomicsKey) by {
      if DistinctKeys(st.genomics, GenomicsKey) {
        CollectionStrictlyAscending(st.genomics, GenomicsSpecimen, b.specimen_ID, GenomicsKey);
      }
    }
    assert b in st.biospecimens && KeysDistinct(st) ==>
      forall g <- st.genomics :: g in r <==> SpecimenOf(st, g.biospecimen_specimen_ID) == Some(b) by {
      if b in st.biospecimens && KeysDistinct(st) {
        forall g <- st.genomics
          ensures g in r <==> SpecimenOf(st, g.biospecimen_specimen_ID) == Some(b)
        {
          BackPopulated(st.genomics, GenomicsSpecimen, GenomicsKey, st.biospecimens, SpecimenPk, b, g);
        }
      }
    }
    r
  }

  /** `specimen.images`. */
  function SpecimenImages(st: Store, b: Biospecimen): (r: seq<Imaging>)
    ensures SortedBy(r, ImageKey)
    ensures forall i :: multiset(r)[i] == if i.biospecimen_specimen_ID == Some(b.specimen_ID) then multiset(st.images)[i] else 0
    ensures forall i :: i in r <==> i in st.images && i.biospecimen_specimen_ID == Some(b.specimen_ID)
    ensures DistinctKeys(st.images, ImageKey) ==> StrictlyAscending(r, ImageKey)
    ensures b in st.biospecimens && KeysDistinct(st) ==>
      forall i <- st.images :: i in r <==> SpecimenOf(st, i.biospecimen_specimen_ID) == Some(b)
  {
    var r := Collection(st.images, ImageSpecimen, b.specimen_ID, ImageKey);
    assert DistinctKeys(st.images, ImageKey) ==> StrictlyAscending(r, ImageKey) by {
      if DistinctKeys(st.images, ImageKey) {
        CollectionStrictlyAscending(st.images, ImageSpecimen, b.specimen_ID, ImageKey);
      }
    }
    assert b in st.biospecimens && KeysDistinct(st) ==>
      forall i <- st.images :: i in r <==> SpecimenOf(st, i.biospecimen_specimen_ID) == Some(b) by {
      if b in st.biospecimens && KeysDistinct(st) {
        forall i <- st.images
          ensures i in r <==> SpecimenOf(st, i.biospecimen_specimen_ID) == Some(b)
        {
          BackPopulated(st.images, ImageSpecimen, ImageKey, st.biospecimens, SpecimenPk, b, i);
        }
      }
    }
    r
  }

  // ---------------------------------------------------------------------------------------------
  // The collection of a breast organ

  /** `breast.histopathology_precancer_types`. */
  function BreastPrecancerTypes(st: Store, o: Organ): (r: seq<HistopathologyPrecancerType>)
    ensures SortedBy(r, PrecancerKey)
    ensures forall h :: multiset(r)[h] == if h.breastOrgan_identifier == Some(o.identifier) then multiset(st.precancerTypes)[h] else 0
    ensures forall h :: h in r <==> h in st.precancerTypes && h.breastOrgan_identifier == Some(o.identifier)
    ensures DistinctKeys(st.precancerTypes, PrecancerKey) ==> StrictlyAscending(r, PrecancerKey)
    ensures o in st.organs && o.detail.Breast? && KeysDistinct(st) ==>
      forall h <- st.precancerTypes :: h in r <==> BreastOf(st, h.breastOrgan_identifier) == Some(o)
  {
    var r := Collection(st.precancerTypes, PrecancerBreast, o.identifier, PrecancerKey);
    assert DistinctKeys(st.precancerTypes, PrecancerKey) ==> StrictlyAscending(r, PrecancerKey) by {
      if DistinctKeys(st.precancerTypes, PrecancerKey) {
        CollectionStrictlyAscending(st.precancerTypes, PrecancerBreast, o.identifier, PrecancerKey);
      }
    }
    assert o in st.organs && o.detail.Breast? && KeysDistinct(st) ==>
      forall h <- st.precancerTypes :: h in r <==> BreastOf(st, h.breastOrgan_identifier) == Some(o) by {
      if o in st.organs && o.detail.Breast? && KeysDistinct(st) {
        BreastKeysDistinct(st.organs);
        forall h <- st.precancerTypes
          ensures h in r <==> BreastOf(st, h.breastOrgan_identifier) == Some(o)
        {
          BackPopulated(st.precancerTypes, PrecancerBreast, PrecancerKey, st.organs, BreastPk, o, h);
        }
      }
    }
    r
  }
  // ---------------------------------------------------------------------------------------------
  // Nothing is lost

  /** In a valid store, every row of `priorLesions` whose `clinicalCore_participant_ID` is set is in the
      `CorePriorLesions` collection of the parent it names. */
  lemma CorePriorLesionsCollected(st: Store)
    requires KeysDistinct(st) && ForeignKeysResolve(st)
    ensures forall p <- st.priorLesions :: p.clinicalCore_participant_ID.Some? ==>
      exists c <- st.clinicalCores :: p in CorePriorLesions(st, c)
  {
    forall p <- st.priorLesions | p.clinicalCore_participant_ID.Some?
      ensures exists c <- st.clinicalCores :: p in CorePriorLesions(st, c)
    {
      var c := CoreOf(st, p.clinicalCore_participant_ID).value;
      assert p in CorePriorLesions(st, c);
    }
  }

  /** In a valid store, every row of `biospecimens` whose `clinicalCore_participant_ID` is set is in the
      `CoreBiospecimens` collection of the parent it names. */
  lemma CoreBiospecimensCollected(st: Store)
    requires KeysDistinct(st) && ForeignKeysResolve(st)
    ensures forall x <- st.biospecimens :: x.clinicalCore_participant_ID.Some? ==>
      exists c <- st.clinicalCores :: x in CoreBiospecimens(st, c)
  {
    forall x <- st.biospecimens | x.clinicalCore_participant_ID.Some?
      ensures exists c <- st.clinicalCores :: x in CoreBiospecimens(st, c)
    {
      var c := CoreOf(st, x.clinicalCore_participant_ID).value;
      assert x in CoreBiospecimens(st, c);
    }
  }

  /** In a valid store, every row of `organs` whose `clinicalCore_participant_ID` is set is in the
      `CoreOrgans` collection of the parent it names. */
  lemma CoreOrgansCollected(st: Store)
    requires KeysDistinct(st) && ForeignKeysResolve(st)
    ensures forall x <- st.organs :: x.clinicalCore_participant_ID.Some? ==>
      exists c <- st.clinicalCores :: x in CoreOrgans(st, c)
  {
    forall x <- st.organs | x.clinicalCore_participant_ID.Some?
      ensures exists c <- st.clinicalCores :: x in CoreOrgans(st, c)
    {
      var c := CoreOf(st, x.clinicalCore_participant_ID).value;
      assert x in CoreOrgans(st, c);
    }
  }

  /** In a valid store, every row of `genomics` whose `clinicalCore_participant_ID` is set is in the
      `CoreGenomics` collection of the parent it names. */
  lemma CoreGenomicsCollected(st: Store)
    requires KeysDistinct(st) && ForeignKeysResolve(st)
    ensures forall g <- st.genomics :: g.clinicalCore_participant_ID.Some? ==>
      exists c <- st.clinicalCores :: g in CoreGenomics(st, c)
  {
    forall g <- st.genomics | g.clinicalCore_participant_ID.Some?
      ensures exists c <- st.clinicalCores :: g in CoreGenomics(st, c)
    {
      var c := CoreOf(st, g.clinicalCore_participant_ID).value;
      assert g in CoreGenomics(st, c);
    }
  }

  /** In a valid store, every row of `images` whose `clinicalCore_participant_ID` is set is in the
      `CoreImages` collection of the parent it names. */
  lemma CoreImagesCollected(st: Store)
    requires KeysDistinct(st) && ForeignKeysResolve(st)
    ensures forall i <- st.images :: i.clinicalCore_participant_ID.Some? ==>
      exists c <- st.clinicalCores :: i in CoreImages(st, c)
  {
    forall i <- st.images | i.clinicalCore_participant_ID.Some?
      ensures exists c <- st.clinicalCores :: i in CoreImages(st, c)
    {
      var c := CoreOf(st, i.clinicalCore_participant_ID).value;
      assert i in CoreImages(st, c);
    }
  }

  /** In a valid store, every row of `adjacentSpecimens` whose `biospecimen_identifier` is set is in the
      `SpecimenAdjacentSpecimens` collection of the parent it names. */
  lemma SpecimenAdjacentSpecimensCollected(st: Store)
    requires KeysDistinct(st) && ForeignKeysResolve(st)
    ensures forall a <- st.adjacentSpecimens :: a.biospecimen_identifier.Some? ==>
      exists b <- st.biospecimens :: a in SpecimenAdjacentSpecimens(st, b)
  {
    forall a <- st.adjacentSpecimens | a.biospecimen_identifier.Some?
      ensures exists b <- st.biospecimens :: a in SpecimenAdjacentSpecimens(st, b)
    {
      var b := SpecimenOf(st, a.biospecimen_identifier).value;
      assert a in SpecimenAdjacentSpecimens(st, b);
    }
  }

  /** In a valid store, every row of `genomics` whose `biospecimen_specimen_ID` is set is in the
      `SpecimenGenomics` collection of the parent it names. */
  lemma SpecimenGenomicsCollected(st: Store)
    requires KeysDistinct(st) && ForeignKeysResolve(st)
    ensures forall g <- st.genomics :: g.biospecimen_specimen_ID.Some? ==>
      exists b <- st.biospecimens :: g in SpecimenGenomics(st, b)
  {
    forall g <- st.genomics | g.biospecimen_specimen_ID.Some?
      ensures exists b <- st.biospecimens :: g in SpecimenGenomics(st, b)
    {
      var b := SpecimenOf(st, g.biospecimen_specimen_ID).value;
      assert g in SpecimenGenomics(st, b);
    }
  }

  /** In a valid store, every row of `images` whose `biospecimen_specimen_ID` is set is in the
      `SpecimenImages` collection of the parent it names. */
  lemma SpecimenImagesCollected(st: Store)
    requires KeysDistinct(st) && ForeignKeysResolve(st)
    ensures forall i <- st.images :: i.biospecimen_specimen_ID.Some? ==>
      exists b <- st.biospecimens :: i in SpecimenImages(st, b)
  {
    forall i <- st.images | i.biospecimen_specimen_ID.Some?
      ensures exists b <- st.biospecimens :: i in SpecimenImages(st, b)
    {
      var b := SpecimenOf(st, i.biospecimen_specimen_ID).value;
      assert i in SpecimenImages(st, b);
    }
  }

  /** In a valid store, every row of `precancerTypes` whose `breastOrgan_identifier` is set is in the
      `BreastPrecancerTypes` collection of the parent it names. */
  lemma BreastPrecancerTypesCollected(st: Store)
    requires KeysDistinct(st) && ForeignKeysResolve(st)
    ensures forall h <- st.precancerTypes :: h.breastOrgan_identifier.Some? ==>
      exists o <- st.organs :: o.detail.Breast? && h in BreastPrecancerTypes(st, o)
  {
    forall h <- st.precancerTypes | h.breastOrgan_identifier.Some?
      ensures exists o <- st.organs :: o.detail.Breast? && h in BreastPrecancerTypes(st, o)
    {
      var o := BreastOf(st, h.breastOrgan_identifier).value;
      assert h in BreastPrecancerTypes(st, o);
    }
  }
}
