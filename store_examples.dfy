/** Concrete rows after the sample data the database tool loads: the column constraints can be met
    and refuse an over-long key, and a collection comes out in `order_by` order whatever the order
    of the rows in their table. */
module StoreExamples {
  import opened Wrappers
  import opened Vocabularies
  import opened Schema
  import opened Relationships
  import opened Store

  function SampleMetadata(url: string): Metadata {
    Metadata(url, None, None, None, None, None, None)
  }

  /** A participant with the ID, file URL and numeric columns of the `db.py` test participant;
      its vocabulary fields all hold the first member of their vocabulary rather than that
      participant's values. */
  function SampleCore(id: string): ClinicalCore {
    ClinicalCore(
      SampleMetadata("file:/tmp/data.dat"), id,
      0, Some(123), None, 0, 0, 0, None, None, 22, None, 1988, 0, 0, 175.0, 11, 82.0, 0, 0,
      123, 2017, 44, 0, 11, 9, 41, 0, 0, 0, None, None, None, 0, 0, None, 0, 0,
      None, None, None, None, 0, None, None)
  }

  /** Two prior lesions of participant `c` (bladder, then bone), listed with the larger identifier
      first, and one lesion that belongs to no participant. */
  function LesionStore(c: ClinicalCore): Store {
    Store(
      [c],
      [PriorLesion(2, 0, Some(c.participant_ID)), PriorLesion(3, 0, None), PriorLesion(1, 1, Some(c.participant_ID))],
      [], [], [], [], [], [])
  }

  /** `Lesion.bladder` and `Lesion.bone` are members of `Lesion`. */
  lemma SampleLesionsAreMembers()
    ensures In(Lesion, 0) && In(Lesion, 1)
  {
  }

  /** The sample participant satisfies every column constraint. */
  lemma SampleCoreValid()
    ensures ValidClinicalCore(SampleCore("XYZ123_456"))
  {
  }

  /** A participant ID longer than `String(14)` is refused. */
  lemma LongParticipantInvalid()
    ensures !ValidClinicalCore(SampleCore("XYZ123_456_789_0"))
  {
  }

  /** A `days_to_consent` one past the largest 32-bit `INTEGER` is refused. */
  lemma WideConsentDaysInvalid()
    ensures !ValidClinicalCore(SampleCore("XYZ123_456").(days_to_consent := Some(0x8000_0000)))
  {
  }

  /** The sample lesions of a participant whose ID fits `String(14)` are valid rows. */
  lemma SampleLesionsValid(c: ClinicalCore)
    requires Fits(c.participant_ID, 14)
    ensures forall p <- LesionStore(c).priorLesions :: ValidPriorLesion(p)
  {
    SampleLesionsAreMembers();
  }

  /** The sample store has distinct keys. */
  lemma LesionStoreKeysDistinct(c: ClinicalCore)
    ensures KeysDistinct(LesionStore(c))
  {
  }

  /** The lesions' foreign keys that are set name the participant. */
  lemma LesionStoreForeignKeysResolve(c: ClinicalCore)
    ensures ForeignKeysResolve(LesionStore(c))
  {
    var st := LesionStore(c);
    assert CoreOf(st, Some(c.participant_ID)) == Some(c);
  }

  /** `core.prior_lesions` holds the participant's own lesions only, in ascending identifier order. */
  lemma PriorLesionsInIdentifierOrder(c: ClinicalCore)
    ensures CorePriorLesions(LesionStore(c), c)
      == [PriorLesion(1, 1, Some(c.participant_ID)), PriorLesion(2, 0, Some(c.participant_ID))]
  {
    var rows := LesionStore(c).priorLesions;
    var a, b := rows[0], rows[2];
    var id := c.participant_ID;
    assert Where(rows[2..], LesionCore, id) == [b] by {
      assert rows[2..][1..] == [];
    }
    assert Where(rows[1..], LesionCore, id) == [b] by {
      assert rows[1..][1..] == rows[2..];
    }
    assert Where(rows, LesionCore, id) == [a, b];
    assert OrderBy([b], LesionKey) == [b] by {
      assert [b][1..] == [];
    }
    assert Insert(a, [b], LesionKey) == [b, a] by {
      assert !KeyLe(LesionKey(a), LesionKey(b));
      assert [b][1..] == [];
    }
    assert OrderBy([a, b], LesionKey) == [b, a] by {
      assert [a, b][1..] == [b];
    }
  }
}
