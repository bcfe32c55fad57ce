/** What the encoders of `mcl/sickbay/json.py` guarantee about the dicts they build. */
module EncoderFacts {
  import opened Wrappers
  import opened PyValues
  import opened Encoder
  import opened Vocabulary

  // ---------------------------------------------------------------------------------------------
  // addAttributes

  /** After `addAttributes(obj, names, d)` a key holds what it held before unless it is one of the
      names and `obj` has a value other than `None` for it; that value is stored as it is, except
      that an enumeration member becomes the dict of its label and its token. */
  lemma {:induction false} AddAttributesLookup(d: Entries, obj: Py, names: seq<string>, k: string)
    ensures var v := GetAttrOr(obj, k);
      Lookup(WithAttributes(d, obj, names), k) ==
        if k !in names || v == PyNone then Lookup(d, k)
        else if v.PyEnum? then Some(PyDict([("label", PyStr(v.value)), ("token", PyStr(v.name))]))
        else Some(v)
    decreases |names|
  {
    if |names| > 0 {
      var init := names[..|names| - 1];
      assert names == init + [names[|names| - 1]];
      AddAttributesLookup(d, obj, init, k);
    }
  }

  /** `addAttributes` removes no key and moves none: the old keys stay a prefix, every new key is
      one of the names, and no key is doubled. */
  lemma {:induction false} AddAttributesKeys(d: Entries, obj: Py, names: seq<string>)
    ensures Keys(d) <= Keys(WithAttributes(d, obj, names))
    ensures forall i :: |d| <= i < |WithAttributes(d, obj, names)| ==> WithAttributes(d, obj, names)[i].0 in names
    ensures UniqueKeys(d) ==> UniqueKeys(WithAttributes(d, obj, names))
    decreases |names|
  {
    if |names| > 0 {
      var init := names[..|names| - 1];
      var name := names[|names| - 1];
      assert names == init + [name];
      AddAttributesKeys(d, obj, init);
      var before := WithAttributes(d, obj, init);
      var value := GetAttrOr(obj, name);
      if value != PyNone {
        AssignExtends(d, before, init, name, AttributeValue(value));
      }
    }
  }

  /** One step of `addAttributes`: assigning one more name keeps the old keys a prefix, adds only
      that name, and doubles no key. */
  lemma AssignExtends(d: Entries, before: Entries, init: seq<string>, name: string, v: Py)
    requires Keys(d) <= Keys(before)
    requires forall i :: |d| <= i < |before| ==> before[i].0 in init
    ensures Keys(d) <= Keys(Assign(before, name, v))
    ensures forall i :: |d| <= i < |Assign(before, name, v)| ==> Assign(before, name, v)[i].0 in init + [name]
    ensures UniqueKeys(before) ==> UniqueKeys(Assign(before, name, v))
  {
    var r := Assign(before, name, v);
    if UniqueKeys(before) {
      AssignKeepsKeysUnique(before, name, v);
    }
    forall i | |d| <= i < |r|
      ensures r[i].0 in init + [name]
    {
      assert r[i].0 == Keys(r)[i];
      if i < |before| {
        assert Keys(r)[i] == Keys(before)[i];
      }
    }
  }

  /** The partner of the projection of enumeration members: the token `addAttributes` writes for a
      member of a vocabulary resolves back to that member, and so does its label when the
      vocabulary's labels and tokens agree. */
  lemma EnumProjectionRoundTrip(v: Vocab, m: nat, d: Entries, obj: Py, names: seq<string>, k: string)
    requires WellFormed(v) && IsMember(v, m)
    requires k in names && obj.PyObj? && k in obj.attrs && obj.attrs[k] == PyEnum(Token(v, m), Label(v, m))
    ensures Lookup(WithAttributes(d, obj, names), k) == Some(PyDict([("label", PyStr(Label(v, m))), ("token", PyStr(Token(v, m)))]))
    ensures Resolve(v, Token(v, m)) == Some(m)
    ensures Coherent(v) ==> Resolve(v, Label(v, m)) == Some(m)
  {
    AddAttributesLookup(d, obj, names, k);
    ResolveOwnToken(v, m);
    if Coherent(v) {
      ResolveLabelSpellings(v, m);
    }
  }

  // ---------------------------------------------------------------------------------------------
  // The encoder chain

  /** Every encoded class is metadata, and each subclass encoder's class is a subclass of its
      parent encoder's class. */
  lemma HandledChain(enc: Encoder)
    requires enc != SickbayEncoder
    ensures IsSubclass(enc.Handled(), LabCASMetadataClass)
    ensures enc != LabCASMetadataEncoder ==> IsSubclass(enc.Handled(), enc.Parent().Handled())
  {
    assert IsSubclass(OrganClass, LabCASMetadataClass) by {
      assert OrganClass.bases[1] == LabCASMetadataClass;
    }
    assert IsSubclass(GenomicsClass, LabCASMetadataClass) by {
      assert GenomicsClass.bases[1] == LabCASMetadataClass;
    }
    assert IsSubclass(ClinicalCoreClass, LabCASMetadataClass) by {
      assert ClinicalCoreClass.bases[1] == LabCASMetadataClass;
    }
    assert IsSubclass(BiospecimenClass, LabCASMetadataClass) by {
      assert BiospecimenClass.bases[1] == LabCASMetadataClass;
    }
    assert IsSubclass(ImagingClass, LabCASMetadataClass) by {
      assert ImagingClass.bases[1] == LabCASMetadataClass;
    }
    match enc
    case BreastOrganEncoder =>
      assert BreastOrganClass.bases[0] == OrganClass;
    case ProstateOrganEncoder =>
      assert ProstateOrganClass.bases[0] == OrganClass;
    case LungOrganEncoder =>
      assert LungOrganClass.bases[0] == OrganClass;
    case PancreasOrganEncoder =>
      assert PancreasOrganClass.bases[0] == OrganClass;
    case Smart3SeqGenomicsEncoder =>
      assert Smart3SeqGenomicsClass.bases[0] == GenomicsClass;
    case _ =>
  }

  lemma HandledByAncestors(enc: Encoder, x: Py)
    requires Handles(enc, x)
    ensures IsSubclass(x.cls, LabCASMetadataClass)
    ensures enc != LabCASMetadataEncoder ==> Handles(enc.Parent(), x)
  {
    HandledChain(enc);
    SubclassTransitive(x.cls, enc.Handled(), LabCASMetadataClass);
    if enc != LabCASMetadataEncoder {
      SubclassTransitive(x.cls, enc.Handled(), enc.Parent().Handled());
    }
  }

  /** `super().default(obj)` inside an encoder's `isinstance` branch is exactly the parent
      encoder's node: the parent handles the object too, so the item assignments that follow
      always act on a dict. */
  lemma SuperIsParentNode(tu: Tuples, enc: Encoder, x: Py)
    requires Handles(enc, x) && enc != LabCASMetadataEncoder
    ensures Handles(enc.Parent(), x)
    ensures SuperDict(tu, enc, x) == Node(tu, enc.Parent(), x)
  {
    HandledByAncestors(enc, x);
  }

  /** A subtype encoder (breast, prostate, lung, pancreas, Smart-3Seq) fails exactly when its
      parent does, and otherwise returns the parent's dict with its own attributes added. */
  lemma SubtypeExtendsParent(tu: Tuples, enc: Encoder, x: Py)
    requires IsSubtypeEncoder(enc) && Handles(enc, x)
    ensures Handles(enc.Parent(), x)
    ensures Node(tu, enc, x).Failure? <==> Node(tu, enc.Parent(), x).Failure?
    ensures Node(tu, enc, x).Failure? ==> Node(tu, enc, x).error == Node(tu, enc.Parent(), x).error
    ensures Node(tu, enc, x).Success? ==>
      Node(tu, enc, x).value == WithAttributes(Node(tu, enc.Parent(), x).value, x, OwnAttributes(tu, enc))
  {
    SuperIsParentNode(tu, enc, x);
    match enc
    case BreastOrganEncoder =>
    case ProstateOrganEncoder =>
    case LungOrganEncoder =>
    case PancreasOrganEncoder =>
    case Smart3SeqGenomicsEncoder =>
  }

  /** So a subtype encoder keeps every entry of its parent's dict in place, and changes none that
      its own attribute tuple does not name. */
  lemma SubtypeKeepsParentEntries(tu: Tuples, enc: Encoder, x: Py, k: string)
    requires IsSubtypeEncoder(enc) && Handles(enc, x) && Node(tu, enc, x).Success?
    ensures Handles(enc.Parent(), x) && Node(tu, enc.Parent(), x).Success?
    ensures Keys(Node(tu, enc.Parent(), x).value) <= Keys(Node(tu, enc, x).value)
    ensures k !in OwnAttributes(tu, enc) ==> Lookup(Node(tu, enc, x).value, k) == Lookup(Node(tu, enc.Parent(), x).value, k)
  {
    SubtypeExtendsParent(tu, enc, x);
    var p := Node(tu, enc.Parent(), x).value;
    AddAttributesKeys(p, x, OwnAttributes(tu, enc));
    AddAttributesLookup(p, x, OwnAttributes(tu, enc), k);
  }

  // ---------------------------------------------------------------------------------------------
  // The metadata node

  predicate IsDunder(k: string) {
    |k| >= 2 && k[0] == '_' && k[1] == '_'
  }

  /** The conditions on the attribute tuples that the lemmas below rely on: no metadata attribute
      is a class tag, and no tuple names a key its encoder writes by itself. */
  ghost predicate PlainTuples(tu: Tuples) {
    && (forall k <- tu.metadata :: !IsDunder(k))
    && "labcasID" !in tu.metadata
    && "histopathology_precancer_types" !in tu.metadata
    && "sequencing_date" !in tu.genomics
    && "sequencing_date" !in tu.smart3Seq
    && "participant_ID" !in tu.clinicalCore
    && (forall k <- ClinicalCoreCollections :: k !in tu.metadata && k !in tu.clinicalCore)
    && "specimen_ID" !in tu.biospecimen
    && (forall k <- BiospecimenCollections :: k !in tu.metadata && k !in tu.biospecimen)
  }

  /** The tuples the encoders declare meet those conditions. */
  lemma SourceTuplesPlain()
    ensures PlainTuples(SourceTuples)
  {
    SourceMetadata();
    SourceGenomics();
    SourceSmart3Seq();
    SourceClinicalCore();
    SourceBiospecimen();
    DeclaredTuplesPlain(SourceTuples);
  }

  lemma SourceMetadata() ensures SourceTuples.metadata == MetadataAttributes() {}
  lemma SourceGenomics() ensures SourceTuples.genomics == GenomicsAttributes() {}
  lemma SourceSmart3Seq() ensures SourceTuples.smart3Seq == Smart3SeqAttributes() {}
  lemma SourceClinicalCore() ensures SourceTuples.clinicalCore == ClinicalCoreAttributes() {}
  lemma SourceBiospecimen() ensures SourceTuples.biospecimen == BiospecimenAttributes() {}

  lemma DeclaredTuplesPlain(tu: Tuples)
    requires tu.metadata == MetadataAttributes() && tu.genomics == GenomicsAttributes()
    requires tu.smart3Seq == Smart3SeqAttributes() && tu.clinicalCore == ClinicalCoreAttributes()
    requires tu.biospecimen == BiospecimenAttributes()
    ensures PlainTuples(tu)
  {
    MetadataNamesPlain();
    GenomicsNamesPlain();
    ClinicalCoreCollectionsUnlisted();
    ParticipantIdNotAnAttribute();
    BiospecimenKeysUnlisted();
  }

  lemma MetadataNamesPlain()
    ensures forall k <- MetadataAttributes() :: !IsDunder(k)
    ensures "labcasID" !in MetadataAttributes() && "histopathology_precancer_types" !in MetadataAttributes()
    ensures forall k <- ClinicalCoreCollections :: k !in MetadataAttributes()
    ensures forall k <- BiospecimenCollections :: k !in MetadataAttributes()
  {
  }

  /** The metadata encoder's dict starts with the class tag `__<module>.<class>__` of the object's
      own class, set to `True`, then `labcasID`; after those come only the nullable provenance
      attributes. It fails exactly when the object has no `labcasID`. */
  lemma MetadataNodeShape(tu: Tuples, x: Py)
    requires PlainTuples(tu)
    requires Handles(LabCASMetadataEncoder, x)
    ensures Node(tu, LabCASMetadataEncoder, x).Success? <==> "labcasID" in x.attrs
    ensures Node(tu, LabCASMetadataEncoder, x).Failure? ==> Node(tu, LabCASMetadataEncoder, x).error == AttributeError("labcasID")
    ensures var r := Node(tu, LabCASMetadataEncoder, x);
      r.Success? ==>
        && |r.value| >= 2
        && r.value[0] == (Tag(x.cls), PyBool(true))
        && r.value[1] == ("labcasID", x.attrs["labcasID"])
        && UniqueKeys(r.value)
        && forall i :: 2 <= i < |r.value| ==> r.value[i].0 in tu.metadata
  {
    if "labcasID" in x.attrs {
      assert IsDunder(Tag(x.cls));
      TagAndIdFirst(Tag(x.cls), x.attrs["labcasID"], x, tu.metadata);
    }
  }

  /** The dict `{tag: True, "labcasID": id}` extended by attributes none of which is `labcasID`
      or a tag keeps those two entries first. */
  lemma TagAndIdFirst(tag: string, id: Py, x: Py, names: seq<string>)
    requires IsDunder(tag) && "labcasID" !in names && forall k <- names :: !IsDunder(k)
    ensures var r := WithAttributes(Assign(Assign([], tag, PyBool(true)), "labcasID", id), x, names);
      && |r| >= 2
      && r[0] == (tag, PyBool(true))
      && r[1] == ("labcasID", id)
      && UniqueKeys(r)
      && forall i :: 2 <= i < |r| ==> r[i].0 in names
  {
    var head := Assign(Assign([], tag, PyBool(true)), "labcasID", id);
    assert head == [(tag, PyBool(true)), ("labcasID", id)];
    var r := WithAttributes(head, x, names);
    AddAttributesKeys(head, x, names);
    AddAttributesLookup(head, x, names, tag);
    AddAttributesLookup(head, x, names, "labcasID");
    assert Keys(r)[0] == tag && Keys(r)[1] == "labcasID";
    LookupAt(r, 0);
    LookupAt(r, 1);
  }

  /** A key that is no class tag, not `labcasID` and no provenance attribute is absent from the
      metadata dict. */
  lemma NotAMetadataKey(tu: Tuples, x: Py, k: string)
    requires PlainTuples(tu)
    requires Handles(LabCASMetadataEncoder, x) && Node(tu, LabCASMetadataEncoder, x).Success?
    requires !IsDunder(k) && k != "labcasID" && k !in tu.metadata
    ensures k !in Keys(Node(tu, LabCASMetadataEncoder, x).value)
  {
    MetadataNodeShape(tu, x);
    var r := Node(tu, LabCASMetadataEncoder, x).value;
    assert IsDunder(Tag(x.cls));
    forall i | 0 <= i < |r|
      ensures Keys(r)[i] != k
    {
    }
  }

  // ---------------------------------------------------------------------------------------------
  // Collections

  /** A projected list (`prior_lesions`, `core_races`, `core_tobaccos`, the precancer types,
      `adjacent_specimens`) is written exactly when the collection is non-empty, and then holds the
      followed attribute of each member, in order. */
  lemma ProjectionWrittenIffNonEmpty(x: Py, key: string, path: seq<string>, guard: Guard)
    requires Projection(x, key, path, guard).Success?
    ensures GetAttr(x, key).Success?
    ensures var v := GetAttr(x, key).value; var p := Projection(x, key, path, guard).value;
      && (p.Some? <==> Truthy(v))
      && (p.Some? ==> Iterate(v).Success? && FollowAll(Iterate(v).value, path).Success?
                      && p.value == PyList(FollowAll(Iterate(v).value, path).value))
  {
  }

  /** A child collection (`biospecimens`, `genomics`, `images`, `organs`) is written exactly when
      it is truthy, and then holds, in order, what its encoder makes of each member. */
  lemma ChildrenWrittenIffTruthy(tu: Tuples, x: Py, key: string, child: ChildEncoding)
    requires x.PyObj? && Children(tu, x, key, child).Success?
    ensures key in x.attrs
    ensures var v := x.attrs[key]; var c := Children(tu, x, key, child).value;
      && (c.Some? <==> Truthy(v))
      && (c.Some? ==>
            && Iterate(v).Success? && c.value.PyList? && |c.value.items| == |Iterate(v).value|
            && forall i :: 0 <= i < |c.value.items| ==> EncodeChild(tu, child, Iterate(v).value[i]) == Success(c.value.items[i]))
  {
  }

  /** A table encodes an object it lists with the encoder for that very class, whose `isinstance`
      branch builds the node. */
  lemma TableEncodesExactClass(tu: Tuples, t: Table, x: Py)
    requires EncoderFor(t, x).Some?
    ensures Handles(EncoderFor(t, x).value, x)
    ensures var n := Node(tu, EncoderFor(t, x).value, x);
      EncodeChild(tu, ByClass(t), x) == if n.Success? then Success(PyDict(n.value)) else Failure(n.error)
  {
  }

  /** The organ table is keyed by exact class: an object of a further subclass of `Organ`, which
      `OrganEncoder` would accept, is a `KeyError` there. */
  lemma UnlistedOrganSubclassIsKeyError(tu: Tuples, x: Py)
    requires x.PyObj? && IsSubclass(x.cls, OrganClass)
    requires x.cls != OrganClass && x.cls != BreastOrganClass && x.cls != ProstateOrganClass
    requires x.cls != LungOrganClass && x.cls != PancreasOrganClass
    ensures Handles(OrganEncoder, x)
    ensures EncodeChild(tu, ByClass(OrganEncoders), x) == Failure(KeyError)
  {
  }

  /** Likewise for the genomics table. */
  lemma UnlistedGenomicsSubclassIsKeyError(tu: Tuples, x: Py)
    requires x.PyObj? && IsSubclass(x.cls, GenomicsClass)
    requires x.cls != GenomicsClass && x.cls != Smart3SeqGenomicsClass
    ensures Handles(GenomicsEncoder, x)
    ensures EncodeChild(tu, ByClass(GenomicsEncoders), x) == Failure(KeyError)
  {
  }

  // ---------------------------------------------------------------------------------------------
  // Values that are no metadata object

  /** Every encoder turns a date into its (year, month, day) triple and an enumeration member into
      its name, and rejects any other value that is not an object. */
  lemma {:induction false} DefaultOfNonObject(tu: Tuples, enc: Encoder, x: Py)
    requires !x.PyObj?
    ensures x.PyDate? ==> Default(tu, enc, x) == Success(PyTuple([PyInt(x.year), PyInt(x.month), PyInt(x.day)]))
    ensures x.PyEnum? ==> Default(tu, enc, x) == Success(PyStr(x.name))
    ensures !x.PyDate? && !x.PyEnum? ==> Default(tu, enc, x) == Failure(NotSerializable)
    decreases enc.Height()
  {
    if enc != SickbayEncoder {
      DefaultOfNonObject(tu, enc.Parent(), x);
    }
  }

  /** An object whose class does not derive from `LabCASMetadata` is rejected by every encoder. */
  lemma {:induction false} DefaultOfForeignObject(tu: Tuples, enc: Encoder, x: Py)
    requires x.PyObj? && !IsSubclass(x.cls, LabCASMetadataClass)
    ensures Default(tu, enc, x) == Failure(NotSerializable)
    decreases enc.Height()
  {
    if enc != SickbayEncoder {
      assert !Handles(enc, x) by {
        if Handles(enc, x) {
          HandledByAncestors(enc, x);
        }
      }
      DefaultOfForeignObject(tu, enc.Parent(), x);
    }
  }

  // ---------------------------------------------------------------------------------------------
  // Organs and genomics

  /** An organ dict holds the object's `identifier` and `organType`, and holds
      `histopathology_precancer_types` exactly when that collection is non-empty, as the `hp_type`
      name of each member in order. */
  lemma OrganNodeShape(tu: Tuples, x: Py)
    requires PlainTuples(tu)
    requires Handles(OrganEncoder, x) && Node(tu, OrganEncoder, x).Success?
    ensures "identifier" in x.attrs && "organType" in x.attrs && "histopathology_precancer_types" in x.attrs
    ensures var d := Node(tu, OrganEncoder, x).value; var hp := x.attrs["histopathology_precancer_types"];
      && Lookup(d, "identifier") == Some(x.attrs["identifier"])
      && Lookup(d, "organType") == Some(x.attrs["organType"])
      && ("histopathology_precancer_types" in Keys(d) <==> Truthy(hp))
      && (Truthy(hp) ==>
            && Iterate(hp).Success? && FollowAll(Iterate(hp).value, ["hp_type", "name"]).Success?
            && Lookup(d, "histopathology_precancer_types") == Some(PyList(FollowAll(Iterate(hp).value, ["hp_type", "name"]).value)))
  {
    var key := "histopathology_precancer_types";
    OrganUnfold(tu, x);
    PrecancerTypesNotAMetadataKey(tu, x);
    OrganEntries(Node(tu, LabCASMetadataEncoder, x).value, x.attrs["identifier"], x.attrs["organType"],
      Projection(x, key, ["hp_type", "name"], NonEmpty).value);
    ProjectionWrittenIffNonEmpty(x, key, ["hp_type", "name"], NonEmpty);
  }

  lemma PrecancerTypesNotAMetadataKey(tu: Tuples, x: Py)
    requires PlainTuples(tu)
    requires Handles(LabCASMetadataEncoder, x) && Node(tu, LabCASMetadataEncoder, x).Success?
    ensures "histopathology_precancer_types" !in Keys(Node(tu, LabCASMetadataEncoder, x).value)
  {
    NotAMetadataKey(tu, x, "histopathology_precancer_types");
  }

  lemma OrganEntries(p: Entries, id: Py, organType: Py, hp: Option<Py>)
    requires "histopathology_precancer_types" !in Keys(p)
    ensures var d := SetIfSome(Assign(Assign(p, "identifier", id), "organType", organType), "histopathology_precancer_types", hp);
      && Lookup(d, "identifier") == Some(id)
      && Lookup(d, "organType") == Some(organType)
      && ("histopathology_precancer_types" in Keys(d) <==> hp.Some?)
      && (hp.Some? ==> Lookup(d, "histopathology_precancer_types") == hp)
  {
    var h := "histopathology_precancer_types";
    var a := Assign(p, "identifier", id);
    var b := Assign(a, "organType", organType);
    assert "identifier" != "organType" && h != "identifier" && h != "organType";
    assert Lookup(b, "identifier") == Some(id);
    assert Lookup(b, h) == None;
    if hp.Some? {
      assert Lookup(Assign(b, h, hp.value), "identifier") == Some(id);
    }
  }

  /** The organ encoder's node, step by step. */
  lemma OrganUnfold(tu: Tuples, x: Py)
    requires Handles(OrganEncoder, x) && Node(tu, OrganEncoder, x).Success?
    ensures Handles(LabCASMetadataEncoder, x) && Node(tu, LabCASMetadataEncoder, x).Success?
    ensures "identifier" in x.attrs && "organType" in x.attrs
    ensures Projection(x, "histopathology_precancer_types", ["hp_type", "name"], NonEmpty).Success?
    ensures Node(tu, OrganEncoder, x) == Success(SetIfSome(Assign(Assign(Node(tu, LabCASMetadataEncoder, x).value,
      "identifier", x.attrs["identifier"]), "organType", x.attrs["organType"]),
      "histopathology_precancer_types", Projection(x, "histopathology_precancer_types", ["hp_type", "name"], NonEmpty).value))
  {
    SuperIsParentNode(tu, OrganEncoder, x);
  }

  /** An organ object without a `histopathology_precancer_types` attribute cannot be encoded by the
      organ encoder or any encoder built on it: the read at the precancer-types test raises
      `AttributeError`. */
  lemma OrganWithoutPrecancerTypesFails(tu: Tuples, enc: Encoder, x: Py)
    requires PlainTuples(tu)
    requires enc == OrganEncoder || (IsSubtypeEncoder(enc) && enc.Parent() == OrganEncoder)
    requires Handles(enc, x)
    requires "labcasID" in x.attrs && "identifier" in x.attrs && "organType" in x.attrs
    requires "histopathology_precancer_types" !in x.attrs
    ensures Default(tu, enc, x) == Failure(AttributeError("histopathology_precancer_types"))
  {
    HandledByAncestors(enc, x);
    if enc != OrganEncoder {
      SubtypeExtendsParent(tu, enc, x);
    }
    OrganNodeWithoutPrecancerTypes(tu, x);
  }

  lemma OrganNodeWithoutPrecancerTypes(tu: Tuples, x: Py)
    requires PlainTuples(tu)
    requires Handles(OrganEncoder, x)
    requires "labcasID" in x.attrs && "identifier" in x.attrs && "organType" in x.attrs
    requires "histopathology_precancer_types" !in x.attrs
    ensures Node(tu, OrganEncoder, x) == Failure(AttributeError("histopathology_precancer_types"))
  {
    HandledByAncestors(OrganEncoder, x);
    SuperIsParentNode(tu, OrganEncoder, x);
    MetadataNodeShape(tu, x);
  }


  lemma GenomicsNamesPlain()
    ensures "sequencing_date" !in GenomicsAttributes() && "sequencing_date" !in Smart3SeqAttributes()
  {
  }

  /** A genomics dict always holds `sequencing_date`, as the (year, month, day) triple of the
      object's date, whatever the attribute tuple holds; a genomics object whose date is `None`
      cannot be encoded. */
  lemma GenomicsNodeDate(tu: Tuples, x: Py)
    requires PlainTuples(tu)
    requires Handles(GenomicsEncoder, x) && Node(tu, GenomicsEncoder, x).Success?
    ensures "sequencing_date" in x.attrs
    ensures var w := x.attrs["sequencing_date"]; var d := Node(tu, GenomicsEncoder, x).value;
      && GetAttr(w, "year").Success? && GetAttr(w, "month").Success? && GetAttr(w, "day").Success?
      && Lookup(d, "sequencing_date") == Some(PyTuple([GetAttr(w, "year").value, GetAttr(w, "month").value, GetAttr(w, "day").value]))
      && (w.PyDate? ==> Lookup(d, "sequencing_date") == Some(PyTuple([PyInt(w.year), PyInt(w.month), PyInt(w.day)])))
      && w != PyNone
  {
    GenomicsUnfold(tu, x);
    var w := x.attrs["sequencing_date"];
    var t := PyTuple([GetAttr(w, "year").value, GetAttr(w, "month").value, GetAttr(w, "day").value]);
    GenomicsEntries(tu, Node(tu, LabCASMetadataEncoder, x).value, x.attrs["specimen_ID"], t, x);
  }

  /** The genomics encoder's node, step by step. */
  lemma GenomicsUnfold(tu: Tuples, x: Py)
    requires Handles(GenomicsEncoder, x) && Node(tu, GenomicsEncoder, x).Success?
    ensures Handles(LabCASMetadataEncoder, x) && Node(tu, LabCASMetadataEncoder, x).Success?
    ensures "specimen_ID" in x.attrs && "sequencing_date" in x.attrs
    ensures var w := x.attrs["sequencing_date"];
      && GetAttr(w, "year").Success? && GetAttr(w, "month").Success? && GetAttr(w, "day").Success?
      && Node(tu, GenomicsEncoder, x) == Success(WithAttributes(Assign(Assign(Node(tu, LabCASMetadataEncoder, x).value,
           "specimen_ID", x.attrs["specimen_ID"]),
           "sequencing_date", PyTuple([GetAttr(w, "year").value, GetAttr(w, "month").value, GetAttr(w, "day").value])),
           x, tu.genomics))
  {
    SuperIsParentNode(tu, GenomicsEncoder, x);
  }

  lemma GenomicsEntries(tu: Tuples, p: Entries, id: Py, t: Py, x: Py)
    requires "sequencing_date" !in tu.genomics
    ensures Lookup(WithAttributes(Assign(Assign(p, "specimen_ID", id), "sequencing_date", t), x, tu.genomics), "sequencing_date") == Some(t)
  {
    AddAttributesLookup(Assign(Assign(p, "specimen_ID", id), "sequencing_date", t), x, tu.genomics, "sequencing_date");
  }


  lemma DateWritten(tu: Tuples, x: Py)
    requires PlainTuples(tu)
    requires Handles(GenomicsEncoder, x) && Node(tu, GenomicsEncoder, x).Success?
    ensures Lookup(Node(tu, GenomicsEncoder, x).value, "sequencing_date").Some?
  {
    GenomicsNodeDate(tu, x);
  }

  /** The dict of a genomics subtype (the Smart-3Seq encoder) keeps the genomics `sequencing_date`
      triple. */
  lemma GenomicsSubtypeKeepsDate(tu: Tuples, enc: Encoder, x: Py)
    requires PlainTuples(tu)
    requires IsSubtypeEncoder(enc) && enc.Parent() == GenomicsEncoder
    requires Handles(enc, x) && Node(tu, enc, x).Success?
    ensures Handles(GenomicsEncoder, x) && Node(tu, GenomicsEncoder, x).Success?
    ensures Lookup(Node(tu, enc, x).value, "sequencing_date") == Lookup(Node(tu, GenomicsEncoder, x).value, "sequencing_date")
    ensures Lookup(Node(tu, enc, x).value, "sequencing_date").Some?
  {
    assert enc == Smart3SeqGenomicsEncoder;
    SubtypeKeepsParentEntries(tu, enc, x, "sequencing_date");
    DateWritten(tu, x);
  }

  // ---------------------------------------------------------------------------------------------
  // Participants and specimens

  /** The optional entries written one after the other at the end of a node. */
  ghost function SetAll(d: Entries, kvs: seq<(string, Option<Py>)>): Entries
    decreases |kvs|
  {
    if |kvs| == 0 then d
    else SetIfSome(SetAll(d, kvs[..|kvs| - 1]), kvs[|kvs| - 1].0, kvs[|kvs| - 1].1)
  }

  /** Writing optional entries under distinct keys: a key none of them names keeps its value, and a
      key one of them names holds that entry's value, or its old value when the entry is `None`. */
  lemma SetAllLookup(d: Entries, kvs: seq<(string, Option<Py>)>, k: string)
    requires forall i, j :: 0 <= i < j < |kvs| ==> kvs[i].0 != kvs[j].0
    ensures (forall i :: 0 <= i < |kvs| ==> kvs[i].0 != k) ==> Lookup(SetAll(d, kvs), k) == Lookup(d, k)
    ensures forall i :: 0 <= i < |kvs| && kvs[i].0 == k ==>
      Lookup(SetAll(d, kvs), k) == if kvs[i].1.Some? then kvs[i].1 else Lookup(d, k)
  {
    if forall i :: 0 <= i < |kvs| ==> kvs[i].0 != k {
      SetAllUnlisted(d, kvs, k);
    }
    forall i | 0 <= i < |kvs| && kvs[i].0 == k
      ensures Lookup(SetAll(d, kvs), k) == if kvs[i].1.Some? then kvs[i].1 else Lookup(d, k)
    {
      SetAllListed(d, kvs, i);
    }
  }

  lemma {:induction false} SetAllUnlisted(d: Entries, kvs: seq<(string, Option<Py>)>, k: string)
    requires forall i :: 0 <= i < |kvs| ==> kvs[i].0 != k
    ensures Lookup(SetAll(d, kvs), k) == Lookup(d, k)
    decreases |kvs|
  {
    if |kvs| > 0 {
      var n := |kvs| - 1;
      SetAllUnlisted(d, kvs[..n], k);
      SetIfSomeLookup(SetAll(d, kvs[..n]), kvs[n].0, kvs[n].1, k);
    }
  }

  lemma {:induction false} SetAllListed(d: Entries, kvs: seq<(string, Option<Py>)>, i: nat)
    requires forall i, j :: 0 <= i < j < |kvs| ==> kvs[i].0 != kvs[j].0
    requires i < |kvs|
    ensures Lookup(SetAll(d, kvs), kvs[i].0) == if kvs[i].1.Some? then kvs[i].1 else Lookup(d, kvs[i].0)
    decreases |kvs|
  {
    var n := |kvs| - 1;
    var k := kvs[i].0;
    SetIfSomeLookup(SetAll(d, kvs[..n]), kvs[n].0, kvs[n].1, k);
    if i == n {
      SetAllUnlisted(d, kvs[..n], k);
    } else {
      assert kvs[..n][i] == kvs[i];
      SetAllListed(d, kvs[..n], i);
    }
  }

  /** One optional entry: only its own key can change, and only when it is present. */
  lemma SetIfSomeLookup(d: Entries, key: string, v: Option<Py>, k: string)
    ensures Lookup(SetIfSome(d, key, v), k) == if key == k && v.Some? then v else Lookup(d, k)
  {
  }

  /** The collections a participant dict may hold. */
  const ClinicalCoreCollections: seq<string> :=
    ["prior_lesions", "core_races", "core_tobaccos", "biospecimens", "genomics", "images", "organs"]

  /** No collection key of a participant dict is a key written before the collections. */
  lemma ClinicalCoreCollectionsPlain()
    ensures forall k <- ClinicalCoreCollections :: !IsDunder(k) && k != "labcasID" && k != "participant_ID"
  {
  }

  lemma ClinicalCoreCollectionsUnlisted()
    ensures forall k <- ClinicalCoreCollections :: k !in ClinicalCoreAttributes()
  {
    PriorLesionsNotAnAttribute();
    CoreRacesNotAnAttribute();
    CoreTobaccosNotAnAttribute();
    BiospecimensNotAnAttribute();
    GenomicsNotAnAttribute();
    ImagesNotAnAttribute();
    OrgansNotAnAttribute();
  }

  lemma PriorLesionsNotAnAttribute() ensures "prior_lesions" !in ClinicalCoreAttributes() {}
  lemma CoreRacesNotAnAttribute() ensures "core_races" !in ClinicalCoreAttributes() {}
  lemma CoreTobaccosNotAnAttribute() ensures "core_tobaccos" !in ClinicalCoreAttributes() {}
  lemma BiospecimensNotAnAttribute() ensures "biospecimens" !in ClinicalCoreAttributes() {}
  lemma GenomicsNotAnAttribute() ensures "genomics" !in ClinicalCoreAttributes() {}
  lemma ImagesNotAnAttribute() ensures "images" !in ClinicalCoreAttributes() {}
  lemma OrgansNotAnAttribute() ensures "organs" !in ClinicalCoreAttributes() {}

  /** Each optional entry is written after the ones before it. */
  lemma SetAllStep(d: Entries, kvs: seq<(string, Option<Py>)>, n: nat)
    requires n < |kvs|
    ensures SetAll(d, kvs[..n + 1]) == SetIfSome(SetAll(d, kvs[..n]), kvs[n].0, kvs[n].1)
  {
    assert kvs[..n + 1][..n] == kvs[..n];
  }

  /** What a read that succeeded writes, and nothing for one that failed. */
  ghost function Written(r: Result<Option<Py>, Error>): Option<Py> {
    if r.Success? then r.value else None
  }

  /** An optional entry is present exactly when the object's attribute of that name is truthy. */
  ghost predicate EntryWritten(x: Py, kv: (string, Option<Py>))
    requires x.PyObj?
  {
    kv.0 in x.attrs && (kv.1.Some? <==> Truthy(x.attrs[kv.0]))
  }

  lemma ProjectionEntryWritten(x: Py, key: string, path: seq<string>, guard: Guard)
    requires x.PyObj? && Projection(x, key, path, guard).Success?
    ensures EntryWritten(x, (key, Written(Projection(x, key, path, guard))))
  {
    ProjectionWrittenIffNonEmpty(x, key, path, guard);
  }

  lemma ChildrenEntryWritten(tu: Tuples, x: Py, key: string, child: ChildEncoding)
    requires x.PyObj? && Children(tu, x, key, child).Success?
    ensures EntryWritten(x, (key, Written(Children(tu, x, key, child))))
  {
    ChildrenWrittenIffTruthy(tu, x, key, child);
  }

  /** Optional entries written under distinct keys that the dict does not hold yet: each key is
      present afterwards exactly when the object's attribute of that name is truthy, and every other
      key keeps its value. */
  lemma CollectionsWrittenIffTruthy(d: Entries, e: seq<(string, Option<Py>)>, x: Py, keys: seq<string>)
    requires x.PyObj? && |e| == |keys|
    requires forall i :: 0 <= i < |e| ==> e[i].0 == keys[i] && EntryWritten(x, e[i])
    requires forall i, j :: 0 <= i < j < |keys| ==> keys[i] != keys[j]
    requires forall k <- keys :: k !in Keys(d)
    ensures forall k <- keys :: k in x.attrs && (k in Keys(SetAll(d, e)) <==> Truthy(x.attrs[k]))
    ensures forall k :: k !in keys ==> Lookup(SetAll(d, e), k) == Lookup(d, k)
  {
    forall k <- keys
      ensures k in x.attrs && (k in Keys(SetAll(d, e)) <==> Truthy(x.attrs[k]))
    {
      var i :| 0 <= i < |keys| && keys[i] == k;
      assert EntryWritten(x, e[i]);
      SetAllLookup(d, e, k);
    }
    forall k | k !in keys
      ensures Lookup(SetAll(d, e), k) == Lookup(d, k)
    {
      SetAllLookup(d, e, k);
    }
  }

  /** The collections of a participant dict, in the order the encoder writes them. */
  ghost function ClinicalCoreEntries(tu: Tuples, x: Py): seq<(string, Option<Py>)>
    requires x.PyObj?
  {
    [("prior_lesions", Written(Projection(x, "prior_lesions", ["lesion_type", "name"], NonEmpty))),
     ("core_races", Written(Projection(x, "core_races", ["race", "name"], NonEmpty))),
     ("core_tobaccos", Written(Projection(x, "core_tobaccos", ["type_tobacco_used", "name"], NonEmpty))),
     ("biospecimens", Written(Children(tu, x, "biospecimens", Using(BiospecimenEncoder)))),
     ("genomics", Written(Children(tu, x, "genomics", ByClass(GenomicsEncoders)))),
     ("images", Written(Children(tu, x, "images", Using(ImagingEncoder)))),
     ("organs", Written(Children(tu, x, "organs", ByClass(OrganEncoders))))]
  }

  /** The dict a participant's collections are added to: metadata, `participant_ID`, attributes. */
  ghost function ClinicalCoreBase(tu: Tuples, x: Py): Entries
    requires Handles(LabCASMetadataEncoder, x) && Node(tu, LabCASMetadataEncoder, x).Success? && "participant_ID" in x.attrs
  {
    WithAttributes(Assign(Node(tu, LabCASMetadataEncoder, x).value, "participant_ID", x.attrs["participant_ID"]), x, tu.clinicalCore)
  }

  /** The clinical-core encoder's node, step by step. */
  lemma ClinicalCoreUnfold(tu: Tuples, x: Py)
    requires Handles(ClinicalCoreEncoder, x) && Node(tu, ClinicalCoreEncoder, x).Success?
    ensures Handles(LabCASMetadataEncoder, x) && Node(tu, LabCASMetadataEncoder, x).Success?
    ensures "participant_ID" in x.attrs
    ensures var e := ClinicalCoreEntries(tu, x);
      && Projection(x, "prior_lesions", ["lesion_type", "name"], NonEmpty).Success?
      && Projection(x, "core_races", ["race", "name"], NonEmpty).Success?
      && Projection(x, "core_tobaccos", ["type_tobacco_used", "name"], NonEmpty).Success?
      && Children(tu, x, "biospecimens", Using(BiospecimenEncoder)).Success?
      && Children(tu, x, "genomics", ByClass(GenomicsEncoders)).Success?
      && Children(tu, x, "images", Using(ImagingEncoder)).Success?
      && Children(tu, x, "organs", ByClass(OrganEncoders)).Success?
      && Node(tu, ClinicalCoreEncoder, x) == Success(
        SetIfSome(SetIfSome(SetIfSome(SetIfSome(SetIfSome(SetIfSome(SetIfSome(ClinicalCoreBase(tu, x),
          e[0].0, e[0].1), e[1].0, e[1].1), e[2].0, e[2].1), e[3].0, e[3].1), e[4].0, e[4].1), e[5].0, e[5].1), e[6].0, e[6].1))
  {
    SuperIsParentNode(tu, ClinicalCoreEncoder, x);
  }

  /** Seven optional entries written one after the other. */
  lemma SetAllOfSeven(d: Entries, e: seq<(string, Option<Py>)>)
    requires |e| == 7
    ensures SetAll(d, e) ==
      SetIfSome(SetIfSome(SetIfSome(SetIfSome(SetIfSome(SetIfSome(SetIfSome(d,
        e[0].0, e[0].1), e[1].0, e[1].1), e[2].0, e[2].1), e[3].0, e[3].1), e[4].0, e[4].1), e[5].0, e[5].1), e[6].0, e[6].1)
  {
    assert e[..0] == [];
    SetAllStep(d, e, 0);
    SetAllStep(d, e, 1);
    SetAllStep(d, e, 2);
    SetAllStep(d, e, 3);
    SetAllStep(d, e, 4);
    SetAllStep(d, e, 5);
    SetAllStep(d, e, 6);
    assert e[..7] == e;
  }

  /** A participant dict is its base with the collections written one after the other. */
  lemma ClinicalCoreIsBaseWithCollections(tu: Tuples, x: Py)
    requires Handles(ClinicalCoreEncoder, x) && Node(tu, ClinicalCoreEncoder, x).Success?
    ensures Handles(LabCASMetadataEncoder, x) && Node(tu, LabCASMetadataEncoder, x).Success? && "participant_ID" in x.attrs
    ensures Node(tu, ClinicalCoreEncoder, x) == Success(SetAll(ClinicalCoreBase(tu, x), ClinicalCoreEntries(tu, x)))
  {
    ClinicalCoreUnfold(tu, x);
    SetAllOfSeven(ClinicalCoreBase(tu, x), ClinicalCoreEntries(tu, x));
  }

  /** In a participant dict that was built, every collection was read without error. */
  lemma ClinicalCoreReadsSucceed(tu: Tuples, x: Py)
    requires Handles(ClinicalCoreEncoder, x) && Node(tu, ClinicalCoreEncoder, x).Success?
    ensures Projection(x, "prior_lesions", ["lesion_type", "name"], NonEmpty).Success?
    ensures Projection(x, "core_races", ["race", "name"], NonEmpty).Success?
    ensures Projection(x, "core_tobaccos", ["type_tobacco_used", "name"], NonEmpty).Success?
    ensures Children(tu, x, "biospecimens", Using(BiospecimenEncoder)).Success?
    ensures Children(tu, x, "genomics", ByClass(GenomicsEncoders)).Success?
    ensures Children(tu, x, "images", Using(ImagingEncoder)).Success?
    ensures Children(tu, x, "organs", ByClass(OrganEncoders)).Success?
  {
    ClinicalCoreUnfold(tu, x);
  }

  /** Each collection entry is written exactly when the object's collection is non-empty. */
  lemma ClinicalCoreEntriesWritten(tu: Tuples, x: Py)
    requires x.PyObj?
    requires Projection(x, "prior_lesions", ["lesion_type", "name"], NonEmpty).Success?
    requires Projection(x, "core_races", ["race", "name"], NonEmpty).Success?
    requires Projection(x, "core_tobaccos", ["type_tobacco_used", "name"], NonEmpty).Success?
    requires Children(tu, x, "biospecimens", Using(BiospecimenEncoder)).Success?
    requires Children(tu, x, "genomics", ByClass(GenomicsEncoders)).Success?
    requires Children(tu, x, "images", Using(ImagingEncoder)).Success?
    requires Children(tu, x, "organs", ByClass(OrganEncoders)).Success?
    ensures var e := ClinicalCoreEntries(tu, x);
      && |e| == |ClinicalCoreCollections|
      && forall i :: 0 <= i < |e| ==> e[i].0 == ClinicalCoreCollections[i] && EntryWritten(x, e[i])
  {
    var e := ClinicalCoreEntries(tu, x);
    ProjectionEntryWritten(x, "prior_lesions", ["lesion_type", "name"], NonEmpty);
    ProjectionEntryWritten(x, "core_races", ["race", "name"], NonEmpty);
    ProjectionEntryWritten(x, "core_tobaccos", ["type_tobacco_used", "name"], NonEmpty);
    ChildrenEntryWritten(tu, x, "biospecimens", Using(BiospecimenEncoder));
    ChildrenEntryWritten(tu, x, "genomics", ByClass(GenomicsEncoders));
    ChildrenEntryWritten(tu, x, "images", Using(ImagingEncoder));
    ChildrenEntryWritten(tu, x, "organs", ByClass(OrganEncoders));
    EveryEntryWritten(x, e, ClinicalCoreCollections);
  }

  lemma EveryEntryWritten(x: Py, e: seq<(string, Option<Py>)>, keys: seq<string>)
    requires x.PyObj? && |e| == |keys| == 7
    requires forall i :: 0 <= i < 7 ==> e[i].0 == keys[i]
    requires EntryWritten(x, e[0]) && EntryWritten(x, e[1]) && EntryWritten(x, e[2]) && EntryWritten(x, e[3])
    requires EntryWritten(x, e[4]) && EntryWritten(x, e[5]) && EntryWritten(x, e[6])
    ensures forall i :: 0 <= i < |e| ==> e[i].0 == keys[i] && EntryWritten(x, e[i])
  {
  }

  lemma ClinicalCoreCollectionsDistinct()
    ensures forall i, j :: 0 <= i < j < |ClinicalCoreCollections| ==> ClinicalCoreCollections[i] != ClinicalCoreCollections[j]
  {
  }

  /** Attributes copied under names that are not collection keys add no collection key. */
  lemma AttributesAddNoCollection(p: Entries, x: Py, names: seq<string>, keys: seq<string>)
    requires forall k <- keys :: k !in Keys(p) && k !in names
    ensures forall k <- keys :: k !in Keys(WithAttributes(p, x, names))
  {
    forall k <- keys
      ensures k !in Keys(WithAttributes(p, x, names))
    {
      AddAttributesLookup(p, x, names, k);
    }
  }

  /** The base holds `participant_ID` and none of the collection keys. */
  lemma ClinicalCoreBaseShape(tu: Tuples, x: Py)
    requires PlainTuples(tu)
    requires Handles(LabCASMetadataEncoder, x) && Node(tu, LabCASMetadataEncoder, x).Success? && "participant_ID" in x.attrs
    ensures Lookup(ClinicalCoreBase(tu, x), "participant_ID") == Some(x.attrs["participant_ID"])
    ensures forall k <- ClinicalCoreCollections :: k !in Keys(ClinicalCoreBase(tu, x))
  {
    var meta := Node(tu, LabCASMetadataEncoder, x).value;
    var p := Assign(meta, "participant_ID", x.attrs["participant_ID"]);
    ClinicalCoreCollectionsPlain();
    forall k <- ClinicalCoreCollections
      ensures k !in Keys(p) && k !in tu.clinicalCore
    {
      NotAMetadataKey(tu, x, k);
    }
    AttributesAddNoCollection(p, x, tu.clinicalCore, ClinicalCoreCollections);
    AddAttributesLookup(p, x, tu.clinicalCore, "participant_ID");
  }

  lemma ParticipantIdNotAnAttribute()
    ensures "participant_ID" !in ClinicalCoreAttributes()
  {
    assert "participant_ID" !in ClinicalCoreAttributes();
  }

  /** A participant dict holds `participant_ID`, and holds each of its collections exactly when the
      object's collection is non-empty. */
  lemma ClinicalCoreCollectionsWrittenIffNonEmpty(tu: Tuples, x: Py)
    requires PlainTuples(tu)
    requires Handles(ClinicalCoreEncoder, x) && Node(tu, ClinicalCoreEncoder, x).Success?
    ensures "participant_ID" in x.attrs
    ensures Lookup(Node(tu, ClinicalCoreEncoder, x).value, "participant_ID") == Some(x.attrs["participant_ID"])
    ensures forall k <- ClinicalCoreCollections ::
      k in x.attrs && (k in Keys(Node(tu, ClinicalCoreEncoder, x).value) <==> Truthy(x.attrs[k]))
  {
    ClinicalCoreIsBaseWithCollections(tu, x);
    ClinicalCoreReadsSucceed(tu, x);
    ClinicalCoreEntriesWritten(tu, x);
    ClinicalCoreBaseShape(tu, x);
    ClinicalCoreCollectionsDistinct();
    CollectionsWrittenIffTruthy(ClinicalCoreBase(tu, x), ClinicalCoreEntries(tu, x), x, ClinicalCoreCollections);
    assert "participant_ID" !in ClinicalCoreCollections;
  }

  // ---------------------------------------------------------------------------------------------
  // The specimen node

  /** The collections a specimen dict may hold. */
  const BiospecimenCollections: seq<string> := ["adjacent_specimens", "genomics", "images"]

  lemma BiospecimenKeysUnlisted()
    ensures "specimen_ID" !in BiospecimenAttributes()
    ensures forall k <- BiospecimenCollections :: k !in BiospecimenAttributes()
  {
    SpecimenIdNotAnAttribute();
    AdjacentSpecimensNotAnAttribute();
    SpecimenGenomicsNotAnAttribute();
    SpecimenImagesNotAnAttribute();
  }

  lemma SpecimenIdNotAnAttribute() ensures "specimen_ID" !in BiospecimenAttributes() {}
  lemma AdjacentSpecimensNotAnAttribute() ensures "adjacent_specimens" !in BiospecimenAttributes() {}
  lemma SpecimenGenomicsNotAnAttribute() ensures "genomics" !in BiospecimenAttributes() {}
  lemma SpecimenImagesNotAnAttribute() ensures "images" !in BiospecimenAttributes() {}

  /** The collections of a specimen dict, in the order the encoder writes them. */
  ghost function BiospecimenEntries(tu: Tuples, x: Py): seq<(string, Option<Py>)>
    requires x.PyObj?
  {
    [("adjacent_specimens", Written(Projection(x, "adjacent_specimens", ["adjacent_specimen_ID"], IfTruthy))),
     ("genomics", Written(Children(tu, x, "genomics", ByClass(GenomicsEncoders)))),
     ("images", Written(Children(tu, x, "images", Using(ImagingEncoder))))]
  }

  /** The dict a specimen's collections are added to: metadata, `specimen_ID`, attributes. */
  ghost function BiospecimenBase(tu: Tuples, x: Py): Entries
    requires Handles(LabCASMetadataEncoder, x) && Node(tu, LabCASMetadataEncoder, x).Success? && "specimen_ID" in x.attrs
  {
    WithAttributes(Assign(Node(tu, LabCASMetadataEncoder, x).value, "specimen_ID", x.attrs["specimen_ID"]), x, tu.biospecimen)
  }

  /** The specimen encoder's node, step by step. */
  lemma BiospecimenUnfold(tu: Tuples, x: Py)
    requires Handles(BiospecimenEncoder, x) && Node(tu, BiospecimenEncoder, x).Success?
    ensures Handles(LabCASMetadataEncoder, x) && Node(tu, LabCASMetadataEncoder, x).Success?
    ensures "specimen_ID" in x.attrs
    ensures var e := BiospecimenEntries(tu, x);
      && Projection(x, "adjacent_specimens", ["adjacent_specimen_ID"], IfTruthy).Success?
      && Children(tu, x, "genomics", ByClass(GenomicsEncoders)).Success?
      && Children(tu, x, "images", Using(ImagingEncoder)).Success?
      && Node(tu, BiospecimenEncoder, x) == Success(
        SetIfSome(SetIfSome(SetIfSome(BiospecimenBase(tu, x), e[0].0, e[0].1), e[1].0, e[1].1), e[2].0, e[2].1))
  {
    SuperIsParentNode(tu, BiospecimenEncoder, x);
  }

  /** Three optional entries written one after the other. */
  lemma SetAllOfThree(d: Entries, e: seq<(string, Option<Py>)>)
    requires |e| == 3
    ensures SetAll(d, e) == SetIfSome(SetIfSome(SetIfSome(d, e[0].0, e[0].1), e[1].0, e[1].1), e[2].0, e[2].1)
  {
    assert e[..0] == [];
    SetAllStep(d, e, 0);
    SetAllStep(d, e, 1);
    SetAllStep(d, e, 2);
    assert e[..3] == e;
  }

  /** A specimen dict is its base with the collections written one after the other. */
  lemma BiospecimenIsBaseWithCollections(tu: Tuples, x: Py)
    requires Handles(BiospecimenEncoder, x) && Node(tu, BiospecimenEncoder, x).Success?
    ensures Handles(LabCASMetadataEncoder, x) && Node(tu, LabCASMetadataEncoder, x).Success? && "specimen_ID" in x.attrs
    ensures Node(tu, BiospecimenEncoder, x) == Success(SetAll(BiospecimenBase(tu, x), BiospecimenEntries(tu, x)))
  {
    BiospecimenUnfold(tu, x);
    SetAllOfThree(BiospecimenBase(tu, x), BiospecimenEntries(tu, x));
  }

  /** Each collection entry of a specimen dict that was built is written exactly when the object's
      collection is truthy. */
  lemma BiospecimenEntriesWritten(tu: Tuples, x: Py)
    requires Handles(BiospecimenEncoder, x) && Node(tu, BiospecimenEncoder, x).Success?
    ensures var e := BiospecimenEntries(tu, x);
      && |e| == |BiospecimenCollections|
      && forall i :: 0 <= i < |e| ==> e[i].0 == BiospecimenCollections[i] && EntryWritten(x, e[i])
  {
    BiospecimenUnfold(tu, x);
    var e := BiospecimenEntries(tu, x);
    ProjectionEntryWritten(x, "adjacent_specimens", ["adjacent_specimen_ID"], IfTruthy);
    ChildrenEntryWritten(tu, x, "genomics", ByClass(GenomicsEncoders));
    ChildrenEntryWritten(tu, x, "images", Using(ImagingEncoder));
    assert EntryWritten(x, e[0]) && EntryWritten(x, e[1]) && EntryWritten(x, e[2]);
  }

  /** The base holds `specimen_ID` and none of the collection keys. */
  lemma BiospecimenBaseShape(tu: Tuples, x: Py)
    requires PlainTuples(tu)
    requires Handles(LabCASMetadataEncoder, x) && Node(tu, LabCASMetadataEncoder, x).Success? && "specimen_ID" in x.attrs
    ensures Lookup(BiospecimenBase(tu, x), "specimen_ID") == Some(x.attrs["specimen_ID"])
    ensures forall k <- BiospecimenCollections :: k !in Keys(BiospecimenBase(tu, x))
  {
    var meta := Node(tu, LabCASMetadataEncoder, x).value;
    var p := Assign(meta, "specimen_ID", x.attrs["specimen_ID"]);
    forall k <- BiospecimenCollections
      ensures k !in Keys(p) && k !in tu.biospecimen
    {
      NotAMetadataKey(tu, x, k);
    }
    AttributesAddNoCollection(p, x, tu.biospecimen, BiospecimenCollections);
    AddAttributesLookup(p, x, tu.biospecimen, "specimen_ID");
  }

  /** A specimen dict holds `specimen_ID`, and each of `adjacent_specimens`, `genomics` and `images`
      exactly when the object's attribute of that name is truthy. */
  lemma BiospecimenNodeShape(tu: Tuples, x: Py)
    requires PlainTuples(tu)
    requires Handles(BiospecimenEncoder, x) && Node(tu, BiospecimenEncoder, x).Success?
    ensures "specimen_ID" in x.attrs
    ensures Lookup(Node(tu, BiospecimenEncoder, x).value, "specimen_ID") == Some(x.attrs["specimen_ID"])
    ensures forall k <- BiospecimenCollections ::
      k in x.attrs && (k in Keys(Node(tu, BiospecimenEncoder, x).value) <==> Truthy(x.attrs[k]))
  {
    BiospecimenIsBaseWithCollections(tu, x);
    BiospecimenEntriesWritten(tu, x);
    BiospecimenBaseShape(tu, x);
    BiospecimenCollectionsDistinct();
    CollectionsWrittenIffTruthy(BiospecimenBase(tu, x), BiospecimenEntries(tu, x), x, BiospecimenCollections);
    assert "specimen_ID" !in BiospecimenCollections;
  }

  lemma BiospecimenCollectionsDistinct()
    ensures forall i, j :: 0 <= i < j < |BiospecimenCollections| ==> BiospecimenCollections[i] != BiospecimenCollections[j]
  {
  }

  /** What a specimen dict holds under each collection key is what the encoder made of that
      collection. */
  lemma BiospecimenCollectionValues(tu: Tuples, x: Py)
    requires PlainTuples(tu)
    requires Handles(BiospecimenEncoder, x) && Node(tu, BiospecimenEncoder, x).Success?
    ensures forall i :: 0 <= i < 3 ==>
      Lookup(Node(tu, BiospecimenEncoder, x).value, BiospecimenCollections[i]) == BiospecimenEntries(tu, x)[i].1
  {
    BiospecimenIsBaseWithCollections(tu, x);
    var base, e := BiospecimenBase(tu, x), BiospecimenEntries(tu, x);
    BiospecimenBaseShape(tu, x);
    BiospecimenCollectionsDistinct();
    BiospecimenEntriesWritten(tu, x);
    NewEntriesHeld(base, e, BiospecimenCollections);
  }

  /** Optional entries written under distinct keys the dict does not hold yet: each key holds what
      its entry wrote, or nothing. */
  lemma NewEntriesHeld(d: Entries, e: seq<(string, Option<Py>)>, keys: seq<string>)
    requires |e| == |keys| && forall i :: 0 <= i < |e| ==> e[i].0 == keys[i]
    requires forall i, j :: 0 <= i < j < |keys| ==> keys[i] != keys[j]
    requires forall k <- keys :: k !in Keys(d)
    ensures forall i :: 0 <= i < |keys| ==> Lookup(SetAll(d, e), keys[i]) == e[i].1
  {
    forall i | 0 <= i < |keys|
      ensures Lookup(SetAll(d, e), keys[i]) == e[i].1
    {
      SetAllListed(d, e, i);
    }
  }

  /** The contents of each specimen collection that is written, in the order of the object's own
      collection: the `adjacent_specimen_ID` of each adjacent specimen, the encoding of each
      genomics record by the encoder of its class, and the encoding of each image. */
  lemma BiospecimenCollectionsWrittenIffTruthy(tu: Tuples, x: Py)
    requires PlainTuples(tu)
    requires Handles(BiospecimenEncoder, x) && Node(tu, BiospecimenEncoder, x).Success?
    ensures forall k <- BiospecimenCollections ::
      k in x.attrs && (k in Keys(Node(tu, BiospecimenEncoder, x).value) <==> Truthy(x.attrs[k]))
    ensures "adjacent_specimens" in x.attrs && "genomics" in x.attrs && "images" in x.attrs
    ensures var d, a := Node(tu, BiospecimenEncoder, x).value, x.attrs["adjacent_specimens"];
      Truthy(a) ==> ProjectedIds(d, "adjacent_specimens", a, ["adjacent_specimen_ID"])
    ensures var d, g := Node(tu, BiospecimenEncoder, x).value, x.attrs["genomics"];
      Truthy(g) ==> EncodedInOrder(tu, d, "genomics", g, ByClass(GenomicsEncoders))
    ensures var d, m := Node(tu, BiospecimenEncoder, x).value, x.attrs["images"];
      Truthy(m) ==> EncodedInOrder(tu, d, "images", m, Using(ImagingEncoder))
  {
    BiospecimenNodeShape(tu, x);
    BiospecimenCollectionValues(tu, x);
    BiospecimenReadsSucceed(tu, x);
    var d, e := Node(tu, BiospecimenEncoder, x).value, BiospecimenEntries(tu, x);
    assert Lookup(d, "adjacent_specimens") == e[0].1 by { assert BiospecimenCollections[0] == "adjacent_specimens"; }
    assert Lookup(d, "genomics") == e[1].1 by { assert BiospecimenCollections[1] == "genomics"; }
    assert Lookup(d, "images") == e[2].1 by { assert BiospecimenCollections[2] == "images"; }
    ProjectionInOrder(d, x, "adjacent_specimens", ["adjacent_specimen_ID"], IfTruthy);
    ChildrenInOrder(tu, d, x, "genomics", ByClass(GenomicsEncoders));
    ChildrenInOrder(tu, d, x, "images", Using(ImagingEncoder));
  }

  /** In a specimen dict that was built, every collection was read without error. */
  lemma BiospecimenReadsSucceed(tu: Tuples, x: Py)
    requires Handles(BiospecimenEncoder, x) && Node(tu, BiospecimenEncoder, x).Success?
    ensures Projection(x, "adjacent_specimens", ["adjacent_specimen_ID"], IfTruthy).Success?
    ensures Children(tu, x, "genomics", ByClass(GenomicsEncoders)).Success?
    ensures Children(tu, x, "images", Using(ImagingEncoder)).Success?
  {
    BiospecimenUnfold(tu, x);
  }

  /** `d[key]` is the list of the followed path of each member of the collection `v`, in order. */
  ghost predicate ProjectedIds(d: Entries, key: string, v: Py, path: seq<string>) {
    && Iterate(v).Success? && FollowAll(Iterate(v).value, path).Success?
    && Lookup(d, key) == Some(PyList(FollowAll(Iterate(v).value, path).value))
  }

  /** `d[key]` is the list of the encodings of the members of the collection `v`, in order. */
  ghost predicate EncodedInOrder(tu: Tuples, d: Entries, key: string, v: Py, child: ChildEncoding) {
    && Iterate(v).Success? && Lookup(d, key).Some? && Lookup(d, key).value.PyList?
    && var items := Lookup(d, key).value.items;
       |items| == |Iterate(v).value|
       && forall i :: 0 <= i < |items| ==> EncodeChild(tu, child, Iterate(v).value[i]) == Success(items[i])
  }

  /** A dict that holds what a projection produced holds, for a truthy collection, its projected
      list. */
  lemma ProjectionInOrder(d: Entries, x: Py, key: string, path: seq<string>, guard: Guard)
    requires x.PyObj? && key in x.attrs && Projection(x, key, path, guard).Success?
    requires Lookup(d, key) == Written(Projection(x, key, path, guard))
    ensures Truthy(x.attrs[key]) ==> ProjectedIds(d, key, x.attrs[key], path)
  {
    ProjectionWrittenIffNonEmpty(x, key, path, guard);
  }

  /** A dict that holds what a child encoding produced holds, for a truthy collection, the
      encodings of its members in order. */
  lemma ChildrenInOrder(tu: Tuples, d: Entries, x: Py, key: string, child: ChildEncoding)
    requires x.PyObj? && Children(tu, x, key, child).Success?
    requires Lookup(d, key) == Written(Children(tu, x, key, child))
    ensures key in x.attrs
    ensures Truthy(x.attrs[key]) ==> EncodedInOrder(tu, d, key, x.attrs[key], child)
  {
    ChildrenWrittenIffTruthy(tu, x, key, child);
  }
}
