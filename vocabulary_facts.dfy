/** What lookup does on the shipped vocabularies: the case variants of a label, a token that is
    not a label, an unknown answer, the alias of `TestResults`, and the misspelt stage label of
    `PrognosticGroupStage8`. */
module VocabularyFacts {
  import opened Wrappers
  import opened Vocabulary
  import opened Vocabularies

  lemma GenderTokensDistinct()
    ensures WellFormed(Gender)
  {
    var v := Gender;
    assert Token(v, 0) == "female";
    assert Token(v, 1) == "male";
    assert Token(v, 2) == "unknown";
    assert Token(v, 3) == "unspecified";
    assert Token(v, 4) == "not_reported";
  }

  lemma GenderLabelsDistinct()
    ensures CaseDistinct(Gender)
  {
    var v := Gender;
    assert IsMember(v, 0);
    assert IsMember(v, 1);
    assert IsMember(v, 2);
    assert IsMember(v, 3);
    assert IsMember(v, 4);
    GenderLabelsLowered();
  }

  lemma GenderTokensAgree()
    ensures TokensAgreeWithLabels(Gender)
  {
    var v := Gender;
    GenderLabelsLowered();
    GenderTokensLowered();
  }

  lemma GenderLabelsLowered()
    ensures Lower(Label(Gender, 0)) == "female"
    ensures Lower(Label(Gender, 1)) == "male"
    ensures Lower(Label(Gender, 2)) == "unknown"
    ensures Lower(Label(Gender, 3)) == "unspecified"
    ensures Lower(Label(Gender, 4)) == "not reported"
  {
  }

  lemma GenderTokensLowered()
    ensures Lower(Token(Gender, 0)) == "female"
    ensures Lower(Token(Gender, 1)) == "male"
    ensures Lower(Token(Gender, 2)) == "unknown"
    ensures Lower(Token(Gender, 3)) == "unspecified"
    ensures Lower(Token(Gender, 4)) == "not_reported"
  {
  }

  lemma GenderIsCoherent()
    ensures Coherent(Gender)
  {
    GenderTokensDistinct();
    GenderLabelsDistinct();
    GenderTokensAgree();
  }

  lemma GradeTokensDistinct()
    ensures WellFormed(Grade)
  {
    var v := Grade;
    assert Token(v, 0) == "low";
    assert Token(v, 1) == "intermediate";
    assert Token(v, 2) == "high";
    assert Token(v, 3) == "data_not_available";
  }

  lemma GradeLabelsDistinct()
    ensures CaseDistinct(Grade)
  {
    var v := Grade;
    assert IsMember(v, 0);
    assert IsMember(v, 1);
    assert IsMember(v, 2);
    assert IsMember(v, 3);
    GradeLabelsLowered();
  }

  lemma GradeTokensAgree()
    ensures TokensAgreeWithLabels(Grade)
  {
    var v := Grade;
    GradeLabelsLowered();
    GradeTokensLowered();
  }

  lemma GradeLabelsLowered()
    ensures Lower(Label(Grade, 0)) == "low"
    ensures Lower(Label(Grade, 1)) == "intermediate"
    ensures Lower(Label(Grade, 2)) == "high"
    ensures Lower(Label(Grade, 3)) == "data not available"
  {
  }

  lemma GradeTokensLowered()
    ensures Lower(Token(Grade, 0)) == "low"
    ensures Lower(Token(Grade, 1)) == "intermediate"
    ensures Lower(Token(Grade, 2)) == "high"
    ensures Lower(Token(Grade, 3)) == "data_not_available"
  {
  }

  lemma GradeIsCoherent()
    ensures Coherent(Grade)
  {
    GradeTokensDistinct();
    GradeLabelsDistinct();
    GradeTokensAgree();
  }

  lemma PolarAnswerTokensDistinct()
    ensures WellFormed(PolarAnswer)
  {
    var v := PolarAnswer;
    assert Token(v, 0) == "yes";
    assert Token(v, 1) == "no";
    assert Token(v, 2) == "unknown";
    assert Token(v, 3) == "not_reported";
    assert Token(v, 4) == "refused";
  }

  lemma PolarAnswerLabelsDistinct()
    ensures CaseDistinct(PolarAnswer)
  {
    var v := PolarAnswer;
    assert IsMember(v, 0);
    assert IsMember(v, 1);
    assert IsMember(v, 2);
    assert IsMember(v, 3);
    assert IsMember(v, 4);
    PolarAnswerLabelsLowered();
  }

  lemma PolarAnswerTokensAgree()
    ensures TokensAgreeWithLabels(PolarAnswer)
  {
    var v := PolarAnswer;
    PolarAnswerLabelsLowered();
    PolarAnswerTokensLowered();
  }

  lemma PolarAnswerLabelsLowered()
    ensures Lower(Label(PolarAnswer, 0)) == "yes"
    ensures Lower(Label(PolarAnswer, 1)) == "no"
    ensures Lower(Label(PolarAnswer, 2)) == "unknown"
    ensures Lower(Label(PolarAnswer, 3)) == "not reported"
    ensures Lower(Label(PolarAnswer, 4)) == "refused"
  {
  }

  lemma PolarAnswerTokensLowered()
    ensures Lower(Token(PolarAnswer, 0)) == "yes"
    ensures Lower(Token(PolarAnswer, 1)) == "no"
    ensures Lower(Token(PolarAnswer, 2)) == "unknown"
    ensures Lower(Token(PolarAnswer, 3)) == "not_reported"
    ensures Lower(Token(PolarAnswer, 4)) == "refused"
  {
  }

  lemma PolarAnswerIsCoherent()
    ensures Coherent(PolarAnswer)
  {
    PolarAnswerTokensDistinct();
    PolarAnswerLabelsDistinct();
    PolarAnswerTokensAgree();
  }

  lemma TestResultsTokensDistinct()
    ensures WellFormed(TestResults)
  {
    var v := TestResults;
    assert Token(v, 0) == "positive";
    assert Token(v, 1) == "negative";
    assert Token(v, 2) == "not_tested";
    assert Token(v, 3) == "unknown";
    assert Token(v, 4) == "data_not_available";
    assert Token(v, 5) == "cannot_be_determined";
  }

  lemma TestResultsLabelsDistinct()
    ensures CaseDistinct(TestResults)
  {
    var v := TestResults;
    assert IsMember(v, 0);
    assert IsMember(v, 1);
    assert IsMember(v, 2);
    assert IsMember(v, 3);
    assert IsMember(v, 4);
    assert Label(v, 4) == Label(v, 5);
    TestResultsLabelsLowered();
  }

  lemma TestResultsTokensAgree()
    ensures TokensAgreeWithLabels(TestResults)
  {
    var v := TestResults;
    TestResultsLabelsLowered();
    TestResultsTokensLowered();
    forall i, j | 0 <= i < |v| && 0 <= j < |v| && Lower(Token(v, i)) == Lower(Label(v, j))
      ensures Label(v, i) == Label(v, j)
    {
      assert i <= 1 || i == 3;  // only `positive`, `negative` and `unknown` spell a label
    }
  }

  lemma TestResultsLabelsLowered()
    ensures Lower(Label(TestResults, 0)) == "positive"
    ensures Lower(Label(TestResults, 1)) == "negative"
    ensures Lower(Label(TestResults, 2)) == "not tested"
    ensures Lower(Label(TestResults, 3)) == "unknown"
    ensures Lower(Label(TestResults, 4)) == "data not available"
    ensures Lower(Label(TestResults, 5)) == "data not available"
  {
  }

  lemma TestResultsTokensLowered()
    ensures Lower(Token(TestResults, 0)) == "positive"
    ensures Lower(Token(TestResults, 1)) == "negative"
    ensures Lower(Token(TestResults, 2)) == "not_tested"
    ensures Lower(Token(TestResults, 3)) == "unknown"
    ensures Lower(Token(TestResults, 4)) == "data_not_available"
    ensures Lower(Token(TestResults, 5)) == "cannot_be_determined"
  {
    TestResultsFirstTokensLowered();
    TestResultsLastTokensLowered();
  }

  lemma TestResultsFirstTokensLowered()
    ensures Lower(Token(TestResults, 0)) == "positive"
    ensures Lower(Token(TestResults, 1)) == "negative"
    ensures Lower(Token(TestResults, 2)) == "not_tested"
  {
    var v := TestResults;
    LowercaseLowered(Token(v, 0));
    LowercaseLowered(Token(v, 1));
    LowercaseLowered(Token(v, 2));
  }

  lemma TestResultsLastTokensLowered()
    ensures Lower(Token(TestResults, 3)) == "unknown"
    ensures Lower(Token(TestResults, 4)) == "data_not_available"
    ensures Lower(Token(TestResults, 5)) == "cannot_be_determined"
  {
    var v := TestResults;
    LowercaseLowered(Token(v, 3));
    LowercaseLowered(Token(v, 4));
    LowercaseLowered(Token(v, 5));
  }

  /** A string without capital letters is its own lower case. */
  lemma LowercaseLowered(s: string)
    requires forall i :: 0 <= i < |s| ==> !('A' <= s[i] <= 'Z')
    ensures Lower(s) == s
  {
    assert forall i :: 0 <= i < |s| ==> Lower(s)[i] == s[i];
  }

  lemma TestResultsIsCoherent()
    ensures Coherent(TestResults)
  {
    TestResultsTokensDistinct();
    TestResultsLabelsDistinct();
    TestResultsTokensAgree();
  }

  lemma PrognosticGroupStage8TokensDistinct()
    ensures WellFormed(PrognosticGroupStage8)
  {
    var v := PrognosticGroupStage8;
    assert Token(v, 0) == "zero";
    assert Token(v, 1) == "la";
    assert Token(v, 2) == "ib";
    assert Token(v, 3) == "iia";
    assert Token(v, 4) == "iib";
    assert Token(v, 5) == "iiia";
    assert Token(v, 6) == "iiic";
    assert Token(v, 7) == "iv";
  }

  lemma PrognosticGroupStage8LabelsDistinct()
    ensures CaseDistinct(PrognosticGroupStage8)
  {
    var v := PrognosticGroupStage8;
    assert IsMember(v, 0);
    assert IsMember(v, 1);
    assert IsMember(v, 2);
    assert IsMember(v, 3);
    assert IsMember(v, 4);
    assert IsMember(v, 5);
    assert IsMember(v, 6);
    assert IsMember(v, 7);
    PrognosticGroupStage8LabelsLowered();
  }

  lemma PrognosticGroupStage8TokensAgree()
    ensures TokensAgreeWithLabels(PrognosticGroupStage8)
  {
    var v := PrognosticGroupStage8;
    PrognosticGroupStage8LabelsLowered();
    PrognosticGroupStage8TokensLowered();
  }

  lemma PrognosticGroupStage8LabelsLowered()
    ensures Lower(Label(PrognosticGroupStage8, 0)) == "0"
    ensures Lower(Label(PrognosticGroupStage8, 1)) == "ia"
    ensures Lower(Label(PrognosticGroupStage8, 2)) == "ib"
    ensures Lower(Label(PrognosticGroupStage8, 3)) == "iia"
    ensures Lower(Label(PrognosticGroupStage8, 4)) == "iib"
    ensures Lower(Label(PrognosticGroupStage8, 5)) == "iiia"
    ensures Lower(Label(PrognosticGroupStage8, 6)) == "iiic"
    ensures Lower(Label(PrognosticGroupStage8, 7)) == "iv"
  {
  }

  lemma PrognosticGroupStage8TokensLowered()
    ensures Lower(Token(PrognosticGroupStage8, 0)) == "zero"
    ensures Lower(Token(PrognosticGroupStage8, 1)) == "la"
    ensures Lower(Token(PrognosticGroupStage8, 2)) == "ib"
    ensures Lower(Token(PrognosticGroupStage8, 3)) == "iia"
    ensures Lower(Token(PrognosticGroupStage8, 4)) == "iib"
    ensures Lower(Token(PrognosticGroupStage8, 5)) == "iiia"
    ensures Lower(Token(PrognosticGroupStage8, 6)) == "iiic"
    ensures Lower(Token(PrognosticGroupStage8, 7)) == "iv"
  {
  }

  lemma PrognosticGroupStage8IsCoherent()
    ensures Coherent(PrognosticGroupStage8)
  {
    PrognosticGroupStage8TokensDistinct();
    PrognosticGroupStage8LabelsDistinct();
    PrognosticGroupStage8TokensAgree();
  }


  /** Every spelling of a `Gender` or `Grade` label, whatever its case, names that member. */
  lemma GenderAndGradeLabelsRoundTrip(m: nat, raw: string)
    ensures m < |Gender| && Lower(raw) == Lower(Label(Gender, m)) ==> Resolve(Gender, raw) == Some(m)
    ensures m < |Grade| && Lower(raw) == Lower(Label(Grade, m)) ==> Resolve(Grade, raw) == Some(m)
  {
    GenderIsCoherent();
    GradeIsCoherent();
    if m < |Gender| && Lower(raw) == Lower(Label(Gender, m)) {
      assert IsMember(Gender, m);
      ResolveAnyCaseOfLabel(Gender, m, raw);
    }
    if m < |Grade| && Lower(raw) == Lower(Label(Grade, m)) {
      assert IsMember(Grade, m);
      ResolveAnyCaseOfLabel(Grade, m, raw);
    }
  }

  /** "female", "Female" and "FEMALE" all name `Gender.female`. */
  lemma FemaleInAnyCase()
    ensures Resolve(Gender, "female") == Some(0)
    ensures Resolve(Gender, "Female") == Some(0)
    ensures Resolve(Gender, "FEMALE") == Some(0)
  {
    FemaleLowerCase();
    FemaleAsDeclared();
    FemaleUpperCase();
  }

  lemma FemaleLowerCase()
    ensures Resolve(Gender, "female") == Some(0)
  {
    GenderAndGradeLabelsRoundTrip(0, "female");
  }

  lemma FemaleAsDeclared()
    ensures Resolve(Gender, "Female") == Some(0)
  {
    GenderAndGradeLabelsRoundTrip(0, "Female");
  }

  lemma FemaleUpperCase()
    ensures Resolve(Gender, "FEMALE") == Some(0)
  {
    assert Lower("FEMALE") == Lower(Label(Gender, 0)) by {
      GenderLabelsLowered();
      assert Lower("FEMALE") == "female";
    }
    GenderAndGradeLabelsRoundTrip(0, "FEMALE");
  }

  /** The fallback compares with labels only: the exact token `not_reported` and the label in any
      case name `Gender.not_reported`, but the token in upper case names nothing. */
  lemma TokenCaseIsNotFolded()
    ensures Resolve(Gender, "not_reported") == Some(4)
    ensures Resolve(Gender, "NOT REPORTED") == Some(4)
    ensures Resolve(Gender, "NOT_REPORTED") == None
  {
    ExactTokenResolves();
    UpperCaseLabelResolves();
    UpperCaseTokenFails();
  }

  lemma ExactTokenResolves()
    ensures Resolve(Gender, "not_reported") == Some(4)
  {
    TokenIndexUnique(Gender, 4);
  }

  lemma UpperCaseLabelResolves()
    ensures Resolve(Gender, "NOT REPORTED") == Some(4)
  {
    assert Lower("NOT REPORTED") == Lower(Label(Gender, 4));
    GenderAndGradeLabelsRoundTrip(4, "NOT REPORTED");
  }

  lemma UpperCaseTokenFails()
    ensures Resolve(Gender, "NOT_REPORTED") == None
  {
    var v := Gender;
    assert TokenIndex(v, "NOT_REPORTED") == None;
    assert Lower("NOT_REPORTED") == "not_reported";
    GenderLabelsLowered();
    ResolveFailsIffNoMatch(v, "NOT_REPORTED");
  }

  /** "Maybe" is no answer of `PolarAnswer`: the lookup fails. */
  lemma MaybeIsNoPolarAnswer()
    ensures Resolve(PolarAnswer, "Maybe") == None
  {
    assert TokenIndex(PolarAnswer, "Maybe") == None;
    assert Lower("Maybe") == "maybe";
    ResolveFailsIffNoMatch(PolarAnswer, "Maybe");
  }

  /** `TestResults.cannot_be_determined` is no member but an alias of `data_not_available`; every
      way of naming either resolves to the member declared first. */
  lemma DataNotAvailableAlias()
    ensures IsMember(TestResults, 4) && !IsMember(TestResults, 5)
    ensures Canonical(TestResults, 5) == 4
    ensures Resolve(TestResults, "cannot_be_determined") == Some(4)
    ensures Resolve(TestResults, "data_not_available") == Some(4)
    ensures Resolve(TestResults, "Data not available") == Some(4)
    ensures Resolve(TestResults, "DATA NOT AVAILABLE") == Some(4)
  {
    AliasTokensResolveToFirst();
    AliasLabelResolvesToFirst();
  }

  lemma AliasTokensResolveToFirst()
    ensures IsMember(TestResults, 4) && !IsMember(TestResults, 5)
    ensures Canonical(TestResults, 5) == 4
    ensures Resolve(TestResults, "cannot_be_determined") == Some(4)
    ensures Resolve(TestResults, "data_not_available") == Some(4)
  {
    TestResultsTokensDistinct();
    assert IsMember(TestResults, 4);
    assert Label(TestResults, 4) == Label(TestResults, 5);
    AliasTokensAgree(TestResults, 4, 5);
  }

  lemma AliasLabelResolvesToFirst()
    ensures Resolve(TestResults, "Data not available") == Some(4)
    ensures Resolve(TestResults, "DATA NOT AVAILABLE") == Some(4)
  {
    DataNotAvailableLowered();
    AliasLabelSpelling("Data not available");
    AliasLabelSpelling("DATA NOT AVAILABLE");
  }

  lemma DataNotAvailableLowered()
    ensures Lower("Data not available") == "data not available"
    ensures Lower("DATA NOT AVAILABLE") == "data not available"
  {
    MixedCaseLowered();
    UpperCaseLowered();
  }

  lemma MixedCaseLowered()
    ensures Lower("Data not available") == "data not available"
  {
  }

  lemma UpperCaseLowered()
    ensures Lower("DATA NOT AVAILABLE") == "data not available"
  {
  }

  lemma AliasLabelSpelling(raw: string)
    requires Lower(raw) == "data not available"
    ensures Resolve(TestResults, raw) == Some(4)
  {
    TestResultsIsCoherent();
    assert IsMember(TestResults, 4);
    assert Lower(Label(TestResults, 4)) == "data not available";
    ResolveAnyCaseOfLabel(TestResults, 4, raw);
  }

  /** As declared, the stage "IA" cannot be looked up in `PrognosticGroupStage8AsWritten` (its label
      reads "lA"), while its neighbour "IB" can; the corrected table resolves both. */
  lemma StageIAUnresolvableAsWritten()
    ensures Resolve(PrognosticGroupStage8AsWritten, "IA") == None
    ensures Resolve(PrognosticGroupStage8AsWritten, "IB") == Some(2)
  {
    StageIAMissingAsWritten();
    StageIBFoundAsWritten();
  }

  lemma StageIAMissingAsWritten()
    ensures Resolve(PrognosticGroupStage8AsWritten, "IA") == None
  {
    var v := PrognosticGroupStage8AsWritten;
    assert TokenIndex(v, "IA") == None;
    assert Lower("IA") == "ia";
    forall j | 0 <= j < |v|
      ensures Lower(Label(v, j)) != "ia"
    {
      assert Lower(Label(v, j))[0] != 'i' || Lower(Label(v, j))[1] != 'a' || |Label(v, j)| != 2;
    }
    ResolveFailsIffNoMatch(v, "IA");
  }

  lemma StageIBFoundAsWritten()
    ensures Resolve(PrognosticGroupStage8AsWritten, "IB") == Some(2)
  {
    var v := PrognosticGroupStage8AsWritten;
    assert TokenIndex(v, "IB") == None;
    assert Lower("IB") == "ib";
    assert IsMember(v, 2) && Lower(Label(v, 2)) == "ib";
    assert LabelFrom(v, "ib", 0) == Some(2);
  }

  lemma StageIAResolvesCorrected()
    ensures Resolve(PrognosticGroupStage8, "IA") == Some(1)
    ensures Resolve(PrognosticGroupStage8, "ia") == Some(1)
    ensures Resolve(PrognosticGroupStage8, "IB") == Some(2)
  {
    PrognosticGroupStage8IsCoherent();
    StageIAFound("IA");
    StageIAFound("ia");
    StageIBFound();
  }

  lemma StageIAFound(raw: string)
    requires Coherent(PrognosticGroupStage8) && Lower(raw) == "ia"
    ensures Resolve(PrognosticGroupStage8, raw) == Some(1)
  {
    assert IsMember(PrognosticGroupStage8, 1);
    assert Lower(Label(PrognosticGroupStage8, 1)) == "ia";
    ResolveAnyCaseOfLabel(PrognosticGroupStage8, 1, raw);
  }

  lemma StageIBFound()
    requires Coherent(PrognosticGroupStage8)
    ensures Resolve(PrognosticGroupStage8, "IB") == Some(2)
  {
    assert IsMember(PrognosticGroupStage8, 2);
    ResolveAnyCaseOfLabel(PrognosticGroupStage8, 2, "IB");
  }
}
