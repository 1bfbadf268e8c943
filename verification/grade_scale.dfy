/** Expansion of the three well-known grading-scale identifiers into the long
    texts placed in the prompt; every other grading text is kept as written. */
module GradeScale {
  import opened Text
  import opened Exam
  import opened GradeTable

  const SevenScaleId := "7-skala"
  const PassFailId := "bestået-ikke-bestået"
  const NoGradeId := "no-grade"

  /** The seven rows, best grade first, as the table in the code lists them. */
  const SevenScaleRows: seq<GradeRow> := [Grade12, Grade10, Grade7, Grade4, Grade02, Grade00, GradeMinus3]

  const Grade12 := GradeRow("12", "Den fremragende præstation",
    "Karakteren 12 gives for den fremragende " + "præstation, der demonstrerer udtømmende "
      + "opfyldelse af fagets mål, med ingen eller " + "få uvæsentlige mangler", "A")
  const Grade10 := GradeRow("10", "Den fortrinlige præstation",
    "Karakteren 10 gives for den fortrinlige " + "præstation, der demonstrerer omfattende "
      + "opfyldelse af fagets mål, med nogle mindre " + "væsentlige mangler", "B")
  const Grade7 := GradeRow("7", "Den gode præstation",
    "Karakteren 7 gives for den gode præstation, "
      + "der demonstrerer opfyldelse af fagets mål, " + "med en del mangler", "C")
  const Grade4 := GradeRow("4", "Den jævne præstation",
    "Karakteren 4 gives for den jævne præstation, "
      + "der demonstrerer en mindre grad af opfyldelse "
      + "af fagets mål, med adskillige væsentlige " + "mangler", "D")
  const Grade02 := GradeRow("02", "Den tilstrækkelige præstation",
    "Karakteren 02 gives for den tilstrækkelige " + "præstation, der demonstrerer den minimalt "
      + "acceptable grad af opfyldelse af fagets " + "mål", "E")
  const Grade00 := GradeRow("00", "Den utilstrækkelige præstation",
    "Karakteren 00 gives for den utilstrækkelige "
      + "præstation, der ikke demonstrerer en acceptabel "
      + "grad af opfyldelse af fagets mål", "Fx")
  const GradeMinus3 := GradeRow("-3", "Den ringe præstation",
    "Karakteren -3 gives for den helt uacceptable " + "præstation", "F")

  // Which characters the rows lack. A long literal is checked one short piece
  // at a time; the pieces are those of the row definitions above.

  lemma Grade12Piece0()
    ensures Lacks("Den fremragende præstation", '-')
  {
  }

  lemma Grade12Piece1()
    ensures Lacks("Karakteren 12 gives for den fremragende ", '-')
  {
  }

  lemma Grade12Piece2()
    ensures Lacks("præstation, der demonstrerer udtømmende ", '-')
  {
  }

  lemma Grade12Piece3()
    ensures Lacks("opfyldelse af fagets mål, med ingen eller ", '-')
  {
  }

  lemma Grade12Piece4()
    ensures Lacks("få uvæsentlige mangler", '-')
  {
  }

  /** No cell of the 12 row holds '-'. */
  lemma Grade12Lacks()
    ensures Lacks(RenderRow(Grade12), '-')
  {
    Grade12Piece0();
    Grade12Piece1();
    Grade12Piece2();
    Grade12Piece3();
    Grade12Piece4();
    LacksConcat("Karakteren 12 gives for den fremragende ", "præstation, der demonstrerer udtømmende ", '-');
    LacksConcat("Karakteren 12 gives for den fremragende " + "præstation, der demonstrerer udtømmende ", "opfyldelse af fagets mål, med ingen eller ", '-');
    LacksConcat("Karakteren 12 gives for den fremragende " + "præstation, der demonstrerer udtømmende " + "opfyldelse af fagets mål, med ingen eller ", "få uvæsentlige mangler", '-');
    assert Lacks(Grade12.grade, '-') && Lacks(Grade12.letter, '-');
    RowLacks(Grade12, '-');
  }

  lemma Grade10Piece0()
    ensures Lacks("Den fortrinlige præstation", '-')
  {
  }

  lemma Grade10Piece1()
    ensures Lacks("Karakteren 10 gives for den fortrinlige ", '-')
  {
  }

  lemma Grade10Piece2()
    ensures Lacks("præstation, der demonstrerer omfattende ", '-')
  {
  }

  lemma Grade10Piece3()
    ensures Lacks("opfyldelse af fagets mål, med nogle mindre ", '-')
  {
  }

  lemma Grade10Piece4()
    ensures Lacks("væsentlige mangler", '-')
  {
  }

  /** No cell of the 10 row holds '-'. */
  lemma Grade10Lacks()
    ensures Lacks(RenderRow(Grade10), '-')
  {
    Grade10Piece0();
    Grade10Piece1();
    Grade10Piece2();
    Grade10Piece3();
    Grade10Piece4();
    LacksConcat("Karakteren 10 gives for den fortrinlige ", "præstation, der demonstrerer omfattende ", '-');
    LacksConcat("Karakteren 10 gives for den fortrinlige " + "præstation, der demonstrerer omfattende ", "opfyldelse af fagets mål, med nogle mindre ", '-');
    LacksConcat("Karakteren 10 gives for den fortrinlige " + "præstation, der demonstrerer omfattende " + "opfyldelse af fagets mål, med nogle mindre ", "væsentlige mangler", '-');
    assert Lacks(Grade10.grade, '-') && Lacks(Grade10.letter, '-');
    RowLacks(Grade10, '-');
  }

  lemma Grade7Piece0()
    ensures Lacks("Den gode præstation", '-')
  {
  }

  lemma Grade7Piece1()
    ensures Lacks("Karakteren 7 gives for den gode præstation, ", '-')
  {
  }

  lemma Grade7Piece2()
    ensures Lacks("der demonstrerer opfyldelse af fagets mål, ", '-')
  {
  }

  lemma Grade7Piece3()
    ensures Lacks("med en del mangler", '-')
  {
  }

  /** No cell of the 7 row holds '-'. */
  lemma Grade7Lacks()
    ensures Lacks(RenderRow(Grade7), '-')
  {
    Grade7Piece0();
    Grade7Piece1();
    Grade7Piece2();
    Grade7Piece3();
    LacksConcat("Karakteren 7 gives for den gode præstation, ", "der demonstrerer opfyldelse af fagets mål, ", '-');
    LacksConcat("Karakteren 7 gives for den gode præstation, " + "der demonstrerer opfyldelse af fagets mål, ", "med en del mangler", '-');
    assert Lacks(Grade7.grade, '-') && Lacks(Grade7.letter, '-');
    RowLacks(Grade7, '-');
  }

  lemma Grade4Piece0()
    ensures Lacks("Den jævne præstation", '-')
  {
  }

  lemma Grade4Piece1()
    ensures Lacks("Karakteren 4 gives for den jævne præstation, ", '-')
  {
    assert Lacks("Karakteren 4 gives for ", '-');
    assert Lacks("den jævne præstation, ", '-');
    LacksConcat("Karakteren 4 gives for ", "den jævne præstation, ", '-');
  }

  lemma Grade4Piece2()
    ensures Lacks("der demonstrerer en mindre grad af opfyldelse ", '-')
  {
    assert Lacks("der demonstrerer en ", '-');
    assert Lacks("mindre grad af opfyldelse ", '-');
    LacksConcat("der demonstrerer en ", "mindre grad af opfyldelse ", '-');
  }

  lemma Grade4Piece3()
    ensures Lacks("af fagets mål, med adskillige væsentlige ", '-')
  {
  }

  lemma Grade4Piece4()
    ensures Lacks("mangler", '-')
  {
  }

  /** No cell of the 4 row holds '-'. */
  lemma Grade4Lacks()
    ensures Lacks(RenderRow(Grade4), '-')
  {
    Grade4Piece0();
    Grade4Piece1();
    Grade4Piece2();
    Grade4Piece3();
    Grade4Piece4();
    LacksConcat("Karakteren 4 gives for den jævne præstation, ", "der demonstrerer en mindre grad af opfyldelse ", '-');
    LacksConcat("Karakteren 4 gives for den jævne præstation, " + "der demonstrerer en mindre grad af opfyldelse ", "af fagets mål, med adskillige væsentlige ", '-');
    LacksConcat("Karakteren 4 gives for den jævne præstation, " + "der demonstrerer en mindre grad af opfyldelse " + "af fagets mål, med adskillige væsentlige ", "mangler", '-');
    assert Lacks(Grade4.grade, '-') && Lacks(Grade4.letter, '-');
    RowLacks(Grade4, '-');
  }

  lemma Grade02Piece0()
    ensures Lacks("Den tilstrækkelige præstation", '-')
  {
  }

  lemma Grade02Piece1()
    ensures Lacks("Karakteren 02 gives for den tilstrækkelige ", '-')
  {
  }

  lemma Grade02Piece2()
    ensures Lacks("præstation, der demonstrerer den minimalt ", '-')
  {
  }

  lemma Grade02Piece3()
    ensures Lacks("acceptable grad af opfyldelse af fagets ", '-')
  {
  }

  lemma Grade02Piece4()
    ensures Lacks("mål", '-')
  {
  }

  /** No cell of the 02 row holds '-'. */
  lemma Grade02Lacks()
    ensures Lacks(RenderRow(Grade02), '-')
  {
    Grade02Piece0();
    Grade02Piece1();
    Grade02Piece2();
    Grade02Piece3();
    Grade02Piece4();
    LacksConcat("Karakteren 02 gives for den tilstrækkelige ", "præstation, der demonstrerer den minimalt ", '-');
    LacksConcat("Karakteren 02 gives for den tilstrækkelige " + "præstation, der demonstrerer den minimalt ", "acceptable grad af opfyldelse af fagets ", '-');
    LacksConcat("Karakteren 02 gives for den tilstrækkelige " + "præstation, der demonstrerer den minimalt " + "acceptable grad af opfyldelse af fagets ", "mål", '-');
    assert Lacks(Grade02.grade, '-') && Lacks(Grade02.letter, '-');
    RowLacks(Grade02, '-');
  }

  lemma Grade00Piece0()
    ensures Lacks("Den utilstrækkelige præstation", '-')
  {
  }

  lemma Grade00Piece1()
    ensures Lacks("Karakteren 00 gives for den utilstrækkelige ", '-')
  {
  }

  lemma Grade00Piece2()
    ensures Lacks("præstation, der ikke demonstrerer en acceptabel ", '-')
  {
    assert Lacks("præstation, der ikke ", '-');
    assert Lacks("demonstrerer en acceptabel ", '-');
    LacksConcat("præstation, der ikke ", "demonstrerer en acceptabel ", '-');
  }

  lemma Grade00Piece3()
    ensures Lacks("grad af opfyldelse af fagets mål", '-')
  {
  }

  /** No cell of the 00 row holds '-'. */
  lemma Grade00Lacks()
    ensures Lacks(RenderRow(Grade00), '-')
  {
    Grade00Piece0();
    Grade00Piece1();
    Grade00Piece2();
    Grade00Piece3();
    LacksConcat("Karakteren 00 gives for den utilstrækkelige ", "præstation, der ikke demonstrerer en acceptabel ", '-');
    LacksConcat("Karakteren 00 gives for den utilstrækkelige " + "præstation, der ikke demonstrerer en acceptabel ", "grad af opfyldelse af fagets mål", '-');
    assert Lacks(Grade00.grade, '-') && Lacks(Grade00.letter, '-');
    RowLacks(Grade00, '-');
  }

  lemma GradeMinus3Piece0()
    ensures Lacks("Den ringe præstation", '7')
  {
  }

  lemma GradeMinus3Piece1()
    ensures Lacks("Karakteren -3 gives for den helt uacceptable ", '7')
  {
    assert Lacks("Karakteren -3 gives for ", '7');
    assert Lacks("den helt uacceptable ", '7');
    LacksConcat("Karakteren -3 gives for ", "den helt uacceptable ", '7');
  }

  lemma GradeMinus3Piece2()
    ensures Lacks("præstation", '7')
  {
  }

  /** No cell of the -3 row holds '7'. */
  lemma GradeMinus3Lacks()
    ensures Lacks(RenderRow(GradeMinus3), '7')
  {
    GradeMinus3Piece0();
    GradeMinus3Piece1();
    GradeMinus3Piece2();
    LacksConcat("Karakteren -3 gives for den helt uacceptable ", "præstation", '7');
    assert Lacks(GradeMinus3.grade, '7') && Lacks(GradeMinus3.letter, '7');
    RowLacks(GradeMinus3, '7');
  }

  /** The table runs 12, 10, 7, 4, 02, 00, -3 with letters A, B, C, D, E, Fx, F:
      the grades from highest to lowest. */
  lemma SevenScaleOrder()
    ensures |SevenScaleRows| == 7
    ensures seq(7, i requires 0 <= i < 7 => SevenScaleRows[i].grade)
         == ["12", "10", "7", "4", "02", "00", "-3"]
    ensures seq(7, i requires 0 <= i < 7 => SevenScaleRows[i].letter)
         == ["A", "B", "C", "D", "E", "Fx", "F"]
    ensures forall i, j :: 0 <= i < j < 7 ==>
              GradeValue(SevenScaleRows[i].grade) > GradeValue(SevenScaleRows[j].grade)
  {
    GradeCellValues();
  }

  const SevenScaleText := RenderTable(SevenScaleRows)

  const PassFailText := "Bestået/Ikke bestået"

  const NoGradeText := "The student should not get a grade!"

  /** Reference definition: which identifier expands to which text. */
  const Scales: map<string, string> :=
    map[SevenScaleId := SevenScaleText, PassFailId := PassFailText, NoGradeId := NoGradeText]

  /** The 7-point table begins with the row for grade 12. */
  lemma SevenScaleTextStart()
    ensures SevenScaleText[..4] == "12 \t"
    ensures |SevenScaleText| > |SevenScaleId|
  {
  }

  /** No replacement text is itself an identifier. */
  lemma ReplacementsAreNotIdentifiers()
    ensures SevenScaleText !in Scales
    ensures PassFailText !in Scales
    ensures NoGradeText !in Scales
  {
  }

  /** The grading text after the in-place rewrite of `gradeCriteria`. */
  function ExpandGrade(criteria: string): (r: string)
    ensures criteria in Scales ==> r == Scales[criteria]
    ensures criteria !in Scales ==> r == criteria
    ensures r !in Scales
  {
    ReplacementsAreNotIdentifiers();
    if criteria == SevenScaleId then SevenScaleText
    else if criteria == PassFailId then PassFailText
    else if criteria == NoGradeId then NoGradeText
    else criteria
  }

  /** Expanding an already expanded text changes nothing. */
  lemma ExpandGradeIdempotent(criteria: string)
    ensures ExpandGrade(ExpandGrade(criteria)) == ExpandGrade(criteria)
  {
  }

  /** The configuration after the rewrite: only `gradeCriteria` changes. */
  function ExpandConfig(e: ExamSimulator): (r: ExamSimulator)
    ensures r == e.(gradeCriteria := r.gradeCriteria)
    ensures e.gradeCriteria in Scales ==> r.gradeCriteria == Scales[e.gradeCriteria]
    ensures e.gradeCriteria !in Scales ==> r == e
    ensures r.gradeCriteria !in Scales
  {
    e.(gradeCriteria := ExpandGrade(e.gradeCriteria))
  }

  /** Rewriting an already rewritten configuration changes nothing. */
  lemma ExpandConfigIdempotent(e: ExamSimulator)
    ensures ExpandConfig(ExpandConfig(e)) == ExpandConfig(e)
  {
  }

  /** The pass/fail and no-grade texts never contain their own identifiers
      (nor any identifier: all three contain '-', which those texts lack). */
  lemma ShortTextsLackIdentifiers()
    ensures !IsInfix(PassFailId, PassFailText) && !IsInfix(NoGradeId, PassFailText)
    ensures !IsInfix(PassFailId, NoGradeText) && !IsInfix(NoGradeId, NoGradeText)
    ensures !IsInfix(SevenScaleId, PassFailText) && !IsInfix(SevenScaleId, NoGradeText)
  {
    assert Lacks(PassFailText, '-');
    assert Lacks(NoGradeText, '-');
    NotInfixByMissingChar(PassFailId, PassFailText, 7);
    NotInfixByMissingChar(NoGradeId, PassFailText, 2);
    NotInfixByMissingChar(SevenScaleId, PassFailText, 1);
    NotInfixByMissingChar(PassFailId, NoGradeText, 7);
    NotInfixByMissingChar(NoGradeId, NoGradeText, 2);
    NotInfixByMissingChar(SevenScaleId, NoGradeText, 1);
  }

  /** No row of the 7-point table holds a '7' directly followed by a '-': the
      rows 12 to 00 have no '-' and the row -3 has no '7'. */
  lemma SevenScaleRowsNoPair()
    ensures forall i :: 0 <= i < |SevenScaleRows| ==> NoPair(RenderRow(SevenScaleRows[i]), '7', '-')
  {
    Grade12Lacks();
    LacksNoPair(RenderRow(Grade12), '7', '-');
    Grade10Lacks();
    LacksNoPair(RenderRow(Grade10), '7', '-');
    Grade7Lacks();
    LacksNoPair(RenderRow(Grade7), '7', '-');
    Grade4Lacks();
    LacksNoPair(RenderRow(Grade4), '7', '-');
    Grade02Lacks();
    LacksNoPair(RenderRow(Grade02), '7', '-');
    Grade00Lacks();
    LacksNoPair(RenderRow(Grade00), '7', '-');
    GradeMinus3Lacks();
    LacksNoPair(RenderRow(GradeMinus3), '7', '-');
  }

  /** The 7-point table does not contain `7-skala`, the identifier it replaces,
      since the table nowhere has a '7' directly followed by a '-'. */
  lemma SevenScaleLacksId()
    ensures !IsInfix(SevenScaleId, SevenScaleText)
  {
    SevenScaleRowsNoPair();
    TableNoPair(SevenScaleRows, '7', '-');
    NotInfixOfNoPair(SevenScaleId, SevenScaleText, 0);
  }
}
