/** A prompt template: fixed texts alternating with the interpolated fields of
    an exam configuration, and where each field lands in the filled text. */
module PromptTemplate {
  import opened Text
  import opened Decimal
  import opened Exam

  /** The fixed texts of a prompt template, in order, between its interpolated
      values. */
  datatype Template = Template(
    opening: string,
    minuteWord: string,
    proceedSteps: string,
    taskTimeTail: string,
    goalsHeading: string,
    gradeHeading: string,
    feedbackHeading: string,
    taskHeading: string,
    delimiterLine: string,
    closingNotes: string)

  /** JavaScript's `title || "exam"`: an empty title falls back to "exam". */
  function TitleOrDefault(title: string): (r: string)
    ensures |r| > 0
    ensures title != "" ==> r == title
    ensures title == "" ==> r == "exam"
  {
    if title == "" then "exam" else title
  }

  /** The chunks of a template literal in order: fixed texts alternating with
      the interpolated values. */
  function Pieces(t: Template, e: ExamSimulator, activeMs: nat): (r: seq<string>)
    requires activeMs % 60000 == 0
  {
    [ t.opening, NatToString(e.duration), t.minuteWord, TitleOrDefault(e.title), t.proceedSteps,
      NatToString(activeMs / 60000), t.taskTimeTail,
      t.goalsHeading, e.learningGoals,
      t.gradeHeading, e.gradeCriteria,
      t.feedbackHeading, e.feedback,
      t.taskHeading, t.delimiterLine, e.studentTask, t.delimiterLine,
      t.closingNotes ]
  }

  /** Positions of the interpolated values in `Pieces`. */
  const DurationSlot := 1
  const TitleSlot := 3
  const TaskTimeSlot := 5
  const GoalsSlot := 8
  const GradeSlot := 10
  const FeedbackSlot := 12
  const TaskSlot := 15
  const ClosingSlot := 17

  /** Interpolation of the fields of `e` into template `t`. */
  function Fill(t: Template, e: ExamSimulator, activeMs: nat): (r: string)
    requires activeMs % 60000 == 0
    ensures |r| == Offset(Pieces(t, e, activeMs), 18)
  {
    var ps := Pieces(t, e, activeMs);
    ConcatSuffix(ps, 18);
    assert ps[18..] == [];
    Concat(ps)
  }

  /** Index in the filled template at which slot `k` starts. */
  function At(t: Template, e: ExamSimulator, activeMs: nat, k: nat): (r: nat)
    requires activeMs % 60000 == 0
    requires k <= 18
  {
    Offset(Pieces(t, e, activeMs), k)
  }

  /** Every piece occurs at its offset; the next one starts where it ends. */
  lemma PieceAt(t: Template, e: ExamSimulator, activeMs: nat, k: nat)
    requires activeMs % 60000 == 0
    requires k < 18
    ensures OccursAt(Pieces(t, e, activeMs)[k], Fill(t, e, activeMs), At(t, e, activeMs, k))
    ensures At(t, e, activeMs, k + 1) == At(t, e, activeMs, k) + |Pieces(t, e, activeMs)[k]|
  {
    ConcatPiece(Pieces(t, e, activeMs), k);
  }

  /** Two consecutive pieces occur together at the offset of the first. */
  lemma PairAt(t: Template, e: ExamSimulator, activeMs: nat, k: nat)
    requires activeMs % 60000 == 0
    requires k + 2 <= 18
    ensures OccursAt(Pieces(t, e, activeMs)[k] + Pieces(t, e, activeMs)[k + 1], Fill(t, e, activeMs), At(t, e, activeMs, k))
    ensures At(t, e, activeMs, k + 1) == At(t, e, activeMs, k) + |Pieces(t, e, activeMs)[k]|
  {
    ConcatPiece(Pieces(t, e, activeMs), k);
    ConcatPair(Pieces(t, e, activeMs), k);
  }

  /** The opening sentence: the opening words, the configured duration, the
      minute word, then the title (or "exam"), each starting where the previous
      one ends. */
  lemma FillOpening(t: Template, e: ExamSimulator, activeMs: nat)
    requires activeMs % 60000 == 0
    ensures At(t, e, activeMs, DurationSlot) == |t.opening|
    ensures At(t, e, activeMs, TitleSlot - 1) == |t.opening| + |NatToString(e.duration)|
    ensures At(t, e, activeMs, TitleSlot) == |t.opening| + |NatToString(e.duration)| + |t.minuteWord|
    ensures OccursAt(t.opening + NatToString(e.duration), Fill(t, e, activeMs), 0)
    ensures OccursAt(NatToString(e.duration) + t.minuteWord, Fill(t, e, activeMs), At(t, e, activeMs, DurationSlot))
    ensures OccursAt(t.minuteWord + TitleOrDefault(e.title), Fill(t, e, activeMs), At(t, e, activeMs, TitleSlot - 1))
    ensures OccursAt(TitleOrDefault(e.title) + t.proceedSteps, Fill(t, e, activeMs), At(t, e, activeMs, TitleSlot))
  {
    PairAt(t, e, activeMs, 0);
    PairAt(t, e, activeMs, 1);
    PairAt(t, e, activeMs, 2);
    PairAt(t, e, activeMs, 3);
    assert Offset(Pieces(t, e, activeMs), 0) == 0;
  }

  /** Step 2 gives the task time as the active milliseconds divided by 60000. */
  lemma FillTaskTime(t: Template, e: ExamSimulator, activeMs: nat)
    requires activeMs % 60000 == 0
    ensures OccursAt(t.proceedSteps + NatToString(activeMs / 60000), Fill(t, e, activeMs), At(t, e, activeMs, TaskTimeSlot - 1))
    ensures OccursAt(NatToString(activeMs / 60000) + t.taskTimeTail, Fill(t, e, activeMs), At(t, e, activeMs, TaskTimeSlot))
  {
    PairAt(t, e, activeMs, 4);
    PairAt(t, e, activeMs, 5);
  }

  /** Learning goals, grading text and feedback each follow their heading
      verbatim, in that order, before the task. */
  lemma FillSections(t: Template, e: ExamSimulator, activeMs: nat)
    requires activeMs % 60000 == 0
    ensures OccursAt(t.goalsHeading + e.learningGoals, Fill(t, e, activeMs), At(t, e, activeMs, GoalsSlot - 1))
    ensures OccursAt(t.gradeHeading + e.gradeCriteria, Fill(t, e, activeMs), At(t, e, activeMs, GradeSlot - 1))
    ensures OccursAt(t.feedbackHeading + e.feedback, Fill(t, e, activeMs), At(t, e, activeMs, FeedbackSlot - 1))
    ensures At(t, e, activeMs, GoalsSlot) + |e.learningGoals| + |t.gradeHeading| == At(t, e, activeMs, GradeSlot)
    ensures At(t, e, activeMs, GradeSlot) + |e.gradeCriteria| + |t.feedbackHeading| == At(t, e, activeMs, FeedbackSlot)
    ensures At(t, e, activeMs, FeedbackSlot) + |e.feedback| <= At(t, e, activeMs, TaskSlot)
  {
    PairAt(t, e, activeMs, 7);
    PairAt(t, e, activeMs, 8);
    PairAt(t, e, activeMs, 9);
    PairAt(t, e, activeMs, 10);
    PairAt(t, e, activeMs, 11);
    PairAt(t, e, activeMs, 12);
    PairAt(t, e, activeMs, 13);
    PairAt(t, e, activeMs, 14);
  }

  /** The student task sits between two delimiter lines, and only the closing
      notes follow the second one. */
  lemma FillTask(t: Template, e: ExamSimulator, activeMs: nat)
    requires activeMs % 60000 == 0
    ensures OccursAt(t.delimiterLine + e.studentTask, Fill(t, e, activeMs), At(t, e, activeMs, TaskSlot - 1))
    ensures OccursAt(e.studentTask + t.delimiterLine, Fill(t, e, activeMs), At(t, e, activeMs, TaskSlot))
    ensures At(t, e, activeMs, ClosingSlot) == At(t, e, activeMs, TaskSlot) + |e.studentTask| + |t.delimiterLine|
    ensures At(t, e, activeMs, ClosingSlot) + |t.closingNotes| == |Fill(t, e, activeMs)|
    ensures Fill(t, e, activeMs)[At(t, e, activeMs, ClosingSlot)..] == t.closingNotes
  {
    var ps := Pieces(t, e, activeMs);
    PairAt(t, e, activeMs, 14);
    PairAt(t, e, activeMs, 15);
    PieceAt(t, e, activeMs, 16);
    ConcatLast(ps);
  }

  /** The prompt determines the student task: configurations that differ only
      in their task give different prompts. */
  lemma FillDeterminesTask(t: Template, e: ExamSimulator, activeMs: nat, task1: string, task2: string)
    requires activeMs % 60000 == 0
    requires Fill(t, e.(studentTask := task1), activeMs) == Fill(t, e.(studentTask := task2), activeMs)
    ensures task1 == task2
  {
    var ps1 := Pieces(t, e.(studentTask := task1), activeMs);
    var ps2 := Pieces(t, e.(studentTask := task2), activeMs);
    assert ps1[..TaskSlot] == ps2[..TaskSlot];
    assert ps1[TaskSlot + 1..] == ps2[TaskSlot + 1..];
    ConcatDeterminesPiece(ps1, ps2, TaskSlot);
  }
}
