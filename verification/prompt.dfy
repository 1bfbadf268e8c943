/** Assembly of the examiner's instruction text from an exam configuration and
    the active exam duration in milliseconds. */
module Prompt {
  import opened Text
  import opened Decimal
  import opened Exam
  import opened GradeScale
  import opened PromptTemplate

  // The fixed texts are the template literal of `getPrompt`, verbatim. Long
  // lines are written as concatenations of short literals.

  /** The line that opens and closes the student-task block. */
  const Delimiter := "\"\"\""

  const Opening := "You are a friendly examiner running a "

  const MinuteWord := " minute "

  /** From the end of the title up to the task-time figure in step 2. */
  const ProceedSteps :=
    " exam. " + Indent + Indent
    + "Here is how the exam should proceed:" + Indent
    + "1. Start the exam by introducing yourself, "
      + "the exam and the steps of the exam. If relevant "
      + "ask the student to share their screen" + Indent
    + "2. Given the task. Come up with a specific " + "task for the student to solve in "

  /** From the task-time figure up to the learning-goals heading. */
  const TaskTimeTail :=
    " minutes (1 minute for grade and feedback). "
      + "Please just explain the student the first "
      + "part of the task. And then built on that, " + "when the student have completed that."
      + Indent
    + "3. Run the exam, asking questions and evaluating " + "the student's competencies." + Indent
    + "4. Give the student a grade and feedback." + Indent + Indent

  const GoalsHeading := "The competencies you are examining are:" + Indent

  const GradeHeading :=
    Indent + Indent + "Here is how you should grade the exam:" + Indent
    + "Remember: You can only evaluate the student "
      + "on what the student did during the exam." + Indent

  const FeedbackHeading := Indent + Indent + "Here is how you should give feedback:" + Indent

  const TaskHeading :=
    Indent + Indent
    + "Here is the task the student should do in " + "the exam. This task will be shown to the "
      + "student"

  /** The line holding only the delimiter, with the line breaks around it. */
  const DelimiterLine := Indent + Delimiter + Indent

  /** The fixed conduct notes after the closing delimiter line. */
  const ClosingNotes :=
    Indent
    + "Important notes about conducting the exam:" + Indent
    + "- You dont have time to evaluate all learning "
      + "goals so pick some of them and ask about " + "that" + Indent
    + "- Ask about the student's thinking, encourage " + "them to think aloud " + Indent
    + "- examine if the student understands the " + "code he/she is writing" + Indent
    + "- Please never explain what code is doing. "
      + "You are running an exam so you need to focus "
      + "on evaluating the students competencies " + "within the learning goals!" + Indent
    + "- Dont say what the student have done. Just " + "say things like: \"that looks good\""
      + Indent
    + "- If the student is doing well ask harder " + "questions. If the student is struggling "
      + "ask easier questions." + Indent
    + "- If the student is stuck, give hints to " + "help the student move forward." + Indent
    + "- Make sure that the syntax is correct. " + Indent + Indent
    + "And remember most importantly! You are an "
      + "examiner running an exam. Your goal is to "
      + "evaluate the students competencies throughly. "
      + "Dont take the students word for something! "
      + "Make sure the syntax is correct and that " + "the student understands the code!"
      + Indent

  /** The template literal of `getPrompt`. */
  const ExamTemplate := Template(Opening, MinuteWord, ProceedSteps, TaskTimeTail, GoalsHeading,
                                 GradeHeading, FeedbackHeading, TaskHeading, DelimiterLine, ClosingNotes)

  /** `getPrompt`: rewrite the grading identifier in the configuration, then
      assemble the prompt from the rewritten configuration; both are returned. */
  function GetPrompt(e: ExamSimulator, activeMs: nat): (r: (string, ExamSimulator))
    requires activeMs % 60000 == 0
    ensures r.1 == e.(gradeCriteria := r.1.gradeCriteria)
    ensures e.gradeCriteria in Scales ==> r.1.gradeCriteria == Scales[e.gradeCriteria]
    ensures e.gradeCriteria !in Scales ==> r.1 == e
    ensures r.0 == Fill(ExamTemplate, r.1, activeMs)
  {
    var e' := ExpandConfig(e);
    (Fill(ExamTemplate, e', activeMs), e')
  }

  /** The prompt begins "You are a friendly examiner running a ", then the
      duration, " minute ", the title or "exam", and " exam. ". */
  lemma PromptOpening(e: ExamSimulator, activeMs: nat)
    requires activeMs % 60000 == 0
    ensures OccursAt(Opening + NatToString(e.duration), Fill(ExamTemplate, e, activeMs), 0)
    ensures OccursAt(NatToString(e.duration) + MinuteWord, Fill(ExamTemplate, e, activeMs), |Opening|)
    ensures OccursAt(MinuteWord + TitleOrDefault(e.title), Fill(ExamTemplate, e, activeMs), |Opening| + |NatToString(e.duration)|)
    ensures OccursAt(TitleOrDefault(e.title) + ProceedSteps, Fill(ExamTemplate, e, activeMs),
                     |Opening| + |NatToString(e.duration)| + |MinuteWord|)
    ensures ProceedSteps[..7] == " exam. "
  {
    FillOpening(ExamTemplate, e, activeMs);
  }

  /** In the prompt the student task sits on its own between two lines holding
      only `"""`. */
  lemma PromptTask(e: ExamSimulator, activeMs: nat)
    requires activeMs % 60000 == 0
    ensures DelimiterLine == "\n    \"\"\"\n    "
    ensures OccursAt(DelimiterLine + e.studentTask, Fill(ExamTemplate, e, activeMs), At(ExamTemplate, e, activeMs, TaskSlot - 1))
    ensures OccursAt(e.studentTask + DelimiterLine, Fill(ExamTemplate, e, activeMs), At(ExamTemplate, e, activeMs, TaskSlot))
  {
    PairAt(ExamTemplate, e, activeMs, TaskSlot - 1);
    PairAt(ExamTemplate, e, activeMs, TaskSlot);
  }

  /** The grading section of `getPrompt`'s result: the fixed text for a known
      identifier (never the identifier itself), any other value verbatim. */
  lemma GradingSection(t: Template, e: ExamSimulator, activeMs: nat)
    requires activeMs % 60000 == 0
    ensures var e' := ExpandConfig(e);
            var section := e'.gradeCriteria;
            && OccursAt(t.gradeHeading + section, Fill(t, e', activeMs), At(t, e', activeMs, GradeSlot - 1))
            && (e.gradeCriteria in Scales ==> section == Scales[e.gradeCriteria] && section != e.gradeCriteria)
            && (e.gradeCriteria !in Scales ==> section == e.gradeCriteria)
            && (e.gradeCriteria in Scales ==> !IsInfix(e.gradeCriteria, section))
  {
    FillSections(t, ExpandConfig(e), activeMs);
    ShortTextsLackIdentifiers();
    SevenScaleLacksId();
  }

  /** A second `getPrompt` on the configuration the first one rewrote returns
      the same prompt and leaves the configuration as it is. */
  lemma GetPromptIdempotent(e: ExamSimulator, activeMs: nat)
    requires activeMs % 60000 == 0
    ensures GetPrompt(GetPrompt(e, activeMs).1, activeMs) == GetPrompt(e, activeMs)
  {
    ExpandConfigIdempotent(e);
  }
}
