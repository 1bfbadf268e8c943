/** The stored exam configuration ("exam simulator") that the page selects and
    the prompt builder reads. */
module Exam {

  /** One configured exam. A missing or empty title is the empty string (the
      code treats both alike through `||`); a missing or zero duration is 0. */
  datatype ExamSimulator = ExamSimulator(
    id: string,
    title: string,
    examType: string,
    duration: nat,
    learningGoals: string,
    gradeCriteria: string,
    feedback: string,
    studentTask: string)
}
