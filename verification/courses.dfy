/** Courses, quizzes and certificates: the content objects users act on. */
module Courses {
  import opened Base

  /** One item of uploaded course material (a lecture file name). */
  type Content = string

  /** A reference to one course object. `serial` is the object's identity: two
      course objects built with the same course id are still different objects.
      `id` is the course id the object was built with; no operation reassigns
      it, so it travels with the reference. */
  datatype CourseRef = CourseRef(serial: nat, id: CourseId)

  /** The mutable part of a course object: its descriptive fields, its owner's
      user id, its uploaded lectures and its quizzes. */
  datatype Course = Course(
    title: string,
    description: string,
    instructorId: UserId,
    lectures: seq<Content>,
    quizzes: seq<Quiz>)

  /** One entry of the question data an instructor supplies: the question text
      and its correct answer. */
  datatype Question = Question(question: string, answer: string)

  /** A quiz belongs to the course whose id it carries and lists its questions.
      The answer key is not modelled: no operation reads it. */
  datatype Quiz = Quiz(id: QuizId, courseId: CourseId, questions: seq<string>)

  /** A record that a student completed a course. */
  datatype Certificate = Certificate(
    id: CertificateId,
    studentId: UserId,
    courseId: CourseId,
    issueDate: string)

  /** Two course objects agree on everything but their lectures and quizzes. */
  predicate SameHeader(a: Course, b: Course) {
    a.title == b.title && a.description == b.description && a.instructorId == b.instructorId
  }

  /** A course as it is first constructed: no lectures, no quizzes. */
  function NewCourse(title: string, description: string, instructorId: UserId): (c: Course)
    ensures c.lectures == [] && c.quizzes == []
    ensures c.title == title && c.description == description && c.instructorId == instructorId
  {
    Course(title, description, instructorId, [], [])
  }

  /** Appends one lecture; always succeeds. */
  function AddContent(c: Course, content: Content): (r: Outcome<Course>)
    ensures r.ok
    ensures |r.next.lectures| == |c.lectures| + 1
    ensures r.next.lectures[..|c.lectures|] == c.lectures
    ensures r.next.lectures[|c.lectures|] == content
    ensures r.next.quizzes == c.quizzes && SameHeader(r.next, c)
  {
    Outcome(true, c.(lectures := c.lectures + [content]))
  }

  /** Appends one quiz; always succeeds. */
  function AddQuiz(c: Course, q: Quiz): (r: Outcome<Course>)
    ensures r.ok
    ensures |r.next.quizzes| == |c.quizzes| + 1
    ensures r.next.quizzes[..|c.quizzes|] == c.quizzes
    ensures r.next.quizzes[|c.quizzes|] == q
    ensures r.next.lectures == c.lectures && SameHeader(r.next, c)
  {
    Outcome(true, c.(quizzes := c.quizzes + [q]))
  }

  /** The question texts of the supplied question data, in order. */
  function {:induction false} QuestionTexts(data: seq<Question>): (qs: seq<string>)
    ensures |qs| == |data|
    ensures forall i :: 0 <= i < |data| ==> qs[i] == data[i].question
  {
    if data == [] then [] else [data[0].question] + QuestionTexts(data[1..])
  }

  /** Builds a quiz for course `courseId` from question data. */
  function NewQuiz(id: QuizId, courseId: CourseId, data: seq<Question>): (q: Quiz)
    ensures q.id == id && q.courseId == courseId
    ensures |q.questions| == |data|
    ensures forall i :: 0 <= i < |data| ==> q.questions[i] == data[i].question
  {
    Quiz(id, courseId, QuestionTexts(data))
  }

  /** The placeholder score: eighty percent of the question count, whatever
      was answered. */
  function Evaluate(q: Quiz): (score: real)
    ensures |q.questions| == 0 ==> score == 0.0
    ensures |q.questions| > 0 ==> score / |q.questions| as real == 0.8
    ensures 0.0 <= score <= |q.questions| as real
  {
    |q.questions| as real * 0.8
  }

  /** A freshly built quiz scores 0.8 per question of the data it was built
      from, and the score never exceeds the question count. */
  lemma NewQuizScore(id: QuizId, courseId: CourseId, data: seq<Question>)
    ensures Evaluate(NewQuiz(id, courseId, data)) == |data| as real * 0.8
    ensures 0.0 <= Evaluate(NewQuiz(id, courseId, data)) <= |data| as real
  {
  }
}
