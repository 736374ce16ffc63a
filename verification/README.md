# E-learning registry, modelled in Dafny

A model of a small in-memory e-learning platform, written as a functional state machine. The
platform registers users (students, instructors, administrators) and courses. Instructors upload
lectures and create quizzes on courses they created. Students enrol in courses, attempt quizzes and
download certificates. An administrator can delete a course.

Every operation either applies completely or leaves the state as it was. It reports its outcome as
a boolean (`Outcome`) or as a made object or nothing (`Reply`), paired with the resulting state.

Layout:

- `base.dfy` (`Base`): identifiers, `Option`, the `Outcome`/`Reply` result shapes, the truthiness
  test used on optional strings, and duplicate-free lists.
- `courses.dfy` (`Courses`): course objects, quizzes, certificates, and the appends a course
  supports. It also holds quiz construction and the placeholder quiz score.
- `users.dfy` (`Users`): users with a role payload, and every role operation as a pure transition on
  one user. Instructors' operations also act on the course objects.
- `registry.dfy` (`Registry`): the platform. It covers registration, course creation, course
  deletion, the role operations applied to registered users, and the registry invariants.
- `scenario.dfy` (`Scenario`): the repository's walk-through, replayed on the model. One further
  step, not in the walk-through, has a never-enrolled student attempt the walk-through's quiz.

Course identity. The code compares courses in two different ways:

- Enrolment and ownership test whether the very same course object is in a list.
- Quiz and certificate eligibility compare course ids.

The model keeps this difference. A `CourseRef` pairs an allocation serial (the object's identity)
with the course id the object was built with. `Platform.store` holds every course object ever
built. `Platform.courses` is the id-keyed registry.

While no course has been deleted, the invariant `Exact` holds: every course object is registered
under its id. `Exact` implies two further facts:

- `Linked`: every course an instructor created is registered under its id.
- `IdsIdentify`: identity and id coincide.

Deleting a course removes only the registry entry. Once a course is deleted and a new course is
created under the same id, the two comparisons give different answers. Lemmas show both the
agreement and the split.

## Model

| member | source | states |
|---|---|---|
| Users.Login | e_learning_platform.py:16-21 | login succeeds iff both the username and the stored password match; a mismatch in either one fails |
| Users.UpdateProfile | e_learning_platform.py:27-33 | succeeds iff a non-empty email is supplied, and then the email becomes that value; otherwise the user is unchanged; id, credentials and role never change |
| Users.UpdateProfileKeepsLogin | e_learning_platform.py:27-33 | a profile update never changes whether a given login attempt succeeds |
| Users.CourseIds | e_learning_platform.py:53 | the id list has one entry per enrolled course object, in order, each the id of that object |
| Users.Enroll | e_learning_platform.py:43-49 | succeeds iff this very course object is not yet enrolled, and then appends it; otherwise nothing changes; scores and certificates are untouched |
| Users.EnrollKeepsNoDuplicates | e_learning_platform.py:43-49 | enrolment never puts a course object on the list twice |
| Users.EnrollTwice | e_learning_platform.py:43-49 | enrolling twice in the same course: the second call fails and changes nothing, and the course is on the list exactly once |
| Users.AttemptQuiz | e_learning_platform.py:52-61 | succeeds iff some enrolled course has the quiz's course id; then the quiz id is recorded with score 0.8 per question, other scores are unchanged and no other key appears; on failure the student is unchanged |
| Users.DownloadCertificate | e_learning_platform.py:63-69 | succeeds iff the certificate names this student and a course id the student is enrolled in; then it is appended; otherwise the student is unchanged |
| Users.UploadContent | e_learning_platform.py:78-84 | succeeds iff the instructor created this course object; then exactly one lecture is appended to that course; all other course objects, and the course's quizzes and header, are unchanged |
| Users.CreateQuiz | e_learning_platform.py:87-94 | makes a quiz iff the instructor created this course object; the quiz carries the given id, the course's id and, in order, the question text of each data entry, and is appended to that course's quizzes; lectures, header and all other course objects are unchanged; otherwise `None` and nothing changes |
| Users.TrackPerformance | e_learning_platform.py:96-103 | yields the student's recorded scores iff the instructor created the course object, and does not change anything |
| Courses.NewCourse | e_learning_platform.py:137-143 | a new course has the given title, description and owner id and no lectures or quizzes |
| Courses.AddContent | e_learning_platform.py:145-148 | always succeeds and appends exactly the given lecture, leaving quizzes and header unchanged |
| Courses.AddQuiz | e_learning_platform.py:160-163 | always succeeds and appends exactly the given quiz, leaving lectures and header unchanged |
| Courses.QuestionTexts | e_learning_platform.py:172 | one question text per data entry, in order, each the entry's question |
| Courses.NewQuiz | e_learning_platform.py:169-174 | the quiz has the given id and course id and the data's question texts in order |
| Courses.Evaluate | e_learning_platform.py:176-180 | the score is eighty percent of the question count: zero with no questions, never above the question count |
| Courses.NewQuizScore | e_learning_platform.py:176-180 | a quiz built from n questions scores n times 0.8, which lies between 0 and n |
| Registry.Empty | e_learning_platform.py:205-209 | the empty platform has no users and no courses, and satisfies both registry invariants |
| Registry.RegisterUser | e_learning_platform.py:212-229 | a user is made iff the id is new and the tag is student, instructor or admin; then exactly one key is added, holding a user with the given details, the tag's role and empty lists (an instructor gets the supplied expertise); otherwise nothing changes; courses are never touched |
| Registry.CreateCourse | e_learning_platform.py:231-243 | a course is made iff its id is new and the owner is an instructor; then a fresh course object is registered under the id, owned by the owner, with no content, and appended to the owner's created courses; nothing else changes; otherwise nothing changes at all |
| Registry.CreateCourseKeepsValid | e_learning_platform.py:231-243 | course creation keeps the platform well-formed: fresh identity, owned by its creator, once in the creator's list |
| Registry.AddCourseKeepsValid | e_learning_platform.py:238-240 | registering a fresh course object owned by an instructor and appending it to that instructor's list keeps the platform well-formed |
| Registry.DeleteCourse | e_learning_platform.py:126-129 | removes the registry entry under the course object's id and nothing else; users, their lists and the course objects stay as they were (no cascade); well-formedness is kept |
| Registry.UpdateProfile | e_learning_platform.py:27-33 | a profile update of a registered user changes only that user's email: id, username, password and role are kept, it succeeds iff a non-empty email is supplied, and it changes nothing on failure |
| Registry.Enroll | e_learning_platform.py:43-49 | enrolment of a registered student changes only that student: succeeds iff this very course object is not yet enrolled, then appends it; account fields, scores and certificates are kept; nothing changes on failure |
| Registry.AttemptQuiz | e_learning_platform.py:52-61 | a quiz attempt by a registered student changes only that student; succeeds iff enrolled in the quiz's course id, then adds exactly the quiz id with 0.8 per question and keeps every other score; enrolments, certificates and account fields are kept; nothing changes on failure |
| Registry.DownloadCertificate | e_learning_platform.py:63-69 | a certificate download by a registered student changes only that student; succeeds iff the certificate names the student and an enrolled course id, then appends it; enrolments, scores and account fields are kept; nothing changes on failure |
| Registry.UploadContent | e_learning_platform.py:78-84 | an upload by a registered instructor changes only the one course object, and only when the instructor created it: exactly one lecture is appended, and the course's quizzes and header are kept |
| Registry.CreateQuiz | e_learning_platform.py:87-94 | quiz creation by a registered instructor changes only the one course object, and only when the instructor created it: the quiz has the given id, the course's id and the data's question texts in order, and is appended to the course's quizzes; lectures and header are kept |
| Registry.RegisteredUserCanLogin | e_learning_platform.py:212-229 | a freshly registered user logs in with exactly the registration credentials |
| Registry.RegisterTwice | e_learning_platform.py:213-215 | a second registration under a taken id is rejected and the first registration is unaffected |
| Registry.ExactGivesLinkedAndIdentity | e_learning_platform.py:232-241 | while every course object is registered, every created course is registered under its id, and no two course objects share an id |
| Registry.RegisterUserKeepsInvariants | e_learning_platform.py:212-229 | registration keeps well-formedness and both registry invariants |
| Registry.CreateCourseKeepsExact | e_learning_platform.py:231-243 | course creation keeps every course object registered |
| Registry.CreateCourseKeepsLinked | e_learning_platform.py:239-241 | course creation keeps every created course registered under its id |
| Registry.UserChangeKeepsInvariants | e_learning_platform.py:27-69 | a change to one registered user that keeps its id, role kind and course references keeps well-formedness and both registry invariants |
| Registry.CourseChangeKeepsInvariants | e_learning_platform.py:78-94 | a change to one course object's lectures or quizzes keeps well-formedness and both registry invariants |
| Registry.UpdateProfileKeepsInvariants | e_learning_platform.py:27-33 | a profile update keeps well-formedness and both registry invariants |
| Registry.EnrollKeepsInvariants | e_learning_platform.py:43-49 | enrolment keeps well-formedness (no course object enrolled twice) and both registry invariants |
| Registry.AttemptQuizKeepsInvariants | e_learning_platform.py:52-61 | a quiz attempt keeps well-formedness and both registry invariants |
| Registry.DownloadCertificateKeepsInvariants | e_learning_platform.py:63-69 | a certificate download keeps well-formedness and both registry invariants |
| Registry.UploadContentKeepsInvariants | e_learning_platform.py:78-84 | a content upload keeps well-formedness and both registry invariants |
| Registry.CreateQuizKeepsInvariants | e_learning_platform.py:87-94 | quiz creation keeps well-formedness and both registry invariants |
| Registry.EnrolmentIdentityMatchesId | e_learning_platform.py:43-64 | when ids identify course objects, "this object is enrolled" and "a course with this id is enrolled" agree |
| Registry.DeleteCourseUnlinks | e_learning_platform.py:126-129 | deleting a course an instructor created breaks both registry invariants: the instructor still holds the unregistered course |
| Registry.RecreatedCourseSplitsIdentity | e_learning_platform.py:231-243 | re-creating a deleted course's id makes a distinct object with the same id; for a student enrolled in the old object, the identity test says "not enrolled" (enrolment succeeds) while the id test says "enrolled" |
| Scenario.CourseSetUp | e_learning_platform.py:252-262 | the administrator and the instructor register; the instructor creates course c101, owns it and uploads two lectures to it |
| Scenario.SetUp | e_learning_platform.py:252-262 | after the set-up, both students are registered with no enrolments, scores or certificates |
| Scenario.EnrolAndCreateQuiz | e_learning_platform.py:265-281 | Bob is enrolled in exactly the c101 object; the quiz q101 belongs to c101 and has two questions; Charlie still has nothing recorded |
| Scenario.Walkthrough | e_learning_platform.py:277-296 | Bob's attempt at the two-question quiz is recorded as 1.6 and he keeps the certificate; Charlie is untouched |
| Scenario.UnenrolledAttempt | e_learning_platform.py:52-61 | beyond the walk-through: a registered student who never enrolled is refused the walk-through's quiz and has no score |

## Left out

- All console output. The walk-through is replayed only as far as lines 252-296. Its registration
  calls pass the email in the password position, and the replay keeps that order.
- `Administrator.manage_users` (lines 110-120). Both of its branches use `register_student` and
  `students`, and the platform has neither, so every call that gets past the action test raises
  `AttributeError`. There is no behaviour to model.
- `Administrator.manage_courses`: only the `delete_course` branch is modelled, as
  `Registry.DeleteCourse`. The `create_course` branch forwards to `create_course` and discards the
  result. The remaining branch, for an unknown action or a missing course object, only prints.
- `logout`, `Quiz.get_score`, `Certificate.generate_certificate`, `Course.update_course` and
  `Course.delete_course`. Each returns a constant or a formatted string, or overwrites a field no
  modelled operation reads.
- The quiz's hidden answer key (line 174). No operation reads it.
- The platform's `quizzes` and `certificates` maps (lines 208-209). No operation writes them.
- Quiz scores are exact reals (0.8 per question), not floating point.
- Registering an instructor without an `expertise` entry raises in the source. The model makes the
  entry a precondition, required only once the id is known to be new.
- Role operations called on a user of the wrong role (for example `enroll_course` on an instructor)
  raise `AttributeError` in the source. The model requires the right role.
- Course objects exist only through `create_course`. A course built directly is not modelled.
- Registry.CreateCourse: names its owner by a registered user id. An unregistered `Instructor`
  object passed as the owner is not modelled.
- Registry.CreateCourse: states that the existing course objects are unchanged only for a
  well-formed platform. On an ill-formed one the fresh serial might collide.
- Users.TrackPerformance: returns the scores the source prints, instead of `True`, so the read is
  observable.
