/** Users and their role-specific operations. Every operation is a pure
    transition on one user (and, for instructors, on the course objects),
    returning its outcome together with the state it leaves behind. */
module Users {
  import opened Base
  import opened Courses

  /** The per-role payload of a user. */
  datatype Role =
    | Student(enrolled: seq<CourseRef>, completed: map<QuizId, real>, certificates: seq<Certificate>)
    | Instructor(expertise: string, created: seq<CourseRef>)
    | Administrator

  /** A user: shared identity and credentials plus the role payload. */
  datatype User = User(id: UserId, username: string, password: string, email: string, role: Role)

  /** The role tag the source stores on each user. */
  function RoleName(r: Role): string
  {
    match r
    case Student(_, _, _) => "student"
    case Instructor(_, _) => "instructor"
    case Administrator => "admin"
  }

  /** The course objects a user holds references to: a student's enrolments,
      an instructor's created courses, nothing for an administrator. */
  function Held(r: Role): seq<CourseRef>
  {
    match r
    case Student(enrolled, _, _) => enrolled
    case Instructor(_, created) => created
    case Administrator => []
  }

  /** The fields no operation except a profile update touches. */
  predicate SameAccount(u: User, v: User) {
    u.id == v.id && u.username == v.username && u.password == v.password && u.email == v.email
  }

  // ---------------------------------------------------------------------------
  // Base user operations
  // ---------------------------------------------------------------------------

  /** Credential check: both the username and the stored password must match. */
  function Login(u: User, username: string, password: string): (ok: bool)
    ensures ok <==> u.username == username && u.password == password
  {
    u.username == username && u.password == password
  }

  /** Replaces the email when a non-empty one is supplied; otherwise reports
      failure and leaves the user as it was. */
  function UpdateProfile(u: User, newEmail: Option<string>): (r: Outcome<User>)
    ensures r.ok <==> Truthy(newEmail)
    ensures r.ok ==> r.next.email == newEmail.value
    ensures !r.ok ==> r.next == u
    ensures r.next.id == u.id && r.next.username == u.username && r.next.password == u.password
    ensures r.next.role == u.role
  {
    if Truthy(newEmail) then Outcome(true, u.(email := newEmail.value)) else Outcome(false, u)
  }

  /** A profile update never changes whether a login attempt succeeds. */
  lemma UpdateProfileKeepsLogin(u: User, newEmail: Option<string>, username: string, password: string)
    ensures Login(UpdateProfile(u, newEmail).next, username, password) == Login(u, username, password)
  {
  }

  // ---------------------------------------------------------------------------
  // Student operations
  // ---------------------------------------------------------------------------

  /** The course ids of a list of course references, in order. */
  function {:induction false} CourseIds(rs: seq<CourseRef>): (ids: seq<CourseId>)
    ensures |ids| == |rs|
    ensures forall i :: 0 <= i < |rs| ==> ids[i] == rs[i].id
  {
    if rs == [] then [] else [rs[0].id] + CourseIds(rs[1..])
  }

  /** The student is enrolled in some course object whose id is `cid`. */
  predicate EnrolledIn(u: User, cid: CourseId)
    requires u.role.Student?
  {
    exists i :: 0 <= i < |u.role.enrolled| && u.role.enrolled[i].id == cid
  }

  /** Enrols in a course object unless that very object is already enrolled. */
  function Enroll(u: User, c: CourseRef): (r: Outcome<User>)
    requires u.role.Student?
    ensures r.next.role.Student? && SameAccount(r.next, u)
    ensures r.ok <==> c !in u.role.enrolled
    ensures r.ok ==> r.next.role.enrolled == u.role.enrolled + [c]
    ensures !r.ok ==> r.next == u
    ensures r.next.role.completed == u.role.completed
    ensures r.next.role.certificates == u.role.certificates
  {
    if c !in u.role.enrolled then
      Outcome(true, u.(role := u.role.(enrolled := u.role.enrolled + [c])))
    else
      Outcome(false, u)
  }

  /** Enrolment keeps the enrolment list duplicate-free. */
  lemma EnrollKeepsNoDuplicates(u: User, c: CourseRef)
    requires u.role.Student? && NoDuplicates(u.role.enrolled)
    ensures NoDuplicates(Enroll(u, c).next.role.enrolled)
  {
  }

  /** Enrolling twice in the same course: the second call reports failure,
      changes nothing, and the course is on the list exactly once. */
  lemma EnrollTwice(u: User, c: CourseRef)
    requires u.role.Student? && NoDuplicates(u.role.enrolled)
    ensures var once := Enroll(u, c).next;
      && !Enroll(once, c).ok
      && Enroll(once, c).next == once
      && multiset(once.role.enrolled)[c] == 1
  {
    var once := Enroll(u, c).next;
    EnrollKeepsNoDuplicates(u, c);
    assert c in once.role.enrolled;
    OccursOnce(once.role.enrolled, c);
  }

  /** Attempts a quiz: allowed when an enrolled course has the quiz's course
      id; records the placeholder score under the quiz id. */
  function AttemptQuiz(u: User, q: Quiz): (r: Outcome<User>)
    requires u.role.Student?
    ensures r.next.role.Student? && SameAccount(r.next, u)
    ensures r.ok <==> EnrolledIn(u, q.courseId)
    ensures r.ok ==> r.next.role.completed.Keys == u.role.completed.Keys + {q.id}
    ensures r.ok ==> r.next.role.completed[q.id] == |q.questions| as real * 0.8
    ensures r.ok ==> forall k :: k in u.role.completed && k != q.id ==>
                       r.next.role.completed[k] == u.role.completed[k]
    ensures !r.ok ==> r.next == u
    ensures r.next.role.enrolled == u.role.enrolled
    ensures r.next.role.certificates == u.role.certificates
  {
    var ids := CourseIds(u.role.enrolled);
    if q.courseId in ids then
      assert ids[0..|ids|] == ids;
      Outcome(true, u.(role := u.role.(completed := u.role.completed[q.id := Evaluate(q)])))
    else
      Outcome(false, u)
  }

  /** Keeps a certificate when it names this student and a course id the
      student is enrolled in. */
  function DownloadCertificate(u: User, cert: Certificate): (r: Outcome<User>)
    requires u.role.Student?
    ensures r.next.role.Student? && SameAccount(r.next, u)
    ensures r.ok <==> cert.studentId == u.id && EnrolledIn(u, cert.courseId)
    ensures r.ok ==> r.next.role.certificates == u.role.certificates + [cert]
    ensures !r.ok ==> r.next == u
    ensures r.next.role.enrolled == u.role.enrolled
    ensures r.next.role.completed == u.role.completed
  {
    if cert.studentId == u.id && cert.courseId in CourseIds(u.role.enrolled) then
      Outcome(true, u.(role := u.role.(certificates := u.role.certificates + [cert])))
    else
      Outcome(false, u)
  }

  // ---------------------------------------------------------------------------
  // Instructor operations. Course objects live in `store`, keyed by reference.
  // ---------------------------------------------------------------------------

  /** Uploads content to a course object the instructor created. */
  function UploadContent(u: User, c: CourseRef, content: Content, store: map<CourseRef, Course>)
    : (r: Outcome<map<CourseRef, Course>>)
    requires u.role.Instructor? && c in store
    ensures r.ok <==> c in u.role.created
    ensures r.next.Keys == store.Keys
    ensures forall d :: d in store && d != c ==> r.next[d] == store[d]
    ensures r.ok ==> r.next[c].lectures == store[c].lectures + [content]
    ensures r.next[c].quizzes == store[c].quizzes && SameHeader(r.next[c], store[c])
    ensures !r.ok ==> r.next == store
  {
    if c in u.role.created then
      Outcome(true, store[c := AddContent(store[c], content).next])
    else
      Outcome(false, store)
  }

  /** Builds a quiz for a course object the instructor created and adds it to
      that course; `None` when the instructor did not create the course. */
  function CreateQuiz(u: User, c: CourseRef, quizId: QuizId, data: seq<Question>, store: map<CourseRef, Course>)
    : (r: Reply<Quiz, map<CourseRef, Course>>)
    requires u.role.Instructor? && c in store
    ensures r.made.Some? <==> c in u.role.created
    ensures r.made.Some? ==> r.made.value.id == quizId && r.made.value.courseId == c.id
    ensures r.made.Some? ==> |r.made.value.questions| == |data|
    ensures r.made.Some? ==> forall i :: 0 <= i < |data| ==> r.made.value.questions[i] == data[i].question
    ensures r.next.Keys == store.Keys
    ensures forall d :: d in store && d != c ==> r.next[d] == store[d]
    ensures r.made.Some? ==> r.next[c].quizzes == store[c].quizzes + [r.made.value]
    ensures r.next[c].lectures == store[c].lectures && SameHeader(r.next[c], store[c])
    ensures r.made.None? ==> r.next == store
  {
    if c in u.role.created then
      var q := NewQuiz(quizId, c.id, data);
      Reply(Some(q), store[c := AddQuiz(store[c], q).next])
    else
      Reply(None, store)
  }

  /** Reads a student's recorded scores, for a course object the instructor
      created; `None` otherwise. The student is only looked at when the
      instructor owns the course. */
  function TrackPerformance(u: User, student: User, c: CourseRef): (r: Option<map<QuizId, real>>)
    requires u.role.Instructor?
    requires c in u.role.created ==> student.role.Student?
    ensures r.Some? <==> c in u.role.created
    ensures r.Some? ==> r.value == student.role.completed
  {
    if c in u.role.created then Some(student.role.completed) else None
  }
}
