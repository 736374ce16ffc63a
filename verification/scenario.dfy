/** The source's walk-through replayed on the model: an instructor creates a
    course and a two-question quiz, and one student enrols, takes the quiz and
    keeps a certificate. One further step, which the walk-through itself does
    not take, has the registered student who never enrolled attempt the same
    quiz. */
module Scenario {
  import opened Base
  import opened Courses
  import Users
  import opened Registry

  /** The question data of the walk-through's quiz. */
  const PythonQuestions: seq<Question> := [
    Question("What is Python?", "A programming language"),
    Question("What is a loop?", "A sequence of instructions repeated")
  ]

  /** What the walk-through observes, with the quiz it created. */
  datatype Run = Run(
    bobAttempt: bool,
    bobCertificate: bool,
    quiz: Quiz,
    final: Platform)

  /** The walk-through's first part, with registration arguments in the
      positional order the walk-through uses: an administrator registers,
      Alice registers as an instructor, creates course c101 and uploads two
      lectures to it. */
  method CourseSetUp() returns (p: Platform, course: CourseRef)
    ensures course.id == "c101" && course in p.store && |p.store[course].lectures| == 2
    ensures p.users.Keys == {"adm001", "inst001"} && p.users["inst001"].role.Instructor?
    ensures p.users["adm001"].role.Administrator?
    ensures course in p.users["inst001"].role.created
  {
    var admin := RegisterUser(Empty(), "admin", "adm001", "admin_user", "admin@elearn.com", "adminpass", None);
    var expertise := Some(map["expertise" := "Programming"]);
    var alice := RegisterUser(admin.next, "instructor", "inst001", "Alice", "alice@elearn.com", "alicelpass", expertise);
    p := alice.next;
    assert p.users.Keys == {"adm001", "inst001"};
    var made := CreateCourse(p, "c101", "Python Basics", "Learn Python from scratch", "inst001");
    course := made.made.value;
    p := made.next;
    assert |p.store[course].lectures| == 0;
    p := UploadContent(p, "inst001", course, "Intro to Python Video.mp4").next;
    p := UploadContent(p, "inst001", course, "Python Loops.pdf").next;
  }

  /** The walk-through's set-up: the course part, then Bob and Charlie
      register as students with nothing recorded. */
  method SetUp() returns (p: Platform, course: CourseRef)
    ensures course.id == "c101" && course in p.store && |p.store[course].lectures| == 2
    ensures "inst001" in p.users && p.users["inst001"].role.Instructor?
    ensures course in p.users["inst001"].role.created
    ensures "std001" in p.users && p.users["std001"].id == "std001"
    ensures p.users["std001"].role == Users.Student([], map[], [])
    ensures "std002" in p.users && p.users["std002"].role == Users.Student([], map[], [])
  {
    p, course := CourseSetUp();
    var bob := RegisterUser(p, "student", "std001", "Bob", "bob@elearn.com", "bobpass", None);
    assert bob.made.value.role == Users.Student([], map[], []);
    p := bob.next;
    var charlie := RegisterUser(p, "student", "std002", "Charlie", "charlie@elearn.com", "charliepass", None);
    assert charlie.made.value.role == Users.Student([], map[], []);
    p := charlie.next;
  }

  /** The walk-through's middle part: after the set-up, Bob enrols in c101
      and Alice creates quiz q101 from the two questions. */
  method EnrolAndCreateQuiz() returns (p: Platform, course: CourseRef, q: Quiz)
    ensures q.id == "q101" && q.courseId == course.id && |q.questions| == 2
    ensures "std001" in p.users && p.users["std001"].id == "std001"
    ensures p.users["std001"].role == Users.Student([course], map[], [])
    ensures "std002" in p.users && p.users["std002"].role == Users.Student([], map[], [])
  {
    p, course := SetUp();
    var charlie := p.users["std002"];
    p := Enroll(p, "std001", course).next;
    assert p.users["std002"] == charlie;
    var quiz := CreateQuiz(p, "inst001", course, "q101", PythonQuestions);
    q := quiz.made.value;
    p := quiz.next;
  }

  /** Runs the rest of the walk-through: Bob attempts the quiz and downloads
      his certificate. Bob's score is 1.6 and his certificate is kept;
      Charlie, who never enrolled, is untouched. */
  method Walkthrough() returns (w: Run)
    ensures w.bobAttempt && w.bobCertificate
    ensures w.quiz.id == "q101" && |w.quiz.questions| == 2
    ensures "std001" in w.final.users && w.final.users["std001"].role.Student?
    ensures w.final.users["std001"].role.completed == map["q101" := 1.6]
    ensures |w.final.users["std001"].role.certificates| == 1
    ensures "std002" in w.final.users && w.final.users["std002"].role == Users.Student([], map[], [])
  {
    var p, course, q := EnrolAndCreateQuiz();
    var charlieBefore := p.users["std002"];

    var bob := AttemptQuiz(p, "std001", q);
    assert bob.ok by {
      assert p.users["std001"].role.enrolled[0].id == q.courseId;
    }
    p := bob.next;
    assert p.users["std001"].role.completed == map["q101" := 1.6];
    assert p.users["std002"] == charlieBefore;

    var certificate := Certificate("cert001", "std001", course.id, "2023-10-27");
    var cert := DownloadCertificate(p, "std001", certificate);
    assert cert.ok by {
      assert p.users["std001"].role.enrolled[0].id == course.id;
    }
    p := cert.next;
    w := Run(bob.ok, cert.ok, q, p);
  }

  /** A step beyond the walk-through: after it, Charlie, registered as a
      student but never enrolled, attempts the same quiz. The attempt is
      refused and Charlie has no score. */
  method UnenrolledAttempt() returns (refused: bool, charlie: Users.User)
    ensures refused
    ensures charlie.role.Student? && charlie.role.completed == map[]
  {
    var w := Walkthrough();
    var attempt := AttemptQuiz(w.final, "std002", w.quiz);
    refused := !attempt.ok;
    charlie := attempt.next.users["std002"];
  }
}
