/** The platform registry: users by id, courses by id, and the course objects
    themselves. Registration and course creation are guarded insertions;
    course deletion drops a registry entry without touching anything that
    refers to the course. Role operations on a registered user are applied to
    the registered user, as the source's shared objects are. */
module Registry {
  import opened Base
  import opened Courses
  import opened Users

  /** `users` and `courses` are the registry maps. `store` holds every course
      object ever constructed, registered or not, and `constructed` counts
      them, so the next course object gets a fresh identity. */
  datatype Platform = Platform(
    users: map<UserId, User>,
    courses: map<CourseId, CourseRef>,
    store: map<CourseRef, Course>,
    constructed: nat)

  /** Well-formedness that every operation, deletion included, preserves. */
  predicate Valid(p: Platform) {
    && (forall uid :: uid in p.users ==> p.users[uid].id == uid)
    && (forall cid :: cid in p.courses ==> p.courses[cid].id == cid && p.courses[cid] in p.store)
    && (forall r :: r in p.store ==> r.serial < p.constructed)
    && (forall uid, r :: uid in p.users && r in Held(p.users[uid].role) ==> r in p.store)
    && (forall uid :: uid in p.users ==> NoDuplicates(Held(p.users[uid].role)))
    && (forall uid, r :: uid in p.users && p.users[uid].role.Instructor? && r in p.users[uid].role.created
          ==> r in p.store && p.store[r].instructorId == uid)
  }

  /** Every course object ever constructed is still registered under its id.
      This holds until a course is deleted. */
  predicate Exact(p: Platform) {
    forall r :: r in p.store ==> r.id in p.courses && p.courses[r.id] == r
  }

  /** Every course a registered instructor created is registered under its id. */
  predicate Linked(p: Platform) {
    forall uid, r :: uid in p.users && p.users[uid].role.Instructor? && r in p.users[uid].role.created
      ==> r.id in p.courses && p.courses[r.id] == r
  }

  /** Course ids identify course objects: no two course objects share an id. */
  predicate IdsIdentify(p: Platform) {
    forall r, s :: r in p.store && s in p.store && r.id == s.id ==> r == s
  }

  /** Everything but user `uid` is as it was, and `uid` is still registered. */
  predicate OnlyUserChanged(p: Platform, q: Platform, uid: UserId) {
    && q.courses == p.courses && q.store == p.store && q.constructed == p.constructed
    && q.users.Keys == p.users.Keys
    && forall k :: k in p.users && k != uid ==> q.users[k] == p.users[k]
  }

  /** Everything but course object `c` is as it was. */
  predicate OnlyCourseChanged(p: Platform, q: Platform, c: CourseRef) {
    && q.users == p.users && q.courses == p.courses && q.constructed == p.constructed
    && q.store.Keys == p.store.Keys
    && forall d :: d in p.store && d != c ==> q.store[d] == p.store[d]
  }

  /** The empty platform. */
  function Empty(): (p: Platform)
    ensures Valid(p) && Exact(p)
    ensures p.users == map[] && p.courses == map[]
  {
    Platform(map[], map[], map[], 0)
  }

  // ---------------------------------------------------------------------------
  // Registry operations
  // ---------------------------------------------------------------------------

  /** The user type tags registration accepts. */
  predicate KnownTag(tag: string) {
    tag == "student" || tag == "instructor" || tag == "admin"
  }

  /** The role a fresh user of a known tag starts with. */
  function FreshRole(tag: string, extra: Option<map<string, string>>): Role
    requires KnownTag(tag)
    requires tag == "instructor" ==> extra.Some? && "expertise" in extra.value
  {
    if tag == "student" then Student([], map[], [])
    else if tag == "instructor" then Instructor(extra.value["expertise"], [])
    else Administrator
  }

  /** Registers a user of the tagged kind under a fresh id. A duplicate id or
      an unknown tag yields `None` and no change. An instructor needs an
      `expertise` entry in `extra`, which is read only once the id is known to
      be fresh. */
  function RegisterUser(p: Platform, tag: string, id: UserId, username: string, password: string,
                        email: string, extra: Option<map<string, string>>): (r: Reply<User, Platform>)
    requires id !in p.users && tag == "instructor" ==> extra.Some? && "expertise" in extra.value
    ensures r.made.Some? <==> id !in p.users && KnownTag(tag)
    ensures r.made.None? ==> r.next == p
    ensures r.made.Some? ==> r.next.users.Keys == p.users.Keys + {id} && r.next.users[id] == r.made.value
    ensures forall k :: k in p.users ==> k in r.next.users && r.next.users[k] == p.users[k]
    ensures r.made.Some? ==> var u := r.made.value;
      && u.id == id && u.username == username && u.password == password && u.email == email
      && RoleName(u.role) == tag && Held(u.role) == []
    ensures r.made.Some? && tag == "instructor" ==> r.made.value.role.expertise == extra.value["expertise"]
    ensures r.made.Some? && tag == "student" ==>
              r.made.value.role.completed == map[] && r.made.value.role.certificates == []
    ensures r.next.courses == p.courses && r.next.store == p.store && r.next.constructed == p.constructed
  {
    if id in p.users then Reply(None, p)
    else if !KnownTag(tag) then Reply(None, p)
    else
      var u := User(id, username, password, email, FreshRole(tag, extra));
      Reply(Some(u), p.(users := p.users[id := u]))
  }

  /** Creates a course owned by the registered user `owner`. A duplicate course
      id or an owner who is not an instructor yields `None` and no change.
      Otherwise a new course object is registered under its id and appended
      to the owner's created courses. */
  function CreateCourse(p: Platform, cid: CourseId, title: string, description: string, owner: UserId)
    : (r: Reply<CourseRef, Platform>)
    requires owner in p.users
    ensures r.made.Some? <==> cid !in p.courses && p.users[owner].role.Instructor?
    ensures r.made.None? ==> r.next == p
    ensures r.made.Some? ==> var c := r.made.value;
      && c.id == cid
      && r.next.courses.Keys == p.courses.Keys + {cid} && r.next.courses[cid] == c
      && r.next.store.Keys == p.store.Keys + {c}
      && r.next.store[c] == NewCourse(title, description, p.users[owner].id)
      && r.next.users.Keys == p.users.Keys
      && r.next.users[owner].role.Instructor?
      && r.next.users[owner].role.created == p.users[owner].role.created + [c]
      && r.next.users[owner].role.expertise == p.users[owner].role.expertise
      && SameAccount(r.next.users[owner], p.users[owner])
    ensures Valid(p) && r.made.Some? ==> r.made.value !in p.store
    ensures forall k :: k in p.courses ==> k in r.next.courses && r.next.courses[k] == p.courses[k]
    ensures Valid(p) ==> forall d :: d in p.store ==> d in r.next.store && r.next.store[d] == p.store[d]
    ensures forall k :: k in p.users && k != owner ==> r.next.users[k] == p.users[k]
  {
    if cid in p.courses then Reply(None, p)
    else if !p.users[owner].role.Instructor? then Reply(None, p)
    else
      var inst := p.users[owner];
      var c := CourseRef(p.constructed, cid);
      var inst' := inst.(role := inst.role.(created := inst.role.created + [c]));
      Reply(Some(c), Platform(p.users[owner := inst'], p.courses[cid := c],
                              p.store[c := NewCourse(title, description, inst.id)], p.constructed + 1))
  }

  /** Course creation preserves well-formedness: the new course object has a
      fresh identity, is owned by its creator, and appears once in the
      creator's list. */
  lemma CreateCourseKeepsValid(p: Platform, cid: CourseId, title: string, description: string, owner: UserId)
    requires Valid(p) && owner in p.users
    ensures Valid(CreateCourse(p, cid, title, description, owner).next)
  {
    if cid !in p.courses && p.users[owner].role.Instructor? {
      AddCourseKeepsValid(p, owner, CourseRef(p.constructed, cid), NewCourse(title, description, owner));
    }
  }

  /** Registering a fresh course object owned by instructor `owner` and
      appending it to the owner's created courses keeps the platform
      well-formed. */
  lemma AddCourseKeepsValid(p: Platform, owner: UserId, c: CourseRef, course: Course)
    requires Valid(p) && owner in p.users && p.users[owner].role.Instructor?
    requires c.serial == p.constructed && course.instructorId == owner
    ensures var inst := p.users[owner];
      Valid(Platform(p.users[owner := inst.(role := inst.role.(created := inst.role.created + [c]))],
                     p.courses[c.id := c], p.store[c := course], p.constructed + 1))
  {
    var inst := p.users[owner];
    var q := Platform(p.users[owner := inst.(role := inst.role.(created := inst.role.created + [c]))],
                      p.courses[c.id := c], p.store[c := course], p.constructed + 1);
    assert c !in p.store;
    AppendFreshKeepsNoDuplicates(inst.role.created, c);
    assert forall uid :: uid in q.users ==> NoDuplicates(Held(q.users[uid].role));
    forall uid, d | uid in q.users && d in Held(q.users[uid].role)
      ensures d in q.store
    {
      if uid != owner || d != c {
        assert d in Held(p.users[uid].role);
      }
    }
    forall uid, d | uid in q.users && q.users[uid].role.Instructor? && d in q.users[uid].role.created
      ensures d in q.store && q.store[d].instructorId == uid
    {
      if d != c {
        assert d in Held(p.users[uid].role);
      }
    }
  }

  /** The delete branch of the administrator's course management: removes the
      registry entry under the course object's id, if there is one. Nothing
      that refers to the course is touched: enrolments, created-course lists
      and the course object itself stay as they were. */
  function DeleteCourse(p: Platform, c: CourseRef): (r: Platform)
    ensures r.courses.Keys == p.courses.Keys - {c.id}
    ensures forall k :: k in r.courses ==> r.courses[k] == p.courses[k]
    ensures r.users == p.users && r.store == p.store && r.constructed == p.constructed
    ensures Valid(p) ==> Valid(r)
  {
    if c.id in p.courses then p.(courses := p.courses - {c.id}) else p
  }

  // ---------------------------------------------------------------------------
  // Role operations applied to a registered user
  // ---------------------------------------------------------------------------

  /** Storing `u` under `uid` keeps the platform well-formed when `u` has that
      id, refers only to existing course objects, holds each at most once,
      and, as an instructor, only courses it owns. */
  lemma PutUserKeepsValid(p: Platform, uid: UserId, u: User)
    requires Valid(p) && u.id == uid
    requires forall r :: r in Held(u.role) ==> r in p.store
    requires NoDuplicates(Held(u.role))
    requires u.role.Instructor? ==> forall r :: r in u.role.created ==> p.store[r].instructorId == uid
    ensures Valid(p.(users := p.users[uid := u]))
  {
  }

  /** Profile update of registered user `uid`. */
  function UpdateProfile(p: Platform, uid: UserId, newEmail: Option<string>): (r: Outcome<Platform>)
    requires uid in p.users
    ensures OnlyUserChanged(p, r.next, uid)
    ensures r.ok <==> Truthy(newEmail)
    ensures r.ok ==> r.next.users[uid].email == newEmail.value
    ensures !r.ok ==> r.next == p
    ensures r.next.users[uid].id == p.users[uid].id && r.next.users[uid].role == p.users[uid].role
    ensures r.next.users[uid].username == p.users[uid].username
    ensures r.next.users[uid].password == p.users[uid].password
  {
    var o := Users.UpdateProfile(p.users[uid], newEmail);
    Outcome(o.ok, p.(users := p.users[uid := o.next]))
  }

  /** Registered student `uid` enrols in course object `c`. */
  function Enroll(p: Platform, uid: UserId, c: CourseRef): (r: Outcome<Platform>)
    requires uid in p.users && p.users[uid].role.Student? && c in p.store
    ensures OnlyUserChanged(p, r.next, uid) && r.next.users[uid].role.Student?
    ensures SameAccount(r.next.users[uid], p.users[uid])
    ensures r.ok <==> c !in p.users[uid].role.enrolled
    ensures r.ok ==> r.next.users[uid].role.enrolled == p.users[uid].role.enrolled + [c]
    ensures r.next.users[uid].role.completed == p.users[uid].role.completed
    ensures r.next.users[uid].role.certificates == p.users[uid].role.certificates
    ensures !r.ok ==> r.next == p
  {
    var o := Users.Enroll(p.users[uid], c);
    Outcome(o.ok, p.(users := p.users[uid := o.next]))
  }

  /** Registered student `uid` attempts quiz `q`. */
  function AttemptQuiz(p: Platform, uid: UserId, q: Quiz): (r: Outcome<Platform>)
    requires uid in p.users && p.users[uid].role.Student?
    ensures OnlyUserChanged(p, r.next, uid) && r.next.users[uid].role.Student?
    ensures SameAccount(r.next.users[uid], p.users[uid])
    ensures r.next.users[uid].role.enrolled == p.users[uid].role.enrolled
    ensures r.ok <==> EnrolledIn(p.users[uid], q.courseId)
    ensures r.ok ==> r.next.users[uid].role.completed.Keys == p.users[uid].role.completed.Keys + {q.id}
    ensures r.ok ==> r.next.users[uid].role.completed[q.id] == |q.questions| as real * 0.8
    ensures r.next.users[uid].role.certificates == p.users[uid].role.certificates
    ensures !r.ok ==> r.next == p
    ensures forall k :: k in p.users[uid].role.completed && k != q.id ==>
              r.next.users[uid].role.completed[k] == p.users[uid].role.completed[k]
  {
    var o := Users.AttemptQuiz(p.users[uid], q);
    Outcome(o.ok, p.(users := p.users[uid := o.next]))
  }

  /** Registered student `uid` downloads certificate `cert`. */
  function DownloadCertificate(p: Platform, uid: UserId, cert: Certificate): (r: Outcome<Platform>)
    requires uid in p.users && p.users[uid].role.Student?
    ensures OnlyUserChanged(p, r.next, uid) && r.next.users[uid].role.Student?
    ensures SameAccount(r.next.users[uid], p.users[uid])
    ensures r.next.users[uid].role.enrolled == p.users[uid].role.enrolled
    ensures r.ok <==> cert.studentId == p.users[uid].id && EnrolledIn(p.users[uid], cert.courseId)
    ensures r.ok ==> r.next.users[uid].role.certificates == p.users[uid].role.certificates + [cert]
    ensures r.next.users[uid].role.completed == p.users[uid].role.completed
    ensures !r.ok ==> r.next == p
  {
    var o := Users.DownloadCertificate(p.users[uid], cert);
    Outcome(o.ok, p.(users := p.users[uid := o.next]))
  }

  /** Registered instructor `uid` uploads content to course object `c`. */
  function UploadContent(p: Platform, uid: UserId, c: CourseRef, content: Content): (r: Outcome<Platform>)
    requires uid in p.users && p.users[uid].role.Instructor? && c in p.store
    ensures OnlyCourseChanged(p, r.next, c)
    ensures r.ok <==> c in p.users[uid].role.created
    ensures r.ok ==> r.next.store[c].lectures == p.store[c].lectures + [content]
    ensures r.next.store[c].quizzes == p.store[c].quizzes && SameHeader(r.next.store[c], p.store[c])
    ensures !r.ok ==> r.next == p
  {
    var o := Users.UploadContent(p.users[uid], c, content, p.store);
    Outcome(o.ok, p.(store := o.next))
  }

  /** Registered instructor `uid` creates quiz `quizId` on course object `c`. */
  function CreateQuiz(p: Platform, uid: UserId, c: CourseRef, quizId: QuizId, data: seq<Question>)
    : (r: Reply<Quiz, Platform>)
    requires uid in p.users && p.users[uid].role.Instructor? && c in p.store
    ensures OnlyCourseChanged(p, r.next, c)
    ensures r.made.Some? <==> c in p.users[uid].role.created
    ensures r.made.Some? ==>
              r.made.value.id == quizId && r.made.value.courseId == c.id
              && |r.made.value.questions| == |data|
              && (forall i :: 0 <= i < |data| ==> r.made.value.questions[i] == data[i].question)
              && r.next.store[c].quizzes == p.store[c].quizzes + [r.made.value]
    ensures r.next.store[c].lectures == p.store[c].lectures && SameHeader(r.next.store[c], p.store[c])
    ensures r.made.None? ==> r.next == p
  {
    var o := Users.CreateQuiz(p.users[uid], c, quizId, data, p.store);
    Reply(o.made, p.(store := o.next))
  }

  // ---------------------------------------------------------------------------
  // Registry invariants
  // ---------------------------------------------------------------------------

  /** While no course has been deleted, every created course is registered
      under its id, and course ids identify course objects. */
  lemma ExactGivesLinkedAndIdentity(p: Platform)
    requires Valid(p) && Exact(p)
    ensures Linked(p) && IdsIdentify(p)
  {
  }

  /** A freshly registered user logs in with exactly the credentials given at
      registration. */
  lemma RegisteredUserCanLogin(p: Platform, tag: string, id: UserId, username: string, password: string,
                               email: string, extra: Option<map<string, string>>, name: string, secret: string)
    requires id !in p.users && KnownTag(tag)
    requires tag == "instructor" ==> extra.Some? && "expertise" in extra.value
    ensures var q := RegisterUser(p, tag, id, username, password, email, extra).next;
      id in q.users && (Login(q.users[id], name, secret) <==> name == username && secret == password)
  {
  }

  /** A second registration under an id already taken is rejected and leaves
      the first registration as it was. */
  lemma RegisterTwice(p: Platform, id: UserId, tag: string, username: string, password: string, email: string,
                      extra: Option<map<string, string>>, tag2: string, username2: string, password2: string,
                      email2: string, extra2: Option<map<string, string>>)
    requires id !in p.users && KnownTag(tag)
    requires tag == "instructor" ==> extra.Some? && "expertise" in extra.value
    ensures var first := RegisterUser(p, tag, id, username, password, email, extra);
      var second := RegisterUser(first.next, tag2, id, username2, password2, email2, extra2);
      && second.made.None?
      && second.next == first.next
      && second.next.users[id] == first.made.value
  {
  }

  /** Registration keeps the platform well-formed and keeps both registry
      invariants: the new user holds no course references. */
  lemma RegisterUserKeepsInvariants(p: Platform, tag: string, id: UserId, username: string, password: string,
                                    email: string, extra: Option<map<string, string>>)
    requires id !in p.users && tag == "instructor" ==> extra.Some? && "expertise" in extra.value
    ensures Valid(p) ==> Valid(RegisterUser(p, tag, id, username, password, email, extra).next)
    ensures Exact(p) ==> Exact(RegisterUser(p, tag, id, username, password, email, extra).next)
    ensures Linked(p) ==> Linked(RegisterUser(p, tag, id, username, password, email, extra).next)
  {
    var r := RegisterUser(p, tag, id, username, password, email, extra);
    if r.made.Some? && Valid(p) {
      PutUserKeepsValid(p, id, r.made.value);
    }
  }

  /** Creating a course keeps every course object registered. */
  lemma CreateCourseKeepsExact(p: Platform, cid: CourseId, title: string, description: string, owner: UserId)
    requires Valid(p) && Exact(p) && owner in p.users
    ensures Exact(CreateCourse(p, cid, title, description, owner).next)
  {
  }

  /** Creating a course keeps every created course registered under its id. */
  lemma CreateCourseKeepsLinked(p: Platform, cid: CourseId, title: string, description: string, owner: UserId)
    requires Valid(p) && Linked(p) && owner in p.users
    ensures Linked(CreateCourse(p, cid, title, description, owner).next)
  {
    var r := CreateCourse(p, cid, title, description, owner);
    if r.made.Some? {
      var q := r.next;
      forall uid, d | uid in q.users && q.users[uid].role.Instructor? && d in q.users[uid].role.created
        ensures d.id in q.courses && q.courses[d.id] == d
      {
        if d != r.made.value {
          assert d in p.users[uid].role.created;
        }
      }
    }
  }

  /** A change confined to one registered user, which keeps that user's id,
      role kind and course references, keeps the platform well-formed and
      keeps both registry invariants. */
  lemma UserChangeKeepsInvariants(p: Platform, q: Platform, uid: UserId)
    requires uid in p.users && OnlyUserChanged(p, q, uid) && q.users[uid].id == p.users[uid].id
    requires Held(q.users[uid].role) == Held(p.users[uid].role)
    requires q.users[uid].role.Instructor? <==> p.users[uid].role.Instructor?
    ensures Valid(p) ==> Valid(q)
    ensures Exact(p) ==> Exact(q)
    ensures Linked(p) ==> Linked(q)
  {
    assert q == p.(users := p.users[uid := q.users[uid]]);
    if Valid(p) {
      PutUserKeepsValid(p, uid, q.users[uid]);
    }
    if Linked(p) {
      forall k, d | k in q.users && q.users[k].role.Instructor? && d in q.users[k].role.created
        ensures d.id in q.courses && q.courses[d.id] == d
      {
        assert d in Held(p.users[k].role);
      }
    }
  }

  /** A change confined to one course object's lectures and quizzes keeps the
      platform well-formed and keeps both registry invariants. */
  lemma CourseChangeKeepsInvariants(p: Platform, q: Platform, c: CourseRef)
    requires c in p.store && OnlyCourseChanged(p, q, c) && SameHeader(q.store[c], p.store[c])
    ensures Valid(p) ==> Valid(q)
    ensures Exact(p) ==> Exact(q)
    ensures Linked(p) ==> Linked(q)
  {
  }

  /** A profile update keeps the invariants. */
  lemma UpdateProfileKeepsInvariants(p: Platform, uid: UserId, e: Option<string>)
    requires uid in p.users
    ensures Valid(p) ==> Valid(UpdateProfile(p, uid, e).next)
    ensures Exact(p) ==> Exact(UpdateProfile(p, uid, e).next)
    ensures Linked(p) ==> Linked(UpdateProfile(p, uid, e).next)
  {
    UserChangeKeepsInvariants(p, UpdateProfile(p, uid, e).next, uid);
  }

  /** Enrolment keeps the invariants: the enrolled course object exists and
      is not enrolled twice. */
  lemma EnrollKeepsInvariants(p: Platform, uid: UserId, c: CourseRef)
    requires uid in p.users && p.users[uid].role.Student? && c in p.store
    ensures Valid(p) ==> Valid(Enroll(p, uid, c).next)
    ensures Exact(p) ==> Exact(Enroll(p, uid, c).next)
    ensures Linked(p) ==> Linked(Enroll(p, uid, c).next)
  {
    var q := Enroll(p, uid, c).next;
    assert q == p.(users := p.users[uid := q.users[uid]]);
    if Valid(p) {
      EnrollKeepsNoDuplicates(p.users[uid], c);
      PutUserKeepsValid(p, uid, q.users[uid]);
    }
    if Linked(p) {
      forall k, d | k in q.users && q.users[k].role.Instructor? && d in q.users[k].role.created
        ensures d.id in q.courses && q.courses[d.id] == d
      {
        assert k != uid;
      }
    }
  }

  /** A quiz attempt keeps the invariants. */
  lemma AttemptQuizKeepsInvariants(p: Platform, uid: UserId, q: Quiz)
    requires uid in p.users && p.users[uid].role.Student?
    ensures Valid(p) ==> Valid(AttemptQuiz(p, uid, q).next)
    ensures Exact(p) ==> Exact(AttemptQuiz(p, uid, q).next)
    ensures Linked(p) ==> Linked(AttemptQuiz(p, uid, q).next)
  {
    UserChangeKeepsInvariants(p, AttemptQuiz(p, uid, q).next, uid);
  }

  /** A certificate download keeps the invariants. */
  lemma DownloadCertificateKeepsInvariants(p: Platform, uid: UserId, cert: Certificate)
    requires uid in p.users && p.users[uid].role.Student?
    ensures Valid(p) ==> Valid(DownloadCertificate(p, uid, cert).next)
    ensures Exact(p) ==> Exact(DownloadCertificate(p, uid, cert).next)
    ensures Linked(p) ==> Linked(DownloadCertificate(p, uid, cert).next)
  {
    UserChangeKeepsInvariants(p, DownloadCertificate(p, uid, cert).next, uid);
  }

  /** A content upload keeps the invariants. */
  lemma UploadContentKeepsInvariants(p: Platform, uid: UserId, c: CourseRef, content: Content)
    requires uid in p.users && p.users[uid].role.Instructor? && c in p.store
    ensures Valid(p) ==> Valid(UploadContent(p, uid, c, content).next)
    ensures Exact(p) ==> Exact(UploadContent(p, uid, c, content).next)
    ensures Linked(p) ==> Linked(UploadContent(p, uid, c, content).next)
  {
    CourseChangeKeepsInvariants(p, UploadContent(p, uid, c, content).next, c);
  }

  /** Quiz creation keeps the invariants. */
  lemma CreateQuizKeepsInvariants(p: Platform, uid: UserId, c: CourseRef, quizId: QuizId, data: seq<Question>)
    requires uid in p.users && p.users[uid].role.Instructor? && c in p.store
    ensures Valid(p) ==> Valid(CreateQuiz(p, uid, c, quizId, data).next)
    ensures Exact(p) ==> Exact(CreateQuiz(p, uid, c, quizId, data).next)
    ensures Linked(p) ==> Linked(CreateQuiz(p, uid, c, quizId, data).next)
  {
    CourseChangeKeepsInvariants(p, CreateQuiz(p, uid, c, quizId, data).next, c);
  }

  /** Under `IdsIdentify`, the identity test enrolment applies and the id test
      quiz and certificate eligibility apply agree. */
  lemma EnrolmentIdentityMatchesId(p: Platform, uid: UserId, c: CourseRef)
    requires Valid(p) && IdsIdentify(p)
    requires uid in p.users && p.users[uid].role.Student? && c in p.store
    ensures c in p.users[uid].role.enrolled <==> EnrolledIn(p.users[uid], c.id)
  {
  }

  /** Deleting a course an instructor created leaves that instructor holding a
      course that is no longer registered: no cascade. */
  lemma DeleteCourseUnlinks(p: Platform, uid: UserId, c: CourseRef)
    requires Valid(p) && Linked(p)
    requires uid in p.users && p.users[uid].role.Instructor? && c in p.users[uid].role.created
    ensures !Linked(DeleteCourse(p, c))
    ensures !Exact(DeleteCourse(p, c))
  {
  }

  /** After a deletion, re-creating a course under the same id makes a new
      course object that shares the id with the old one. For a student
      enrolled in the old object the two tests then disagree about the new
      one: by identity the student is not enrolled in it and can enrol
      again, while by id the student already counts as enrolled in its
      course id, so quizzes and certificates of the new course are open to
      the student before any enrolment in it. */
  lemma RecreatedCourseSplitsIdentity(p: Platform, stale: CourseRef, owner: UserId, student: UserId,
                                      title: string, description: string)
    requires Valid(p) && stale in p.store && stale.id !in p.courses
    requires owner in p.users && p.users[owner].role.Instructor?
    requires student in p.users && p.users[student].role.Student? && stale in p.users[student].role.enrolled
    ensures var r := CreateCourse(p, stale.id, title, description, owner);
      && r.made.Some? && r.made.value != stale && r.made.value.id == stale.id
      && !IdsIdentify(r.next)
      && r.made.value !in r.next.users[student].role.enrolled
      && Enroll(r.next, student, r.made.value).ok
      && EnrolledIn(r.next.users[student], r.made.value.id)
  {
    var r := CreateCourse(p, stale.id, title, description, owner);
    assert r.next.users[student] == p.users[student];
  }
}
