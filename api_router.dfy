/** The mock HTTP router of api/apiCall.ts: a chain of route tests that
    answers each request with a status code and a fixed or credential-
    dependent body, mimicking an axios response. */
module ApiRouter {
  import opened Wrappers
  import opened Types

  /** The fields the login route reads from `params`; a missing key is `None`. */
  datatype LoginParams = LoginParams(userID: Option<string>, password: Option<string>, loginAs: Option<string>)

  datatype Notice = Notice(id: string, headline: string, description: string,
                           receiverEntity: string, receiverName: string, createdAt: Timestamp)
  datatype ClassEntity = ClassEntity(id: string, name: string, totalStudents: int, totalProjects: int,
                                     assignedSupervisors: int, program: string, session: string)
  datatype Teacher = Teacher(id: string, name: string, empId: string, designation: string,
                             projectsLimit: int, assignedProjectsCount: int)
  datatype Member = Member(id: string, name: string)
  datatype ClassProject = ClassProject(id: string, title: string, memberNames: seq<Member>, supervisorName: string,
                                       supervisorId: string, className: string, status: string, description: string)
  datatype TodoItem = TodoItem(id: string, title: string, phase: string, deadline: Timestamp, status: string)

  datatype Body =
    | LoginOk(token: string, user_id: string, userName: string, message: string)
    | Message(message: string)
    | AdminDashboard(classes: int, projects: int, supervisors: int, students: int,
                     notices: seq<Notice>, notifications: seq<Notice>)
    | ClassList(classList: seq<ClassEntity>)
    | TeacherList(teachers: seq<Teacher>)
    | ProjectList(projectList: seq<ClassProject>)
    | StudentDashboard(myTodoList: seq<TodoItem>, notices: seq<Notice>)
    | TeacherDashboard(classesExamination: int, classesSupervision: int, projectsSupervision: int,
                       projectsExamination: int, projectsSupervisionLimit: int,
                       notices: seq<Notice>, notifications: seq<Notice>)

  datatype Response = Response(status: int, response: Body)

  /** `MOCK_NOTICES`, stamped with the clock reading at which the module loads. */
  function MockNotices(loadTime: Timestamp): seq<Notice>
  {
    [ Notice("n1", "Proposal Submission Deadline", "Please submit your proposals by next Friday.", "class", "BSCS-2024", loadTime),
      Notice("n2", "Defense Schedule", "Final defense will start from June 15th.", "class", "BSIT-2024", loadTime) ]
  }

  function MockClasses(): seq<ClassEntity>
  {
    [ ClassEntity("c1", "BSCS-Morning-2024", 45, 12, 5, "BSCS", "2024"),
      ClassEntity("c2", "BSIT-Evening-2024", 30, 8, 3, "BSIT", "2024") ]
  }

  function MockTeachers(): seq<Teacher>
  {
    [ Teacher("t1", "Dr. Solomon", "EMP001", "Professor", 10, 5),
      Teacher("t2", "Prof. Azeb", "EMP002", "Lecturer", 8, 8) ]
  }

  function MockProjects(): seq<ClassProject>
  {
    [ ClassProject("p1", "Library Management System", [Member("s1", "Daniel"), Member("s2", "Jamshaid")],
                   "Dr. Solomon", "t1", "BSCS-Morning-2024", "In Progress", "A system to manage library resources."),
      ClassProject("p2", "AI Traffic Control", [Member("s3", "Fatima")],
                   "Prof. Azeb", "t2", "BSIT-Evening-2024", "Proposed", "Using computer vision for traffic lights.") ]
  }

  /** JavaScript truthiness of an optional string: present and non-empty. */
  predicate Truthy(s: Option<string>)
  {
    s.Some? && s.value != ""
  }

  predicate IsAdminLogin(p: LoginParams)
  {
    p.userID == Some("admin") && p.password == Some("admin") && p.loginAs == Some("Admin")
  }

  /** The login branch, tried in source order. */
  function Login(p: LoginParams): Response
  {
    if IsAdminLogin(p) then
      Response(200, LoginOk("mock-admin-token", "admin-1", "Admin User", "Welcome Admin"))
    else if p.loginAs == Some("Student") && Truthy(p.userID) then
      Response(200, LoginOk("mock-student-token", "s1", "Daniel Arega", "Student logged in successfully"))
    else if p.loginAs == Some("Teacher") && Truthy(p.userID) then
      Response(200, LoginOk("mock-teacher-token", "t1", "Dr. Solomon", "Teacher logged in successfully"))
    else
      Response(401, Message("Invalid Credentials"))
  }

  const RouteNotFound: string := "Route not found in mock API"

  /** The routes the router answers. */
  predicate IsMockedRoute(route: string)
  {
    route in {"login", "admin/dashboard", "admin/classes", "admin/teachers", "admin/projects",
              "student/dashboard", "teacher/dashboard"}
  }

  /** `ApiCall({ route, params })`; `loadTime` is when the module was loaded
      (the notices' stamp), `now` when the call runs (the todo deadlines). */
  function ApiCall(route: string, params: LoginParams, loadTime: Timestamp, now: Timestamp): Response
  {
    if route == "login" then Login(params)
    else if route == "admin/dashboard" then
      Response(200, AdminDashboard(|MockClasses()|, |MockProjects()|, |MockTeachers()|, 350, MockNotices(loadTime), []))
    else if route == "admin/classes" then Response(200, ClassList(MockClasses()))
    else if route == "admin/teachers" then Response(200, TeacherList(MockTeachers()))
    else if route == "admin/projects" then Response(200, ProjectList(MockProjects()))
    else if route == "student/dashboard" then
      Response(200, StudentDashboard(
        [ TodoItem("todo1", "Submit Proposal", "Planning", now, "Pending"),
          TodoItem("todo2", "Literature Review", "Documentation", now, "In Progress") ],
        MockNotices(loadTime)))
    else if route == "teacher/dashboard" then
      Response(200, TeacherDashboard(2, 1, 5, 8, 10, MockNotices(loadTime), []))
    else Response(404, Message(RouteNotFound))
  }

  /** The login route succeeds for the exact administrator credentials, and
      for a student or teacher login with any non-empty user id whatever
      the password; everything else, an administrator with a wrong password
      or an empty user id included, is refused with 401. */
  lemma LoginSpec(p: LoginParams, loadTime: Timestamp, now: Timestamp)
    ensures var r := ApiCall("login", p, loadTime, now);
      && (r.status == 200 <==> IsAdminLogin(p) || (Truthy(p.userID) && p.loginAs in {Some("Student"), Some("Teacher")}))
      && (r.status == 200 ==> r.response.LoginOk?)
      && (r.status != 200 ==> r == Response(401, Message("Invalid Credentials")))
      && (r.response.LoginOk? && r.response.user_id == "admin-1" <==> IsAdminLogin(p))
      && (r.response.LoginOk? && r.response.user_id == "s1" <==> p.loginAs == Some("Student") && Truthy(p.userID))
      && (r.response.LoginOk? && r.response.user_id == "t1" <==> p.loginAs == Some("Teacher") && Truthy(p.userID))
  {
  }

  /** The administrator dashboard counts the mock arrays: two classes, two
      projects, two supervisors. */
  lemma AdminDashboardSpec(p: LoginParams, loadTime: Timestamp, now: Timestamp)
    ensures var r := ApiCall("admin/dashboard", p, loadTime, now);
      && r.status == 200 && r.response.AdminDashboard?
      && r.response.classes == |MockClasses()| == 2
      && r.response.projects == |MockProjects()| == 2
      && r.response.supervisors == |MockTeachers()| == 2
      && r.response.notices == MockNotices(loadTime)
  {
  }

  /** An unmocked route gets 404 with the not-found message; every mocked
      route other than login answers 200, whatever the parameters. */
  lemma RouteStatusSpec(route: string, p: LoginParams, loadTime: Timestamp, now: Timestamp)
    ensures !IsMockedRoute(route) <==> ApiCall(route, p, loadTime, now) == Response(404, Message(RouteNotFound))
    ensures IsMockedRoute(route) && route != "login" ==> ApiCall(route, p, loadTime, now).status == 200
    ensures ApiCall(route, p, loadTime, now).status in {200, 401, 404}
  {
  }
}
