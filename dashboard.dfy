/** The figures of pages/Dashboard.tsx: status counts, projects per
    department, the status chart, the role-scoped project list and the
    "Pending Review" figure. */
module Dashboard {
  import opened Wrappers
  import opened Seqs
  import opened Types
  import ProjectManagement

  datatype Stats = Stats(total: nat, completed: nat, inProgress: nat, proposed: nat)
  datatype DeptCount = DeptCount(name: string, count: nat)
  datatype StatusSlice = StatusSlice(name: string, value: nat)

  /** `projects.filter(p => p.status === status).length`. */
  function CountStatus(projects: seq<Project>, status: ProjectStatus): nat
  {
    |Filter(projects, (p: Project) => p.status == status)|
  }

  /** `stats`. */
  function ComputeStats(projects: seq<Project>): Stats
  {
    Stats(|projects|, CountStatus(projects, Completed), CountStatus(projects, InProgress), CountStatus(projects, Proposed))
  }

  /** The "Pending Review" figure. */
  function PendingReview(projects: seq<Project>): nat
  {
    CountStatus(projects, Submitted)
  }

  /** Counting peels off the first project. */
  lemma CountStatusCons(projects: seq<Project>, status: ProjectStatus)
    requires projects != []
    ensures CountStatus(projects, status) ==
      (if projects[0].status == status then 1 else 0) + CountStatus(projects[1..], status)
  {
  }

  /** Each project has one status, so the completed, in-progress and
      proposed counts, together with the pending-review count, add up to at
      most the total; with no project every figure is 0. */
  lemma {:induction false} StatsSpec(projects: seq<Project>)
    ensures var s := ComputeStats(projects);
      s.total == |projects| && s.completed + s.inProgress + s.proposed + PendingReview(projects) <= s.total
    ensures projects == [] ==> ComputeStats(projects) == Stats(0, 0, 0, 0) && PendingReview(projects) == 0
    decreases |projects|
  {
    if projects != [] {
      StatsSpec(projects[1..]);
      CountStatusCons(projects, Completed);
      CountStatusCons(projects, InProgress);
      CountStatusCons(projects, Proposed);
      CountStatusCons(projects, Submitted);
    }
  }

  /** `projects.filter(p => p.department === name).length`. */
  function CountDepartment(projects: seq<Project>, name: string): nat
  {
    |Filter(projects, (p: Project) => p.department == Some(name))|
  }

  /** The projects naming a department and those naming another (or none)
      together make up the list, and the count is zero exactly when no
      project names the department. */
  lemma CountDepartmentSpec(projects: seq<Project>, name: string)
    ensures CountDepartment(projects, name) + |Filter(projects, (p: Project) => p.department != Some(name))| == |projects|
    ensures CountDepartment(projects, name) == 0 <==> forall i :: 0 <= i < |projects| ==> projects[i].department != Some(name)
  {
    var named := (p: Project) => p.department == Some(name);
    FilterPartition(projects, named, (p: Project) => p.department != Some(name));
    if CountDepartment(projects, name) != 0 {
      assert Filter(projects, named)[0] in projects;
    }
  }

  /** One entry per department, before the zero counts are dropped. */
  function AllDeptCounts(departments: seq<Department>, projects: seq<Project>): seq<DeptCount>
  {
    seq(|departments|, j requires 0 <= j < |departments| =>
      DeptCount(departments[j].name, CountDepartment(projects, departments[j].name)))
  }

  /** `deptData`. */
  function DeptData(departments: seq<Department>, projects: seq<Project>): seq<DeptCount>
  {
    Filter(AllDeptCounts(departments, projects), (d: DeptCount) => d.count > 0)
  }

  /** The chart lists, in department order, exactly the departments that
      have a project, each with the number of projects naming it. */
  lemma DeptDataSpec(departments: seq<Department>, projects: seq<Project>)
    ensures var r := DeptData(departments, projects);
      && IsSubsequence(r, AllDeptCounts(departments, projects))
      && |r| <= |departments|
      && (forall i :: 0 <= i < |r| ==> r[i].count > 0 && r[i].count == CountDepartment(projects, r[i].name))
      && (forall i :: 0 <= i < |r| ==> exists j :: 0 <= j < |departments| && departments[j].name == r[i].name)
      && (forall j :: 0 <= j < |departments| && CountDepartment(projects, departments[j].name) > 0 ==>
            DeptCount(departments[j].name, CountDepartment(projects, departments[j].name)) in r)
  {
    var all := AllDeptCounts(departments, projects);
    FilterIsSubsequence(all, (d: DeptCount) => d.count > 0);
    var r := DeptData(departments, projects);
    forall i | 0 <= i < |r|
      ensures r[i].count == CountDepartment(projects, r[i].name)
      ensures exists j :: 0 <= j < |departments| && departments[j].name == r[i].name
    {
      var j :| 0 <= j < |all| && all[j] == r[i];
      assert departments[j].name == r[i].name;
    }
    forall j | 0 <= j < |departments| && CountDepartment(projects, departments[j].name) > 0
      ensures DeptCount(departments[j].name, CountDepartment(projects, departments[j].name)) in r
    {
      assert all[j].count > 0;
    }
  }

  /** `statusData`. */
  function StatusData(stats: Stats): seq<StatusSlice>
  {
    [StatusSlice("Proposed", stats.proposed), StatusSlice("In Progress", stats.inProgress), StatusSlice("Completed", stats.completed)]
  }

  /** Three slices, Proposed, In Progress, Completed, whose values add up
      to at most the number of projects. */
  lemma StatusDataSpec(projects: seq<Project>)
    ensures var d := StatusData(ComputeStats(projects));
      && |d| == 3
      && d[0] == StatusSlice("Proposed", CountStatus(projects, Proposed))
      && d[1] == StatusSlice("In Progress", CountStatus(projects, InProgress))
      && d[2] == StatusSlice("Completed", CountStatus(projects, Completed))
      && d[0].value + d[1].value + d[2].value <= |projects|
  {
    StatsSpec(projects);
  }

  /** The dashboard's `myProjects`: a student's or supervisor's own
      projects, every project otherwise, no user included. */
  function MyProjects(user: Option<User>, projects: seq<Project>): seq<Project>
  {
    if user.Some? && user.value.role == Student then Filter(projects, (p: Project) => p.studentId == Some(user.value.id))
    else if user.Some? && user.value.role == Supervisor then Filter(projects, (p: Project) => p.supervisorId == Some(user.value.id))
    else projects
  }

  /** The dashboard and the project-management page select the same
      projects for a signed-in user, and differ only without one: the
      dashboard then shows everything, the management page nothing. */
  lemma MyProjectsAgree(user: Option<User>, projects: seq<Project>)
    ensures user.Some? ==> MyProjects(user, projects) == ProjectManagement.MyProjects(user, projects)
    ensures user.None? ==> MyProjects(user, projects) == projects && ProjectManagement.MyProjects(user, projects) == []
  {
  }
}
