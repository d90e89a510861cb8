/** The rules of pages/ProjectManagement.tsx: which projects and tasks the
    signed-in user sees, the to-do / completed split of those tasks, the
    task the creation form submits and the status toggle. */
module ProjectManagement {
  import opened Wrappers
  import opened Seqs
  import opened Types

  /** `myProjects`: nothing without a user, a student's or supervisor's own
      projects, every project for any other role. */
  function MyProjects(user: Option<User>, projects: seq<Project>): seq<Project>
  {
    match user
    case None => []
    case Some(u) =>
      if u.role == Student then Filter(projects, (p: Project) => p.studentId == Some(u.id))
      else if u.role == Supervisor then Filter(projects, (p: Project) => p.supervisorId == Some(u.id))
      else projects
  }

  /** `myProjects.map(p => p.id)`. */
  function ProjectIds(projects: seq<Project>): (r: seq<string>)
    ensures forall x :: x in r <==> exists j :: 0 <= j < |projects| && projects[j].id == x
  {
    var ids := seq(|projects|, i requires 0 <= i < |projects| => projects[i].id);
    assert forall j :: 0 <= j < |projects| ==> ids[j] == projects[j].id;
    ids
  }

  /** `myTasks`: a student's tasks are those assigned to them, anyone
      else's are the tasks of their projects. */
  function MyTasks(user: Option<User>, projects: seq<Project>, tasks: seq<Task>): seq<Task>
  {
    match user
    case None => []
    case Some(u) =>
      if u.role == Student then Filter(tasks, (t: Task) => t.assignedToId == u.id)
      else TasksOfProjects(tasks, MyProjects(user, projects))
  }

  /** The task belongs to one of the given projects. */
  predicate InProjects(mine: seq<Project>, t: Task)
  {
    exists j :: 0 <= j < |mine| && mine[j].id == t.projectId
  }

  /** `tasks.filter(t => myProjectIds.includes(t.projectId))`. */
  function TasksOfProjects(tasks: seq<Task>, mine: seq<Project>): seq<Task>
  {
    var ids := ProjectIds(mine);
    Filter(tasks, (t: Task) => t.projectId in ids)
  }

  /** Selecting by project keeps, in table order, every copy of each task
      whose project is among the given ones, and nothing else. */
  lemma TasksOfProjectsSpec(tasks: seq<Task>, mine: seq<Project>)
    ensures IsSubsequence(TasksOfProjects(tasks, mine), tasks)
    ensures forall t :: (multiset(TasksOfProjects(tasks, mine))[t] ==
      if InProjects(mine, t) then multiset(tasks)[t] else 0)
  {
    var ids := ProjectIds(mine);
    FilterIsSubsequence(tasks, (t: Task) => t.projectId in ids);
    FilterMultiset(tasks, (t: Task) => t.projectId in ids);
    forall t: Task
      ensures t.projectId in ids <==> InProjects(mine, t)
    {
      if t.projectId in ids {
        var j :| 0 <= j < |ids| && ids[j] == t.projectId;
        assert mine[j].id == t.projectId;
      }
    }
  }

  function TodoTasks(tasks: seq<Task>): seq<Task>
  {
    Filter(tasks, (t: Task) => t.status != "Completed")
  }

  function CompletedTasks(tasks: seq<Task>): seq<Task>
  {
    Filter(tasks, (t: Task) => t.status == "Completed")
  }

  /** The project list is the order-preserving selection the role calls for. */
  lemma MyProjectsSpec(user: Option<User>, projects: seq<Project>)
    ensures user.None? ==> MyProjects(user, projects) == []
    ensures IsSubsequence(MyProjects(user, projects), projects)
    ensures user.Some? && user.value.role == Student ==> forall i :: 0 <= i < |projects| ==>
      (projects[i] in MyProjects(user, projects) <==> projects[i].studentId == Some(user.value.id))
    ensures user.Some? && user.value.role == Supervisor ==> forall i :: 0 <= i < |projects| ==>
      (projects[i] in MyProjects(user, projects) <==> projects[i].supervisorId == Some(user.value.id))
    ensures user.Some? && user.value.role !in {Student, Supervisor} ==> MyProjects(user, projects) == projects
    ensures user.Some? && user.value.role == Student ==> forall p :: (multiset(MyProjects(user, projects))[p] ==
      if p.studentId == Some(user.value.id) then multiset(projects)[p] else 0)
    ensures user.Some? && user.value.role == Supervisor ==> forall p :: (multiset(MyProjects(user, projects))[p] ==
      if p.supervisorId == Some(user.value.id) then multiset(projects)[p] else 0)
  {
    match user
    case None =>
    case Some(u) =>
      FilterIsSubsequence(projects, (p: Project) => p.studentId == Some(u.id));
      FilterIsSubsequence(projects, (p: Project) => p.supervisorId == Some(u.id));
      FilterMultiset(projects, (p: Project) => p.studentId == Some(u.id));
      FilterMultiset(projects, (p: Project) => p.supervisorId == Some(u.id));
      if u.role !in {Student, Supervisor} {
        SubsequenceReflexive(projects);
      }
  }

  lemma {:induction false} SubsequenceReflexive<T>(s: seq<T>)
    ensures IsSubsequence(s, s)
  {
    if s != [] {
      SubsequenceReflexive(s[1..]);
    }
  }

  /** A student sees exactly the tasks assigned to them, whatever project
      they belong to; anyone else sees exactly the tasks whose project is
      one of theirs; in both cases every copy, in table order. */
  lemma MyTasksSpec(user: Option<User>, projects: seq<Project>, tasks: seq<Task>)
    ensures user.None? ==> MyTasks(user, projects, tasks) == []
    ensures IsSubsequence(MyTasks(user, projects, tasks), tasks)
    ensures user.Some? && user.value.role == Student ==> forall i :: 0 <= i < |tasks| ==>
      (tasks[i] in MyTasks(user, projects, tasks) <==> tasks[i].assignedToId == user.value.id)
    ensures user.Some? && user.value.role != Student ==> forall i :: 0 <= i < |tasks| ==>
      (tasks[i] in MyTasks(user, projects, tasks) <==> InProjects(MyProjects(user, projects), tasks[i]))
    ensures user.Some? && user.value.role == Student ==> forall t :: (multiset(MyTasks(user, projects, tasks))[t] ==
      if t.assignedToId == user.value.id then multiset(tasks)[t] else 0)
    ensures user.Some? && user.value.role != Student ==> forall t :: (multiset(MyTasks(user, projects, tasks))[t] ==
      if InProjects(MyProjects(user, projects), t) then multiset(tasks)[t] else 0)
  {
    match user
    case None =>
    case Some(u) =>
      if u.role == Student {
        FilterIsSubsequence(tasks, (t: Task) => t.assignedToId == u.id);
        FilterMultiset(tasks, (t: Task) => t.assignedToId == u.id);
      } else {
        var mine := MyProjects(user, projects);
        TasksOfProjectsSpec(tasks, mine);
        forall i | 0 <= i < |tasks|
          ensures tasks[i] in MyTasks(user, projects, tasks) <==> InProjects(mine, tasks[i])
        {
          assert tasks[i] in multiset(tasks);
        }
      }
  }

  /** The to-do and completed lists split the user's tasks: together they
      hold every task exactly as often as the list does, each keeps the
      list's order, and a task is completed exactly when its status is
      "Completed". */
  lemma TaskSplitSpec(tasks: seq<Task>)
    ensures multiset(TodoTasks(tasks)) + multiset(CompletedTasks(tasks)) == multiset(tasks)
    ensures |TodoTasks(tasks)| + |CompletedTasks(tasks)| == |tasks|
    ensures IsSubsequence(TodoTasks(tasks), tasks) && IsSubsequence(CompletedTasks(tasks), tasks)
    ensures forall i :: 0 <= i < |CompletedTasks(tasks)| ==> CompletedTasks(tasks)[i].status == "Completed"
    ensures forall i :: 0 <= i < |TodoTasks(tasks)| ==> TodoTasks(tasks)[i].status != "Completed"
    ensures forall i, j :: 0 <= i < |TodoTasks(tasks)| && 0 <= j < |CompletedTasks(tasks)| ==>
      TodoTasks(tasks)[i] != CompletedTasks(tasks)[j]
  {
    var todo := (t: Task) => t.status != "Completed";
    var done := (t: Task) => t.status == "Completed";
    FilterPartition(tasks, todo, done);
    FilterIsSubsequence(tasks, todo);
    FilterIsSubsequence(tasks, done);
  }

  /** The project a new task goes to: the selected one, else the first of
      the user's projects; `None` when that leaves an empty id. */
  function TargetProjectId(selectedProjectId: string, myProjects: seq<Project>): Option<string>
  {
    var pid := if selectedProjectId != "" then selectedProjectId
               else if |myProjects| > 0 then myProjects[0].id else "";
    if pid == "" then None else Some(pid)
  }

  /** The task `handleCreateTask` submits, or `None` when it returns early
      (no user, or no project to attach the task to). */
  function NewTask(user: Option<User>, selectedProjectId: string, myProjects: seq<Project>,
                   title: string, phase: string, deadline: string, now: Timestamp): Option<Task>
  {
    match user
    case None => None
    case Some(u) =>
      match TargetProjectId(selectedProjectId, myProjects)
      case None => None
      case Some(pid) => Some(Task("", pid, title, phase, u.name, u.id, Some(now), deadline, "Pending", None))
  }

  /** A task is submitted exactly when a user is signed in and a project id
      is found; it is pending, carries no id of its own, belongs to the
      selected project (or the first of the user's) and is assigned to the
      user. */
  lemma NewTaskSpec(user: Option<User>, selectedProjectId: string, myProjects: seq<Project>,
                    title: string, phase: string, deadline: string, now: Timestamp)
    ensures var r := NewTask(user, selectedProjectId, myProjects, title, phase, deadline, now);
      && (r.Some? <==> user.Some? && (selectedProjectId != "" || (|myProjects| > 0 && myProjects[0].id != "")))
      && (r.Some? ==>
            && r.value.id == "" && r.value.status == "Pending"
            && r.value.assignedTo == user.value.name && r.value.assignedToId == user.value.id
            && r.value.projectId == (if selectedProjectId != "" then selectedProjectId else myProjects[0].id)
            && r.value.title == title && r.value.phase == phase && r.value.deadline == deadline
            && r.value.endDate.None?)
  {
  }

  /** `toggleStatus`: a completed task goes back in progress with its end
      date cleared, any other task becomes completed with an end date. */
  function ToggleStatusPatch(task: Task, now: Timestamp): TaskPatch
  {
    var newStatus := if task.status == "Completed" then "In Progress" else "Completed";
    var endDate := if newStatus == "Completed" then Some(now) else None;
    NoTaskChanges.(status := Some(newStatus), endDate := Some(endDate))
  }

  /** Applied to the task it was built from, the toggle changes only the
      status and the end date, and moves the task between the two lists. */
  lemma ToggleStatusSpec(task: Task, now: Timestamp)
    ensures var t := MergeTask(task, ToggleStatusPatch(task, now));
      && (task.status == "Completed" ==> t.status == "In Progress" && t.endDate == None)
      && (task.status != "Completed" ==> t.status == "Completed" && t.endDate == Some(now))
      && t.(status := task.status, endDate := task.endDate) == task
      && (TodoTasks([t]) == [t] <==> CompletedTasks([task]) == [task])
  {
  }
}
