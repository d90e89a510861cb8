/** The client-side cache of context/DataContext.tsx: three lists mirroring
    the backend tables, a loading flag and an error message, and the
    handlers that update the cache (optimistically for updates and
    deletions) and call the backend. */
module DataContext {
  import opened Wrappers
  import opened Seqs
  import opened Types
  import opened Tables
  import opened Service

  const ConnectionFailed: string := "Failed to connect to the server. Please try again."
  const SaveFailed: string := "Failed to save changes."

  /** `{ ...p, ...updates }` applied to every cached project with the id. */
  function PatchProjects(s: seq<Project>, id: string, updates: ProjectPatch): seq<Project>
  {
    MapWhereId(s, ProjectIdOf, id, (p: Project) => MergeProject(p, updates))
  }

  /** `{ ...t, ...updates }` applied to every cached task with the id. */
  function PatchTasks(s: seq<Task>, id: string, updates: TaskPatch): seq<Task>
  {
    MapWhereId(s, TaskIdOf, id, (t: Task) => MergeTask(t, updates))
  }

  /** The optimistic project update and the backend's update agree on every
      record and every key except the `updatedAt` stamp the backend adds;
      when the id is unknown the cache is left alone, matching the
      backend's "Project not found". */
  lemma OptimisticProjectUpdateAgrees(db: seq<Project>, id: string, updates: ProjectPatch, now: Timestamp)
    requires UniqueIds(db, ProjectIdOf)
    ensures IndexOfId(db, ProjectIdOf, id).None? ==> PatchProjects(db, id, updates) == db
    ensures IndexOfId(db, ProjectIdOf, id).Some? ==>
      var i := IndexOfId(db, ProjectIdOf, id).value;
      var server := db[i := UpdatedProject(db[i], updates, now)];
      var cache := PatchProjects(db, id, updates);
      && |cache| == |server|
      && (forall j :: 0 <= j < |db| && j != i ==> cache[j] == server[j])
      && cache[i].(updatedAt := now) == server[i]
  {
    var f := (p: Project) => MergeProject(p, updates);
    match IndexOfId(db, ProjectIdOf, id)
    case None =>
      MapWhereIdAbsent(db, ProjectIdOf, id, f);
    case Some(i) =>
      MapWhereIdUnique(db, ProjectIdOf, id, f);
  }

  /** Without unique ids the two part ways: a later record with the same id
      is patched in the cache but left as stored by the backend, which only
      updates the first match. */
  lemma OptimisticProjectUpdateDiverges(db: seq<Project>, id: string, updates: ProjectPatch, now: Timestamp, j: nat)
    requires IndexOfId(db, ProjectIdOf, id).Some?
    requires IndexOfId(db, ProjectIdOf, id).value < j < |db| && ProjectIdOf(db[j]) == id
    ensures var i := IndexOfId(db, ProjectIdOf, id).value;
      && PatchProjects(db, id, updates)[j] == MergeProject(db[j], updates)
      && db[i := UpdatedProject(db[i], updates, now)][j] == db[j]
  {
  }

  /** With unique ids the optimistic task update is exactly the backend's. */
  lemma OptimisticTaskUpdateAgrees(tasks: seq<Task>, id: string, updates: TaskPatch)
    requires UniqueIds(tasks, TaskIdOf)
    ensures IndexOfId(tasks, TaskIdOf, id).None? ==> PatchTasks(tasks, id, updates) == tasks
    ensures IndexOfId(tasks, TaskIdOf, id).Some? ==>
      var i := IndexOfId(tasks, TaskIdOf, id).value;
      PatchTasks(tasks, id, updates) == tasks[i := MergeTask(tasks[i], updates)]
  {
    var f := (t: Task) => MergeTask(t, updates);
    match IndexOfId(tasks, TaskIdOf, id)
    case None =>
      MapWhereIdAbsent(tasks, TaskIdOf, id, f);
    case Some(i) =>
      MapWhereIdUnique(tasks, TaskIdOf, id, f);
  }

  /** `getProjectsByDepartment`. */
  function ByDepartment(projects: seq<Project>, dept: string): seq<Project>
  {
    Filter(projects, (p: Project) => p.department == Some(dept))
  }

  /** `getProjectsByStudent`. */
  function ByStudent(projects: seq<Project>, studentId: string): seq<Project>
  {
    Filter(projects, (p: Project) => p.studentId == Some(studentId))
  }

  /** `getProjectsBySupervisor`. */
  function BySupervisor(projects: seq<Project>, supervisorId: string): seq<Project>
  {
    Filter(projects, (p: Project) => p.supervisorId == Some(supervisorId))
  }

  /** `getProjectsByDepartment` returns, in cache order, every copy of each
      project whose department is the argument and nothing else. */
  lemma ByDepartmentSpec(projects: seq<Project>, dept: string)
    ensures IsSubsequence(ByDepartment(projects, dept), projects)
    ensures forall i :: 0 <= i < |projects| ==>
      (projects[i] in ByDepartment(projects, dept) <==> projects[i].department == Some(dept))
    ensures forall p :: (multiset(ByDepartment(projects, dept))[p] ==
      if p.department == Some(dept) then multiset(projects)[p] else 0)
  {
    FilterIsSubsequence(projects, (p: Project) => p.department == Some(dept));
    FilterMultiset(projects, (p: Project) => p.department == Some(dept));
  }

  /** `getProjectsByStudent` returns, in cache order, every copy of each
      project whose student id is the argument and nothing else. */
  lemma ByStudentSpec(projects: seq<Project>, studentId: string)
    ensures IsSubsequence(ByStudent(projects, studentId), projects)
    ensures forall i :: 0 <= i < |projects| ==>
      (projects[i] in ByStudent(projects, studentId) <==> projects[i].studentId == Some(studentId))
    ensures forall p :: (multiset(ByStudent(projects, studentId))[p] ==
      if p.studentId == Some(studentId) then multiset(projects)[p] else 0)
  {
    FilterIsSubsequence(projects, (p: Project) => p.studentId == Some(studentId));
    FilterMultiset(projects, (p: Project) => p.studentId == Some(studentId));
  }

  /** `getProjectsBySupervisor` returns, in cache order, every copy of each
      project whose supervisor id is the argument and nothing else. */
  lemma BySupervisorSpec(projects: seq<Project>, supervisorId: string)
    ensures IsSubsequence(BySupervisor(projects, supervisorId), projects)
    ensures forall i :: 0 <= i < |projects| ==>
      (projects[i] in BySupervisor(projects, supervisorId) <==> projects[i].supervisorId == Some(supervisorId))
    ensures forall p :: (multiset(BySupervisor(projects, supervisorId))[p] ==
      if p.supervisorId == Some(supervisorId) then multiset(projects)[p] else 0)
  {
    FilterIsSubsequence(projects, (p: Project) => p.supervisorId == Some(supervisorId));
    FilterMultiset(projects, (p: Project) => p.supervisorId == Some(supervisorId));
  }

  class DataProvider {
    const api: MockApi
    var projects: seq<Project>
    var tasks: seq<Task>
    var notes: seq<Note>
    var isLoading: bool
    var error: Option<string>

    /** The cache holds exactly what the backend would return for each table. */
    ghost predicate Synced()
      reads this, api
    {
      && LoadProjects(api.projectBlob, api.seedTime) == Ok(projects)
      && LoadList(api.taskBlob) == Ok(tasks)
      && LoadList(api.noteBlob) == Ok(notes)
    }

    /** The provider as it is first rendered, before the mount effect runs
        `FetchAllData`. */
    constructor (api: MockApi)
      ensures this.api == api
      ensures projects == [] && tasks == [] && notes == [] && isLoading && error == None
    {
      this.api := api;
      projects := [];
      tasks := [];
      notes := [];
      isLoading := true;
      error := None;
    }

    /** `fetchAllData`: all three tables are read; the cache takes them only
        when every read succeeds, otherwise it keeps its lists and records
        the connection error. Loading ends either way. */
    method FetchAllData()
      modifies this, api
      ensures api.projectBlob == SeedProjects(old(api.projectBlob), api.seedTime)
      ensures api.taskBlob == old(api.taskBlob) && api.noteBlob == old(api.noteBlob)
      ensures !isLoading
      ensures var p := LoadProjects(old(api.projectBlob), api.seedTime);
        var t := LoadList(old(api.taskBlob));
        var n := LoadList(old(api.noteBlob));
        if p.Ok? && t.Ok? && n.Ok? then
          projects == p.value && tasks == t.value && notes == n.value && error == None
        else
          projects == old(projects) && tasks == old(tasks) && notes == old(notes) && error == Some(ConnectionFailed)
      ensures error == None ==> Synced()
    {
      isLoading := true;
      var projectsData := api.GetProjects();
      var tasksData := api.GetTasks(None);
      var notesData := api.GetNotes();
      if projectsData.Ok? && tasksData.Ok? && notesData.Ok? {
        projects := projectsData.value;
        tasks := tasksData.value;
        notes := notesData.value;
        error := None;
      } else {
        error := Some(ConnectionFailed);
      }
      isLoading := false;
    }

    /** `addProject`: the created record goes in front of the cache; a
        backend failure is passed on to the caller. */
    method AddProject(project: Project, now: nat) returns (r: Result<()>)
      modifies this, api
      ensures match LoadProjects(old(api.projectBlob), api.seedTime)
        case Err(e) => r == Err(e) && projects == old(projects) && api.projectBlob == old(api.projectBlob)
        case Ok(db) =>
          && r == Ok(())
          && projects == [CreatedProject(project, now)] + old(projects)
          && api.projectBlob == Present([CreatedProject(project, now)] + db)
      ensures tasks == old(tasks) && notes == old(notes) && isLoading == old(isLoading) && error == old(error)
      ensures api.taskBlob == old(api.taskBlob) && api.noteBlob == old(api.noteBlob)
      ensures old(Synced()) ==> Synced()
    {
      var created := api.CreateProject(project, now);
      match created
      case Err(e) =>
        r := Err(e);
      case Ok(p) =>
        projects := [p] + projects;
        r := Ok(());
    }

    /** `updateProject`: the cache is patched first; a backend failure sets
        the save error and leaves the patched cache in place. */
    method UpdateProject(id: string, updates: ProjectPatch, now: Timestamp)
      modifies this, api
      ensures projects == PatchProjects(old(projects), id, updates)
      ensures match LoadProjects(old(api.projectBlob), api.seedTime)
        case Err(_) => error == Some(SaveFailed) && api.projectBlob == old(api.projectBlob)
        case Ok(db) =>
          match IndexOfId(db, ProjectIdOf, id)
          case None =>
            error == Some(SaveFailed) && api.projectBlob == SeedProjects(old(api.projectBlob), api.seedTime)
          case Some(i) =>
            error == old(error) && api.projectBlob == Present(db[i := UpdatedProject(db[i], updates, now)])
      ensures tasks == old(tasks) && notes == old(notes) && isLoading == old(isLoading)
      ensures api.taskBlob == old(api.taskBlob) && api.noteBlob == old(api.noteBlob)
      ensures old(Synced()) && IndexOfId(old(projects), ProjectIdOf, id).None? ==> Synced() && error == Some(SaveFailed)
    {
      projects := PatchProjects(projects, id, updates);
      var saved := api.UpdateProject(id, updates, now);
      if saved.Err? {
        error := Some(SaveFailed);
      }
      if old(Synced()) && IndexOfId(old(projects), ProjectIdOf, id).None? {
        MapWhereIdAbsent(old(projects), ProjectIdOf, id, (p: Project) => MergeProject(p, updates));
      }
    }

    /** `deleteProject`: the cache drops the record first; a backend failure
        is only logged. */
    method DeleteProject(id: string)
      modifies this, api
      ensures projects == RemoveId(old(projects), ProjectIdOf, id)
      ensures match LoadProjects(old(api.projectBlob), api.seedTime)
        case Err(_) => api.projectBlob == old(api.projectBlob)
        case Ok(db) => api.projectBlob == Present(RemoveId(db, ProjectIdOf, id))
      ensures tasks == old(tasks) && notes == old(notes) && isLoading == old(isLoading) && error == old(error)
      ensures api.taskBlob == old(api.taskBlob) && api.noteBlob == old(api.noteBlob)
      ensures old(Synced()) ==> Synced()
    {
      projects := RemoveId(projects, ProjectIdOf, id);
      var _ := api.DeleteProject(id);
    }

    /** `refreshTasks`: the whole task table replaces the cached tasks; a
        failure is not caught and reaches the caller. */
    method RefreshTasks() returns (r: Result<()>)
      modifies this
      ensures match LoadList(api.taskBlob)
        case Err(e) => r == Err(e) && tasks == old(tasks)
        case Ok(all) => r == Ok(()) && tasks == all
      ensures projects == old(projects) && notes == old(notes) && isLoading == old(isLoading) && error == old(error)
      ensures Synced() <== old(Synced())
    {
      var data := api.GetTasks(None);
      match data
      case Err(e) =>
        r := Err(e);
      case Ok(all) =>
        tasks := all;
        r := Ok(());
    }

    /** `addTask`: the created task goes at the end of the cache; a failure
        is only logged. */
    method AddTask(task: Task, now: nat)
      modifies this, api
      ensures match LoadList(old(api.taskBlob))
        case Err(_) => tasks == old(tasks) && api.taskBlob == old(api.taskBlob)
        case Ok(all) =>
          tasks == old(tasks) + [CreatedTask(task, now)] && api.taskBlob == Present(all + [CreatedTask(task, now)])
      ensures projects == old(projects) && notes == old(notes) && isLoading == old(isLoading) && error == old(error)
      ensures api.projectBlob == old(api.projectBlob) && api.noteBlob == old(api.noteBlob)
      ensures old(Synced()) ==> Synced()
    {
      var created := api.CreateTask(task, now);
      if created.Ok? {
        tasks := tasks + [created.value];
      }
    }

    /** `updateTask`: the cache is patched first; a backend failure is only logged. */
    method UpdateTask(id: string, updates: TaskPatch)
      modifies this, api
      ensures tasks == PatchTasks(old(tasks), id, updates)
      ensures match LoadList(old(api.taskBlob))
        case Err(_) => api.taskBlob == old(api.taskBlob)
        case Ok(all) =>
          match IndexOfId(all, TaskIdOf, id)
          case None => api.taskBlob == old(api.taskBlob)
          case Some(i) => api.taskBlob == Present(all[i := MergeTask(all[i], updates)])
      ensures projects == old(projects) && notes == old(notes) && isLoading == old(isLoading) && error == old(error)
      ensures api.projectBlob == old(api.projectBlob) && api.noteBlob == old(api.noteBlob)
      ensures old(Synced()) && UniqueIds(old(tasks), TaskIdOf) ==> Synced()
    {
      var cached := tasks;
      ghost var wasSynced := Synced();
      tasks := PatchTasks(tasks, id, updates);
      var _ := api.UpdateTask(id, updates);
      if wasSynced && UniqueIds(cached, TaskIdOf) {
        OptimisticTaskUpdateAgrees(cached, id, updates);
        assert LoadList(old(api.taskBlob)) == Ok(cached);
      }
    }

    /** `deleteTask`: the cache drops the task first; a failure is only logged. */
    method DeleteTask(id: string)
      modifies this, api
      ensures tasks == RemoveId(old(tasks), TaskIdOf, id)
      ensures match LoadList(old(api.taskBlob))
        case Err(_) => api.taskBlob == old(api.taskBlob)
        case Ok(all) => api.taskBlob == Present(RemoveId(all, TaskIdOf, id))
      ensures projects == old(projects) && notes == old(notes) && isLoading == old(isLoading) && error == old(error)
      ensures api.projectBlob == old(api.projectBlob) && api.noteBlob == old(api.noteBlob)
      ensures old(Synced()) ==> Synced()
    {
      tasks := RemoveId(tasks, TaskIdOf, id);
      var _ := api.DeleteTask(id);
    }

    /** `addNote`: the created note goes at the end of the cache; a failure
        is only logged. */
    method AddNote(text: string, now: nat)
      modifies this, api
      ensures match LoadList(old(api.noteBlob))
        case Err(_) => notes == old(notes) && api.noteBlob == old(api.noteBlob)
        case Ok(all) =>
          notes == old(notes) + [CreatedNote(text, now)] && api.noteBlob == Present(all + [CreatedNote(text, now)])
      ensures projects == old(projects) && tasks == old(tasks) && isLoading == old(isLoading) && error == old(error)
      ensures api.projectBlob == old(api.projectBlob) && api.taskBlob == old(api.taskBlob)
      ensures old(Synced()) ==> Synced()
    {
      var created := api.CreateNote(text, now);
      if created.Ok? {
        notes := notes + [created.value];
      }
    }

    /** `deleteNote`: the cache drops the note first; a failure is only logged. */
    method DeleteNote(id: string)
      modifies this, api
      ensures notes == RemoveId(old(notes), NoteIdOf, id)
      ensures match LoadList(old(api.noteBlob))
        case Err(_) => api.noteBlob == old(api.noteBlob)
        case Ok(all) => api.noteBlob == Present(RemoveId(all, NoteIdOf, id))
      ensures projects == old(projects) && tasks == old(tasks) && isLoading == old(isLoading) && error == old(error)
      ensures api.projectBlob == old(api.projectBlob) && api.taskBlob == old(api.taskBlob)
      ensures old(Synced()) ==> Synced()
    {
      notes := RemoveId(notes, NoteIdOf, id);
      var _ := api.DeleteNote(id);
    }
  }
}
