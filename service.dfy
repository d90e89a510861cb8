/** The mock backend of services/api.ts: three tables (projects, tasks,
    notes), each kept in browser storage under its own key, and the CRUD
    calls that read a table, change it and write it back. */
module Service {
  import opened Wrappers
  import opened Seqs
  import opened Text
  import opened Types
  import opened Tables
  import Constants

  /** What browser storage holds under one table's key: nothing, text that
      does not parse (the parse throws), or a parsed array. */
  datatype Stored<T> = Absent | Corrupt | Present(items: seq<T>)

  const ParseFailure: string := "Unexpected token in JSON"
  const ProjectNotFound: string := "Project not found"
  const TaskNotFound: string := "Task not found"

  /** The project table as `getDB` reads it: an absent key yields the seed
      projects, unparseable text throws. */
  function LoadProjects(blob: Stored<Project>, seedTime: Timestamp): Result<seq<Project>>
  {
    match blob
    case Absent => Ok(Constants.InitialProjects(seedTime))
    case Corrupt => Err(ParseFailure)
    case Present(s) => Ok(s)
  }

  /** What storage holds after `getDB`: the seed is written when the key was absent. */
  function SeedProjects(blob: Stored<Project>, seedTime: Timestamp): Stored<Project>
  {
    if blob.Absent? then Present(Constants.InitialProjects(seedTime)) else blob
  }

  /** The task or note table as `getTaskDB` / `getNotesDB` read it: an absent
      key yields the empty table and nothing is written. */
  function LoadList<T>(blob: Stored<T>): Result<seq<T>>
  {
    match blob
    case Absent => Ok([])
    case Corrupt => Err(ParseFailure)
    case Present(s) => Ok(s)
  }

  /** Reading a table fails exactly when its stored text does not parse;
      the project table falls back to the seed and the others to empty. */
  lemma LoadSpec(pb: Stored<Project>, tb: Stored<Task>, seedTime: Timestamp)
    ensures LoadProjects(pb, seedTime).Err? <==> pb.Corrupt?
    ensures LoadList(tb).Err? <==> tb.Corrupt?
    ensures pb.Absent? ==> LoadProjects(pb, seedTime) == Ok(Constants.InitialProjects(seedTime))
    ensures tb.Absent? ==> LoadList(tb) == Ok([])
    ensures LoadProjects(SeedProjects(pb, seedTime), seedTime) == LoadProjects(pb, seedTime)
    ensures SeedProjects(SeedProjects(pb, seedTime), seedTime) == SeedProjects(pb, seedTime)
  {
  }

  /** The milestone names for a department type: the technology template
      for TECHNOLOGY, the social-science template for any other or no type. */
  function TemplateFor(kind: Option<DepartmentType>): seq<string>
  {
    if kind == Some(Technology) then Constants.TechMilestonesTemplate()
    else Constants.SocialMilestonesTemplate()
  }

  /** The milestones `createProject` builds at clock reading `now`. */
  function CreationMilestones(kind: Option<DepartmentType>, now: nat): seq<Milestone>
  {
    var names := TemplateFor(kind);
    seq(|names|, i requires 0 <= i < |names| =>
      Milestone(MilestoneId(now, i), names[i], "Pending", now + (i + 1) * Constants.DayMs * 14))
  }

  /** `m-${Date.now()}-${i}`. */
  function MilestoneId(now: nat, i: nat): string
  {
    "m-" + NatToString(now) + "-" + NatToString(i)
  }

  lemma {:induction false} MilestoneIdInjective(now: nat, i: nat, j: nat)
    requires i != j
    ensures MilestoneId(now, i) != MilestoneId(now, j)
  {
    var prefix := "m-" + NatToString(now) + "-";
    assert MilestoneId(now, i) == prefix + NatToString(i);
    assert MilestoneId(now, j) == prefix + NatToString(j);
    if MilestoneId(now, i) == MilestoneId(now, j) {
      assert (prefix + NatToString(i))[|prefix|..] == NatToString(i);
      assert (prefix + NatToString(j))[|prefix|..] == NatToString(j);
      NatToStringInjective(i, j);
    }
  }

  /** A TECHNOLOGY project gets the eight technology milestones in template
      order, any other project the six social-science ones; all are
      pending, and no two share an id. */
  lemma CreationMilestonesSpec(kind: Option<DepartmentType>, now: nat)
    ensures var ms := CreationMilestones(kind, now);
      && (kind == Some(Technology) ==>
            |ms| == 8 && forall i :: 0 <= i < 8 ==> ms[i].name == Constants.TechMilestonesTemplate()[i])
      && (kind != Some(Technology) ==>
            |ms| == 6 && forall i :: 0 <= i < 6 ==> ms[i].name == Constants.SocialMilestonesTemplate()[i])
      && (forall i :: 0 <= i < |ms| ==> ms[i].status == "Pending")
      && (forall i, j :: 0 <= i < j < |ms| ==> ms[i].id != ms[j].id)
  {
    var ms := CreationMilestones(kind, now);
    forall i, j | 0 <= i < j < |ms| ensures ms[i].id != ms[j].id {
      MilestoneIdInjective(now, i, j);
    }
  }

  /** The record `createProject` stores and returns: the caller's record
      with fresh milestones and both timestamps set to `now`. */
  function CreatedProject(p: Project, now: nat): Project
  {
    p.(milestones := Some(CreationMilestones(p.departmentType, now)), createdAt := now, updatedAt := now)
  }

  /** `createProject` keeps the caller's id and every other key except the
      milestones and the two timestamps, which it overwrites whatever the
      caller supplied. */
  lemma CreatedProjectSpec(p: Project, now: nat)
    ensures CreatedProject(p, now).id == p.id
    ensures CreatedProject(p, now).createdAt == now && CreatedProject(p, now).updatedAt == now
    ensures CreatedProject(p, now).milestones == Some(CreationMilestones(p.departmentType, now))
    ensures CreatedProject(p, now).(milestones := p.milestones, createdAt := p.createdAt, updatedAt := p.updatedAt) == p
  {
  }

  /** The record `updateProject` stores: the stored record with the patch
      spread over it, then `updatedAt` refreshed. */
  function UpdatedProject(stored: Project, updates: ProjectPatch, now: Timestamp): Project
  {
    MergeProject(stored, updates).(updatedAt := now)
  }

  /** Every key the patch carries overrides, every key it omits is kept,
      except `updatedAt`, which is `now` even when the patch carries one. */
  lemma UpdatedProjectSpec(stored: Project, updates: ProjectPatch, now: Timestamp)
    ensures forall k :: k != UpdatedAtKey ==>
      Get(UpdatedProject(stored, updates, now), k) == GetOr(PatchGet(updates, k), Get(stored, k))
    ensures UpdatedProject(stored, updates, now).updatedAt == now
  {
    forall k | k != UpdatedAtKey
      ensures Get(UpdatedProject(stored, updates, now), k) == GetOr(PatchGet(updates, k), Get(stored, k))
    {
      MergeIsKeywiseSpread(stored, updates, k);
    }
  }

  /** The task table after `createTask`: the record appended with the
      server-built id `t-${Date.now()}` in place of any id the caller gave. */
  function CreatedTask(task: Task, now: nat): Task
  {
    task.(id := "t-" + NatToString(now))
  }

  function CreatedNote(text: string, now: nat): Note
  {
    Note("n-" + NatToString(now), text, now)
  }

  /** `getTasks(projectId)`: a truthy project id selects that project's tasks. */
  function TasksFor(tasks: seq<Task>, projectId: Option<string>): seq<Task>
  {
    if projectId.Some? && projectId.value != "" then Filter(tasks, (t: Task) => t.projectId == projectId.value)
    else tasks
  }

  /** With a non-empty project id exactly that project's tasks come back, in
      table order; without one the whole table. */
  lemma TasksForSpec(tasks: seq<Task>, projectId: Option<string>)
    ensures projectId.None? || projectId == Some("") ==> TasksFor(tasks, projectId) == tasks
    ensures projectId.Some? && projectId.value != "" ==>
      && IsSubsequence(TasksFor(tasks, projectId), tasks)
      && (forall i :: 0 <= i < |TasksFor(tasks, projectId)| ==> TasksFor(tasks, projectId)[i].projectId == projectId.value)
      && (forall i :: 0 <= i < |tasks| && tasks[i].projectId == projectId.value ==> tasks[i] in TasksFor(tasks, projectId))
      && (forall t :: (multiset(TasksFor(tasks, projectId))[t] ==
            if t.projectId == projectId.value then multiset(tasks)[t] else 0))
  {
    if projectId.Some? && projectId.value != "" {
      FilterIsSubsequence(tasks, (t: Task) => t.projectId == projectId.value);
      FilterMultiset(tasks, (t: Task) => t.projectId == projectId.value);
    }
  }

  class MockApi {
    var projectBlob: Stored<Project>
    var taskBlob: Stored<Task>
    var noteBlob: Stored<Note>
    /** The clock reading at which the seed projects were built. */
    const seedTime: nat

    constructor (projects: Stored<Project>, tasks: Stored<Task>, notes: Stored<Note>, seedTime: nat)
      ensures projectBlob == projects && taskBlob == tasks && noteBlob == notes && this.seedTime == seedTime
    {
      projectBlob := projects;
      taskBlob := tasks;
      noteBlob := notes;
      this.seedTime := seedTime;
    }

    /** `getDB`. */
    method GetDB() returns (r: Result<seq<Project>>)
      modifies this
      ensures r == LoadProjects(old(projectBlob), seedTime)
      ensures projectBlob == SeedProjects(old(projectBlob), seedTime)
      ensures taskBlob == old(taskBlob) && noteBlob == old(noteBlob)
    {
      match projectBlob
      case Absent =>
        var seed := Constants.InitialProjects(seedTime);
        projectBlob := Present(seed);
        r := Ok(seed);
      case Corrupt =>
        r := Err(ParseFailure);
      case Present(s) =>
        r := Ok(s);
    }

    method GetProjects() returns (r: Result<seq<Project>>)
      modifies this
      ensures r == LoadProjects(old(projectBlob), seedTime)
      ensures projectBlob == SeedProjects(old(projectBlob), seedTime)
      ensures taskBlob == old(taskBlob) && noteBlob == old(noteBlob)
    {
      r := GetDB();
    }

    method GetProjectById(id: string) returns (r: Result<Option<Project>>)
      modifies this
      ensures match LoadProjects(old(projectBlob), seedTime)
        case Err(e) => r == Err(e)
        case Ok(db) => r == Ok(LookupId(db, ProjectIdOf, id))
      ensures projectBlob == SeedProjects(old(projectBlob), seedTime)
      ensures taskBlob == old(taskBlob) && noteBlob == old(noteBlob)
    {
      var loaded := GetDB();
      match loaded
      case Err(e) => r := Err(e);
      case Ok(db) => r := Ok(LookupId(db, ProjectIdOf, id));
    }

    /** `createProject`: milestones from the department type, timestamps set,
        the record put in front of the table. */
    method CreateProject(project: Project, now: nat) returns (r: Result<Project>)
      modifies this
      ensures match LoadProjects(old(projectBlob), seedTime)
        case Err(e) => r == Err(e) && projectBlob == old(projectBlob)
        case Ok(db) =>
          r == Ok(CreatedProject(project, now)) && projectBlob == Present([CreatedProject(project, now)] + db)
      ensures taskBlob == old(taskBlob) && noteBlob == old(noteBlob)
    {
      var loaded := GetDB();
      match loaded
      case Err(e) =>
        r := Err(e);
      case Ok(db) =>
        var created := CreatedProject(project, now);
        projectBlob := Present([created] + db);
        r := Ok(created);
    }

    /** `updateProject`: the first record with the id is merged and given a
        fresh `updatedAt`; a missing id throws "Project not found". */
    method UpdateProject(id: string, updates: ProjectPatch, now: Timestamp) returns (r: Result<Project>)
      modifies this
      ensures match LoadProjects(old(projectBlob), seedTime)
        case Err(e) => r == Err(e) && projectBlob == old(projectBlob)
        case Ok(db) =>
          match IndexOfId(db, ProjectIdOf, id)
          case None => r == Err(ProjectNotFound) && projectBlob == SeedProjects(old(projectBlob), seedTime)
          case Some(i) =>
            r == Ok(UpdatedProject(db[i], updates, now))
            && projectBlob == Present(db[i := UpdatedProject(db[i], updates, now)])
      ensures taskBlob == old(taskBlob) && noteBlob == old(noteBlob)
    {
      var loaded := GetDB();
      match loaded
      case Err(e) =>
        r := Err(e);
      case Ok(db) =>
        var index := IndexOfId(db, ProjectIdOf, id);
        if index.None? {
          r := Err(ProjectNotFound);
        } else {
          var updated := UpdatedProject(db[index.value], updates, now);
          var table := db[index.value := updated];
          projectBlob := Present(table);
          r := Ok(updated);
        }
    }

    /** `deleteProject`: every record with the id goes; a missing id is not an error. */
    method DeleteProject(id: string) returns (r: Result<()>)
      modifies this
      ensures match LoadProjects(old(projectBlob), seedTime)
        case Err(e) => r == Err(e) && projectBlob == old(projectBlob)
        case Ok(db) => r == Ok(()) && projectBlob == Present(RemoveId(db, ProjectIdOf, id))
      ensures taskBlob == old(taskBlob) && noteBlob == old(noteBlob)
    {
      var loaded := GetDB();
      match loaded
      case Err(e) =>
        r := Err(e);
      case Ok(db) =>
        projectBlob := Present(RemoveId(db, ProjectIdOf, id));
        r := Ok(());
    }

    method GetTasks(projectId: Option<string>) returns (r: Result<seq<Task>>)
      ensures match LoadList(taskBlob)
        case Err(e) => r == Err(e)
        case Ok(tasks) => r == Ok(TasksFor(tasks, projectId))
    {
      match LoadList(taskBlob)
      case Err(e) => r := Err(e);
      case Ok(tasks) => r := Ok(TasksFor(tasks, projectId));
    }

    /** `createTask`: the record, with a server-built id, goes at the end. */
    method CreateTask(task: Task, now: nat) returns (r: Result<Task>)
      modifies this
      ensures match LoadList(old(taskBlob))
        case Err(e) => r == Err(e) && taskBlob == old(taskBlob)
        case Ok(tasks) => r == Ok(CreatedTask(task, now)) && taskBlob == Present(tasks + [CreatedTask(task, now)])
      ensures projectBlob == old(projectBlob) && noteBlob == old(noteBlob)
    {
      match LoadList(taskBlob)
      case Err(e) =>
        r := Err(e);
      case Ok(tasks) =>
        var created := CreatedTask(task, now);
        taskBlob := Present(tasks + [created]);
        r := Ok(created);
    }

    /** `updateTask`: the first record with the id is merged, with no
        timestamp; a missing id throws "Task not found" and nothing is written. */
    method UpdateTask(id: string, updates: TaskPatch) returns (r: Result<Task>)
      modifies this
      ensures match LoadList(old(taskBlob))
        case Err(e) => r == Err(e) && taskBlob == old(taskBlob)
        case Ok(tasks) =>
          match IndexOfId(tasks, TaskIdOf, id)
          case None => r == Err(TaskNotFound) && taskBlob == old(taskBlob)
          case Some(i) =>
            r == Ok(MergeTask(tasks[i], updates)) && taskBlob == Present(tasks[i := MergeTask(tasks[i], updates)])
      ensures projectBlob == old(projectBlob) && noteBlob == old(noteBlob)
    {
      match LoadList(taskBlob)
      case Err(e) =>
        r := Err(e);
      case Ok(tasks) =>
        var index := IndexOfId(tasks, TaskIdOf, id);
        if index.None? {
          r := Err(TaskNotFound);
        } else {
          var updated := MergeTask(tasks[index.value], updates);
          taskBlob := Present(tasks[index.value := updated]);
          r := Ok(updated);
        }
    }

    method DeleteTask(id: string) returns (r: Result<()>)
      modifies this
      ensures match LoadList(old(taskBlob))
        case Err(e) => r == Err(e) && taskBlob == old(taskBlob)
        case Ok(tasks) => r == Ok(()) && taskBlob == Present(RemoveId(tasks, TaskIdOf, id))
      ensures projectBlob == old(projectBlob) && noteBlob == old(noteBlob)
    {
      match LoadList(taskBlob)
      case Err(e) =>
        r := Err(e);
      case Ok(tasks) =>
        taskBlob := Present(RemoveId(tasks, TaskIdOf, id));
        r := Ok(());
    }

    method GetNotes() returns (r: Result<seq<Note>>)
      ensures r == LoadList(noteBlob)
    {
      r := LoadList(noteBlob);
    }

    /** `createNote`: a new note with id `n-${Date.now()}` goes at the end. */
    method CreateNote(text: string, now: nat) returns (r: Result<Note>)
      modifies this
      ensures match LoadList(old(noteBlob))
        case Err(e) => r == Err(e) && noteBlob == old(noteBlob)
        case Ok(notes) => r == Ok(CreatedNote(text, now)) && noteBlob == Present(notes + [CreatedNote(text, now)])
      ensures projectBlob == old(projectBlob) && taskBlob == old(taskBlob)
    {
      match LoadList(noteBlob)
      case Err(e) =>
        r := Err(e);
      case Ok(notes) =>
        var created := CreatedNote(text, now);
        noteBlob := Present(notes + [created]);
        r := Ok(created);
    }

    method DeleteNote(id: string) returns (r: Result<()>)
      modifies this
      ensures match LoadList(old(noteBlob))
        case Err(e) => r == Err(e) && noteBlob == old(noteBlob)
        case Ok(notes) => r == Ok(()) && noteBlob == Present(RemoveId(notes, NoteIdOf, id))
      ensures projectBlob == old(projectBlob) && taskBlob == old(taskBlob)
    {
      match LoadList(noteBlob)
      case Err(e) =>
        r := Err(e);
      case Ok(notes) =>
        noteBlob := Present(RemoveId(notes, NoteIdOf, id));
        r := Ok(());
    }
  }

  /** The table after a successful `updateProject`: the same length, the
      first record with the id replaced by its update, every other record
      untouched. */
  lemma UpdateProjectTableSpec(db: seq<Project>, id: string, updates: ProjectPatch, now: Timestamp)
    requires IndexOfId(db, ProjectIdOf, id).Some?
    ensures var i := IndexOfId(db, ProjectIdOf, id).value;
      var table := db[i := UpdatedProject(db[i], updates, now)];
      && |table| == |db|
      && db[i].id == id && (forall j :: 0 <= j < i ==> db[j].id != id)
      && table[i].updatedAt == now
      && (forall j :: 0 <= j < |db| && j != i ==> table[j] == db[j])
  {
  }

  /** `createProject` puts the new record at index 0 and shifts the old table
      behind it unchanged; the table grows by exactly one. */
  lemma CreateProjectTableSpec(db: seq<Project>, p: Project, now: nat)
    ensures var table := [CreatedProject(p, now)] + db;
      && |table| == |db| + 1
      && table[0] == CreatedProject(p, now)
      && table[1..] == db
  {
  }

  /** `createProject` assigns no id of its own, so the table keeps distinct
      ids exactly when it had them and the caller's id is not taken. */
  lemma CreateProjectUniqueIds(db: seq<Project>, p: Project, now: nat)
    ensures UniqueIds([CreatedProject(p, now)] + db, ProjectIdOf)
      <==> UniqueIds(db, ProjectIdOf) && forall i :: 0 <= i < |db| ==> db[i].id != p.id
  {
    var table := [CreatedProject(p, now)] + db;
    if UniqueIds(table, ProjectIdOf) {
      forall i, j | 0 <= i < j < |db| ensures ProjectIdOf(db[i]) != ProjectIdOf(db[j]) {
        assert table[i + 1] == db[i] && table[j + 1] == db[j];
      }
      forall i | 0 <= i < |db| ensures db[i].id != p.id {
        assert table[i + 1] == db[i];
        assert ProjectIdOf(table[0]) != ProjectIdOf(table[i + 1]);
      }
    }
    if UniqueIds(db, ProjectIdOf) && forall i :: 0 <= i < |db| ==> db[i].id != p.id {
      forall i, j | 0 <= i < j < |table| ensures ProjectIdOf(table[i]) != ProjectIdOf(table[j]) {
        assert table[j] == db[j - 1];
        if i > 0 {
          assert table[i] == db[i - 1];
        }
      }
    }
  }
}
