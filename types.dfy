/** The records of the project/task/note data layer, the partial records
    (`Partial<Project>`, `Partial<Task>`) that update calls carry, and the
    object-spread merge `{ ...record, ...updates }` that applies them. */
module Types {
  import opened Wrappers

  /** Milliseconds since the epoch, as `Date.now()` returns them. */
  type Timestamp = int

  /** `Role | string`: the three named roles, or any other role string. */
  datatype Role = Admin | Supervisor | Student | OtherRole(name: string)

  datatype DepartmentType = Technology | SocialScience

  datatype ProjectStatus = Proposed | InProgress | Submitted | Completed | Approved | Rejected

  datatype Department = Department(id: string, name: string, kind: DepartmentType)

  datatype User = User(id: string, name: string, email: Option<string>, role: Role, department: Option<string>)

  /** A milestone; its status is one of the strings "Pending", "Submitted", "Approved". */
  datatype Milestone = Milestone(id: string, name: string, status: string, dueDate: Timestamp)

  datatype Comment = Comment(id: string, authorId: string, authorName: string, text: string, timestamp: Timestamp)

  /** A project record. The keys the source declares optional, and the
      supervisor keys that assignment may set to `undefined`, are options. */
  datatype Project = Project(
    id: string,
    title: string,
    description: string,
    supervisorName: Option<string>,
    supervisorId: Option<string>,
    status: ProjectStatus,
    progress: Option<int>,
    department: Option<string>,
    departmentType: Option<DepartmentType>,
    studentId: Option<string>,
    studentName: Option<string>,
    createdAt: Timestamp,
    updatedAt: Timestamp,
    tags: Option<seq<string>>,
    comments: Option<seq<Comment>>,
    abstractText: Option<string>,
    supervisorFeedback: Option<string>,
    aiFeedback: Option<string>,
    milestones: Option<seq<Milestone>>)

  /** A task record; its status is one of "Pending", "In Progress", "Completed". */
  datatype Task = Task(
    id: string,
    projectId: string,
    title: string,
    phase: string,
    assignedTo: string,
    assignedToId: string,
    startDate: Option<Timestamp>,
    deadline: string,
    status: string,
    endDate: Option<Timestamp>)

  datatype Note = Note(id: string, text: string, createdAt: Timestamp)

  /** The id of each kind of record, as a function value for the id-keyed
      table operations. */
  function ProjectIdOf(p: Project): string { p.id }
  function TaskIdOf(t: Task): string { t.id }
  function NoteIdOf(n: Note): string { n.id }
  function UserIdOf(u: User): string { u.id }

  /** `Partial<Project>`: `None` for a key the object does not carry. For an
      optional key, `Some(None)` is the key carried with value `undefined`. */
  datatype ProjectPatch = ProjectPatch(
    id: Option<string>,
    title: Option<string>,
    description: Option<string>,
    supervisorName: Option<Option<string>>,
    supervisorId: Option<Option<string>>,
    status: Option<ProjectStatus>,
    progress: Option<Option<int>>,
    department: Option<Option<string>>,
    departmentType: Option<Option<DepartmentType>>,
    studentId: Option<Option<string>>,
    studentName: Option<Option<string>>,
    createdAt: Option<Timestamp>,
    updatedAt: Option<Timestamp>,
    tags: Option<Option<seq<string>>>,
    comments: Option<Option<seq<Comment>>>,
    abstractText: Option<Option<string>>,
    supervisorFeedback: Option<Option<string>>,
    aiFeedback: Option<Option<string>>,
    milestones: Option<Option<seq<Milestone>>>)

  /** The empty object `{}`. */
  const NoProjectChanges := ProjectPatch(None, None, None, None, None, None, None, None, None, None,
                                         None, None, None, None, None, None, None, None, None)

  /** `Partial<Task>`, in the same encoding as `ProjectPatch`. */
  datatype TaskPatch = TaskPatch(
    id: Option<string>,
    projectId: Option<string>,
    title: Option<string>,
    phase: Option<string>,
    assignedTo: Option<string>,
    assignedToId: Option<string>,
    startDate: Option<Option<Timestamp>>,
    deadline: Option<string>,
    status: Option<string>,
    endDate: Option<Option<Timestamp>>)

  const NoTaskChanges := TaskPatch(None, None, None, None, None, None, None, None, None, None)

  /** `{ ...p, ...u }`. */
  function MergeProject(p: Project, u: ProjectPatch): Project
  {
    Project(
      GetOr(u.id, p.id), GetOr(u.title, p.title), GetOr(u.description, p.description),
      GetOr(u.supervisorName, p.supervisorName), GetOr(u.supervisorId, p.supervisorId),
      GetOr(u.status, p.status), GetOr(u.progress, p.progress),
      GetOr(u.department, p.department), GetOr(u.departmentType, p.departmentType),
      GetOr(u.studentId, p.studentId), GetOr(u.studentName, p.studentName),
      GetOr(u.createdAt, p.createdAt), GetOr(u.updatedAt, p.updatedAt),
      GetOr(u.tags, p.tags), GetOr(u.comments, p.comments),
      GetOr(u.abstractText, p.abstractText), GetOr(u.supervisorFeedback, p.supervisorFeedback),
      GetOr(u.aiFeedback, p.aiFeedback), GetOr(u.milestones, p.milestones))
  }

  /** `{ ...t, ...u }`. */
  function MergeTask(t: Task, u: TaskPatch): Task
  {
    Task(
      GetOr(u.id, t.id), GetOr(u.projectId, t.projectId), GetOr(u.title, t.title),
      GetOr(u.phase, t.phase), GetOr(u.assignedTo, t.assignedTo), GetOr(u.assignedToId, t.assignedToId),
      GetOr(u.startDate, t.startDate), GetOr(u.deadline, t.deadline), GetOr(u.status, t.status),
      GetOr(u.endDate, t.endDate))
  }

  /** `{ ...u1, ...u2 }`: the keys of `u2` win over those of `u1`. */
  function ThenProject(u1: ProjectPatch, u2: ProjectPatch): ProjectPatch
  {
    ProjectPatch(
      Later(u1.id, u2.id), Later(u1.title, u2.title), Later(u1.description, u2.description),
      Later(u1.supervisorName, u2.supervisorName), Later(u1.supervisorId, u2.supervisorId),
      Later(u1.status, u2.status), Later(u1.progress, u2.progress),
      Later(u1.department, u2.department), Later(u1.departmentType, u2.departmentType),
      Later(u1.studentId, u2.studentId), Later(u1.studentName, u2.studentName),
      Later(u1.createdAt, u2.createdAt), Later(u1.updatedAt, u2.updatedAt),
      Later(u1.tags, u2.tags), Later(u1.comments, u2.comments),
      Later(u1.abstractText, u2.abstractText), Later(u1.supervisorFeedback, u2.supervisorFeedback),
      Later(u1.aiFeedback, u2.aiFeedback), Later(u1.milestones, u2.milestones))
  }

  function Later<T>(first: Option<T>, second: Option<T>): Option<T>
  {
    if second.Some? then second else first
  }

  // A key-by-key view of project records and patches. Object spread is
  // defined key by key: a key the patch carries takes the patch's value,
  // every other key keeps the record's value. The lemmas below state
  // MergeProject in exactly those terms.

  datatype ProjectKey =
    | IdKey | TitleKey | DescriptionKey | SupervisorNameKey | SupervisorIdKey | StatusKey | ProgressKey
    | DepartmentKey | DepartmentTypeKey | StudentIdKey | StudentNameKey | CreatedAtKey | UpdatedAtKey
    | TagsKey | CommentsKey | AbstractKey | SupervisorFeedbackKey | AiFeedbackKey | MilestonesKey

  /** The value stored under a key, whatever its type. */
  datatype Value =
    | PlainText(text: string)
    | MaybeText(maybeText: Option<string>)
    | StatusValue(status: ProjectStatus)
    | MaybeNumber(maybeNumber: Option<int>)
    | MaybeKind(maybeKind: Option<DepartmentType>)
    | Time(time: Timestamp)
    | MaybeTags(maybeTags: Option<seq<string>>)
    | MaybeComments(maybeComments: Option<seq<Comment>>)
    | MaybeMilestones(maybeMilestones: Option<seq<Milestone>>)

  function Get(p: Project, k: ProjectKey): Value
  {
    match k
    case IdKey => PlainText(p.id)
    case TitleKey => PlainText(p.title)
    case DescriptionKey => PlainText(p.description)
    case SupervisorNameKey => MaybeText(p.supervisorName)
    case SupervisorIdKey => MaybeText(p.supervisorId)
    case StatusKey => StatusValue(p.status)
    case ProgressKey => MaybeNumber(p.progress)
    case DepartmentKey => MaybeText(p.department)
    case DepartmentTypeKey => MaybeKind(p.departmentType)
    case StudentIdKey => MaybeText(p.studentId)
    case StudentNameKey => MaybeText(p.studentName)
    case CreatedAtKey => Time(p.createdAt)
    case UpdatedAtKey => Time(p.updatedAt)
    case TagsKey => MaybeTags(p.tags)
    case CommentsKey => MaybeComments(p.comments)
    case AbstractKey => MaybeText(p.abstractText)
    case SupervisorFeedbackKey => MaybeText(p.supervisorFeedback)
    case AiFeedbackKey => MaybeText(p.aiFeedback)
    case MilestonesKey => MaybeMilestones(p.milestones)
  }

  function Wrap<T, V>(o: Option<T>, f: T -> V): Option<V>
  {
    match o
    case None => None
    case Some(v) => Some(f(v))
  }

  /** The value a patch carries under a key, `None` when it omits the key. */
  function PatchGet(u: ProjectPatch, k: ProjectKey): Option<Value>
  {
    match k
    case IdKey => Wrap(u.id, s => PlainText(s))
    case TitleKey => Wrap(u.title, s => PlainText(s))
    case DescriptionKey => Wrap(u.description, s => PlainText(s))
    case SupervisorNameKey => Wrap(u.supervisorName, o => MaybeText(o))
    case SupervisorIdKey => Wrap(u.supervisorId, o => MaybeText(o))
    case StatusKey => Wrap(u.status, s => StatusValue(s))
    case ProgressKey => Wrap(u.progress, o => MaybeNumber(o))
    case DepartmentKey => Wrap(u.department, o => MaybeText(o))
    case DepartmentTypeKey => Wrap(u.departmentType, o => MaybeKind(o))
    case StudentIdKey => Wrap(u.studentId, o => MaybeText(o))
    case StudentNameKey => Wrap(u.studentName, o => MaybeText(o))
    case CreatedAtKey => Wrap(u.createdAt, t => Time(t))
    case UpdatedAtKey => Wrap(u.updatedAt, t => Time(t))
    case TagsKey => Wrap(u.tags, o => MaybeTags(o))
    case CommentsKey => Wrap(u.comments, o => MaybeComments(o))
    case AbstractKey => Wrap(u.abstractText, o => MaybeText(o))
    case SupervisorFeedbackKey => Wrap(u.supervisorFeedback, o => MaybeText(o))
    case AiFeedbackKey => Wrap(u.aiFeedback, o => MaybeText(o))
    case MilestonesKey => Wrap(u.milestones, o => MaybeMilestones(o))
  }

  /** Two records that agree on every key are the same record, so the
      key-by-key view below determines a merge completely. */
  lemma KeysDetermineProject(p: Project, q: Project)
    requires forall k :: Get(p, k) == Get(q, k)
    ensures p == q
  {
    assert Get(p, IdKey) == Get(q, IdKey);
    assert Get(p, TitleKey) == Get(q, TitleKey);
    assert Get(p, DescriptionKey) == Get(q, DescriptionKey);
    assert Get(p, SupervisorNameKey) == Get(q, SupervisorNameKey);
    assert Get(p, SupervisorIdKey) == Get(q, SupervisorIdKey);
    assert Get(p, StatusKey) == Get(q, StatusKey);
    assert Get(p, ProgressKey) == Get(q, ProgressKey);
    assert Get(p, DepartmentKey) == Get(q, DepartmentKey);
    assert Get(p, DepartmentTypeKey) == Get(q, DepartmentTypeKey);
    assert Get(p, StudentIdKey) == Get(q, StudentIdKey);
    assert Get(p, StudentNameKey) == Get(q, StudentNameKey);
    assert Get(p, CreatedAtKey) == Get(q, CreatedAtKey);
    assert Get(p, UpdatedAtKey) == Get(q, UpdatedAtKey);
    assert Get(p, TagsKey) == Get(q, TagsKey);
    assert Get(p, CommentsKey) == Get(q, CommentsKey);
    assert Get(p, AbstractKey) == Get(q, AbstractKey);
    assert Get(p, SupervisorFeedbackKey) == Get(q, SupervisorFeedbackKey);
    assert Get(p, AiFeedbackKey) == Get(q, AiFeedbackKey);
    assert Get(p, MilestonesKey) == Get(q, MilestonesKey);
  }

  /** Spread semantics: a key the patch carries takes the patch's value, and
      every key the patch omits keeps the record's value. */
  lemma MergeIsKeywiseSpread(p: Project, u: ProjectPatch, k: ProjectKey)
    ensures Get(MergeProject(p, u), k) == GetOr(PatchGet(u, k), Get(p, k))
  {
  }

  /** Merging the empty object changes nothing. */
  lemma MergeNoChanges(p: Project)
    ensures MergeProject(p, NoProjectChanges) == p
  {
  }

  /** Two successive partial updates equal one update with both patches
      spread together: a later update does not undo an earlier one on keys
      it does not carry. */
  lemma MergeSequential(p: Project, u1: ProjectPatch, u2: ProjectPatch)
    ensures MergeProject(MergeProject(p, u1), u2) == MergeProject(p, ThenProject(u1, u2))
  {
  }

  /** Applying the same patch twice is applying it once. */
  lemma MergeIdempotent(p: Project, u: ProjectPatch)
    ensures MergeProject(MergeProject(p, u), u) == MergeProject(p, u)
  {
  }

  /** The task counterparts of the project facts. */
  lemma MergeTaskNoChanges(t: Task)
    ensures MergeTask(t, NoTaskChanges) == t
  {
  }

  /** Spread semantics for tasks: every key the patch carries overrides,
      every key it omits keeps the task's value. */
  lemma MergeTaskIsKeywiseSpread(t: Task, u: TaskPatch)
    ensures var r := MergeTask(t, u);
      && (u.id.Some? ==> r.id == u.id.value) && (u.id.None? ==> r.id == t.id)
      && (u.projectId.Some? ==> r.projectId == u.projectId.value) && (u.projectId.None? ==> r.projectId == t.projectId)
      && (u.title.Some? ==> r.title == u.title.value) && (u.title.None? ==> r.title == t.title)
      && (u.phase.Some? ==> r.phase == u.phase.value) && (u.phase.None? ==> r.phase == t.phase)
      && (u.assignedTo.Some? ==> r.assignedTo == u.assignedTo.value) && (u.assignedTo.None? ==> r.assignedTo == t.assignedTo)
      && (u.assignedToId.Some? ==> r.assignedToId == u.assignedToId.value)
      && (u.assignedToId.None? ==> r.assignedToId == t.assignedToId)
      && (u.startDate.Some? ==> r.startDate == u.startDate.value) && (u.startDate.None? ==> r.startDate == t.startDate)
      && (u.deadline.Some? ==> r.deadline == u.deadline.value) && (u.deadline.None? ==> r.deadline == t.deadline)
      && (u.status.Some? ==> r.status == u.status.value) && (u.status.None? ==> r.status == t.status)
      && (u.endDate.Some? ==> r.endDate == u.endDate.value) && (u.endDate.None? ==> r.endDate == t.endDate)
  {
  }

  lemma MergeTaskIdempotent(t: Task, u: TaskPatch)
    ensures MergeTask(MergeTask(t, u), u) == MergeTask(t, u)
  {
  }
}
