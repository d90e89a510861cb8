# Academic project tracker — data layer and page rules in Dafny

This project models the data layer of a single-page academic project
tracker. Students, supervisors and administrators follow thesis projects,
their milestones, personal tasks and notes. The model covers these parts:

- **The mock backend** (`services/api.ts`): three tables (projects, tasks,
  notes), each held in browser storage under its own key. Every mutating
  call reads a table, changes it and writes it back; the reads write
  nothing, except that reading the projects writes the seed when the
  project key is absent.
  - Project creation puts the record at the head of the table, with
    milestones taken from the department type's template.
  - Task and note creation append at the tail, with a server-built id.
  - Updates merge a partial record into the first record with the id, and
    throw when the id is missing.
  - Deletions filter out every record with the id.
  - Modelled as class `Service.MockApi`, whose fields are the three stored
    values. A stored value is absent, unparseable, or a list of records.
- **The client cache** (`context/DataContext.tsx`): class
  `DataContext.DataProvider` holds the three lists, a loading flag and an
  error message, and calls the backend.
  - Loading is all-or-nothing.
  - Updates and deletions are applied to the cache first and never rolled
    back.
  - Creations are inserted only after the backend returns.
  - The ghost predicate `Synced` states that the cache holds exactly what
    the backend would return. The methods state when they preserve it.
- **The demo sign-in** (`context/AuthContext.tsx`): class
  `AuthContext.AuthProvider`.
- **The reducer store** (`store/index.tsx`): module `AuthStore`.
- **The mock HTTP router** (`api/apiCall.ts`): module `ApiRouter`.
- **The rules the pages apply to the data**: role-scoped project and task
  lists, the to-do / completed split, the patches sent on status change,
  supervisor assignment and comment posting, the project search, and the
  dashboard figures.
  - Modules `ProjectManagement`, `ProjectDetails`, `ProjectsPage` and
    `Dashboard`.

Shared pieces:

- `Types` holds the records and partial records, plus object spread
  (`MergeProject`, `MergeTask`).
- `Constants` holds the fixed data.
- `Tables` holds the id-keyed `findIndex` / `find` / `filter` / `map`
  idioms.
- `Seqs` holds `filter`, `findIndex` and `find` on sequences.
- `Text` holds decimal rendering, `toLowerCase`, `includes` and `trim`.

Clock readings (`Date.now()`) are parameters: `now` for the call, and
`seedTime` / `loadTime` for values computed when a module loads. A
`Partial<T>` is a patch datatype with one `Option` per key. For an
optional key, `Some(None)` means the key is present with value
`undefined`.

Three behaviours of `services/api.ts` to note:

- `createProject` assigns no id. It keeps the caller's id, so ids stay
  unique only when the caller's id is new (`Service.CreateProjectUniqueIds`).
- The storage keys are `uni_projects`, `uni_tasks` and `uni_notes`.
- Unparseable stored text is not treated as an empty table: the parse
  error propagates to the caller.

## Model

| member | source | states |
|---|---|---|
| Types.MergeIsKeywiseSpread | services/api.ts:106 | Object spread key by key: a key the patch carries takes the patch's value, every other key keeps the record's |
| Types.KeysDetermineProject | types.ts:48-75 | Two project records that agree on every key are equal, so the key-wise view is complete |
| Types.MergeNoChanges | services/api.ts:106 | Spreading the empty object changes nothing |
| Types.MergeSequential | context/DataContext.tsx:79 | Two successive patches equal one patch in which the later keys win |
| Types.MergeIdempotent | context/DataContext.tsx:79 | Applying the same patch twice equals applying it once |
| Types.MergeTaskNoChanges | services/api.ts:142 | Spreading the empty object over a task changes nothing |
| Types.MergeTaskIsKeywiseSpread | services/api.ts:142 | Spreading a patch over a task: each key the patch carries overrides, each other key keeps the task's value |
| Types.MergeTaskIdempotent | context/DataContext.tsx:113 | Applying the same task patch twice equals applying it once |
| Constants.DepartmentsShape | constants.ts:3-17 | Eleven departments with distinct ids and names: three technology, then eight social-science |
| Constants.TechMilestonesTemplate | constants.ts:19-28 | Eight entries, from "Title Submission" to "Final Submission" |
| Constants.SocialMilestonesTemplate | constants.ts:30-37 | Six entries, from "Chapter 1 - Introduction" to "References & Appendices" |
| Constants.MockUsersShape | constants.ts:39-45 | Five users with distinct ids and e-mails: one administrator, two supervisors, two students |
| Constants.SeedMilestonesAt | constants.ts:65-70 | The i-th seed milestone carries the i-th template name and the status the rule gives for i |
| Constants.SeedP1Shape | constants.ts:48-71 | Seed p1 has the 8 technology milestones in order, 0-2 approved, 3 submitted, the rest pending, progress 45 |
| Constants.SeedP2Shape | constants.ts:72-95 | Seed p2 has the 6 social-science milestones in order, 0 submitted, the rest pending, progress 10 |
| Text.NatToStringInjective | services/api.ts:130 | Different clock readings give different `t-`/`n-`/`m-` id suffixes (decimal rendering is injective, by a read-back round trip) |
| Text.ContainsLower | pages/Projects.tsx:14-15 | Lower-casing both sides keeps a substring occurrence |
| Text.TrimEmptyIffBlank | pages/ProjectDetails.tsx:94 | `trim()` yields "" exactly for strings made only of white space |
| Tables.IndexOfId | services/api.ts:103 | `findIndex` by id: the first position holding the id, `None` exactly when no record has it |
| Tables.LookupId | services/api.ts:70 | `find` by id: the record at the first position holding the id, `None` exactly when no record has it |
| Tables.RemoveIdSpec | services/api.ts:115 | Deleting by id drops every record with the id and keeps every copy of every other record, in order; an absent id leaves the table unchanged |
| Tables.LookupAfterRemove | services/api.ts:112-117 | After a deletion, looking the id up finds nothing |
| Tables.RemoveIdIdempotent | services/api.ts:112-117 | Deleting twice equals deleting once |
| Tables.MapWhereIdUnique | context/DataContext.tsx:79 | With unique ids, rewriting every record with the id equals rewriting the one at its first position |
| Tables.MapWhereIdAbsent | context/DataContext.tsx:79 | Rewriting records with an id nobody has leaves the table unchanged |
| Service.LoadSpec | services/api.ts:11-38 | Reading a table fails exactly on unparseable text; absent projects read as the seed, absent tasks or notes as empty; seeding changes nothing readable and is idempotent |
| Service.CreationMilestonesSpec | services/api.ts:78-87 | TECHNOLOGY gives the 8 technology milestones in template order, any other or no type the 6 social-science ones; all pending, with distinct ids |
| Service.MilestoneIdInjective | services/api.ts:83 | Milestones built in one creation get distinct ids |
| Service.CreatedProjectSpec | services/api.ts:89-94 | The created record keeps the caller's id and every other key except the milestones and both timestamps, which are overwritten |
| Service.UpdatedProjectSpec | services/api.ts:106 | Each key the patch carries overrides, each other key is kept, and `updatedAt` is the call's clock reading even if the patch carries one |
| Service.TasksForSpec | services/api.ts:120-125 | With a non-empty project id, every copy of each of that project's tasks and nothing else, in table order; otherwise the whole table |
| Service.UpdateProjectTableSpec | services/api.ts:103-108 | A successful update replaces only the first record with the id, refreshes its stamp, and keeps the length and every other record |
| Service.CreateProjectTableSpec | services/api.ts:95 | Creation puts the record at index 0, the old table unchanged behind it, length plus one |
| Service.CreateProjectUniqueIds | services/api.ts:89-95 | The table keeps distinct ids after a creation exactly when it had them and the caller's id was not taken |
| Service.MockApi.constructor | services/api.ts:11-38 | The backend starts from the three stored values and the seed clock reading |
| Service.MockApi.GetDB | services/api.ts:11-16 | Returns the parsed projects, or the seed when absent (writing it back), or the parse error |
| Service.MockApi.GetProjects | services/api.ts:62-66 | The project table as `GetDB` reads it |
| Service.MockApi.GetProjectById | services/api.ts:68-71 | The first project with the id, `None` when there is none; never an error for a missing id |
| Service.MockApi.CreateProject | services/api.ts:73-98 | The created record is returned and put in front of the table; a parse error leaves storage unchanged |
| Service.MockApi.UpdateProject | services/api.ts:100-110 | First match merged and stamped and saved; a missing id gives "Project not found" and no save |
| Service.MockApi.DeleteProject | services/api.ts:112-117 | Saves the table without the id's records; a missing id is not an error |
| Service.MockApi.GetTasks | services/api.ts:120-125 | The tasks of a truthy project id, or all tasks |
| Service.MockApi.CreateTask | services/api.ts:127-134 | The task with id `t-<now>` is appended and returned |
| Service.MockApi.UpdateTask | services/api.ts:136-146 | First match merged without a stamp; a missing id gives "Task not found" and no save |
| Service.MockApi.DeleteTask | services/api.ts:148-153 | Saves the table without the id's tasks |
| Service.MockApi.GetNotes | services/api.ts:156-159 | The note table |
| Service.MockApi.CreateNote | services/api.ts:161-168 | A note with id `n-<now>` is appended and returned |
| Service.MockApi.DeleteNote | services/api.ts:170-175 | Saves the table without the id's notes |
| DataContext.OptimisticProjectUpdateAgrees | context/DataContext.tsx:77-85 | With unique ids, the cache's merge agrees with the backend's update on every record and key except the stamp; an unknown id leaves the cache alone |
| DataContext.OptimisticProjectUpdateDiverges | context/DataContext.tsx:79 | With a repeated id, a later record with the id is patched in the cache but left as stored by the backend |
| DataContext.OptimisticTaskUpdateAgrees | context/DataContext.tsx:111-118 | With unique ids, the cache's task merge equals the backend's update |
| DataContext.ByDepartmentSpec | context/DataContext.tsx:148 | Every copy of each project whose department is the argument and nothing else, in cache order |
| DataContext.ByStudentSpec | context/DataContext.tsx:149 | Every copy of each project whose student id is the argument and nothing else, in cache order |
| DataContext.BySupervisorSpec | context/DataContext.tsx:150 | Every copy of each project whose supervisor id is the argument and nothing else, in cache order |
| DataContext.DataProvider.constructor | context/DataContext.tsx:36-40 | Empty lists, loading, no error |
| DataContext.DataProvider.FetchAllData | context/DataContext.tsx:42-60 | The lists are replaced only when all three reads succeed, otherwise the lists are kept and the connection error is set; loading ends; success leaves the cache synced |
| DataContext.DataProvider.AddProject | context/DataContext.tsx:67-75 | The backend's record is prepended after it returns; a failure is returned and the cache is unchanged; sync is preserved |
| DataContext.DataProvider.UpdateProject | context/DataContext.tsx:77-85 | The cache is patched first and kept; a backend failure sets "Failed to save changes." |
| DataContext.DataProvider.DeleteProject | context/DataContext.tsx:87-94 | The cache drops the id's records first; a failure is only logged; sync is preserved |
| DataContext.DataProvider.RefreshTasks | context/DataContext.tsx:97-100 | The whole task table replaces the cached tasks; a failure reaches the caller |
| DataContext.DataProvider.AddTask | context/DataContext.tsx:102-109 | The created task is appended after the backend returns; a failure leaves the cache unchanged |
| DataContext.DataProvider.UpdateTask | context/DataContext.tsx:111-118 | The cache is patched first; failures leave `error` untouched; with unique ids sync is preserved |
| DataContext.DataProvider.DeleteTask | context/DataContext.tsx:120-127 | The cache drops the id's tasks first; sync is preserved |
| DataContext.DataProvider.AddNote | context/DataContext.tsx:130-137 | The created note is appended after the backend returns |
| DataContext.DataProvider.DeleteNote | context/DataContext.tsx:139-146 | The cache drops the id's notes first; sync is preserved |
| AuthContext.FindUserByEmail | context/AuthContext.tsx:25 | A demo user with that e-mail, `None` exactly when no demo user has it |
| AuthContext.FindUserByEmailSpec | context/AuthContext.tsx:24-31 | Exactly the five demo addresses sign in; admin@uni.edu is the administrator, john@uni.edu a student |
| AuthContext.AuthProvider.constructor | context/AuthContext.tsx:15 | Nobody signed in (not authenticated), storage as found |
| AuthContext.AuthProvider.Restore | context/AuthContext.tsx:17-22 | A stored user becomes the signed-in user, who is then authenticated; unparseable stored text gives the parse error and changes nothing; storage is kept |
| AuthContext.AuthProvider.Login | context/AuthContext.tsx:24-32 | A known e-mail signs that user in (authenticated) and stores them; an unknown one changes nothing |
| AuthContext.AuthProvider.Logout | context/AuthContext.tsx:34-37 | Nobody signed in, nothing stored, not authenticated |
| AuthStore.InitialStateSpec | store/index.tsx:4-17 | Each of the five fields is read back from its storage key, a missing key reads as ""; signed in exactly when storage holds a non-empty token |
| AuthStore.ReducerSpec | store/index.tsx:22-43 | LOGIN stores the payload and sets the flag; LOGOUT from any state gives the empty-storage state and is idempotent; other actions change nothing |
| AuthStore.ReducerKeepsTokenFlag | store/index.tsx:22-43 | The flag tracks the token across every action whose login payload has a token |
| ApiRouter.LoginSpec | api/apiCall.ts:39-64 | 200 exactly for the admin credentials, or a student or teacher login with a non-empty user id (any password), each with its user id; otherwise 401 "Invalid Credentials" |
| ApiRouter.AdminDashboardSpec | api/apiCall.ts:67-79 | Counts equal the mock array lengths: 2 classes, 2 projects, 2 supervisors |
| ApiRouter.RouteStatusSpec | api/apiCall.ts:66-125 | 404 "Route not found in mock API" exactly for unmocked routes; every mocked route other than login answers 200 |
| ProjectManagement.MyProjectsSpec | pages/ProjectManagement.tsx:19-24 | Nothing without a user; every copy of each of a student's or supervisor's own projects and nothing else, in order; everything for other roles |
| ProjectManagement.TasksOfProjectsSpec | pages/ProjectManagement.tsx:31-32 | Selecting by project keeps every copy of each task whose project is among the given ones and nothing else, in order |
| ProjectManagement.MyTasksSpec | pages/ProjectManagement.tsx:27-33 | A student sees every copy of each task assigned to them and nothing else; others every copy of each task of their projects and nothing else; in order |
| ProjectManagement.TaskSplitSpec | pages/ProjectManagement.tsx:35-36 | To-do and completed lists partition the tasks (multisets add up), keep order, are disjoint, and split on "Completed" |
| ProjectManagement.NewTaskSpec | pages/ProjectManagement.tsx:38-59 | A task is submitted exactly with a user and a project id; it is pending, has no id, belongs to the selected or first project, and is assigned to the user |
| ProjectManagement.ToggleStatusSpec | pages/ProjectManagement.tsx:67-71 | Completed goes to In Progress with no end date, anything else to Completed with an end date; nothing else changes |
| ProjectDetails.SupervisorsSpec | pages/ProjectDetails.tsx:18 | The supervisors are the two supervisor accounts |
| ProjectDetails.StatusChangeSpec | pages/ProjectDetails.tsx:69-77 | The new status; progress 100 for COMPLETED, 0 for PROPOSED, otherwise untouched; nothing else changes |
| ProjectDetails.AssignSupervisorSpec | pages/ProjectDetails.tsx:79-91 | An update is issued exactly for "" and the supervisor ids; "" clears both keys, an id sets both from that supervisor |
| ProjectDetails.PostCommentSpec | pages/ProjectDetails.tsx:93-105 | Posted exactly with a user and non-blank text; the old comments with one untrimmed comment by the user appended last |
| ProjectDetails.AuthorRoleOfMockUser | pages/ProjectDetails.tsx:119-122 | A demo user's id shows that user's role |
| ProjectDetails.AuthorRoleSpec | pages/ProjectDetails.tsx:119-122 | Known ids give their role, unknown ids "USER" |
| ProjectDetails.RefineAbstractSpec | pages/ProjectDetails.tsx:54-60 | A review is requested exactly for a non-empty abstract; its result lands in `aiFeedback` only |
| ProjectsPage.FilteredProjectsSpec | pages/Projects.tsx:13-19 | A project is listed exactly when it matches the search, type and status tests, as often as it occurs; order is kept |
| ProjectsPage.UnfilteredListsAll | pages/Projects.tsx:14-17 | Empty search with both filters on ALL lists every project |
| ProjectsPage.SearchIgnoresCase | pages/Projects.tsx:14-15 | A term found in the title or student name matches whatever its case, and lower-casing the term changes nothing |
| Dashboard.StatsSpec | pages/Dashboard.tsx:15-22 | The total is the project count, and completed + in progress + proposed + pending review is at most the total |
| Dashboard.CountStatusCons | pages/Dashboard.tsx:18-20 | A status count is the first project's contribution plus the rest's |
| Dashboard.CountDepartmentSpec | pages/Dashboard.tsx:27 | The projects naming a department and the others add up to the list; the count is zero exactly when no project names the department |
| Dashboard.DeptDataSpec | pages/Dashboard.tsx:24-29 | Exactly the departments that have a project, in department order, each with its project count |
| Dashboard.StatusDataSpec | pages/Dashboard.tsx:31-37 | Three slices, Proposed, In Progress and Completed, carrying the matching counts |
| Dashboard.MyProjectsAgree | pages/Dashboard.tsx:40-48 | With a user, the same projects as the management page; without one, every project |

## Left out

- AuthContext.AuthProvider.Restore: stored `uni_user` text that parses to `null` (which clears the signed-in user) and valid JSON that is not a user record are not modelled; a missing key and the empty string are both `NoUser`.
- Browser storage and the JSON codec: a stored table is an absent value, an unparseable one, or a parsed list. Valid JSON that is not an array of records, and the empty string (which the source treats as absent), are not modelled.
- Aliasing: when the project table is absent, the source returns the seed array itself, and a later creation prepends into it. The model copies values.
- Network delays, Promises, concurrent calls and console output: each backend call is one sequential step, and `fetchAllData` reads the three tables in turn.
- ISO date strings: timestamps are millisecond integers, and one clock reading stands for the several `Date.now()` calls inside one operation.
- Text.ToLower: only ASCII letters are lower-cased, not the full Unicode case mapping of `toLowerCase`.
- Record keys with no rules attached are not modelled: `memberNames`, `className`, `avatar` and `token`. Nor are the extra keys (password, remember-me) that the login page spreads into the reducer payload, which is typed `any` in the source.
- Status values outside `ProjectStatus` are not modelled, although `types.ts` allows any string. Role strings other than the three roles are `OtherRole`; an `OtherRole` spelling one of the three role names is not identified with that role, as the source's string comparison would.
- Patches that set a required key to `undefined` cannot be expressed.
- The generative-AI calls (`services/geminiService.ts`) are not part of this model. Only the guard and the resulting patch of `handleRefineAbstract` are modelled.
- ApiRouter.Login: the `params: any` argument is modelled with string-valued fields (`Option<string>`); truthy non-string values such as a numeric `userID` are not modelled. The login page only passes strings.
- The second `ApiCall` in `services/api.ts` is not part of this model; the pages import the one in `api/apiCall.ts`. The `verb` parameter only feeds a log line.
- Alerts, form state, page rendering, routing and the dashboards' percentage widths.
