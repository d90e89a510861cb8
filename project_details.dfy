/** The rules of pages/ProjectDetails.tsx: the supervisor list, and the
    patches the page hands to the cache's `updateProject` when the status
    changes, a supervisor is assigned or a comment is posted. */
module ProjectDetails {
  import opened Wrappers
  import opened Seqs
  import opened Text
  import opened Types
  import opened Tables
  import Constants

  /** `MOCK_USERS.filter(u => u.role === Role.SUPERVISOR)`. */
  function Supervisors(): seq<User>
  {
    Filter(Constants.MockUsers(), (u: User) => u.role == Supervisor)
  }

  /** The supervisors are the two supervisor accounts, in list order. */
  lemma SupervisorsSpec()
    ensures Supervisors() == [Constants.MockUsers()[1], Constants.MockUsers()[2]]
    ensures forall i :: 0 <= i < |Supervisors()| ==> Supervisors()[i].role == Supervisor
  {
    var users := Constants.MockUsers();
    var keep := (u: User) => u.role == Supervisor;
    assert Filter(users[4..], keep) == [];
    assert Filter(users[3..], keep) == [];
    assert Filter(users[2..], keep) == [users[2]];
    assert Filter(users[1..], keep) == [users[1], users[2]];
  }

  /** `handleStatusChange`: the new status, with the progress forced to 100
      for COMPLETED and to 0 for PROPOSED. */
  function StatusChangePatch(status: ProjectStatus): ProjectPatch
  {
    var progress := if status == Completed then Some(Some(100))
                    else if status == Proposed then Some(Some(0)) else None;
    NoProjectChanges.(status := Some(status), progress := progress)
  }

  /** The patched project has the new status; its progress is 100 when
      completed, 0 when proposed and untouched otherwise; nothing else changes. */
  lemma StatusChangeSpec(p: Project, status: ProjectStatus)
    ensures var q := MergeProject(p, StatusChangePatch(status));
      && q.status == status
      && (status == Completed ==> q.progress == Some(100))
      && (status == Proposed ==> q.progress == Some(0))
      && (status !in {Completed, Proposed} ==> q.progress == p.progress)
      && q.(status := p.status, progress := p.progress) == p
  {
  }

  /** `handleAssignSupervisor`: an empty id clears the supervisor, a known
      supervisor's id sets both supervisor keys from that user, any other
      id issues no update (`None`). */
  function AssignSupervisorPatch(supervisorId: string): Option<ProjectPatch>
  {
    if supervisorId == "" then
      Some(NoProjectChanges.(supervisorId := Some(None), supervisorName := Some(None)))
    else
      match FindFirst(Supervisors(), (s: User) => s.id == supervisorId)
      case None => None
      case Some(s) => Some(NoProjectChanges.(supervisorId := Some(Some(s.id)), supervisorName := Some(Some(s.name))))
  }

  /** An update is issued exactly for the empty id and the two supervisor
      ids; the empty id clears both keys, a supervisor's id sets both from
      the same supervisor, and no other key changes. */
  lemma AssignSupervisorSpec(p: Project, supervisorId: string)
    ensures AssignSupervisorPatch(supervisorId).Some? <==> supervisorId in {"", "u2", "u3"}
    ensures supervisorId == "" ==>
      var q := MergeProject(p, AssignSupervisorPatch(supervisorId).value);
      q.supervisorId == None && q.supervisorName == None
    ensures AssignSupervisorPatch(supervisorId).Some? ==>
      var q := MergeProject(p, AssignSupervisorPatch(supervisorId).value);
      q.(supervisorId := p.supervisorId, supervisorName := p.supervisorName) == p
    ensures supervisorId != "" && AssignSupervisorPatch(supervisorId).Some? ==>
      var q := MergeProject(p, AssignSupervisorPatch(supervisorId).value);
      exists s :: s in Supervisors() && q.supervisorId == Some(s.id) && q.supervisorName == Some(s.name)
        && s.id == supervisorId
    ensures AssignSupervisorPatch("u2") == Some(NoProjectChanges.(supervisorId := Some(Some("u2")), supervisorName := Some(Some("Dr. Smith"))))
  {
    SupervisorsSpec();
  }

  /** `handlePostComment`: nothing for a blank comment or no user; otherwise
      the project's comments (or none) with the new comment appended. */
  function PostCommentPatch(project: Project, comment: string, user: Option<User>, now: nat): Option<ProjectPatch>
  {
    if Trim(comment) == "" || user.None? then None
    else
      var c := Comment(NatToString(now), user.value.id, user.value.name, comment, now);
      // `comments || []`: an array is always truthy, so `||` falls back
      // exactly when the key is missing.
      Some(NoProjectChanges.(comments := Some(Some(GetOr(project.comments, []) + [c]))))
  }

  /** A comment is posted exactly when a user is signed in and the text is
      not all white space; the new list is the old one (or the empty list)
      with one comment added last, carrying the user's id and name and the
      text as typed; no other key changes. */
  lemma PostCommentSpec(project: Project, comment: string, user: Option<User>, now: nat)
    ensures PostCommentPatch(project, comment, user, now).None? <==> AllWhitespace(comment) || user.None?
    ensures PostCommentPatch(project, comment, user, now).Some? ==>
      var q := MergeProject(project, PostCommentPatch(project, comment, user, now).value);
      var old_ := GetOr(project.comments, []);
      && q.comments.Some?
      && |q.comments.value| == |old_| + 1
      && q.comments.value[..|old_|] == old_
      && q.comments.value[|old_|].text == comment
      && q.comments.value[|old_|].authorId == user.value.id
      && q.comments.value[|old_|].authorName == user.value.name
      && q.(comments := project.comments) == project
  {
    TrimEmptyIffBlank(comment);
  }

  /** `getAuthorRole`: the role of the first user with that id, else "USER". */
  function AuthorRole(authorId: string): Role
  {
    match LookupId(Constants.MockUsers(), UserIdOf, authorId)
    case None => OtherRole("USER")
    case Some(u) => if u.role == OtherRole("") then OtherRole("USER") else u.role
  }

  /** The author of a comment whose id is the i-th demo user's is shown
      with that user's role. */
  lemma AuthorRoleOfMockUser(i: nat)
    requires i < |Constants.MockUsers()|
    ensures AuthorRole(Constants.MockUsers()[i].id) == Constants.MockUsers()[i].role
  {
    var users := Constants.MockUsers();
    Constants.MockUsersShape();
    var r := LookupId(users, UserIdOf, users[i].id);
    assert UserIdOf(users[i]) == users[i].id;
    assert r.Some?;
    var k :| 0 <= k < |users| && users[k] == r.value;
    assert k == i;
  }

  /** Known ids give their account's role, unknown ids "USER". */
  lemma AuthorRoleSpec(authorId: string)
    ensures authorId !in {"u1", "u2", "u3", "u4", "u5"} ==> AuthorRole(authorId) == OtherRole("USER")
    ensures AuthorRole("u1") == Admin
    ensures AuthorRole("u2") == Supervisor && AuthorRole("u3") == Supervisor
    ensures AuthorRole("u4") == Student && AuthorRole("u5") == Student
  {
    var users := Constants.MockUsers();
    if authorId !in {"u1", "u2", "u3", "u4", "u5"} {
      assert forall i :: 0 <= i < |users| ==> UserIdOf(users[i]) != authorId;
    }
    AuthorRoleOfMockUser(0);
    AuthorRoleOfMockUser(1);
    AuthorRoleOfMockUser(2);
    AuthorRoleOfMockUser(3);
    AuthorRoleOfMockUser(4);
  }

  /** The abstract `handleRefineAbstract` sends for review, or `None` when
      the project has no abstract or an empty one and nothing happens. */
  function RefineAbstractRequest(project: Project): Option<string>
  {
    if project.abstractText.None? || project.abstractText.value == "" then None else project.abstractText
  }

  /** The patch storing the review the assistant returned. */
  function RefineAbstractPatch(feedback: string): ProjectPatch
  {
    NoProjectChanges.(aiFeedback := Some(Some(feedback)))
  }

  /** A review is requested exactly for a non-empty abstract, and its
      result lands in `aiFeedback` alone. */
  lemma RefineAbstractSpec(project: Project, feedback: string)
    ensures RefineAbstractRequest(project).Some? <==> project.abstractText.Some? && project.abstractText.value != ""
    ensures RefineAbstractRequest(project).Some? ==> RefineAbstractRequest(project) == project.abstractText
    ensures MergeProject(project, RefineAbstractPatch(feedback)) == project.(aiFeedback := Some(feedback))
  {
  }
}
