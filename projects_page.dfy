/** The search of pages/Projects.tsx: a case-insensitive text search on
    title and student name, combined with a department-type filter and a
    status filter, each of which can be switched off with "ALL". */
module ProjectsPage {
  import opened Wrappers
  import opened Seqs
  import opened Text
  import opened Types

  datatype TypeFilter = AllTypes | OnlyType(kind: DepartmentType)
  datatype StatusFilter = AllStatuses | OnlyStatus(status: ProjectStatus)

  /** The search term occurs, ignoring case, in the title or the student
      name (a missing name counting as ""). `studentName || ''` agrees with
      `??` here, since the only falsy string is "" itself. */
  predicate MatchesSearch(p: Project, searchTerm: string)
  {
    Contains(ToLower(p.title), ToLower(searchTerm))
    || Contains(ToLower(GetOr(p.studentName, "")), ToLower(searchTerm))
  }

  predicate MatchesType(p: Project, filterType: TypeFilter)
  {
    filterType.AllTypes? || p.departmentType == Some(filterType.kind)
  }

  predicate MatchesStatus(p: Project, statusFilter: StatusFilter)
  {
    statusFilter.AllStatuses? || p.status == statusFilter.status
  }

  predicate Matches(p: Project, searchTerm: string, filterType: TypeFilter, statusFilter: StatusFilter)
  {
    MatchesSearch(p, searchTerm) && MatchesType(p, filterType) && MatchesStatus(p, statusFilter)
  }

  /** `filteredProjects`. */
  function FilteredProjects(projects: seq<Project>, searchTerm: string, filterType: TypeFilter,
                            statusFilter: StatusFilter): seq<Project>
  {
    Filter(projects, (p: Project) => Matches(p, searchTerm, filterType, statusFilter))
  }

  /** A project is listed exactly when it passes all three tests, and the
      list keeps the order of the projects. */
  lemma FilteredProjectsSpec(projects: seq<Project>, searchTerm: string, filterType: TypeFilter,
                             statusFilter: StatusFilter)
    ensures IsSubsequence(FilteredProjects(projects, searchTerm, filterType, statusFilter), projects)
    ensures forall i :: 0 <= i < |projects| ==>
      var listed := projects[i] in FilteredProjects(projects, searchTerm, filterType, statusFilter);
      listed <==> Matches(projects[i], searchTerm, filterType, statusFilter)
    ensures forall p :: (multiset(FilteredProjects(projects, searchTerm, filterType, statusFilter))[p] ==
      if Matches(p, searchTerm, filterType, statusFilter) then multiset(projects)[p] else 0)
  {
    FilterIsSubsequence(projects, (p: Project) => Matches(p, searchTerm, filterType, statusFilter));
    FilterMultiset(projects, (p: Project) => Matches(p, searchTerm, filterType, statusFilter));
  }

  /** With an empty search and both filters on "ALL", every project is listed. */
  lemma UnfilteredListsAll(projects: seq<Project>)
    ensures FilteredProjects(projects, "", AllTypes, AllStatuses) == projects
  {
    forall i | 0 <= i < |projects|
      ensures Matches(projects[i], "", AllTypes, AllStatuses)
    {
      ContainsEmpty(ToLower(projects[i].title));
    }
    FilterKeepsAll(projects, (p: Project) => Matches(p, "", AllTypes, AllStatuses));
  }

  /** The search ignores case: a term found verbatim in the title or
      student name matches, and so does the same term in lower case. */
  lemma SearchIgnoresCase(p: Project, searchTerm: string)
    ensures Contains(p.title, searchTerm) ==> MatchesSearch(p, searchTerm)
    ensures Contains(GetOr(p.studentName, ""), searchTerm) ==> MatchesSearch(p, searchTerm)
    ensures MatchesSearch(p, ToLower(searchTerm)) <==> MatchesSearch(p, searchTerm)
  {
    if Contains(p.title, searchTerm) {
      ContainsLower(p.title, searchTerm);
    }
    if Contains(GetOr(p.studentName, ""), searchTerm) {
      ContainsLower(GetOr(p.studentName, ""), searchTerm);
    }
    ToLowerIdempotent(searchTerm);
  }
}
