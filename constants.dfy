/** The fixed data of the application: departments, the two milestone
    templates, the demo users and the two seed projects. */
module Constants {
  import opened Wrappers
  import opened Text
  import opened Types

  /** One day in milliseconds. */
  const DayMs: int := 1000 * 60 * 60 * 24

  function Departments(): (r: seq<Department>)
  {
    [ Department("cs", "Computer Science", Technology),
      Department("it", "Information Technology", Technology),
      Department("se", "Software Engineering", Technology),
      Department("psych", "Psychology", SocialScience),
      Department("soc", "Sociology", SocialScience),
      Department("pol-sci", "Political Science", SocialScience),
      Department("econ", "Economics", SocialScience),
      Department("anthro", "Anthropology", SocialScience),
      Department("hist", "History", SocialScience),
      Department("geo", "Geography", SocialScience),
      Department("edu", "Education", SocialScience) ]
  }

  /** Eleven departments with distinct ids and names: three technology
      departments followed by eight social-science ones. */
  lemma DepartmentsShape()
    ensures |Departments()| == 11
    ensures forall i, j :: 0 <= i < j < 11 ==> Departments()[i].id != Departments()[j].id
    ensures forall i, j :: 0 <= i < j < 11 ==> Departments()[i].name != Departments()[j].name
    ensures forall i :: 0 <= i < 3 ==> Departments()[i].kind == Technology
    ensures forall i :: 3 <= i < 11 ==> Departments()[i].kind == SocialScience
  {
  }

  function TechMilestonesTemplate(): (r: seq<string>)
    ensures |r| == 8 && r[0] == "Title Submission" && r[7] == "Final Submission"
  {
    [ "Title Submission", "Proposal Submission", "Proposal Defense", "Deliverable 1",
      "Deliverable 1 Evaluation", "Deliverable 2", "Deliverable 2 Evaluation", "Final Submission" ]
  }

  function SocialMilestonesTemplate(): (r: seq<string>)
    ensures |r| == 6 && r[0] == "Chapter 1 - Introduction" && r[5] == "References & Appendices"
  {
    [ "Chapter 1 - Introduction", "Chapter 2 - Literature Review", "Chapter 3 - Methodology",
      "Chapter 4 - Results & Discussion", "Chapter 5 - Conclusion", "References & Appendices" ]
  }

  function MockUsers(): (r: seq<User>)
  {
    [ User("u1", "Alice Admin", Some("admin@uni.edu"), Admin, None),
      User("u2", "Dr. Smith", Some("smith@uni.edu"), Supervisor, Some("Computer Science")),
      User("u3", "Dr. Jones", Some("jones@uni.edu"), Supervisor, Some("Psychology")),
      User("u4", "John Doe", Some("john@uni.edu"), Student, Some("Computer Science")),
      User("u5", "Jane Doe", Some("jane@uni.edu"), Student, Some("Psychology")) ]
  }

  /** Five demo users with distinct ids and e-mails: one administrator, two
      supervisors, two students. */
  lemma MockUsersShape()
    ensures |MockUsers()| == 5
    ensures forall i, j :: 0 <= i < j < 5 ==> MockUsers()[i].id != MockUsers()[j].id
    ensures forall i, j :: 0 <= i < j < 5 ==> MockUsers()[i].email != MockUsers()[j].email
    ensures forall i :: 0 <= i < 5 ==> MockUsers()[i].email.Some?
    ensures MockUsers()[0].role == Admin
    ensures MockUsers()[1].role == Supervisor && MockUsers()[2].role == Supervisor
    ensures MockUsers()[3].role == Student && MockUsers()[4].role == Student
  {
  }

  /** The milestones of a seed project: one per template entry, numbered
      "m-0", "m-1", ..., the i-th due `(i + 1) * periodDays` days after the
      clock reading `now`. */
  function SeedMilestones(names: seq<string>, statusAt: nat -> string, periodDays: nat, now: Timestamp): seq<Milestone>
  {
    seq(|names|, i requires 0 <= i < |names| =>
      Milestone("m-" + NatToString(i), names[i], statusAt(i), now + (i + 1) * DayMs * periodDays))
  }

  function TechSeedStatus(i: nat): string
  {
    if i < 3 then "Approved" else if i == 3 then "Submitted" else "Pending"
  }

  function SocialSeedStatus(i: nat): string
  {
    if i == 0 then "Submitted" else "Pending"
  }

  /** `INITIAL_PROJECTS`, evaluated when the module loads at clock reading `now`. */
  function InitialProjects(now: Timestamp): seq<Project>
  {
    [SeedP1(now), SeedP2(now)]
  }

  function SeedP1(now: Timestamp): Project
  {
    Project("p1", "AI-Driven Traffic Management System",
            "Using computer vision to optimize traffic light timings.",
            Some("Dr. Smith"), Some("u2"), InProgress, Some(45),
            Some("Computer Science"), Some(Technology), Some("u4"), Some("John Doe"),
            now, now, Some(["AI", "Smart City", "Traffic"]), Some([]),
            Some("This study proposes a dynamic traffic control system..."), None, None,
            Some(SeedMilestones(TechMilestonesTemplate(), TechSeedStatus, 14, now)))
  }

  function SeedP2(now: Timestamp): Project
  {
    Project("p2", "Impact of Social Media on Teen Anxiety",
            "A quantitative study of high school students in the district.",
            Some("Dr. Jones"), Some("u3"), Proposed, Some(10),
            Some("Psychology"), Some(SocialScience), Some("u5"), Some("Jane Doe"),
            now, now, Some(["Mental Health", "Social Media", "Teens"]), Some([]),
            Some("This thesis explores the correlation between screen time and anxiety levels..."), None, None,
            Some(SeedMilestones(SocialMilestonesTemplate(), SocialSeedStatus, 30, now)))
  }

  lemma SeedMilestonesAt(names: seq<string>, statusAt: nat -> string, periodDays: nat, now: Timestamp, i: nat)
    requires i < |names|
    ensures var ms := SeedMilestones(names, statusAt, periodDays, now);
      |ms| == |names| && ms[i].name == names[i] && ms[i].status == statusAt(i)
  {
  }

  /** Seed p1 has the eight technology milestones, the first three approved,
      the fourth submitted and the rest pending; its progress lies in 0..100. */
  lemma SeedP1Shape(now: Timestamp)
    ensures var p1 := SeedP1(now);
      && p1.id == "p1" && p1.progress == Some(45) && p1.milestones.Some? && |p1.milestones.value| == 8
      && (forall i :: 0 <= i < 8 ==> p1.milestones.value[i].name == TechMilestonesTemplate()[i])
      && (forall i :: 0 <= i < 3 ==> p1.milestones.value[i].status == "Approved")
      && p1.milestones.value[3].status == "Submitted"
      && (forall i :: 4 <= i < 8 ==> p1.milestones.value[i].status == "Pending")
  {
    var ms := SeedMilestones(TechMilestonesTemplate(), TechSeedStatus, 14, now);
    forall i | 0 <= i < 8
      ensures ms[i].name == TechMilestonesTemplate()[i] && ms[i].status == TechSeedStatus(i)
    {
      SeedMilestonesAt(TechMilestonesTemplate(), TechSeedStatus, 14, now, i);
    }
  }

  /** Seed p2 has the six social-science milestones, the first submitted and
      the rest pending; its progress lies in 0..100. */
  lemma SeedP2Shape(now: Timestamp)
    ensures var p2 := SeedP2(now);
      && p2.id == "p2" && p2.progress == Some(10) && p2.milestones.Some? && |p2.milestones.value| == 6
      && (forall i :: 0 <= i < 6 ==> p2.milestones.value[i].name == SocialMilestonesTemplate()[i])
      && p2.milestones.value[0].status == "Submitted"
      && (forall i :: 1 <= i < 6 ==> p2.milestones.value[i].status == "Pending")
  {
    var ms := SeedMilestones(SocialMilestonesTemplate(), SocialSeedStatus, 30, now);
    forall i | 0 <= i < 6
      ensures ms[i].name == SocialMilestonesTemplate()[i] && ms[i].status == SocialSeedStatus(i)
    {
      SeedMilestonesAt(SocialMilestonesTemplate(), SocialSeedStatus, 30, now, i);
    }
  }
}
