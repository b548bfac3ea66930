/** The demo data the application seeds into an empty store on sign-in:
    four projects, five tasks for each, five team members and two
    notifications. Calendar dates stay strings; timestamps are the epoch
    milliseconds of the UTC midnights the application writes as ISO strings. */
module MockData {
  import opened Types
  import opened StoreOps
  import opened Ids
  import opened AppState
  import AuthState

  // Timestamps, midnight UTC of the date in the name.
  const Nov10_2025: Time := 1762732800000
  const Dec01_2025: Time := 1764547200000
  const Dec15_2025: Time := 1765756800000
  const Jan05_2026: Time := 1767571200000
  const Jan15_2026: Time := 1768435200000
  const Jan20_2026: Time := 1768867200000
  const Feb01_2026: Time := 1769904000000
  const Feb05_2026: Time := 1770249600000
  const Feb08_2026: Time := 1770508800000
  const Feb10_2026: Time := 1770681600000
  const Feb12_2026: Time := 1770854400000
  const Feb15_2026: Time := 1771113600000
  const Feb18_2026: Time := 1771372800000
  const Feb19_2026: Time := 1771459200000

  // The longer texts of the demo projects and tasks.
  const EcommerceName: string := "E-Commerce Platform Redesign"
  const EcommerceDescription: string := "Complete redesign of online shopping platform with modern UI/UX for Indian market"
  const EcommerceClient: string := "Flipkart India"
  const BankingName: string := "Banking Mobile App"
  const BankingDescription: string := "Secure mobile banking application with UPI integration"
  const MarketingName: string := "Digital Marketing Campaign"
  const MarketingDescription: string := "Q2 social media and digital marketing campaign for Indian festivals"
  const MarketingClient: string := "Myntra Fashion"
  const ErpName: string := "ERP System Implementation"
  const ErpDescription: string := "Enterprise resource planning system for manufacturing unit"
  const ErpClient: string := "Tata Industries"
  const HomepageTitle: string := "Design homepage mockups"
  const HomepageDescription: string := "Create high-fidelity mockups for the new homepage design"
  const NavigationTitle: string := "Implement responsive navigation"
  const NavigationDescription: string := "Build mobile-friendly navigation with hamburger menu"
  const SchemaTitle: string := "Setup database schema"
  const SchemaDescription: string := "Design and implement database structure for user management"
  const ApiDocsTitle: string := "Write API documentation"
  const ApiDocsDescription: string := "Document all API endpoints with examples"
  const PerformanceTitle: string := "Performance optimization"
  const PerformanceDescription: string := "Optimize bundle size and lazy loading"

  /** `generateMockProjects`: the four demo projects, created by `userId`. */
  function MockProjects(userId: Id): (ps: seq<Project>)
    ensures |ps| == 4
    ensures forall k :: 0 <= k < 4 ==> ps[k].createdBy == userId && userId in ps[k].members
  {
    [ Project("1", EcommerceName,
        EcommerceDescription,
        Some(EcommerceClient), Some(4500000), "2026-02-01", "2026-04-30", High, ProjectStatus.Active,
        [userId, "2", "3", "4"], userId, Feb01_2026, Feb19_2026),
      Project("2", BankingName,
        BankingDescription,
        Some("HDFC Bank"), Some(12000000), "2026-01-15", "2026-06-30", Critical, ProjectStatus.Active,
        [userId, "2", "3", "5", "6"], userId, Jan15_2026, Feb19_2026),
      Project("3", MarketingName,
        MarketingDescription,
        Some(MarketingClient), Some(3500000), "2026-03-01", "2026-05-31", Medium, ProjectStatus.Planning,
        [userId, "2", "7"], userId, Feb10_2026, Feb19_2026),
      Project("4", ErpName,
        ErpDescription,
        Some(ErpClient), Some(8500000), "2026-02-15", "2026-08-30", High, ProjectStatus.Active,
        [userId, "2", "4", "5"], userId, Feb15_2026, Feb19_2026) ]
  }

  /** `generateMockTasks`: the five demo tasks of one project. */
  function MockTasks(projectId: Id, userId: Id): (ts: seq<Task>)
    ensures |ts| == 5
    ensures forall j :: 0 <= j < 5 ==> ts[j].projectId == projectId
  {
    [ Task(projectId + "-1", projectId, HomepageTitle,
        HomepageDescription,
        TaskStatus.Completed, High, [userId], ["design", "ui/ux"],
        [Subtask("1", "Hero section", true), Subtask("2", "Feature cards", true), Subtask("3", "Footer", true)],
        Some("2026-02-25"), Some(16), Some(14), [], [], userId, Feb05_2026, Feb18_2026),
      Task(projectId + "-2", projectId, NavigationTitle,
        NavigationDescription,
        InProgress, High, [userId], ["frontend", "react"],
        [Subtask("1", "Desktop nav", true), Subtask("2", "Mobile menu", false), Subtask("3", "Animations", false)],
        Some("2026-02-28"), Some(12), Some(8), [], [], userId, Feb10_2026, Feb19_2026),
      Task(projectId + "-3", projectId, SchemaTitle,
        SchemaDescription,
        Review, Critical, [userId], ["backend", "database"], [],
        Some("2026-02-22"), Some(8), Some(9), [], [], userId, Feb08_2026, Feb19_2026),
      Task(projectId + "-4", projectId, ApiDocsTitle,
        ApiDocsDescription,
        Todo, Medium, [userId], ["documentation"], [],
        Some("2026-03-05"), Some(6), Some(0), [], [], userId, Feb12_2026, Feb19_2026),
      Task(projectId + "-5", projectId, PerformanceTitle,
        PerformanceDescription,
        Backlog, Low, [], ["performance"], [],
        None, Some(10), Some(0), [], [], userId, Feb15_2026, Feb19_2026) ]
  }

  /** The initial team, all active. */
  const InitialTeamMembers: seq<TeamMember> := [
    TeamMember("4", "vikram.singh@taskflow.com", "Vikram Singh", Some(AuthState.AvatarUrl("Vikram")),
               Manager, MemberStatus.Active, Dec01_2025),
    TeamMember("5", "sneha.reddy@taskflow.com", "Sneha Reddy", Some(AuthState.AvatarUrl("Sneha")),
               Member, MemberStatus.Active, Dec15_2025),
    TeamMember("6", "arjun.mehta@taskflow.com", "Arjun Mehta", Some(AuthState.AvatarUrl("Arjun")),
               Member, MemberStatus.Active, Jan05_2026),
    TeamMember("7", "pooja.gupta@taskflow.com", "Pooja Gupta", Some(AuthState.AvatarUrl("Pooja")),
               Member, MemberStatus.Active, Jan20_2026),
    TeamMember("8", "rohit.verma@taskflow.com", "Rohit Verma", Some(AuthState.AvatarUrl("Rohit")),
               Manager, MemberStatus.Active, Nov10_2025)
  ]

  // The texts of the two seeded notifications.
  const AssignmentTitle: string := "New task assigned"
  const AssignmentMessage: string := "You have been assigned to \"Implement responsive navigation\""
  const DeadlineTitle: string := "Upcoming deadline"
  const DeadlineMessage: string := "Task \"Setup database schema\" is due in 3 days"

  function AssignmentNotice(userId: Id): NotificationDraft {
    NotificationDraft(userId, Assignment, AssignmentTitle,
      AssignmentMessage, false, None)
  }

  function DeadlineNotice(userId: Id): NotificationDraft {
    NotificationDraft(userId, Deadline, DeadlineTitle,
      DeadlineMessage, false, None)
  }

  /** The tasks of the given projects, project by project, in order. */
  function SeedTasks(ps: seq<Project>, userId: Id): (r: seq<Task>)
    ensures |r| == 5 * |ps|
  {
    if ps == [] then [] else SeedTasks(ps[..|ps| - 1], userId) + MockTasks(ps[|ps| - 1].id, userId)
  }

  /** The five tasks seeded for the `k`-th project. */
  function Chunk(ts: seq<Task>, k: nat): seq<Task>
    requires 5 * k + 5 <= |ts|
  {
    ts[5 * k..5 * k + 5]
  }

  /** Five tasks per project, and the `k`-th block of five is the `k`-th
      project's tasks. */
  lemma {:induction false} SeedTasksShape(ps: seq<Project>, userId: Id)
    ensures |SeedTasks(ps, userId)| == 5 * |ps|
    ensures forall k :: 0 <= k < |ps| ==> Chunk(SeedTasks(ps, userId), k) == MockTasks(ps[k].id, userId)
  {
    if ps != [] {
      var init := ps[..|ps| - 1];
      SeedTasksShape(init, userId);
      var ts := SeedTasks(ps, userId);
      var front, back := SeedTasks(init, userId), MockTasks(ps[|ps| - 1].id, userId);
      assert ts == front + back;
      forall k | 0 <= k < |ps|
        ensures Chunk(ts, k) == MockTasks(ps[k].id, userId)
      {
        if k < |ps| - 1 {
          assert ps[k] == init[k];
          assert Chunk(front, k) == MockTasks(init[k].id, userId);
          assert Chunk(ts, k) == Chunk(front, k);
        } else {
          assert 5 * k == |front|;
          assert Chunk(ts, k) == (front + back)[|front|..] == back;
        }
      }
    }
  }

  /** Every seeded task belongs to a seeded project. */
  lemma {:induction false} SeedReferencesProjects(ps: seq<Project>, userId: Id)
    ensures TasksReferenceProjects(ps, SeedTasks(ps, userId))
  {
    if ps != [] {
      var init, last := ps[..|ps| - 1], ps[|ps| - 1];
      SeedReferencesProjects(init, userId);
      var front, back := SeedTasks(init, userId), MockTasks(last.id, userId);
      assert SeedTasks(ps, userId) == front + back;
      forall t: Task | t in front + back ensures t.projectId in ProjectIds(ps) {
        if t in front {
          var p :| p in init && p.id == t.projectId;
          assert p in ps;
        } else {
          assert last in ps;
        }
      }
    }
  }

  /** The `forEach`/`push` loop of `initializeMockData`: gathers the tasks
      of each project in turn. */
  method GatherTasks(projects: seq<Project>, userId: Id) returns (allTasks: seq<Task>)
    ensures allTasks == SeedTasks(projects, userId)
  {
    allTasks := [];
    var i := 0;
    while i < |projects|
      invariant 0 <= i <= |projects|
      invariant allTasks == SeedTasks(projects[..i], userId)
    {
      assert projects[..i + 1][..i] == projects[..i];
      allTasks := allTasks + MockTasks(projects[i].id, userId);
      i := i + 1;
    }
    assert projects[..|projects|] == projects;
  }

  /** The single `set` of `initializeMockData`: the given projects, the
      tasks gathered for them, and the initial team. */
  method Seed(store: AppStore, projects: seq<Project>, userId: Id)
    modifies store`projects, store`tasks, store`teamMembers
    ensures store.projects == projects
    ensures store.tasks == SeedTasks(projects, userId)
    ensures store.teamMembers == InitialTeamMembers
  {
    var allTasks := GatherTasks(projects, userId);
    store.projects, store.tasks, store.teamMembers := projects, allTasks, InitialTeamMembers;
  }

  /** The two notifications of `initializeMockData`, added one after the
      other, so the deadline notice ends up first. */
  method Notify(store: AppStore, gen: IdGenerator, userId: Id,
                now1: Time, salt1: string, now2: Time, salt2: string)
    requires gen.Valid()
    modifies store`notifications, gen
    ensures gen.Valid() && gen.counter == old(gen.counter) + 2
    ensures store.notifications ==
              [ NewNotification(DeadlineNotice(userId), UniqueId(now2, gen.counter, salt2), now2),
                NewNotification(AssignmentNotice(userId), UniqueId(now1, gen.counter - 1, salt1), now1) ]
              + old(store.notifications)
    ensures UniqueId(now1, gen.counter - 1, salt1) !in old(gen.issued)
    ensures UniqueId(now2, gen.counter, salt2) !in old(gen.issued) + {UniqueId(now1, gen.counter - 1, salt1)}
  {
    ghost var before := store.notifications;
    store.AddNotification(gen, AssignmentNotice(userId), now1, salt1);
    ghost var middle := store.notifications;
    assert middle == [middle[0]] + before;
    store.AddNotification(gen, DeadlineNotice(userId), now2, salt2);
    assert store.notifications == [store.notifications[0]] + middle;
  }

  /** `initializeMockData`: on an empty project list, seeds the demo
      projects, their tasks (gathered project by project), the team, and
      then adds the two notifications for `userId`, one after the other;
      otherwise does nothing. */
  method InitializeMockData(store: AppStore, gen: IdGenerator, userId: Id,
                            now1: Time, salt1: string, now2: Time, salt2: string)
    requires gen.Valid()
    modifies store, gen
    ensures gen.Valid()
    ensures old(store.projects) != [] ==> unchanged(store) && unchanged(gen)
    ensures old(store.projects) == [] ==> store.projects == MockProjects(userId)
    ensures old(store.projects) == [] ==> store.tasks == SeedTasks(MockProjects(userId), userId)
    ensures old(store.projects) == [] ==> store.teamMembers == InitialTeamMembers
    ensures old(store.projects) == [] ==> store.theme == old(store.theme)
    ensures old(store.projects) == [] ==> gen.counter == old(gen.counter) + 2
    ensures old(store.projects) == [] ==>
              store.notifications ==
                [ NewNotification(DeadlineNotice(userId), UniqueId(now2, gen.counter, salt2), now2),
                  NewNotification(AssignmentNotice(userId), UniqueId(now1, gen.counter - 1, salt1), now1) ]
                + old(store.notifications)
    ensures old(store.projects) == [] ==>
              UniqueId(now1, gen.counter - 1, salt1) !in old(gen.issued) &&
              UniqueId(now2, gen.counter, salt2) !in old(gen.issued) + {UniqueId(now1, gen.counter - 1, salt1)}
  {
    if |store.projects| == 0 {
      Seed(store, MockProjects(userId), userId);
      Notify(store, gen, userId, now1, salt1, now2, salt2);
    }
  }
}
