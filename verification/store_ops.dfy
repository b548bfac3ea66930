/** The new collection values the store's actions compute: filters for the
    deletions, element-wise maps for the updates, and the records the
    add-actions build. The `AppStore` class assigns these to its fields. */
module StoreOps {
  import opened Types
  import opened Decimal

  // ---------------------------------------------------------------------
  // Filtering (Array.prototype.filter)
  // ---------------------------------------------------------------------

  /** The elements of `s` that satisfy `p`, in their original order. */
  function Filter<T>(p: T -> bool, s: seq<T>): (r: seq<T>)
    ensures |r| <= |s|
    ensures forall i :: 0 <= i < |r| ==> p(r[i])
  {
    if s == [] then [] else (if p(s[0]) then [s[0]] else []) + Filter(p, s[1..])
  }

  /** Filtering distributes over concatenation; with the one-element case in
      the definition this fixes the order of what is kept. */
  lemma {:induction false} FilterAppend<T>(p: T -> bool, a: seq<T>, b: seq<T>)
    ensures Filter(p, a + b) == Filter(p, a) + Filter(p, b)
  {
    if a == [] {
      assert a + b == b;
    } else {
      assert (a + b)[1..] == a[1..] + b;
      FilterAppend(p, a[1..], b);
    }
  }

  /** Each element is kept exactly as often as it occurs, if it satisfies
      `p`, and dropped altogether otherwise. */
  lemma {:induction false} FilterMultiset<T>(p: T -> bool, s: seq<T>, x: T)
    ensures multiset(Filter(p, s))[x] == if p(x) then multiset(s)[x] else 0
  {
    if s != [] {
      FilterMultiset(p, s[1..], x);
      assert s == [s[0]] + s[1..];
    }
  }

  lemma FilterMembers<T>(p: T -> bool, s: seq<T>)
    ensures forall x :: x in Filter(p, s) <==> x in s && p(x)
  {
    forall x ensures x in Filter(p, s) <==> x in s && p(x) {
      FilterMultiset(p, s, x);
    }
  }

  // ---------------------------------------------------------------------
  // Deletions
  // ---------------------------------------------------------------------

  /** `deleteProject`, projects part: every project except those with `id`. */
  function ProjectsWithout(ps: seq<Project>, id: Id): (r: seq<Project>)
    ensures forall p :: p in r <==> p in ps && p.id != id
    ensures forall p: Project :: p.id != id ==> multiset(r)[p] == multiset(ps)[p]
  {
    var keep := (p: Project) => p.id != id;
    FilterMembers(keep, ps);
    forall p: Project | p.id != id ensures multiset(Filter(keep, ps))[p] == multiset(ps)[p] {
      FilterMultiset(keep, ps, p);
    }
    Filter(keep, ps)
  }

  /** `deleteProject`, tasks part: every task that does not belong to the
      project `projectId`. */
  function TasksOutside(ts: seq<Task>, projectId: Id): (r: seq<Task>)
    ensures forall t :: t in r <==> t in ts && t.projectId != projectId
    ensures forall t: Task :: t.projectId != projectId ==> multiset(r)[t] == multiset(ts)[t]
  {
    var keep := (t: Task) => t.projectId != projectId;
    FilterMembers(keep, ts);
    forall t: Task | t.projectId != projectId ensures multiset(Filter(keep, ts))[t] == multiset(ts)[t] {
      FilterMultiset(keep, ts, t);
    }
    Filter(keep, ts)
  }

  /** `deleteTask`: every task except those with `id`. */
  function TasksWithout(ts: seq<Task>, id: Id): (r: seq<Task>)
    ensures forall t :: t in r <==> t in ts && t.id != id
    ensures forall t: Task :: t.id != id ==> multiset(r)[t] == multiset(ts)[t]
  {
    var keep := (t: Task) => t.id != id;
    FilterMembers(keep, ts);
    forall t: Task | t.id != id ensures multiset(Filter(keep, ts))[t] == multiset(ts)[t] {
      FilterMultiset(keep, ts, t);
    }
    Filter(keep, ts)
  }

  /** `removeTeamMember`: every member except those with `id`. */
  function MembersWithout(ms: seq<TeamMember>, id: Id): (r: seq<TeamMember>)
    ensures forall m :: m in r <==> m in ms && m.id != id
    ensures forall m: TeamMember :: m.id != id ==> multiset(r)[m] == multiset(ms)[m]
  {
    var keep := (m: TeamMember) => m.id != id;
    FilterMembers(keep, ms);
    forall m: TeamMember | m.id != id ensures multiset(Filter(keep, ms))[m] == multiset(ms)[m] {
      FilterMultiset(keep, ms, m);
    }
    Filter(keep, ms)
  }

  /** Deleting a project keeps the projects before and after it in order, and
      likewise the tasks: the deletion of a concatenation is the
      concatenation of the deletions. */
  lemma DeleteProjectKeepsOrder(ps1: seq<Project>, ps2: seq<Project>, ts1: seq<Task>, ts2: seq<Task>, id: Id)
    ensures ProjectsWithout(ps1 + ps2, id) == ProjectsWithout(ps1, id) + ProjectsWithout(ps2, id)
    ensures TasksOutside(ts1 + ts2, id) == TasksOutside(ts1, id) + TasksOutside(ts2, id)
  {
    FilterAppend((p: Project) => p.id != id, ps1, ps2);
    FilterAppend((t: Task) => t.projectId != id, ts1, ts2);
  }

  /** The project identifiers present in a project list. */
  function ProjectIds(ps: seq<Project>): set<Id> {
    set p | p in ps :: p.id
  }

  /** Every task belongs to a project that exists. */
  predicate TasksReferenceProjects(ps: seq<Project>, ts: seq<Task>) {
    forall t :: t in ts ==> t.projectId in ProjectIds(ps)
  }

  /** The cascade of `deleteProject` keeps every remaining task attached to a
      remaining project. */
  lemma DeleteProjectKeepsReferences(ps: seq<Project>, ts: seq<Task>, id: Id)
    requires TasksReferenceProjects(ps, ts)
    ensures TasksReferenceProjects(ProjectsWithout(ps, id), TasksOutside(ts, id))
  {
    var ps', ts' := ProjectsWithout(ps, id), TasksOutside(ts, id);
    forall t | t in ts' ensures t.projectId in ProjectIds(ps') {
      var p :| p in ps && p.id == t.projectId;
      assert p in ps';
    }
  }

  // ---------------------------------------------------------------------
  // Partial updates (`{ ...x, ...updates }`)
  // ---------------------------------------------------------------------

  /** A `Partial<Project>`: the fields present are overwritten. The
      `updatedAt` field is left out because the store overwrites it. */
  datatype ProjectPatch = ProjectPatch(
    id: Option<Id>,
    title: Option<string>,
    description: Option<string>,
    clientName: Option<string>,
    budget: Option<int>,
    startDate: Option<string>,
    deadline: Option<string>,
    priority: Option<Priority>,
    status: Option<ProjectStatus>,
    members: Option<seq<Id>>,
    createdBy: Option<Id>,
    createdAt: Option<Time>)

  /** A `Partial<Task>`, likewise without `updatedAt`. */
  datatype TaskPatch = TaskPatch(
    id: Option<Id>,
    projectId: Option<Id>,
    title: Option<string>,
    description: Option<string>,
    status: Option<TaskStatus>,
    priority: Option<Priority>,
    assignees: Option<seq<Id>>,
    tags: Option<seq<string>>,
    subtasks: Option<seq<Subtask>>,
    dueDate: Option<string>,
    estimatedHours: Option<int>,
    timeSpent: Option<int>,
    comments: Option<seq<Comment>>,
    attachments: Option<seq<Attachment>>,
    createdBy: Option<Id>,
    createdAt: Option<Time>)

  /** A `Partial<TeamMember>`. */
  datatype MemberPatch = MemberPatch(
    id: Option<Id>,
    email: Option<string>,
    name: Option<string>,
    avatar: Option<string>,
    role: Option<Role>,
    status: Option<MemberStatus>,
    joinedAt: Option<Time>)

  const NoTaskChange := TaskPatch(None, None, None, None, None, None, None, None, None, None, None, None, None, None, None, None)

  /** The patch a status change amounts to. */
  function StatusPatch(s: TaskStatus): TaskPatch {
    NoTaskChange.(status := Some(s))
  }

  function SubtasksPatch(subtasks: seq<Subtask>): TaskPatch {
    NoTaskChange.(subtasks := Some(subtasks))
  }

  function CommentsPatch(comments: seq<Comment>): TaskPatch {
    NoTaskChange.(comments := Some(comments))
  }

  /** `{ ...p, ...updates, updatedAt: now }`: every field the patch sets
      takes the patch's value, every other field keeps the project's, and
      `updatedAt` is the clock reading. */
  function PatchProject(p: Project, u: ProjectPatch, now: Time): (r: Project)
    ensures r.updatedAt == now
    ensures Overrides(u.id, p.id, r.id)
    ensures Overrides(u.title, p.title, r.title)
    ensures Overrides(u.description, p.description, r.description)
    ensures OverridesOptional(u.clientName, p.clientName, r.clientName)
    ensures OverridesOptional(u.budget, p.budget, r.budget)
    ensures Overrides(u.startDate, p.startDate, r.startDate)
    ensures Overrides(u.deadline, p.deadline, r.deadline)
    ensures Overrides(u.priority, p.priority, r.priority)
    ensures Overrides(u.status, p.status, r.status)
    ensures Overrides(u.members, p.members, r.members)
    ensures Overrides(u.createdBy, p.createdBy, r.createdBy)
    ensures Overrides(u.createdAt, p.createdAt, r.createdAt)
  {
    Project(
      u.id.GetOr(p.id), u.title.GetOr(p.title), u.description.GetOr(p.description),
      if u.clientName.Some? then u.clientName else p.clientName,
      if u.budget.Some? then u.budget else p.budget,
      u.startDate.GetOr(p.startDate), u.deadline.GetOr(p.deadline),
      u.priority.GetOr(p.priority), u.status.GetOr(p.status), u.members.GetOr(p.members),
      u.createdBy.GetOr(p.createdBy), u.createdAt.GetOr(p.createdAt), now)
  }

  /** `{ ...t, ...updates, updatedAt: now }`, field by field as for projects. */
  function PatchTask(t: Task, u: TaskPatch, now: Time): (r: Task)
    ensures r.updatedAt == now
    ensures Overrides(u.id, t.id, r.id)
    ensures Overrides(u.projectId, t.projectId, r.projectId)
    ensures Overrides(u.title, t.title, r.title)
    ensures Overrides(u.description, t.description, r.description)
    ensures Overrides(u.status, t.status, r.status)
    ensures Overrides(u.priority, t.priority, r.priority)
    ensures Overrides(u.assignees, t.assignees, r.assignees)
    ensures Overrides(u.tags, t.tags, r.tags)
    ensures Overrides(u.subtasks, t.subtasks, r.subtasks)
    ensures OverridesOptional(u.dueDate, t.dueDate, r.dueDate)
    ensures OverridesOptional(u.estimatedHours, t.estimatedHours, r.estimatedHours)
    ensures OverridesOptional(u.timeSpent, t.timeSpent, r.timeSpent)
    ensures Overrides(u.comments, t.comments, r.comments)
    ensures Overrides(u.attachments, t.attachments, r.attachments)
    ensures Overrides(u.createdBy, t.createdBy, r.createdBy)
    ensures Overrides(u.createdAt, t.createdAt, r.createdAt)
  {
    var r := Task(
      u.id.GetOr(t.id), u.projectId.GetOr(t.projectId), u.title.GetOr(t.title),
      u.description.GetOr(t.description), u.status.GetOr(t.status), u.priority.GetOr(t.priority),
      u.assignees.GetOr(t.assignees), u.tags.GetOr(t.tags), u.subtasks.GetOr(t.subtasks),
      if u.dueDate.Some? then u.dueDate else t.dueDate,
      if u.estimatedHours.Some? then u.estimatedHours else t.estimatedHours,
      if u.timeSpent.Some? then u.timeSpent else t.timeSpent,
      u.comments.GetOr(t.comments), u.attachments.GetOr(t.attachments),
      u.createdBy.GetOr(t.createdBy), u.createdAt.GetOr(t.createdAt), now);
    r
  }

  /** `{ ...m, ...updates }`: no timestamp is touched. */
  function PatchMember(m: TeamMember, u: MemberPatch): (r: TeamMember)
    ensures Overrides(u.id, m.id, r.id)
    ensures Overrides(u.email, m.email, r.email)
    ensures Overrides(u.name, m.name, r.name)
    ensures OverridesOptional(u.avatar, m.avatar, r.avatar)
    ensures Overrides(u.role, m.role, r.role)
    ensures Overrides(u.status, m.status, r.status)
    ensures Overrides(u.joinedAt, m.joinedAt, r.joinedAt)
  {
    TeamMember(
      u.id.GetOr(m.id), u.email.GetOr(m.email), u.name.GetOr(m.name),
      if u.avatar.Some? then u.avatar else m.avatar,
      u.role.GetOr(m.role), u.status.GetOr(m.status), u.joinedAt.GetOr(m.joinedAt))
  }

  /** The empty patch changes nothing but `updatedAt`, and applying the same
      patch twice is the same as applying it once. */
  lemma PatchProjectLaws(p: Project, u: ProjectPatch, now: Time, later: Time)
    ensures PatchProject(p, ProjectPatch(None, None, None, None, None, None, None, None, None, None, None, None), now)
            == p.(updatedAt := now)
    ensures PatchProject(PatchProject(p, u, now), u, later) == PatchProject(p, u, later)
  {
  }

  lemma PatchTaskLaws(t: Task, u: TaskPatch, now: Time, later: Time)
    ensures PatchTask(t, NoTaskChange, now) == t.(updatedAt := now)
    ensures PatchTask(PatchTask(t, u, now), u, later) == PatchTask(t, u, later)
  {
  }

  lemma PatchMemberLaws(m: TeamMember, u: MemberPatch)
    ensures PatchMember(m, MemberPatch(None, None, None, None, None, None, None)) == m
    ensures PatchMember(PatchMember(m, u), u) == PatchMember(m, u)
  {
  }

  /** `updateProject`: the projects with `id` get the patch and a new
      `updatedAt`; every other project is unchanged. */
  function WithProjectUpdated(ps: seq<Project>, id: Id, u: ProjectPatch, now: Time): (r: seq<Project>)
    ensures |r| == |ps|
    ensures forall i :: 0 <= i < |ps| && ps[i].id != id ==> r[i] == ps[i]
    ensures forall i :: 0 <= i < |ps| && ps[i].id == id ==> r[i] == PatchProject(ps[i], u, now)
  {
    seq(|ps|, i requires 0 <= i < |ps| => if ps[i].id == id then PatchProject(ps[i], u, now) else ps[i])
  }

  /** `updateTask`: the tasks with `id` get the patch and a new `updatedAt`;
      every other task is unchanged, and so is the number of tasks. */
  function WithTaskUpdated(ts: seq<Task>, id: Id, u: TaskPatch, now: Time): (r: seq<Task>)
    ensures |r| == |ts|
    ensures forall i :: 0 <= i < |ts| && ts[i].id != id ==> r[i] == ts[i]
    ensures forall i :: 0 <= i < |ts| && ts[i].id == id ==> r[i] == PatchTask(ts[i], u, now)
  {
    seq(|ts|, i requires 0 <= i < |ts| => if ts[i].id == id then PatchTask(ts[i], u, now) else ts[i])
  }

  /** `moveTask`: the tasks with `taskId` take status `s`, whatever their
      status was, and a new `updatedAt`; no other field and no other task
      changes. */
  function WithTaskMoved(ts: seq<Task>, taskId: Id, s: TaskStatus, now: Time): (r: seq<Task>)
    ensures |r| == |ts|
    ensures forall i :: 0 <= i < |ts| && ts[i].id != taskId ==> r[i] == ts[i]
    ensures forall i :: 0 <= i < |ts| && ts[i].id == taskId ==>
              r[i].status == s && r[i].updatedAt == now &&
              r[i].(status := ts[i].status, updatedAt := ts[i].updatedAt) == ts[i]
  {
    seq(|ts|, i requires 0 <= i < |ts| => if ts[i].id == taskId then ts[i].(status := s, updatedAt := now) else ts[i])
  }

  /** A move is the update whose patch holds only the new status. */
  lemma MoveIsStatusUpdate(ts: seq<Task>, taskId: Id, s: TaskStatus, now: Time)
    ensures WithTaskMoved(ts, taskId, s, now) == WithTaskUpdated(ts, taskId, StatusPatch(s), now)
  {
    var a, b := WithTaskMoved(ts, taskId, s, now), WithTaskUpdated(ts, taskId, StatusPatch(s), now);
    forall i | 0 <= i < |ts| ensures a[i] == b[i] {
      if ts[i].id == taskId {
        var t := ts[i];
        assert PatchTask(t, StatusPatch(s), now) == t.(status := s, updatedAt := now);
      }
    }
  }

  /** Moving a task keeps every task attached to its project. */
  lemma MoveKeepsReferences(ps: seq<Project>, ts: seq<Task>, taskId: Id, s: TaskStatus, now: Time)
    requires TasksReferenceProjects(ps, ts)
    ensures TasksReferenceProjects(ps, WithTaskMoved(ts, taskId, s, now))
  {
    var r := WithTaskMoved(ts, taskId, s, now);
    forall t | t in r ensures t.projectId in ProjectIds(ps) {
      var i :| 0 <= i < |r| && r[i] == t;
      assert ts[i] in ts;
    }
  }

  /** `updateTeamMember`: the members with `id` get the patch, no timestamp
      is touched, every other member is unchanged. */
  function WithMemberUpdated(ms: seq<TeamMember>, id: Id, u: MemberPatch): (r: seq<TeamMember>)
    ensures |r| == |ms|
    ensures forall i :: 0 <= i < |ms| && ms[i].id != id ==> r[i] == ms[i]
    ensures forall i :: 0 <= i < |ms| && ms[i].id == id ==> r[i] == PatchMember(ms[i], u)
  {
    seq(|ms|, i requires 0 <= i < |ms| => if ms[i].id == id then PatchMember(ms[i], u) else ms[i])
  }

  // ---------------------------------------------------------------------
  // Notifications
  // ---------------------------------------------------------------------

  /** `markNotificationRead`: the notifications with `id` become read. */
  function WithNotificationRead(ns: seq<Notification>, id: Id): (r: seq<Notification>)
    ensures |r| == |ns|
    ensures forall i :: 0 <= i < |ns| && ns[i].id != id ==> r[i] == ns[i]
    ensures forall i :: 0 <= i < |ns| && ns[i].id == id ==> r[i] == ns[i].(read := true)
  {
    seq(|ns|, i requires 0 <= i < |ns| => if ns[i].id == id then ns[i].(read := true) else ns[i])
  }

  /** `markAllNotificationsRead`: every notification becomes read, with the
      length, the order and every other field kept. */
  function AllRead(ns: seq<Notification>): (r: seq<Notification>)
    ensures |r| == |ns|
    ensures forall i :: 0 <= i < |ns| ==> r[i].read && r[i].(read := ns[i].read) == ns[i]
  {
    seq(|ns|, i requires 0 <= i < |ns| => ns[i].(read := true))
  }

  lemma AllReadIdempotent(ns: seq<Notification>)
    ensures AllRead(AllRead(ns)) == AllRead(ns)
  {
  }

  /** Marking the notifications read one identifier at a time. */
  function MarkEach(ns: seq<Notification>, ids: seq<Id>): seq<Notification>
    decreases |ids|
  {
    if ids == [] then ns else MarkEach(WithNotificationRead(ns, ids[0]), ids[1..])
  }

  lemma {:induction false} MarkEachLength(ns: seq<Notification>, ids: seq<Id>)
    ensures |MarkEach(ns, ids)| == |ns|
    decreases |ids|
  {
    if ids != [] {
      MarkEachLength(WithNotificationRead(ns, ids[0]), ids[1..]);
    }
  }

  lemma {:induction false} MarkEachAt(ns: seq<Notification>, ids: seq<Id>, i: nat)
    requires i < |ns|
    ensures |MarkEach(ns, ids)| == |ns|
    ensures MarkEach(ns, ids)[i] == if ns[i].id in ids then ns[i].(read := true) else ns[i]
    decreases |ids|
  {
    if ids != [] {
      var ns' := WithNotificationRead(ns, ids[0]);
      MarkEachAt(ns', ids[1..], i);
      assert ids == [ids[0]] + ids[1..];
    }
  }

  /** The identifiers of a notification list, in order. */
  function NotificationIds(ns: seq<Notification>): (r: seq<Id>)
    ensures |r| == |ns| && forall i :: 0 <= i < |ns| ==> r[i] == ns[i].id
  {
    seq(|ns|, i requires 0 <= i < |ns| => ns[i].id)
  }

  /** Marking all at once is the same as marking each notification read by
      its identifier. */
  lemma AllReadIsMarkEach(ns: seq<Notification>)
    ensures AllRead(ns) == MarkEach(ns, NotificationIds(ns))
  {
    var ids := NotificationIds(ns);
    var m := MarkEach(ns, ids);
    MarkEachLength(ns, ids);
    forall i | 0 <= i < |ns| ensures m[i] == AllRead(ns)[i] {
      MarkEachAt(ns, ids, i);
      assert ns[i].id == ids[i];
    }
  }

  // ---------------------------------------------------------------------
  // Records built by the add-actions
  // ---------------------------------------------------------------------

  /** The caller-supplied part of a project: everything but the identifier
      and the timestamps. */
  function ProjectDraftOf(p: Project): ProjectDraft {
    ProjectDraft(p.title, p.description, p.clientName, p.budget, p.startDate, p.deadline,
                 p.priority, p.status, p.members, p.createdBy)
  }

  function TaskDraftOf(t: Task): TaskDraft {
    TaskDraft(t.projectId, t.title, t.description, t.status, t.priority, t.assignees, t.tags,
              t.subtasks, t.dueDate, t.estimatedHours, t.timeSpent, t.comments, t.attachments,
              t.createdBy)
  }

  function MemberDraftOf(m: TeamMember): MemberDraft {
    MemberDraft(m.email, m.name, m.avatar, m.role)
  }

  function NotificationDraftOf(n: Notification): NotificationDraft {
    NotificationDraft(n.userId, n.kind, n.title, n.message, n.read, n.link)
  }

  /** `{ ...project, id, createdAt, updatedAt }`: the draft comes back out
      unchanged, and the store sets the identifier and both timestamps. */
  function NewProject(d: ProjectDraft, id: Id, now: Time): (p: Project)
    ensures ProjectDraftOf(p) == d
    ensures p.id == id && p.createdAt == now && p.updatedAt == now
  {
    Project(id, d.title, d.description, d.clientName, d.budget, d.startDate, d.deadline,
            d.priority, d.status, d.members, d.createdBy, now, now)
  }

  /** The identifier `addTask` gives a task: its project and the clock
      reading, `<projectId>-<now>`. */
  function TaskIdFor(projectId: Id, now: Time): (id: Id)
    ensures |id| > |projectId| + 1
    ensures id[..|projectId|] == projectId && id[|projectId|] == '-'
    ensures AllDigits(id[|projectId| + 1..])
  {
    var r := projectId + "-" + NatToDecimal(now);
    assert r[|projectId| + 1..] == NatToDecimal(now);
    r
  }

  /** Within one project, different clock readings give different task
      identifiers. */
  lemma TaskIdForInjective(projectId: Id, now1: Time, now2: Time)
    ensures TaskIdFor(projectId, now1) == TaskIdFor(projectId, now2) ==> now1 == now2
  {
    var a, b := TaskIdFor(projectId, now1), TaskIdFor(projectId, now2);
    if a == b {
      assert a[|projectId| + 1..] == NatToDecimal(now1);
      assert b[|projectId| + 1..] == NatToDecimal(now2);
      NatToDecimalInjective(now1, now2);
    }
  }

  function NewTask(d: TaskDraft, now: Time): (t: Task)
    ensures TaskDraftOf(t) == d
    ensures t.id == TaskIdFor(d.projectId, now) && t.createdAt == now && t.updatedAt == now
  {
    Task(TaskIdFor(d.projectId, now), d.projectId, d.title, d.description, d.status, d.priority,
         d.assignees, d.tags, d.subtasks, d.dueDate, d.estimatedHours, d.timeSpent,
         d.comments, d.attachments, d.createdBy, now, now)
  }

  /** An invited member always starts out pending. */
  function NewMember(d: MemberDraft, id: Id, now: Time): (m: TeamMember)
    ensures MemberDraftOf(m) == d
    ensures m.id == id && m.status == MemberStatus.Pending && m.joinedAt == now
  {
    TeamMember(id, d.email, d.name, d.avatar, d.role, MemberStatus.Pending, now)
  }

  function NewNotification(d: NotificationDraft, id: Id, now: Time): (n: Notification)
    ensures NotificationDraftOf(n) == d
    ensures n.id == id && n.createdAt == now
  {
    Notification(id, d.userId, d.kind, d.title, d.message, d.read, d.link, now)
  }

  /** A freshly built record is determined by its draft, its identifier and
      its timestamp: building from the parts of such a record gives it back. */
  lemma BuiltFromParts(p: Project, t: Task, m: TeamMember, n: Notification)
    ensures p.updatedAt == p.createdAt ==> NewProject(ProjectDraftOf(p), p.id, p.createdAt) == p
    ensures t.updatedAt == t.createdAt && t.id == TaskIdFor(t.projectId, t.createdAt) ==>
              NewTask(TaskDraftOf(t), t.createdAt) == t
    ensures m.status == MemberStatus.Pending ==> NewMember(MemberDraftOf(m), m.id, m.joinedAt) == m
    ensures NewNotification(NotificationDraftOf(n), n.id, n.createdAt) == n
  {
  }

  /** `toggleTheme`. */
  function Toggled(t: Theme): (r: Theme)
    ensures r != t
  {
    if t == Light then Dark else Light
  }
}
