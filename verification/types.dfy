/** The entities of the task-management store: users, team members,
    projects, tasks with their subtasks and comments, and notifications.
    Identifiers are strings, as in the application; timestamps are readings
    of an abstract clock (milliseconds since the epoch). */
module Types {

  datatype Option<+T> = None | Some(value: T) {
    function GetOr(default: T): T {
      match this
      case Some(v) => v
      case None => default
    }
  }

  /** The field merge of `{ ...x, ...updates }`: `merged` is the update's
      value when the update sets the field, and `was` otherwise. */
  predicate Overrides<T(==)>(update: Option<T>, was: T, merged: T) {
    (update.Some? ==> merged == update.value) && (update.None? ==> merged == was)
  }

  /** The same for a field that is itself optional. */
  predicate OverridesOptional<T(==)>(update: Option<T>, was: Option<T>, merged: Option<T>) {
    (update.Some? ==> merged == update) && (update.None? ==> merged == was)
  }

  type Id = string

  /** A clock reading in milliseconds since the epoch (`Date.now()`); an ISO
      timestamp string stands for the same instant. */
  type Time = nat

  datatype Role = Admin | Manager | Member

  datatype Priority = Low | Medium | High | Critical

  /** The six kanban lanes. */
  datatype TaskStatus = Backlog | Todo | InProgress | Review | Testing | Completed

  datatype ProjectStatus = Planning | Active | OnHold | Completed | Archived

  datatype MemberStatus = Active | Pending | Inactive

  datatype Theme = Light | Dark

  /** The string value the application uses for each task status; kanban
      columns and drop targets are identified by these strings. */
  function StatusName(s: TaskStatus): (r: string)
    ensures |r| > 0
  {
    match s
    case Backlog => "backlog"
    case Todo => "todo"
    case InProgress => "in-progress"
    case Review => "review"
    case Testing => "testing"
    case Completed => "completed"
  }

  datatype User = User(
    id: Id,
    email: string,
    name: string,
    avatar: Option<string>,
    role: Role,
    createdAt: Time)

  datatype TeamMember = TeamMember(
    id: Id,
    email: string,
    name: string,
    avatar: Option<string>,
    role: Role,
    status: MemberStatus,
    joinedAt: Time)

  datatype Project = Project(
    id: Id,
    title: string,
    description: string,
    clientName: Option<string>,
    budget: Option<int>,
    startDate: string,
    deadline: string,
    priority: Priority,
    status: ProjectStatus,
    members: seq<Id>,
    createdBy: Id,
    createdAt: Time,
    updatedAt: Time)

  datatype Subtask = Subtask(id: Id, title: string, completed: bool)

  datatype Comment = Comment(
    id: Id,
    userId: Id,
    content: string,
    mentions: seq<Id>,
    createdAt: Time)

  datatype Attachment = Attachment(
    id: Id,
    name: string,
    url: string,
    mimeType: string,
    size: int,
    uploadedBy: Id,
    uploadedAt: Time)

  datatype Task = Task(
    id: Id,
    projectId: Id,
    title: string,
    description: string,
    status: TaskStatus,
    priority: Priority,
    assignees: seq<Id>,
    tags: seq<string>,
    subtasks: seq<Subtask>,
    dueDate: Option<string>,
    estimatedHours: Option<int>,
    timeSpent: Option<int>,
    comments: seq<Comment>,
    attachments: seq<Attachment>,
    createdBy: Id,
    createdAt: Time,
    updatedAt: Time)

  /** Notification types; `CommentNote` is the type the application calls 'comment'. */
  datatype NotificationKind =
    | Mention | Assignment | CommentNote | Deadline | StatusChange
    | Warning | Announcement | Complaint

  /** A notification; a `userId` of "all" marks a broadcast. */
  datatype Notification = Notification(
    id: Id,
    userId: Id,
    kind: NotificationKind,
    title: string,
    message: string,
    read: bool,
    link: Option<string>,
    createdAt: Time)

  /** What callers pass to the add-actions: the entity without the fields the
      store assigns itself (id and timestamps, and a member's status). */
  datatype ProjectDraft = ProjectDraft(
    title: string,
    description: string,
    clientName: Option<string>,
    budget: Option<int>,
    startDate: string,
    deadline: string,
    priority: Priority,
    status: ProjectStatus,
    members: seq<Id>,
    createdBy: Id)

  datatype TaskDraft = TaskDraft(
    projectId: Id,
    title: string,
    description: string,
    status: TaskStatus,
    priority: Priority,
    assignees: seq<Id>,
    tags: seq<string>,
    subtasks: seq<Subtask>,
    dueDate: Option<string>,
    estimatedHours: Option<int>,
    timeSpent: Option<int>,
    comments: seq<Comment>,
    attachments: seq<Attachment>,
    createdBy: Id)

  datatype MemberDraft = MemberDraft(
    email: string,
    name: string,
    avatar: Option<string>,
    role: Role)

  datatype NotificationDraft = NotificationDraft(
    userId: Id,
    kind: NotificationKind,
    title: string,
    message: string,
    read: bool,
    link: Option<string>)
}
