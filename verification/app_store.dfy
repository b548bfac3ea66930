/** The application store (`useAppStore`): the in-memory collections of
    projects, tasks, notifications and team members, and the colour theme.
    Each action replaces one or two collections with a value computed in
    `StoreOps`; nothing else in the store changes. Clock readings and the
    random suffixes of generated identifiers are parameters. */
module AppState {
  import opened Types
  import opened StoreOps
  import opened Ids

  class AppStore {
    var projects: seq<Project>
    var tasks: seq<Task>
    var notifications: seq<Notification>
    var teamMembers: seq<TeamMember>
    var theme: Theme

    /** The initial state: empty collections and the dark theme. */
    constructor ()
      ensures projects == [] && tasks == [] && notifications == [] && teamMembers == []
      ensures theme == Dark
    {
      projects, tasks, notifications, teamMembers := [], [], [], [];
      theme := Dark;
    }

    // Projects

    /** `addProject`: appends the draft with a fresh identifier and both
        timestamps set to the clock reading. */
    method AddProject(gen: IdGenerator, draft: ProjectDraft, now: Time, salt: string)
      requires gen.Valid()
      modifies this`projects, gen
      ensures gen.Valid() && gen.counter == old(gen.counter) + 1
      ensures projects == old(projects) + [NewProject(draft, UniqueId(now, gen.counter, salt), now)]
      ensures projects[|projects| - 1].id !in old(gen.issued)
      ensures gen.issued == old(gen.issued) + {projects[|projects| - 1].id}
    {
      var id := gen.Next(now, salt);
      projects := projects + [NewProject(draft, id, now)];
    }

    method UpdateProject(id: Id, u: ProjectPatch, now: Time)
      modifies this`projects
      ensures projects == WithProjectUpdated(old(projects), id, u, now)
    {
      projects := WithProjectUpdated(projects, id, u, now);
    }

    /** `deleteProject`: removes the project and, in the same update, every
        task of that project. */
    method DeleteProject(id: Id)
      modifies this`projects, this`tasks
      ensures projects == ProjectsWithout(old(projects), id)
      ensures tasks == TasksOutside(old(tasks), id)
      ensures forall t :: t in tasks ==> t.projectId != id
      ensures TasksReferenceProjects(old(projects), old(tasks)) ==> TasksReferenceProjects(projects, tasks)
    {
      if TasksReferenceProjects(projects, tasks) {
        DeleteProjectKeepsReferences(projects, tasks, id);
      }
      projects, tasks := ProjectsWithout(projects, id), TasksOutside(tasks, id);
    }

    // Tasks

    /** `addTask`: appends the draft under the identifier
        `<projectId>-<now>`; the project is not checked. */
    method AddTask(draft: TaskDraft, now: Time)
      modifies this`tasks
      ensures tasks == old(tasks) + [NewTask(draft, now)]
    {
      tasks := tasks + [NewTask(draft, now)];
    }

    method UpdateTask(id: Id, u: TaskPatch, now: Time)
      modifies this`tasks
      ensures tasks == WithTaskUpdated(old(tasks), id, u, now)
    {
      tasks := WithTaskUpdated(tasks, id, u, now);
    }

    method DeleteTask(id: Id)
      modifies this`tasks
      ensures tasks == TasksWithout(old(tasks), id)
    {
      tasks := TasksWithout(tasks, id);
    }

    /** `moveTask`: any status to any status, no workflow check. */
    method MoveTask(taskId: Id, s: TaskStatus, now: Time)
      modifies this`tasks
      ensures tasks == WithTaskMoved(old(tasks), taskId, s, now)
      ensures TasksReferenceProjects(projects, old(tasks)) ==> TasksReferenceProjects(projects, tasks)
    {
      if TasksReferenceProjects(projects, tasks) {
        MoveKeepsReferences(projects, tasks, taskId, s, now);
      }
      tasks := WithTaskMoved(tasks, taskId, s, now);
    }

    // Team members

    /** `addTeamMember`: appends one invited member, always pending. */
    method AddTeamMember(gen: IdGenerator, draft: MemberDraft, now: Time, salt: string)
      requires gen.Valid()
      modifies this`teamMembers, gen
      ensures gen.Valid() && gen.counter == old(gen.counter) + 1
      ensures teamMembers == old(teamMembers) + [NewMember(draft, UniqueId(now, gen.counter, salt), now)]
      ensures teamMembers[|teamMembers| - 1].status == MemberStatus.Pending
      ensures teamMembers[|teamMembers| - 1].id !in old(gen.issued)
      ensures gen.issued == old(gen.issued) + {teamMembers[|teamMembers| - 1].id}
    {
      var id := gen.Next(now, salt);
      teamMembers := teamMembers + [NewMember(draft, id, now)];
    }

    method UpdateTeamMember(id: Id, u: MemberPatch)
      modifies this`teamMembers
      ensures teamMembers == WithMemberUpdated(old(teamMembers), id, u)
    {
      teamMembers := WithMemberUpdated(teamMembers, id, u);
    }

    method RemoveTeamMember(id: Id)
      modifies this`teamMembers
      ensures teamMembers == MembersWithout(old(teamMembers), id)
    {
      teamMembers := MembersWithout(teamMembers, id);
    }

    // Notifications

    /** `addNotification`: the new notification goes first, newest-first. */
    method AddNotification(gen: IdGenerator, draft: NotificationDraft, now: Time, salt: string)
      requires gen.Valid()
      modifies this`notifications, gen
      ensures gen.Valid() && gen.counter == old(gen.counter) + 1
      ensures |notifications| == |old(notifications)| + 1
      ensures notifications[0] == NewNotification(draft, UniqueId(now, gen.counter, salt), now)
      ensures notifications[1..] == old(notifications)
      ensures notifications[0].id !in old(gen.issued)
      ensures gen.issued == old(gen.issued) + {notifications[0].id}
    {
      var id := gen.Next(now, salt);
      notifications := [NewNotification(draft, id, now)] + notifications;
    }

    method MarkNotificationRead(id: Id)
      modifies this`notifications
      ensures notifications == WithNotificationRead(old(notifications), id)
    {
      notifications := WithNotificationRead(notifications, id);
    }

    method MarkAllNotificationsRead()
      modifies this`notifications
      ensures notifications == AllRead(old(notifications))
    {
      notifications := AllRead(notifications);
    }

    // Theme

    method ToggleTheme()
      modifies this`theme
      ensures theme == Toggled(old(theme))
    {
      theme := Toggled(theme);
    }
  }
}
