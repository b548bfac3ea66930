/** The task detail dialog: the subtask checklist with its progress counts,
    and the comment box. The dialog is opened with the task as it was when
    its card was clicked, and both handlers build their update from that
    copy. */
module TaskDetail {
  import opened Types
  import opened Decimal
  import opened StoreOps
  import opened AppState
  import Kanban

  // Subtasks

  /** The checklist with `completed` flipped on every subtask whose
      identifier is `subtaskId`. */
  function ToggleSubtask(ss: seq<Subtask>, subtaskId: Id): (r: seq<Subtask>)
    ensures |r| == |ss|
    ensures forall i :: 0 <= i < |ss| ==> r[i].id == ss[i].id && r[i].title == ss[i].title
    ensures forall i :: 0 <= i < |ss| ==> (r[i].completed != ss[i].completed <==> ss[i].id == subtaskId)
  {
    seq(|ss|, i requires 0 <= i < |ss| =>
      if ss[i].id == subtaskId then ss[i].(completed := !ss[i].completed) else ss[i])
  }

  /** Toggling the same subtask twice gives the checklist back. */
  lemma ToggleTwice(ss: seq<Subtask>, subtaskId: Id)
    ensures ToggleSubtask(ToggleSubtask(ss, subtaskId), subtaskId) == ss
  {
    var once := ToggleSubtask(ss, subtaskId);
    var twice := ToggleSubtask(once, subtaskId);
    forall i | 0 <= i < |ss| ensures twice[i] == ss[i] {
      assert once[i].id == ss[i].id;
    }
  }

  /** The completed count the dialog shows. */
  function CompletedCount(t: Task): (r: nat)
    ensures r <= |t.subtasks|
  {
    |Filter((st: Subtask) => st.completed, t.subtasks)|
  }

  /** The dialog's completed count agrees with the board card's. */
  lemma CountsAgree(t: Task)
    ensures CompletedCount(t) == Kanban.CompletedSubtasks(t)
    ensures CompletedCount(t) <= |t.subtasks|
  {
    if t.subtasks == [] {
      assert Filter((st: Subtask) => st.completed, t.subtasks) == [];
    }
  }

  /** Toggling a subtask whose identifier is unique moves the completed
      count up by one if it was open and down by one if it was done. */
  lemma ToggleCount(ss: seq<Subtask>, k: nat)
    requires k < |ss|
    requires forall j :: 0 <= j < |ss| && ss[j].id == ss[k].id ==> j == k
    ensures var done := (st: Subtask) => st.completed;
      |Filter(done, ToggleSubtask(ss, ss[k].id))| ==
        if ss[k].completed then |Filter(done, ss)| - 1 else |Filter(done, ss)| + 1
  {
    var done := (st: Subtask) => st.completed;
    var r := ToggleSubtask(ss, ss[k].id);
    assert ss == ss[..k] + [ss[k]] + ss[k + 1..];
    assert r == r[..k] + [r[k]] + r[k + 1..];
    assert r[..k] == ss[..k];
    assert r[k + 1..] == ss[k + 1..];
    FilterAppend(done, ss[..k] + [ss[k]], ss[k + 1..]);
    FilterAppend(done, ss[..k], [ss[k]]);
    FilterAppend(done, r[..k] + [r[k]], r[k + 1..]);
    FilterAppend(done, r[..k], [r[k]]);
    assert Filter(done, [ss[k]]) == if ss[k].completed then [ss[k]] else [];
    assert Filter(done, [r[k]]) == if r[k].completed then [r[k]] else [];
  }

  // Comments

  /** The characters `String.prototype.trim` removes: white space and line
      terminators. */
  predicate IsJsWhitespace(c: char) {
    c == '\t' || c == '\n' || c == '\U{000B}' || c == '\U{000C}' || c == '\r' || c == ' ' ||
    c == '\U{00A0}' || c == '\U{1680}' || ('\U{2000}' <= c <= '\U{200A}') ||
    c == '\U{2028}' || c == '\U{2029}' || c == '\U{202F}' || c == '\U{205F}' ||
    c == '\U{3000}' || c == '\U{FEFF}'
  }

  function TrimStart(s: string): (r: string)
    ensures |r| <= |s| && r == s[|s| - |r|..]
    ensures r != [] ==> !IsJsWhitespace(r[0])
  {
    if s != [] && IsJsWhitespace(s[0]) then TrimStart(s[1..]) else s
  }

  function TrimEnd(s: string): (r: string)
    ensures |r| <= |s| && r == s[..|r|]
    ensures r != [] ==> !IsJsWhitespace(r[|r| - 1])
  {
    if s != [] && IsJsWhitespace(s[|s| - 1]) then TrimEnd(s[..|s| - 1]) else s
  }

  /** `String.prototype.trim`. */
  function Trim(s: string): (r: string)
    ensures |r| <= |s|
    ensures r != [] ==> !IsJsWhitespace(r[0]) && !IsJsWhitespace(r[|r| - 1])
  {
    TrimEnd(TrimStart(s))
  }

  predicate IsBlank(s: string) {
    forall i :: 0 <= i < |s| ==> IsJsWhitespace(s[i])
  }

  /** `trim()` leaves nothing exactly when the text is all white space. */
  lemma TrimEmptyIffBlank(s: string)
    ensures Trim(s) == "" <==> IsBlank(s)
  {
    TrimStartBlank(s);
    TrimEndEmpty(TrimStart(s));
  }

  lemma {:induction false} TrimStartBlank(s: string)
    ensures IsBlank(TrimStart(s)) <==> IsBlank(s)
  {
    if s != [] && IsJsWhitespace(s[0]) {
      TrimStartBlank(s[1..]);
      assert IsBlank(s) <==> IsBlank(s[1..]) by {
        if IsBlank(s[1..]) {
          forall i | 0 < i < |s| ensures IsJsWhitespace(s[i]) {
            assert s[i] == s[1..][i - 1];
          }
        }
      }
    }
  }

  lemma {:induction false} TrimEndEmpty(s: string)
    ensures TrimEnd(s) == "" <==> IsBlank(s)
  {
    if s != [] && IsJsWhitespace(s[|s| - 1]) {
      var front := s[..|s| - 1];
      TrimEndEmpty(front);
      assert IsBlank(s) <==> IsBlank(front) by {
        if IsBlank(front) {
          forall i | 0 <= i < |s| - 1 ensures IsJsWhitespace(s[i]) {
            assert s[i] == front[i];
          }
        }
      }
    } else if s != [] {
      assert !IsJsWhitespace(s[|s| - 1]);
    }
  }

  /** The comment identifier: the clock reading and a random suffix. */
  function CommentId(now: Time, salt: string): (id: Id)
    ensures |id| > |salt|
  {
    NatToDecimal(now) + "-" + salt
  }

  /** The comment a post creates: by user "1", with the text as typed and
      no mentions. */
  function NewComment(content: string, now: Time, salt: string): (c: Comment)
    ensures c.content == content && c.userId == "1" && c.mentions == [] && c.createdAt == now
  {
    Comment(CommentId(now, salt), "1", content, [], now)
  }

  // The stale copy: what two consecutive edits from the dialog leave behind

  /** The task the store holds under the dialog's identifier, or the dialog's
      copy when the store has none. */
  function Current(ts: seq<Task>, t: Task): (r: Task)
    ensures Kanban.FindTask(ts, t.id).Some? ==> r == Kanban.FindTask(ts, t.id).value
    ensures Kanban.FindTask(ts, t.id).None? ==> r == t
    ensures r.id == t.id
    ensures (exists u :: u in ts && u.id == t.id) ==> r in ts
  {
    Kanban.FindTask(ts, t.id).GetOr(t)
  }

  /** A patch that sets only the subtasks or only the comments leaves every
      other field but `updatedAt` as it was. */
  lemma ListPatches(t: Task, ss: seq<Subtask>, cs: seq<Comment>, now: Time)
    ensures PatchTask(t, SubtasksPatch(ss), now) == t.(subtasks := ss, updatedAt := now)
    ensures PatchTask(t, CommentsPatch(cs), now) == t.(comments := cs, updatedAt := now)
  {
  }

  /** With identifiers unique, the task at `i` is the one `find` returns. */
  lemma FindUnique(ts: seq<Task>, i: nat)
    requires i < |ts|
    requires forall j :: 0 <= j < |ts| && ts[j].id == ts[i].id ==> j == i
    ensures Kanban.FindTask(ts, ts[i].id) == Some(ts[i])
  {
    var r := Kanban.FindTask(ts, ts[i].id);
    assert ts[i] in ts;
    var k :| 0 <= k < |ts| && ts[k] == r.value;
  }

  /** As written: two comments posted from the same dialog both start from
      the dialog's copy, so the second replaces the first. */
  lemma StaleSecondCommentDropsFirst(ts: seq<Task>, i: nat, t: Task, c1: Comment, c2: Comment,
                                    now1: Time, now2: Time)
    requires i < |ts| && ts[i].id == t.id
    ensures var ts1 := WithTaskUpdated(ts, t.id, CommentsPatch(t.comments + [c1]), now1);
      var ts2 := WithTaskUpdated(ts1, t.id, CommentsPatch(t.comments + [c2]), now2);
      ts2[i].comments == t.comments + [c2] &&
      (c1 != c2 && c1 !in t.comments ==> c1 !in ts2[i].comments)
  {
    var ts1 := WithTaskUpdated(ts, t.id, CommentsPatch(t.comments + [c1]), now1);
    ListPatches(ts[i], [], t.comments + [c1], now1);
    assert ts1[i].id == t.id;
    ListPatches(ts1[i], [], t.comments + [c2], now2);
  }

  /** As written: toggling the same subtask twice from the same dialog sets
      it the same way both times instead of undoing the first toggle. */
  lemma StaleToggleDoesNotUndo(ts: seq<Task>, i: nat, t: Task, subtaskId: Id, now1: Time, now2: Time)
    requires i < |ts| && ts[i].id == t.id
    ensures var ts1 := WithTaskUpdated(ts, t.id, SubtasksPatch(ToggleSubtask(t.subtasks, subtaskId)), now1);
      var ts2 := WithTaskUpdated(ts1, t.id, SubtasksPatch(ToggleSubtask(t.subtasks, subtaskId)), now2);
      ts2[i].subtasks == ToggleSubtask(t.subtasks, subtaskId) &&
      ((exists k :: 0 <= k < |t.subtasks| && t.subtasks[k].id == subtaskId) ==> ts2[i].subtasks != t.subtasks)
  {
    var ss := ToggleSubtask(t.subtasks, subtaskId);
    var ts1 := WithTaskUpdated(ts, t.id, SubtasksPatch(ss), now1);
    ListPatches(ts[i], ss, [], now1);
    assert ts1[i].id == t.id;
    ListPatches(ts1[i], ss, [], now2);
    if exists k :: 0 <= k < |t.subtasks| && t.subtasks[k].id == subtaskId {
      var k :| 0 <= k < |t.subtasks| && t.subtasks[k].id == subtaskId;
      assert ss[k].completed != t.subtasks[k].completed;
    }
  }

  /** Corrected: reading the task from the store before each post keeps
      both comments, in the order they were posted. */
  lemma LiveCommentsAccumulate(ts: seq<Task>, i: nat, t: Task, c1: Comment, c2: Comment,
                               now1: Time, now2: Time)
    requires i < |ts| && ts[i].id == t.id
    requires forall j :: 0 <= j < |ts| && ts[j].id == t.id ==> j == i
    ensures var ts1 := WithTaskUpdated(ts, t.id, CommentsPatch(Current(ts, t).comments + [c1]), now1);
      var ts2 := WithTaskUpdated(ts1, t.id, CommentsPatch(Current(ts1, t).comments + [c2]), now2);
      ts2[i].comments == ts[i].comments + [c1, c2]
  {
    FindUnique(ts, i);
    var ts1 := WithTaskUpdated(ts, t.id, CommentsPatch(ts[i].comments + [c1]), now1);
    ListPatches(ts[i], [], ts[i].comments + [c1], now1);
    assert forall j :: 0 <= j < |ts1| && ts1[j].id == ts1[i].id ==> j == i;
    FindUnique(ts1, i);
    ListPatches(ts1[i], [], ts1[i].comments + [c2], now2);
  }

  /** Corrected: reading the task from the store before each toggle makes a
      second toggle of the same subtask undo the first. */
  lemma LiveToggleTwiceRestores(ts: seq<Task>, i: nat, t: Task, subtaskId: Id, now1: Time, now2: Time)
    requires i < |ts| && ts[i].id == t.id
    requires forall j :: 0 <= j < |ts| && ts[j].id == t.id ==> j == i
    ensures var ts1 := WithTaskUpdated(ts, t.id, SubtasksPatch(ToggleSubtask(Current(ts, t).subtasks, subtaskId)), now1);
      var ts2 := WithTaskUpdated(ts1, t.id, SubtasksPatch(ToggleSubtask(Current(ts1, t).subtasks, subtaskId)), now2);
      ts2[i].subtasks == ts[i].subtasks
  {
    FindUnique(ts, i);
    var ss := ToggleSubtask(ts[i].subtasks, subtaskId);
    var ts1 := WithTaskUpdated(ts, t.id, SubtasksPatch(ss), now1);
    ListPatches(ts[i], ss, [], now1);
    assert forall j :: 0 <= j < |ts1| && ts1[j].id == ts1[i].id ==> j == i;
    FindUnique(ts1, i);
    ListPatches(ts1[i], ToggleSubtask(ss, subtaskId), [], now2);
    ToggleTwice(ts[i].subtasks, subtaskId);
  }

  /** The dialog's state: the task it was opened with, and the comment
      being typed. */
  class TaskModal {
    const task: Task
    var newComment: string

    /** Opened from a card with the task as it was at the click. */
    constructor (task: Task)
      ensures this.task == task && newComment == ""
    {
      this.task := task;
      newComment := "";
    }

    /** The comment box's `onChange`. */
    method SetNewComment(text: string)
      modifies this`newComment
      ensures newComment == text
    {
      newComment := text;
    }

    /** `handleSubtaskToggle` as written: flips the subtask in the dialog's
        copy of the checklist and stores that list. */
    method HandleSubtaskToggle(store: AppStore, subtaskId: Id, now: Time)
      modifies store`tasks
      ensures store.tasks ==
                WithTaskUpdated(old(store.tasks), task.id, SubtasksPatch(ToggleSubtask(task.subtasks, subtaskId)), now)
    {
      var updatedSubtasks := ToggleSubtask(task.subtasks, subtaskId);
      store.UpdateTask(task.id, SubtasksPatch(updatedSubtasks), now);
    }

    /** `handleAddComment` as written: nothing happens for a blank comment;
        otherwise the new comment is appended to the dialog's copy of the
        comments, that list is stored, and the box is cleared. */
    method HandleAddComment(store: AppStore, now: Time, salt: string)
      modifies store`tasks, this`newComment
      ensures IsBlank(old(newComment)) ==> store.tasks == old(store.tasks) && newComment == old(newComment)
      ensures !IsBlank(old(newComment)) ==>
                store.tasks == WithTaskUpdated(old(store.tasks), task.id,
                                 CommentsPatch(task.comments + [NewComment(old(newComment), now, salt)]), now) &&
                newComment == ""
    {
      TrimEmptyIffBlank(newComment);
      if Trim(newComment) == "" {
        return;
      }
      var comment := NewComment(newComment, now, salt);
      store.UpdateTask(task.id, CommentsPatch(task.comments + [comment]), now);
      newComment := "";
    }

    /** `handleDelete`: removes the task when the user confirms the prompt,
        whose answer is `confirmed`; returns whether the dialog closes. */
    method HandleDelete(store: AppStore, confirmed: bool) returns (closes: bool)
      modifies store`tasks
      ensures closes == confirmed
      ensures confirmed ==> store.tasks == TasksWithout(old(store.tasks), task.id)
      ensures !confirmed ==> store.tasks == old(store.tasks)
    {
      closes := false;
      if confirmed {
        store.DeleteTask(task.id);
        closes := true;
      }
    }

    /** Corrected `handleSubtaskToggle`: flips the subtask in the store's
        current checklist for the task. */
    method HandleSubtaskToggleLive(store: AppStore, subtaskId: Id, now: Time)
      modifies store`tasks
      ensures store.tasks ==
                WithTaskUpdated(old(store.tasks), task.id,
                                SubtasksPatch(ToggleSubtask(Current(old(store.tasks), task).subtasks, subtaskId)), now)
    {
      var current := Current(store.tasks, task);
      store.UpdateTask(task.id, SubtasksPatch(ToggleSubtask(current.subtasks, subtaskId)), now);
    }

    /** Corrected `handleAddComment`: appends to the store's current comments
        for the task. */
    method HandleAddCommentLive(store: AppStore, now: Time, salt: string)
      modifies store`tasks, this`newComment
      ensures IsBlank(old(newComment)) ==> store.tasks == old(store.tasks) && newComment == old(newComment)
      ensures !IsBlank(old(newComment)) ==>
                store.tasks == WithTaskUpdated(old(store.tasks), task.id,
                                 CommentsPatch(Current(old(store.tasks), task).comments +
                                               [NewComment(old(newComment), now, salt)]), now) &&
                newComment == ""
    {
      TrimEmptyIffBlank(newComment);
      if Trim(newComment) == "" {
        return;
      }
      var current := Current(store.tasks, task);
      var comment := NewComment(newComment, now, salt);
      store.UpdateTask(task.id, CommentsPatch(current.comments + [comment]), now);
      newComment := "";
    }
  }
}
