/**
 * The study planner's task list: toggle, quick add, the edit picker and the
 * edit dialog, each guarded as in the screen, plus the completed count.
 */
module StudyPlanner {
  import opened Wrappers
  import opened Strings

  datatype PlannerTask = PlannerTask(title: string, subtitle: string, isDone: bool)

  /** The subtitle given to a task whose details were left blank. */
  const DEFAULT_SUBTITLE: string := "Custom task"

  // ---------------------------------------------------------------------
  // Pure rules
  // ---------------------------------------------------------------------

  /** `tasks.count { it.isDone }`. */
  function CompletedCount(tasks: seq<PlannerTask>): (n: nat)
    ensures n <= |tasks|
  {
    if tasks == [] then 0
    else CompletedCount(tasks[..|tasks| - 1]) + if tasks[|tasks| - 1].isDone then 1 else 0
  }

  /** The indices of the done tasks: an independent reference for the count. */
  ghost function DoneIndices(tasks: seq<PlannerTask>): set<nat> {
    set i: nat | i < |tasks| && tasks[i].isDone
  }

  /** The count is exactly the number of indices whose task is done. */
  lemma {:induction false} CompletedCountIsCardinality(tasks: seq<PlannerTask>)
    ensures CompletedCount(tasks) == |DoneIndices(tasks)|
  {
    if tasks != [] {
      var n := |tasks|;
      var prefix := tasks[..n - 1];
      CompletedCountIsCardinality(prefix);
      assert DoneIndices(prefix) == set i: nat | i < n - 1 && tasks[i].isDone;
      if tasks[n - 1].isDone {
        assert DoneIndices(tasks) == DoneIndices(prefix) + {n - 1};
      } else {
        assert DoneIndices(tasks) == DoneIndices(prefix);
      }
    }
  }

  /** "Custom task" has nothing to trim. */
  lemma DefaultSubtitleTrimmed()
    ensures Trim(DEFAULT_SUBTITLE) == DEFAULT_SUBTITLE && !IsBlank(DEFAULT_SUBTITLE)
  {
    var d := DEFAULT_SUBTITLE;
    assert d[0] == 'C' && d[|d| - 1] == 'k';
    TrimOfTrimmed(d);
  }

  /** Shared by add and edit: blank details become "Custom task", and the result is trimmed. */
  function SubtitleOrDefault(subtitle: string): (r: string)
    ensures IsBlank(subtitle) ==> r == DEFAULT_SUBTITLE
    ensures !IsBlank(subtitle) ==> r == Trim(subtitle)
    ensures !IsBlank(r)
  {
    if IsBlank(subtitle) then
      DefaultSubtitleTrimmed();
      Trim(DEFAULT_SUBTITLE)
    else
      TrimKeepsNonBlank(subtitle);
      Trim(subtitle)
  }

  /** The task the "Add" button appends, or None when the title is blank. */
  function NewTask(title: string, subtitle: string): (r: Option<PlannerTask>)
    ensures r.Some? <==> !IsBlank(title)
    ensures r.Some? ==> r.value.title == Trim(title) && !IsBlank(r.value.title)
    ensures r.Some? ==> r.value.subtitle == SubtitleOrDefault(subtitle) && !r.value.isDone
  {
    TrimKeepsNonBlank(title);
    if IsBlank(title) then None
    else Some(PlannerTask(Trim(title), SubtitleOrDefault(subtitle), false))
  }

  /** The task "Save" puts in place of `was`, or None when the new title is blank; `isDone` is kept. */
  function EditedTask(was: PlannerTask, title: string, subtitle: string): (r: Option<PlannerTask>)
    ensures r.Some? <==> !IsBlank(title)
    ensures r.Some? ==> r.value.title == Trim(title) && !IsBlank(r.value.title)
    ensures r.Some? ==> r.value.subtitle == SubtitleOrDefault(subtitle) && r.value.isDone == was.isDone
  {
    TrimKeepsNonBlank(title);
    if IsBlank(title) then None
    else Some(was.(title := Trim(title), subtitle := SubtitleOrDefault(subtitle)))
  }

  /** The toggle handler's `old.copy(isDone = !old.isDone)`. */
  function Toggled(t: PlannerTask): PlannerTask {
    t.(isDone := !t.isDone)
  }

  /** Flipping one task moves the completed count by exactly one, in the direction of the flip. */
  lemma {:induction false} ToggleMovesCompletedCount(tasks: seq<PlannerTask>, i: nat)
    requires i < |tasks|
    ensures CompletedCount(tasks[i := Toggled(tasks[i])]) ==
            if tasks[i].isDone then CompletedCount(tasks) - 1 else CompletedCount(tasks) + 1
  {
    var n := |tasks|;
    var t := tasks[i := Toggled(tasks[i])];
    if i == n - 1 {
      assert t[..n - 1] == tasks[..n - 1];
    } else {
      ToggleMovesCompletedCount(tasks[..n - 1], i);
      assert t[..n - 1] == tasks[..n - 1][i := Toggled(tasks[i])];
    }
  }

  /** Replacing a task by one with the same done flag keeps the completed count. */
  lemma {:induction false} SameFlagKeepsCompletedCount(tasks: seq<PlannerTask>, i: nat, t: PlannerTask)
    requires i < |tasks| && t.isDone == tasks[i].isDone
    ensures CompletedCount(tasks[i := t]) == CompletedCount(tasks)
  {
    var n := |tasks|;
    if i == n - 1 {
      assert tasks[i := t][..n - 1] == tasks[..n - 1];
    } else {
      SameFlagKeepsCompletedCount(tasks[..n - 1], i, t);
      assert tasks[i := t][..n - 1] == tasks[..n - 1][i := t];
    }
  }

  /** Appending a task adds one to the completed count only if that task is done. */
  lemma AppendCompletedCount(tasks: seq<PlannerTask>, t: PlannerTask)
    ensures CompletedCount(tasks + [t]) == CompletedCount(tasks) + if t.isDone then 1 else 0
  {
    assert (tasks + [t])[..|tasks|] == tasks;
  }

  /** Every task in the list was made by add or edit: its title and subtitle are non-blank. */
  ghost predicate TasksWellFormed(tasks: seq<PlannerTask>) {
    forall i | 0 <= i < |tasks| :: !IsBlank(tasks[i].title) && !IsBlank(tasks[i].subtitle)
  }

  /** Adding or replacing a task with non-blank fields keeps the list well formed. */
  lemma WellFormedAfterUpdate(tasks: seq<PlannerTask>, i: nat, t: PlannerTask)
    requires TasksWellFormed(tasks) && i <= |tasks|
    requires !IsBlank(t.title) && !IsBlank(t.subtitle)
    ensures i == |tasks| ==> TasksWellFormed(tasks + [t])
    ensures i < |tasks| ==> TasksWellFormed(tasks[i := t])
  {
  }

  // ---------------------------------------------------------------------
  // The screen's state
  // ---------------------------------------------------------------------

  /** The state variables of `StudyPlannerScreen`, with one method per handler. */
  class PlannerScreen {
    var tasks: seq<PlannerTask>
    var showAddDialog: bool
    var newTitle: string
    var newSubtitle: string
    var showEditPicker: bool
    var showEditDialog: bool
    var editTitle: string
    var editSubtitle: string
    var editingIndex: Option<nat>

    ghost predicate Valid()
      reads this
    {
      && TasksWellFormed(tasks)
      && (editingIndex.Some? ==> editingIndex.value < |tasks|)
    }

    /** Counts shown by the summary card. */
    function Counts(): (r: (nat, nat))
      reads this
      ensures r.0 <= r.1 == |tasks|
    {
      (CompletedCount(tasks), |tasks|)
    }

    constructor ()
      ensures Valid()
      ensures tasks == [] && Counts() == (0, 0)
      ensures !showAddDialog && newTitle == "" && newSubtitle == ""
      ensures !showEditPicker && !showEditDialog && editTitle == "" && editSubtitle == "" && editingIndex == None
    {
      tasks := [];
      showAddDialog, newTitle, newSubtitle := false, "", "";
      showEditPicker, showEditDialog := false, false;
      editTitle, editSubtitle, editingIndex := "", "", None;
    }

    /** Ticking a task's checkbox flips only that task's done flag. */
    method ToggleTask(index: nat)
      requires Valid() && index < |tasks|
      modifies this`tasks
      ensures Valid()
      ensures tasks == old(tasks)[index := Toggled(old(tasks)[index])]
      ensures Counts().0 == if old(tasks)[index].isDone then old(Counts().0) - 1 else old(Counts().0) + 1
    {
      ToggleMovesCompletedCount(tasks, index);
      tasks := tasks[index := Toggled(tasks[index])];
    }

    method OpenAddDialog()
      modifies this`showAddDialog
      ensures showAddDialog
    {
      showAddDialog := true;
    }

    method TypeNewTitle(s: string)
      modifies this`newTitle
      ensures newTitle == s
    {
      newTitle := s;
    }

    method TypeNewSubtitle(s: string)
      modifies this`newSubtitle
      ensures newSubtitle == s
    {
      newSubtitle := s;
    }

    /** "Add": append the new task when the title is non-blank, then reset the form and close. */
    method ConfirmAdd()
      requires Valid()
      modifies this`tasks, this`newTitle, this`newSubtitle, this`showAddDialog
      ensures Valid()
      ensures !IsBlank(old(newTitle)) ==> tasks == old(tasks) + [NewTask(old(newTitle), old(newSubtitle)).value]
      ensures IsBlank(old(newTitle)) ==> tasks == old(tasks)
      ensures Counts().0 == old(Counts().0)
      ensures newTitle == "" && newSubtitle == "" && !showAddDialog
    {
      var t := NewTask(newTitle, newSubtitle);
      if t.Some? {
        AppendCompletedCount(tasks, t.value);
        WellFormedAfterUpdate(tasks, |tasks|, t.value);
        tasks := tasks + [t.value];
      }
      newTitle := "";
      newSubtitle := "";
      showAddDialog := false;
    }

    /** "Cancel": discard the form and close. */
    method CancelAdd()
      modifies this`newTitle, this`newSubtitle, this`showAddDialog
      ensures newTitle == "" && newSubtitle == "" && !showAddDialog
    {
      newTitle := "";
      newSubtitle := "";
      showAddDialog := false;
    }

    /** Tapping outside the dialog closes it but keeps what was typed. */
    method DismissAdd()
      modifies this`showAddDialog
      ensures !showAddDialog
    {
      showAddDialog := false;
    }

    /** "Edit" opens the picker only when there is a task to edit. */
    method OpenEditPicker()
      modifies this`showEditPicker
      ensures showEditPicker == (old(showEditPicker) || |tasks| > 0)
    {
      if |tasks| > 0 {
        showEditPicker := true;
      }
    }

    /** "Close" or tapping outside the picker. */
    method CloseEditPicker()
      modifies this`showEditPicker
      ensures !showEditPicker
    {
      showEditPicker := false;
    }

    /** Picking a task copies it into the edit fields and opens the edit dialog. */
    method PickTask(index: nat)
      requires Valid() && index < |tasks|
      modifies this`editingIndex, this`editTitle, this`editSubtitle, this`showEditPicker, this`showEditDialog
      ensures Valid()
      ensures editingIndex == Some(index)
      ensures editTitle == tasks[index].title && editSubtitle == tasks[index].subtitle
      ensures !showEditPicker && showEditDialog
    {
      editingIndex := Some(index);
      editTitle := tasks[index].title;
      editSubtitle := tasks[index].subtitle;
      showEditPicker := false;
      showEditDialog := true;
    }

    method TypeEditTitle(s: string)
      modifies this`editTitle
      ensures editTitle == s
    {
      editTitle := s;
    }

    method TypeEditSubtitle(s: string)
      modifies this`editSubtitle
      ensures editSubtitle == s
    {
      editSubtitle := s;
    }

    /**
     * "Save": with a task picked and a non-blank title, replace that task's
     * title and subtitle (keeping its done flag); always close and forget the
     * pick.
     */
    method SaveEdit()
      requires Valid()
      modifies this`tasks, this`showEditDialog, this`editingIndex
      ensures Valid()
      ensures old(editingIndex).Some? && !IsBlank(editTitle) ==>
                var i := old(editingIndex).value;
                tasks == old(tasks)[i := EditedTask(old(tasks)[i], editTitle, editSubtitle).value]
      ensures old(editingIndex).None? || IsBlank(editTitle) ==> tasks == old(tasks)
      ensures |tasks| == |old(tasks)| && Counts().0 == old(Counts().0)
      ensures !showEditDialog && editingIndex == None
    {
      if editingIndex.Some? && !IsBlank(editTitle) {
        var i := editingIndex.value;
        var t := EditedTask(tasks[i], editTitle, editSubtitle).value;
        SameFlagKeepsCompletedCount(tasks, i, t);
        WellFormedAfterUpdate(tasks, i, t);
        tasks := tasks[i := t];
      }
      showEditDialog := false;
      editingIndex := None;
    }

    /** "Cancel" or tapping outside the edit dialog. */
    method CloseEditDialog()
      modifies this`showEditDialog, this`editingIndex
      ensures !showEditDialog && editingIndex == None
    {
      showEditDialog := false;
      editingIndex := None;
    }
  }
}
