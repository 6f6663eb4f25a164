/** The create/edit modal: its fields are pre-filled from the task being
    edited, a submit with a blank name is ignored, and a save is followed by
    closing the modal only when it succeeds. */
module TaskModal {
  import opened Types
  import opened Text

  /** The callbacks the modal invokes, in order. */
  datatype ModalEvent = Save(taskName: string, taskDescription: string) | Close

  class TaskModalState {
    var taskName: string
    var taskDescription: string
    var isLoading: bool

    constructor()
      ensures taskName == "" && taskDescription == "" && !isLoading
    {
      taskName := "";
      taskDescription := "";
      isLoading := false;
    }

    /** The effect run when the `task` prop changes: the fields show the
        task being edited, or are empty for a new task. */
    method Prefill(task: Option<Task>)
      modifies this
      ensures task.Some? ==> taskName == task.value.taskName && taskDescription == task.value.taskDescription
      ensures task.None? ==> taskName == "" && taskDescription == ""
      ensures isLoading == old(isLoading)
    {
      if task.Some? {
        taskName := task.value.taskName;
        taskDescription := task.value.taskDescription;
      } else {
        taskName := "";
        taskDescription := "";
      }
    }

    /** The submit button is disabled while saving and while the name is
        blank. */
    predicate SubmitDisabled()
      reads this
      ensures SubmitDisabled() <==> isLoading || IsBlank(taskName)
    {
      TrimEmptyIffBlank(taskName);
      isLoading || Trim(taskName) == ""
    }

    /** `handleSubmit`, given how `onSave` settles: a blank name does
        nothing; otherwise `onSave` gets the trimmed name and description,
        `onClose` follows only a successful save, and loading ends once the
        save has settled. The fields are left as they are. When not already
        saving, the handler ignores the submit exactly when the button is
        disabled, and a save that has not settled keeps the button disabled. */
    method HandleSubmit(saved: Promise<()>) returns (events: seq<ModalEvent>)
      modifies this
      ensures Trim(old(taskName)) == "" ==> events == [] && isLoading == old(isLoading)
      ensures Trim(old(taskName)) != "" ==>
                var save := Save(Trim(old(taskName)), Trim(old(taskDescription)));
                && (saved.Resolved? ==> events == [save, Close])
                && (!saved.Resolved? ==> events == [save])
                && (isLoading <==> saved.Pending?)
      ensures taskName == old(taskName) && taskDescription == old(taskDescription)
      ensures !old(isLoading) ==> (old(SubmitDisabled()) <==> events == [])
      ensures saved.Pending? && events != [] ==> SubmitDisabled()
    {
      var name := Trim(taskName);
      if name == "" {
        return [];
      }
      isLoading := true;
      events := [Save(name, Trim(taskDescription))];
      if saved.Resolved? {
        events := events + [Close];
      }
      if !saved.Pending? {
        isLoading := false;
      }
    }
  }
}
