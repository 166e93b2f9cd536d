/** The add-task modal of `src/components/modals/add-task-modal.tsx`: the
    `taskTitle` field, its reset when the modal opens, the submit validation
    and the Escape key. `isOpen` is a prop: the modal asks its parent to close
    by calling `onClose`, and the parent answers by changing `isOpen`. */
module AddTaskModal {
  import opened Common
  import opened JsString

  datatype ModalState = ModalState(isOpen: bool, taskTitle: string)

  /** The next state, the title passed to `onAdd` if it was called, and whether `onClose` was called. */
  datatype SubmitStep = SubmitStep(state: ModalState, added: Option<string>, closeCalled: bool)

  datatype Key = Escape | OtherKey

  /** A new `isOpen` prop, followed by the effect on `[isOpen]`: when the modal
      becomes open the title is cleared. */
  function OnOpenChange(s: ModalState, open: bool): (r: ModalState)
    ensures r.isOpen == open
    ensures open && !s.isOpen ==> r.taskTitle == ""
    ensures !(open && !s.isOpen) ==> r.taskTitle == s.taskTitle
  {
    if open && !s.isOpen then ModalState(true, "") else s.(isOpen := open)
  }

  /** `handleSubmit`: a blank title calls neither `onAdd` nor `onClose` and
      changes nothing; otherwise `onAdd` gets the trimmed title, the field is
      cleared and `onClose` is called. */
  function OnSubmit(s: ModalState): (o: SubmitStep)
    ensures o.added.None? <==> AllWhitespace(s.taskTitle)
    ensures o.added.None? ==> o.state == s && !o.closeCalled
    ensures o.added.Some? ==> o.closeCalled && o.state == s.(taskTitle := "")
    ensures o.added.Some? ==> o.added.value == Trim(s.taskTitle) && o.added.value != [] && IsTrimmed(o.added.value)
  {
    var t := Trim(s.taskTitle);
    if t != [] then SubmitStep(s.(taskTitle := ""), Some(t), true) else SubmitStep(s, None, false)
  }

  /** Whatever whitespace surrounds the typed title, `onAdd` receives the text between it. */
  lemma SubmitStripsPadding(isOpen: bool, a: string, title: string, b: string)
    requires AllWhitespace(a) && AllWhitespace(b)
    requires title != [] && IsTrimmed(title)
    ensures OnSubmit(ModalState(isOpen, a + title + b)).added == Some(title)
  {
    TrimPadded(a, title, b);
  }

  /** `handleEscape`: the document listener calls `onClose` for Escape, and only while open. */
  function EscapeCallsClose(s: ModalState, key: Key): (b: bool)
    ensures b <==> key == Escape && s.isOpen
  {
    key == Escape && s.isOpen
  }

  /** The modal's `isOpen` prop and its `taskTitle` state. */
  class Modal {
    var isOpen: bool
    var taskTitle: string

    function State(): ModalState
      reads this
    {
      ModalState(isOpen, taskTitle)
    }

    /** Mounting; the effect's reset leaves the initial empty title as it is. */
    constructor (isOpen: bool)
      ensures State() == ModalState(isOpen, "")
    {
      this.isOpen := isOpen;
      taskTitle := "";
    }

    /** The parent renders the modal with a new `isOpen`. */
    method SetIsOpen(open: bool)
      modifies this
      ensures State() == OnOpenChange(old(State()), open)
    {
      var wasOpen := isOpen;
      isOpen := open;
      if open && !wasOpen {
        taskTitle := "";
      }
    }

    /** The title input's `onChange`. */
    method SetTitle(text: string)
      modifies this
      ensures State() == old(State()).(taskTitle := text)
    {
      taskTitle := text;
    }

    /** `handleSubmit`. */
    method Submit() returns (added: Option<string>, closeCalled: bool)
      modifies this
      ensures State() == OnSubmit(old(State())).state
      ensures added == OnSubmit(old(State())).added && closeCalled == OnSubmit(old(State())).closeCalled
    {
      added, closeCalled := None, false;
      var t := Trim(taskTitle);
      if t != [] {
        added := Some(t);
        taskTitle := "";
        closeCalled := true;
      }
    }

    /** A key press anywhere in the document. */
    method KeyDown(key: Key) returns (closeCalled: bool)
      ensures closeCalled == EscapeCallsClose(State(), key)
    {
      closeCalled := key == Escape && isOpen;
    }
  }
}
