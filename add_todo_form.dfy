/** The add-todo form of `src/components/todos/add-todo-form.tsx`: its `title`,
    `description` and `isExpanded` state, the submit validation and the cancel
    button. */
module AddTodoForm {
  import opened Common
  import opened JsString

  datatype FormState = FormState(title: string, description: string, isExpanded: bool)

  /** The state on mount, and after a submit or a cancel. */
  const Collapsed := FormState("", "", false)

  /** The arguments `onAdd` receives. */
  datatype Submission = Submission(title: string, description: Option<string>)

  datatype SubmitStep = SubmitStep(state: FormState, added: Option<Submission>)

  datatype CancelStep = CancelStep(state: FormState, cancelCalled: bool)

  /** `description.trim() || undefined`. */
  function OptionalTrimmed(s: string): (r: Option<string>)
    ensures r.None? <==> AllWhitespace(s)
    ensures r.Some? ==> r.value == Trim(s) && r.value != [] && IsTrimmed(r.value)
  {
    var t := Trim(s);
    if t == [] then None else Some(t)
  }

  /** `handleSubmit`: a title that is blank after trimming is refused and nothing
      changes; otherwise `onAdd` gets the trimmed values and the form resets. */
  function OnSubmit(s: FormState): (o: SubmitStep)
    ensures o.added.None? <==> AllWhitespace(s.title)
    ensures o.added.None? ==> o.state == s
    ensures o.added.Some? ==> o.state == Collapsed
    ensures o.added.Some? ==>
              o.added.value.title == Trim(s.title) && o.added.value.title != [] && IsTrimmed(o.added.value.title)
    ensures o.added.Some? ==> o.added.value.description == OptionalTrimmed(s.description)
  {
    var title := Trim(s.title);
    if title != [] then SubmitStep(Collapsed, Some(Submission(title, OptionalTrimmed(s.description))))
    else SubmitStep(s, None)
  }

  /** Whatever whitespace surrounds the typed title and description, `onAdd`
      receives exactly the text between it. */
  lemma SubmitStripsPadding(a: string, title: string, b: string, c: string, description: string, d: string, expanded: bool)
    requires AllWhitespace(a) && AllWhitespace(b) && AllWhitespace(c) && AllWhitespace(d)
    requires title != [] && IsTrimmed(title) && IsTrimmed(description)
    ensures OnSubmit(FormState(a + title + b, c + description + d, expanded)).added ==
              Some(Submission(title, if description == [] then None else Some(description)))
  {
    TrimPadded(a, title, b);
    TrimPadded(c, description, d);
  }

  /** The cancel button: the form clears and collapses, and `onCancel` is called when given. */
  function OnCancel(s: FormState, hasOnCancel: bool): (o: CancelStep)
    ensures o.state == Collapsed && o.cancelCalled == hasOnCancel
  {
    CancelStep(Collapsed, hasOnCancel)
  }

  /** The component's state variables. */
  class Form {
    var title: string
    var description: string
    var isExpanded: bool

    function State(): FormState
      reads this
    {
      FormState(title, description, isExpanded)
    }

    constructor ()
      ensures State() == Collapsed
    {
      title, description, isExpanded := "", "", false;
    }

    /** The "Add Todo" button shown while collapsed. */
    method Expand()
      modifies this
      ensures State() == old(State()).(isExpanded := true)
    {
      isExpanded := true;
    }

    /** The title input's `onChange`. */
    method SetTitle(text: string)
      modifies this
      ensures State() == old(State()).(title := text)
    {
      title := text;
    }

    /** The description textarea's `onChange`. */
    method SetDescription(text: string)
      modifies this
      ensures State() == old(State()).(description := text)
    {
      description := text;
    }

    /** `handleSubmit`; `onAdd` is called with `added` when it is `Some`. */
    method Submit() returns (added: Option<Submission>)
      modifies this
      ensures State() == OnSubmit(old(State())).state
      ensures added == OnSubmit(old(State())).added
    {
      var t := Trim(title);
      if t != [] {
        added := Some(Submission(t, OptionalTrimmed(description)));
        title, description, isExpanded := "", "", false;
      } else {
        added := None;
      }
    }

    /** The cancel button; `cancelCalled` says whether `onCancel` ran. */
    method Cancel(hasOnCancel: bool) returns (cancelCalled: bool)
      modifies this
      ensures State() == OnCancel(old(State()), hasOnCancel).state
      ensures cancelCalled == OnCancel(old(State()), hasOnCancel).cancelCalled
    {
      isExpanded := false;
      title := "";
      description := "";
      cancelCalled := hasOnCancel;
    }
  }
}
