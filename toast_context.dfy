/** The toast list of `src/contexts/toast-context.tsx`: adding a toast with its
    default duration, removing toasts by id, and the four typed shortcuts. */
module ToastContext {
  import opened Common

  datatype ToastType = Success | Error | Warning | Info

  /** What `showToast` receives: a toast without its id; `duration` may be missing. */
  datatype ToastInput = ToastInput(kind: ToastType, title: string, message: Option<string>, duration: Option<int>)

  /** A toast in the list; `showToast` always fills in the duration (milliseconds). */
  datatype Toast = Toast(id: string, kind: ToastType, title: string, message: Option<string>, duration: int)

  const DefaultDuration: int := 5000

  /** `{ ...toast, id, duration: toast.duration ?? 5000 }`: only a missing
      duration is defaulted, so an explicit 0 is kept. */
  function NewToast(input: ToastInput, id: string): (t: Toast)
    ensures t.id == id && t.kind == input.kind && t.title == input.title && t.message == input.message
    ensures input.duration.None? ==> t.duration == DefaultDuration
    ensures input.duration.Some? ==> t.duration == input.duration.value
  {
    Toast(id, input.kind, input.title, input.message,
          match input.duration case Some(d) => d case None => DefaultDuration)
  }

  /** `newToast.duration && newToast.duration > 0`: whether a removal timer is set. */
  function SchedulesRemoval(t: Toast): (b: bool)
    ensures b <==> t.duration > 0
  {
    t.duration != 0 && t.duration > 0
  }

  /** The list update of `showToast`: `[...prev, newToast]`. */
  function AddToast(ts: seq<Toast>, input: ToastInput, id: string): (r: seq<Toast>)
    ensures |r| == |ts| + 1 && r[..|ts|] == ts && r[|ts|] == NewToast(input, id)
  {
    ts + [NewToast(input, id)]
  }

  /** The list update of `removeToast`: `prev.filter((toast) => toast.id !== id)`. */
  function RemoveToasts(ts: seq<Toast>, id: string): (r: seq<Toast>)
    ensures forall t :: t in r <==> t in ts && t.id != id
  {
    Filter((t: Toast) => t.id != id, ts)
  }

  /** Removal keeps every other toast, as often as before and in the same order,
      and removing an id that is not in the list changes nothing. */
  lemma RemoveToastsSpec(ts: seq<Toast>, more: seq<Toast>, id: string, t: Toast)
    ensures multiset(RemoveToasts(ts, id))[t] == if t.id == id then 0 else multiset(ts)[t]
    ensures RemoveToasts(ts + more, id) == RemoveToasts(ts, id) + RemoveToasts(more, id)
    ensures (forall x :: x in ts ==> x.id != id) ==> RemoveToasts(ts, id) == ts
  {
    var p := (x: Toast) => x.id != id;
    FilterMultiplicity(p, ts, t);
    FilterConcat(p, ts, more);
    FilterIdentity(p, ts);
  }

  /** The timer's removal undoes `showToast` when the new id is fresh. */
  lemma ShowThenRemove(ts: seq<Toast>, input: ToastInput, id: string)
    requires forall x :: x in ts ==> x.id != id
    ensures RemoveToasts(AddToast(ts, input, id), id) == ts
  {
    var p := (x: Toast) => x.id != id;
    FilterConcat(p, ts, [NewToast(input, id)]);
    FilterIdentity(p, ts);
    assert Filter(p, [NewToast(input, id)]) == [];
  }

  /** The input `success`, `error`, `warning` and `info` pass to `showToast`. */
  function TypedInput(kind: ToastType, title: string, message: Option<string>): (r: ToastInput)
    ensures r.kind == kind && r.title == title && r.message == message && r.duration.None?
  {
    ToastInput(kind, title, message, None)
  }

  /** Each shortcut adds one toast of its own type that is removed after 5000 ms. */
  lemma TypedToastsExpire(ts: seq<Toast>, kind: ToastType, title: string, message: Option<string>, id: string)
    ensures var r := AddToast(ts, TypedInput(kind, title, message), id);
            r[|ts|].kind == kind && r[|ts|].duration == DefaultDuration && SchedulesRemoval(r[|ts|])
  {
  }

  /** The provider's `toasts` state. */
  class ToastList {
    var toasts: seq<Toast>

    constructor ()
      ensures toasts == []
    {
      toasts := [];
    }

    /** `showToast` with the generated id passed in; `scheduled` tells whether
        the auto-removal timer was set. */
    method ShowToast(input: ToastInput, id: string) returns (scheduled: bool)
      modifies this
      ensures toasts == AddToast(old(toasts), input, id)
      ensures scheduled == SchedulesRemoval(NewToast(input, id))
    {
      var duration := match input.duration case Some(d) => d case None => DefaultDuration;
      var t := Toast(id, input.kind, input.title, input.message, duration);
      toasts := toasts + [t];
      scheduled := duration != 0 && duration > 0;
    }

    /** `removeToast(id)`: the close button, or the timer firing. */
    method RemoveToast(id: string)
      modifies this
      ensures toasts == RemoveToasts(old(toasts), id)
    {
      toasts := RemoveToasts(toasts, id);
    }

    method Success(title: string, message: Option<string>, id: string) returns (scheduled: bool)
      modifies this
      ensures toasts == AddToast(old(toasts), TypedInput(ToastType.Success, title, message), id)
      ensures scheduled
    {
      scheduled := ShowToast(TypedInput(ToastType.Success, title, message), id);
    }

    method Error(title: string, message: Option<string>, id: string) returns (scheduled: bool)
      modifies this
      ensures toasts == AddToast(old(toasts), TypedInput(ToastType.Error, title, message), id)
      ensures scheduled
    {
      scheduled := ShowToast(TypedInput(ToastType.Error, title, message), id);
    }

    method Warning(title: string, message: Option<string>, id: string) returns (scheduled: bool)
      modifies this
      ensures toasts == AddToast(old(toasts), TypedInput(ToastType.Warning, title, message), id)
      ensures scheduled
    {
      scheduled := ShowToast(TypedInput(ToastType.Warning, title, message), id);
    }

    method Info(title: string, message: Option<string>, id: string) returns (scheduled: bool)
      modifies this
      ensures toasts == AddToast(old(toasts), TypedInput(ToastType.Info, title, message), id)
      ensures scheduled
    {
      scheduled := ShowToast(TypedInput(ToastType.Info, title, message), id);
    }
  }
}
