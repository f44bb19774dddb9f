/**
 * The toast list of `ToastProvider`: showing a toast appends it, closing one
 * removes every toast with its id. A toast's properties are assembled the
 * way the provider and its helpers spread object literals: later properties
 * override earlier ones, and the provider supplies an id and a default
 * duration of 5000 ms underneath.
 *
 * The provider draws the id at random; here the caller passes it in.
 */
module Toasts {
  import opened Wrappers
  import opened Sequences

  datatype ToastType = Success | Error | Warning | Info

  /** The action button of a toast; its click handler is opaque to the model. */
  datatype ToastAction = ToastAction(buttonLabel: string)

  datatype Toast = Toast(id: string, toastType: ToastType, title: string, message: Option<string>,
                         duration: Option<int>, action: Option<ToastAction>)

  /** An object literal with some of a toast's properties; `None` is an absent property. */
  datatype ToastProps = ToastProps(id: Option<string>, toastType: Option<ToastType>, title: Option<string>,
                                   message: Option<string>, duration: Option<int>, action: Option<ToastAction>)

  const NoProps: ToastProps := ToastProps(None, None, None, None, None, None)
  const DefaultDuration: int := 5000

  function Over<T>(base: Option<T>, over: Option<T>): (r: Option<T>)
    ensures over.Some? ==> r == over
    ensures over.None? ==> r == base
  {
    if over.Some? then over else base
  }

  /** `{ ...base, ...over }`: every property of `over` replaces that of `base`. */
  function Spread(base: ToastProps, over: ToastProps): ToastProps {
    ToastProps(Over(base.id, over.id), Over(base.toastType, over.toastType), Over(base.title, over.title),
               Over(base.message, over.message), Over(base.duration, over.duration), Over(base.action, over.action))
  }

  /**
   * Spreading is associative and has the empty object as identity, so the
   * nested spreads of a helper and `showToast` equal one spread of all three
   * objects; spreading the same object twice is spreading it once.
   */
  lemma SpreadLaws(a: ToastProps, b: ToastProps, c: ToastProps)
    ensures Spread(Spread(a, b), c) == Spread(a, Spread(b, c))
    ensures Spread(a, NoProps) == a && Spread(NoProps, a) == a
    ensures Spread(Spread(a, b), b) == Spread(a, b)
  {
  }

  /** The toast `showToast` builds from `{ id, duration: 5000, ...toastData }`. */
  function NewToast(toastData: ToastProps, freshId: string): (t: Toast)
    requires toastData.toastType.Some? && toastData.title.Some?
    ensures t.id == (if toastData.id.Some? then toastData.id.value else freshId)
    ensures t.duration == (if toastData.duration.Some? then toastData.duration else Some(DefaultDuration))
    ensures t.toastType == toastData.toastType.value && t.title == toastData.title.value
    ensures t.message == toastData.message && t.action == toastData.action
  {
    var p := Spread(NoProps.(id := Some(freshId), duration := Some(DefaultDuration)), toastData);
    Toast(p.id.value, p.toastType.value, p.title.value, p.message, p.duration, p.action)
  }

  /** The object a helper passes to `showToast`: `{ type, title, message, ...options }`. */
  function HelperProps(toastType: ToastType, title: string, message: Option<string>, options: ToastProps): (p: ToastProps)
    ensures p.toastType.Some? && p.title.Some?
  {
    Spread(NoProps.(toastType := Some(toastType), title := Some(title), message := message), options)
  }

  /**
   * A helper's toast has the helper's type, title and message unless the
   * options carry their own; everything else comes from the options or the
   * provider's defaults.
   */
  lemma HelperToast(toastType: ToastType, title: string, message: Option<string>, options: ToastProps, freshId: string)
    ensures var t := NewToast(HelperProps(toastType, title, message, options), freshId);
            && t.toastType == (if options.toastType.Some? then options.toastType.value else toastType)
            && t.title == (if options.title.Some? then options.title.value else title)
            && t.message == (if options.message.Some? then options.message else message)
            && t.id == (if options.id.Some? then options.id.value else freshId)
            && t.duration == (if options.duration.Some? then options.duration else Some(DefaultDuration))
  {
  }

  function HasId(id: string): Toast -> bool {
    (t: Toast) => t.id == id
  }

  /** `removeToast`'s filter: the toasts whose id differs, in order. */
  function Without(toasts: seq<Toast>, id: string): (r: seq<Toast>)
    ensures forall t :: t in r <==> t in toasts && t.id != id
  {
    Select(toasts, HasId(id), false)
  }

  /** Removing keeps the order of the others and is idempotent. */
  lemma WithoutOrder(toasts: seq<Toast>, id: string)
    ensures IsSubsequence(Without(toasts, id), toasts)
    ensures Without(Without(toasts, id), id) == Without(toasts, id)
  {
    SelectSubsequence(toasts, HasId(id), false);
    SelectIdempotent(toasts, HasId(id), false);
  }

  /** Removing an id no toast carries changes nothing. */
  lemma WithoutAbsent(toasts: seq<Toast>, id: string)
    requires forall i :: 0 <= i < |toasts| ==> toasts[i].id != id
    ensures Without(toasts, id) == toasts
  {
    SelectAll(toasts, HasId(id), false);
  }

  /** Showing a toast with a fresh id and then closing it restores the list. */
  lemma ShowThenRemove(toasts: seq<Toast>, toastData: ToastProps, freshId: string)
    requires toastData.toastType.Some? && toastData.title.Some? && toastData.id.None?
    requires forall i :: 0 <= i < |toasts| ==> toasts[i].id != freshId
    ensures Without(toasts + [NewToast(toastData, freshId)], freshId) == toasts
  {
    SelectSnoc(toasts, NewToast(toastData, freshId), HasId(freshId), false);
    WithoutAbsent(toasts, freshId);
  }

  /** The provider's list of toasts on screen, oldest first. */
  class ToastList {
    var toasts: seq<Toast>

    constructor()
      ensures toasts == []
    {
      toasts := [];
    }

    /** `showToast`. */
    method ShowToast(toastData: ToastProps, freshId: string)
      requires toastData.toastType.Some? && toastData.title.Some?
      modifies this
      ensures toasts == old(toasts) + [NewToast(toastData, freshId)]
    {
      var newToast := NewToast(toastData, freshId);
      toasts := toasts + [newToast];
    }

    /** `removeToast`. */
    method RemoveToast(id: string)
      modifies this
      ensures toasts == Without(old(toasts), id)
    {
      toasts := Without(toasts, id);
    }

    method ShowSuccess(title: string, message: Option<string>, options: ToastProps, freshId: string)
      modifies this
      ensures toasts == old(toasts) + [NewToast(HelperProps(Success, title, message, options), freshId)]
    {
      ShowToast(HelperProps(Success, title, message, options), freshId);
    }

    method ShowError(title: string, message: Option<string>, options: ToastProps, freshId: string)
      modifies this
      ensures toasts == old(toasts) + [NewToast(HelperProps(Error, title, message, options), freshId)]
    {
      ShowToast(HelperProps(Error, title, message, options), freshId);
    }

    method ShowWarning(title: string, message: Option<string>, options: ToastProps, freshId: string)
      modifies this
      ensures toasts == old(toasts) + [NewToast(HelperProps(Warning, title, message, options), freshId)]
    {
      ShowToast(HelperProps(Warning, title, message, options), freshId);
    }

    method ShowInfo(title: string, message: Option<string>, options: ToastProps, freshId: string)
      modifies this
      ensures toasts == old(toasts) + [NewToast(HelperProps(Info, title, message, options), freshId)]
    {
      ShowToast(HelperProps(Info, title, message, options), freshId);
    }
  }
}
