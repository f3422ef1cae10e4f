/**
 * src/features/ui/store.ts: the app-wide toast, a message with a kind that is
 * either shown or hidden. Hiding keeps the last message and kind, so the
 * toast can fade out with its text still in place.
 */
module UiStore {
  import opened Wrappers

  datatype ToastType = Success | Error | Info

  /** The toast as one value. */
  datatype Toast = Toast(visible: bool, message: string, kind: ToastType)

  const Initial: Toast := Toast(false, "", Info)

  /** `showToast(message, type = "info")`: visible with this message and kind, an omitted kind being `info`. */
  function Show(t: Toast, message: string, kind: Option<ToastType>): (r: Toast)
    ensures r.visible && r.message == message
    ensures r.kind == if kind.Some? then kind.value else Info
  {
    Toast(true, message, if kind.Some? then kind.value else Info)
  }

  /** `hideToast`: no longer visible, message and kind kept. */
  function Hide(t: Toast): (r: Toast)
    ensures !r.visible && r.message == t.message && r.kind == t.kind
  {
    t.(visible := false)
  }

  /** What a shown toast displays does not depend on anything shown or hidden before. */
  lemma ShowForgetsPast(t1: Toast, t2: Toast, message: string, kind: Option<ToastType>)
    ensures Show(t1, message, kind) == Show(t2, message, kind)
  {
  }

  /** Hiding then showing again the same message and kind is showing it once; hiding twice is hiding once. */
  lemma HideShowRoundTrip(t: Toast)
    requires t.visible
    ensures Show(Hide(t), t.message, Some(t.kind)) == t
    ensures Hide(Hide(t)) == Hide(t)
  {
  }

  class UiStore {
    var visible: bool
    var message: string
    var kind: ToastType

    function State(): Toast
      reads this
    {
      Toast(visible, message, kind)
    }

    /** The initial state: hidden, no message, kind `info`. */
    constructor ()
      ensures State() == Initial
    {
      visible := false;
      message := "";
      kind := Info;
    }

    /** `showToast`. */
    method ShowToast(msg: string, k: Option<ToastType>)
      modifies this
      ensures State() == Show(old(State()), msg, k)
    {
      visible, message := true, msg;
      kind := if k.Some? then k.value else Info;
    }

    /** `hideToast`. */
    method HideToast()
      modifies this
      ensures State() == Hide(old(State()))
    {
      visible := false;
    }
  }
}
