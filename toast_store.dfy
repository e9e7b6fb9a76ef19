// The toast notification store: one message, its kind and whether it is shown.
// Every `showToast` also arms a 3000 ms timer that hides the toast; timers are
// counted, and a timer firing is the `TimerFires` event.
module ToastStore {
  import opened Wrappers

  const HideDelay := 3000

  class Toast {
    var message: string
    var kind: string
    var isOpen: bool
    var pendingHides: nat

    constructor ()
      ensures message == "" && kind == "" && !isOpen && pendingHides == 0
    {
      message, kind, isOpen, pendingHides := "", "", false, 0;
    }

    /** Shows a message; the kind defaults to "info". */
    method Show(text: string, requested: Option<string>)
      modifies this
      ensures message == text && kind == requested.GetOr("info") && isOpen
      ensures pendingHides == old(pendingHides) + 1
    {
      message := text;
      kind := requested.GetOr("info");
      isOpen := true;
      pendingHides := pendingHides + 1;
    }

    /** Hides the toast and keeps its message and kind. */
    method Hide()
      modifies this
      ensures !isOpen && message == old(message) && kind == old(kind)
      ensures pendingHides == old(pendingHides)
    {
      isOpen := false;
    }

    /** One armed timer fires: the same update as `Hide`. */
    method TimerFires()
      requires pendingHides > 0
      modifies this
      ensures !isOpen && message == old(message) && kind == old(kind)
      ensures pendingHides == old(pendingHides) - 1
    {
      isOpen := false;
      pendingHides := pendingHides - 1;
    }
  }

  /** Timers are not cancelled: when a second toast follows the first within
      3000 ms, the first toast's timer hides the second one early. */
  method SecondToastHiddenEarly(first: string, second: string)
    returns (shown: string, open: bool, stillArmed: nat)
    ensures shown == second && !open && stillArmed == 1
  {
    var t := new Toast();
    t.Show(first, None);
    t.Show(second, Some("success"));
    t.TimerFires();
    shown, open, stillArmed := t.message, t.isOpen, t.pendingHides;
  }
}
