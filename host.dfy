/**
 * The abstract native dialog host that replaces the operating system: it
 * records every observable event in a trace (messages sent to a window,
 * dialogs shown, caller callbacks invoked) and, for a shown dialog, supplies
 * the notifications the dialog delivers and the outcome `TaskDialogIndirect`
 * reports.
 */
module NativeHost {
  import opened Win32
  import opened NotificationBridge

  /** Identity of a caller-supplied hyperlink callback (`fn(&str)`). */
  type CallbackId = nat

  datatype Event =
    | Sent(hwnd: Handle, message: Message)
    | Shown(request: NativeRequest)
    | HyperlinkCalled(callback: CallbackId, link: string)
    | RawCalled(notification: Notification, view: DialogState)

  /**
   * The host's side of one `TaskDialogIndirect` call: the notifications the
   * dialog sends to its callback, then the returned status, button id, radio
   * id and verification BOOL, and the last OS error of a failed call.
   */
  datatype Session = Session(
    notifications: seq<Notification>,
    status: Int32,
    buttonId: Int32,
    radioButtonId: Int32,
    verify: Int32,
    lastError: int)

  predicate SessionWellFormed(s: Session) {
    AllWellFormed(s.notifications)
  }

  class Host {
    var trace: seq<Event>
    /** What `GetModuleHandleA(NULL)` returns. */
    const moduleHandle: Handle
    /** The fixed outcome the modal call produces. */
    const session: Session

    constructor (moduleHandle: Handle, session: Session)
      ensures trace == [] && this.moduleHandle == moduleHandle && this.session == session
    {
      trace := [];
      this.moduleHandle := moduleHandle;
      this.session := session;
    }

    /** `SendMessageA(hwnd, msg, wParam, lParam)`; its result is never used by the binding. */
    method SendMessage(hwnd: Handle, message: Message)
      modifies this`trace
      ensures trace == old(trace) + [Sent(hwnd, message)]
    {
      trace := trace + [Sent(hwnd, message)];
    }

    /** Records an event that is not a window message. */
    method Record(e: Event)
      modifies this`trace
      ensures trace == old(trace) + [e]
    {
      trace := trace + [e];
    }
  }
}
