/**
 * The part of the Win32 CommCtrl task-dialog interface the binding talks to:
 * handle and integer types, the message, notification and flag constants
 * (values as in the Windows SDK header commctrl.h), window messages and the
 * native request structure TASKDIALOGCONFIG.
 */
module Win32 {
  import opened WideString

  /** A window, module or icon-resource handle (HWND, HMODULE, LPWSTR); 0 is the null pointer. */
  type Handle = nat

  const NULL: Handle := 0

  type UInt32 = x: int | 0 <= x < 0x1_0000_0000
  type Int32 = x: int | -0x8000_0000 <= x < 0x8000_0000

  /** WPARAM: an unsigned pointer-sized word. */
  type WParam = nat

  /** TASKDIALOG_FLAGS and TASKDIALOG_COMMON_BUTTON_FLAGS: 32-bit sets of bits. */
  type Flags = bv32

  /** The `as UINT` cast of a length. */
  function AsUInt32(n: nat): UInt32 {
    n % 0x1_0000_0000
  }

  const TRUE: nat := 1
  const FALSE: nat := 0
  const S_OK: Int32 := 0

  const TDF_SHOW_PROGRESS_BAR: Flags := 0x0200
  const TDF_SHOW_MARQUEE_PROGRESS_BAR: Flags := 0x0400

  const TDCBF_CANCEL_BUTTON: Flags := 0x0008

  const WM_USER: nat := 0x0400
  const TDM_NAVIGATE_PAGE: nat := WM_USER + 101
  const TDM_SET_PROGRESS_BAR_POS: nat := WM_USER + 106
  const TDM_SET_PROGRESS_BAR_MARQUEE: nat := WM_USER + 107
  const TDM_UPDATE_ELEMENT_TEXT: nat := WM_USER + 114
  const TDM_SET_BUTTON_ELEVATION_REQUIRED_STATE: nat := WM_USER + 115

  const TDN_CREATED: nat := 0
  const TDN_BUTTON_CLICKED: nat := 2
  const TDN_HYPERLINK_CLICKED: nat := 3
  const TDN_DESTROYED: nat := 5

  const TDE_CONTENT: nat := 0
  const TDE_EXPANDED_INFORMATION: nat := 1
  const TDE_FOOTER: nat := 2
  const TDE_MAIN_INSTRUCTION: nat := 3

  /** TASKDIALOG_BUTTON: a button id and its text. */
  datatype NativeButton = NativeButton(id: Int32, text: WideCString)

  /**
   * TASKDIALOGCONFIG. The size field, the callback pointer (always the
   * binding's own bridge) and the callback data (the configuration the bridge
   * updates) are not fields here: the model passes the configuration to the
   * bridge directly.
   */
  datatype NativeRequest = NativeRequest(
    parent: Handle,
    instance: Handle,
    flags: Flags,
    commonButtons: Flags,
    windowTitle: WideCString,
    mainInstruction: WideCString,
    content: WideCString,
    verificationText: WideCString,
    expandedInformation: WideCString,
    expandedControlText: WideCString,
    collapsedControlText: WideCString,
    footer: WideCString,
    buttonCount: UInt32,
    buttons: seq<NativeButton>,
    defaultButton: Int32,
    radioButtonCount: UInt32,
    radioButtons: seq<NativeButton>,
    defaultRadioButton: Int32,
    mainIcon: Handle,
    footerIcon: Handle,
    width: UInt32)

  /** LPARAM: a signed word, or a pointer the receiver reads synchronously (a wide string, a request). */
  datatype LParam = Word(value: int) | TextPtr(text: WideCString) | RequestPtr(request: NativeRequest)

  /** A window message for `SendMessageA`, without its target window. */
  datatype Message = Message(msg: nat, wParam: WParam, lParam: LParam)

  /** One call of the task-dialog callback by the host: `(hwnd, msg, wParam, lParam)`. */
  datatype Notification = Notification(hwnd: Handle, msg: nat, wParam: WParam, lParam: LParam)

  /** The host passes the clicked link's text with TDN_HYPERLINK_CLICKED. */
  predicate WellFormed(n: Notification) {
    n.msg == TDN_HYPERLINK_CLICKED ==> n.lParam.TextPtr?
  }

  predicate AllWellFormed(notes: seq<Notification>) {
    forall i :: 0 <= i < |notes| ==> WellFormed(notes[i])
  }
}
