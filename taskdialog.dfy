/**
 * The task-dialog binding: the caller-owned configuration, its progress-bar
 * flags and live-update channel, the marshaling of a configuration into the
 * native request, the notification bridge (the callback the native host
 * calls) and the execution engine that shows a dialog or navigates a running
 * one to a new page.
 */
module TaskDialog {
  import opened Wrappers
  import opened WideString
  import opened Win32
  import opened NotificationBridge
  import opened NativeHost
  import Bits

  datatype TaskDialogButton = TaskDialogButton(id: Int32, text: string)

  datatype TaskDialogResult = TaskDialogResult(buttonId: Int32, radioButtonId: Int32, checked: bool)

  /** `TaskDialogResult::default()`: what a run reports before the host writes into it. */
  function DefaultResult(): (r: TaskDialogResult)
    ensures r.buttonId == 0 && r.radioButtonId == 0 && !r.checked
  {
    TaskDialogResult(0, 0, false)
  }

  datatype ExecuteOption = TaskDialogIndirect | TaskDialogNavigate

  /** `std::io::Error::last_os_error()`: the OS error code at the time of the failure. */
  datatype OsError = OsError(code: int)

  /**
   * The raw notification callback. It is called with the notification
   * `(hwnd, msg, wParam, lParam)` and sees the configuration's runtime state;
   * what it returns becomes the bridge's result.
   */
  type RawCallback = (Notification, DialogState) -> Int32

  // ---------------------------------------------------------------------
  // Progress-bar flags

  /** The flag `enable_process_bar` adds for a marquee or a determinate bar. */
  function ProgressBit(marquee: bool): Flags {
    if marquee then TDF_SHOW_MARQUEE_PROGRESS_BAR else TDF_SHOW_PROGRESS_BAR
  }

  /** The flags after `enable_process_bar(marquee)`: the old flags with the mode's bit added. */
  function ProgressBarFlags(flags: Flags, marquee: bool): (r: Flags)
    ensures r == flags | ProgressBit(marquee)
  {
    // Both branches of the source test for the mode's bit and OR it in when missing.
    var bit := ProgressBit(marquee);
    if flags & bit != bit then flags | bit
    else Bits.Absorbs(flags, bit); flags
  }

  /** The progress-bar bit is set afterwards. */
  lemma ProgressBarFlagsSetsBit(flags: Flags, marquee: bool)
    ensures ProgressBarFlags(flags, marquee) & ProgressBit(marquee) == ProgressBit(marquee)
  {
    Bits.Sets(flags, ProgressBit(marquee));
  }

  /** No bit that was set is cleared. */
  lemma ProgressBarFlagsKeepsFlags(flags: Flags, marquee: bool)
    ensures ProgressBarFlags(flags, marquee) & flags == flags
  {
    Bits.Keeps(flags, ProgressBit(marquee));
  }

  /** No bit outside the mode's bit changes. */
  lemma ProgressBarFlagsLeavesOthers(flags: Flags, marquee: bool, other: Flags)
    requires other & ProgressBit(marquee) == 0
    ensures ProgressBarFlags(flags, marquee) & other == flags & other
  {
    Bits.Leaves(flags, ProgressBit(marquee), other);
  }

  /** Enabling the same progress bar twice is enabling it once. */
  lemma ProgressBarFlagsIdempotent(flags: Flags, marquee: bool)
    ensures ProgressBarFlags(ProgressBarFlags(flags, marquee), marquee) == ProgressBarFlags(flags, marquee)
  {
  }

  // ---------------------------------------------------------------------
  // Live-update channel

  /** The four text slots `TDM_UPDATE_ELEMENT_TEXT` can update. */
  datatype TextElement = Content | MainInstruction | Footer | ExpandedInformation

  /** The TDE_* selector of a text slot. */
  function Selector(e: TextElement): nat {
    match e
    case Content => TDE_CONTENT
    case MainInstruction => TDE_MAIN_INSTRUCTION
    case Footer => TDE_FOOTER
    case ExpandedInformation => TDE_EXPANDED_INFORMATION
  }

  function ElementOf(selector: nat): Option<TextElement> {
    if selector == TDE_CONTENT then Some(Content)
    else if selector == TDE_MAIN_INSTRUCTION then Some(MainInstruction)
    else if selector == TDE_FOOTER then Some(Footer)
    else if selector == TDE_EXPANDED_INFORMATION then Some(ExpandedInformation)
    else None
  }

  /** What a live-update operation asks of the running dialog. */
  datatype LiveUpdate =
    | ProgressBarPos(percentage: nat)
    | ProgressBarMarquee(enable: bool, time: int)
    | ElementText(element: TextElement, text: string)
    | ButtonElevation(buttonId: nat, enable: bool)

  /** A text update can only be sent for text without a NUL (`from_str(..).unwrap()`). */
  predicate Sendable(u: LiveUpdate) {
    u.ElementText? ==> !HasNul(u.text)
  }

  /**
   * The message each live-update operation sends. Each of the four message
   * ids belongs to exactly one kind of update; a text update names its slot by
   * its TDE_* selector and points at a buffer that reads back as the text.
   */
  function UpdateMessage(u: LiveUpdate): (m: Message)
    requires Sendable(u)
    ensures m.msg == TDM_SET_PROGRESS_BAR_POS <==> u.ProgressBarPos?
    ensures m.msg == TDM_SET_PROGRESS_BAR_MARQUEE <==> u.ProgressBarMarquee?
    ensures m.msg == TDM_UPDATE_ELEMENT_TEXT <==> u.ElementText?
    ensures m.msg == TDM_SET_BUTTON_ELEVATION_REQUIRED_STATE <==> u.ButtonElevation?
    ensures u.ElementText? ==>
      ElementOf(m.wParam) == Some(u.element) && m.lParam.TextPtr? && ReadToNul(m.lParam.text) == u.text
  {
    match u
    case ProgressBarPos(p) => Message(TDM_SET_PROGRESS_BAR_POS, p, Word(0))
    case ProgressBarMarquee(enable, time) =>
      Message(TDM_SET_PROGRESS_BAR_MARQUEE, if enable then TRUE else FALSE, Word(time))
    case ElementText(e, text) =>
      ReadBack(text);
      Message(TDM_UPDATE_ELEMENT_TEXT, Selector(e), TextPtr(FromStr(text).value))
    case ButtonElevation(id, enable) =>
      Message(TDM_SET_BUTTON_ELEVATION_REQUIRED_STATE, id, Word(if enable then 1 else 0))
  }

  /** How the dialog reads a live-update message. */
  function DecodeUpdate(m: Message): Option<LiveUpdate> {
    if m.msg == TDM_SET_PROGRESS_BAR_POS && m.lParam == Word(0) then
      Some(ProgressBarPos(m.wParam))
    else if m.msg == TDM_SET_PROGRESS_BAR_MARQUEE && m.lParam.Word? then
      Some(ProgressBarMarquee(m.wParam != FALSE, m.lParam.value))
    else if m.msg == TDM_UPDATE_ELEMENT_TEXT && ElementOf(m.wParam).Some? && m.lParam.TextPtr? then
      Some(ElementText(ElementOf(m.wParam).value, ReadToNul(m.lParam.text)))
    else if m.msg == TDM_SET_BUTTON_ELEVATION_REQUIRED_STATE && m.lParam.Word? then
      Some(ButtonElevation(m.wParam, m.lParam.value != 0))
    else None
  }

  /** Every live-update message carries exactly the update it was made from. */
  lemma UpdateMessageDecodes(u: LiveUpdate)
    requires Sendable(u)
    ensures DecodeUpdate(UpdateMessage(u)) == Some(u)
  {
    if u.ElementText? {
      ReadBack(u.text);
    }
  }

  /** Distinct updates send distinct messages; in particular the four text setters differ in their selector. */
  lemma UpdateMessageInjective(u: LiveUpdate, v: LiveUpdate)
    requires Sendable(u) && Sendable(v)
    ensures UpdateMessage(u) == UpdateMessage(v) ==> u == v
  {
    UpdateMessageDecodes(u);
    UpdateMessageDecodes(v);
  }

  /** The events a live-update operation causes: none for a null handle, else one message to it. */
  function LiveUpdateSends(hwnd: Handle, u: LiveUpdate): (sends: seq<Event>)
    requires hwnd != NULL ==> Sendable(u)
    ensures hwnd == NULL <==> sends == []
    ensures hwnd != NULL ==>
      |sends| == 1 && sends[0].Sent? && sends[0].hwnd == hwnd && DecodeUpdate(sends[0].message) == Some(u)
  {
    if hwnd == NULL then []
    else
      UpdateMessageDecodes(u);
      [Sent(hwnd, UpdateMessage(u))]
  }

  /**
   * The events `navigate_page` causes, guarded on `guardHwnd` and sent to
   * `targetHwnd`: nothing exactly when the guard handle is null, otherwise one
   * `TDM_NAVIGATE_PAGE` that carries the request, to the target handle.
   */
  function NavigateSends(guardHwnd: Handle, targetHwnd: Handle, request: NativeRequest): (sends: seq<Event>)
    ensures guardHwnd == NULL <==> sends == []
    ensures |sends| <= 1
    ensures forall e | e in sends ::
      e.Sent? && e.hwnd == targetHwnd && e.message.msg == TDM_NAVIGATE_PAGE && e.message.lParam == RequestPtr(request)
  {
    if guardHwnd == NULL then []
    else [Sent(targetHwnd, Message(TDM_NAVIGATE_PAGE, 0, RequestPtr(request)))]
  }

  /** As written, a navigation whose guard passes can still be sent to the null window. */
  lemma NavigateCanTargetNullWindow(guardHwnd: Handle, request: NativeRequest)
    requires guardHwnd != NULL
    ensures NavigateSends(guardHwnd, NULL, request) == [Sent(NULL, Message(TDM_NAVIGATE_PAGE, 0, RequestPtr(request)))]
  {
  }

  /** Guarding and sending on the same handle sends only to a live, non-null window. */
  lemma OwnWindowNavigateTargetsGuardedHandle(hwnd: Handle, request: NativeRequest)
    ensures forall e | e in NavigateSends(hwnd, hwnd, request) :: e.Sent? && e.hwnd == hwnd && hwnd != NULL
    ensures |NavigateSends(hwnd, hwnd, request)| == if hwnd == NULL then 0 else 1
  {
  }

  // ---------------------------------------------------------------------
  // Configuration

  class TaskDialogConfig {
    var parent: Handle
    var instance: Handle
    var flags: Flags
    var commonButtons: Flags
    var windowTitle: string
    var mainInstruction: string
    var content: string
    var verificationText: string
    var expandedInformation: string
    var expandedControlText: string
    var collapsedControlText: string
    var footer: string
    var buttons: seq<TaskDialogButton>
    var defaultButton: Int32
    var radioButtons: seq<TaskDialogButton>
    var defaultRadioButtons: Int32
    var mainIcon: Handle
    var footerIcon: Handle
    /** Set to the dialog's window by the bridge on TDN_CREATED. */
    var dialogHwnd: Handle
    /** Set by the bridge on TDN_DESTROYED, default false. */
    var isDestroyed: bool
    var hyperlinkCallback: Option<CallbackId>
    var callback: Option<RawCallback>
    var cxWidth: UInt32

    /** `TaskDialogConfig::default()`. */
    constructor Default()
      ensures parent == NULL && instance == NULL
      ensures flags == 0 && commonButtons == TDCBF_CANCEL_BUTTON
      ensures windowTitle == "" && mainInstruction == "" && content == "" && verificationText == ""
      ensures expandedInformation == "" && expandedControlText == "" && collapsedControlText == "" && footer == ""
      ensures buttons == [] && defaultButton == 0 && radioButtons == [] && defaultRadioButtons == 0
      ensures mainIcon == NULL && footerIcon == NULL
      ensures dialogHwnd == NULL && !isDestroyed && State() == Initial
      ensures hyperlinkCallback == None && callback == None
      ensures cxWidth == 0
    {
      parent := NULL;
      instance := NULL;
      flags := 0;
      commonButtons := TDCBF_CANCEL_BUTTON;
      windowTitle := "";
      mainInstruction := "";
      content := "";
      verificationText := "";
      expandedInformation := "";
      expandedControlText := "";
      collapsedControlText := "";
      footer := "";
      buttons := [];
      defaultButton := 0;
      radioButtons := [];
      defaultRadioButtons := 0;
      mainIcon := NULL;
      footerIcon := NULL;
      dialogHwnd := NULL;
      isDestroyed := false;
      hyperlinkCallback := None;
      callback := None;
      cxWidth := 0;
    }

    /** The runtime state the bridge maintains. */
    function State(): DialogState
      reads this`dialogHwnd, this`isDestroyed
    {
      DialogState(dialogHwnd, isDestroyed)
    }

    /** `enable_process_bar`: adds the marquee or the determinate progress-bar flag. */
    method EnableProcessBar(marquee: bool)
      modifies this`flags
      ensures flags == ProgressBarFlags(old(flags), marquee)
    {
      var bit := ProgressBit(marquee);
      if flags & bit != bit {
        flags := flags | bit;
      }
    }

    /** `set_process_bar_marquee`: starts or stops the marquee with the given animation time. */
    method SetProcessBarMarquee(enable: bool, time: int, host: Host)
      modifies host`trace
      ensures host.trace == old(host.trace) + LiveUpdateSends(dialogHwnd, ProgressBarMarquee(enable, time))
      // The literal message, for callers; the clause above already implies it.
      ensures dialogHwnd != NULL ==>
        host.trace == old(host.trace) + [Sent(dialogHwnd, Message(TDM_SET_PROGRESS_BAR_MARQUEE, if enable then TRUE else FALSE, Word(time)))]
    {
      if dialogHwnd == NULL {
        return;
      }
      host.SendMessage(dialogHwnd, Message(TDM_SET_PROGRESS_BAR_MARQUEE, if enable then TRUE else FALSE, Word(time)));
    }

    /** `set_process_bar`: sets the determinate bar's position. */
    method SetProcessBar(percentage: nat, host: Host)
      modifies host`trace
      ensures host.trace == old(host.trace) + LiveUpdateSends(dialogHwnd, ProgressBarPos(percentage))
      // The literal message, for callers; the clause above already implies it.
      ensures dialogHwnd != NULL ==>
        host.trace == old(host.trace) + [Sent(dialogHwnd, Message(TDM_SET_PROGRESS_BAR_POS, percentage, Word(0)))]
    {
      if dialogHwnd == NULL {
        return;
      }
      host.SendMessage(dialogHwnd, Message(TDM_SET_PROGRESS_BAR_POS, percentage, Word(0)));
    }

    /** `set_content`: replaces the displayed content text. */
    method SetContent(content: string, host: Host)
      requires dialogHwnd != NULL ==> !HasNul(content)
      modifies host`trace
      ensures host.trace == old(host.trace) + LiveUpdateSends(dialogHwnd, ElementText(Content, content))
    {
      if dialogHwnd == NULL {
        return;
      }
      var contentWchar := FromStr(content).value;
      host.SendMessage(dialogHwnd, Message(TDM_UPDATE_ELEMENT_TEXT, TDE_CONTENT, TextPtr(contentWchar)));
    }

    /** `set_main_instruction`: replaces the displayed main instruction. */
    method SetMainInstruction(mainInstruction: string, host: Host)
      requires dialogHwnd != NULL ==> !HasNul(mainInstruction)
      modifies host`trace
      ensures host.trace == old(host.trace) + LiveUpdateSends(dialogHwnd, ElementText(MainInstruction, mainInstruction))
    {
      if dialogHwnd == NULL {
        return;
      }
      var mainInstructionWchar := FromStr(mainInstruction).value;
      host.SendMessage(dialogHwnd, Message(TDM_UPDATE_ELEMENT_TEXT, TDE_MAIN_INSTRUCTION, TextPtr(mainInstructionWchar)));
    }

    /** `set_footer`: replaces the displayed footer text. */
    method SetFooter(footer: string, host: Host)
      requires dialogHwnd != NULL ==> !HasNul(footer)
      modifies host`trace
      ensures host.trace == old(host.trace) + LiveUpdateSends(dialogHwnd, ElementText(Footer, footer))
    {
      if dialogHwnd == NULL {
        return;
      }
      var footerWchar := FromStr(footer).value;
      host.SendMessage(dialogHwnd, Message(TDM_UPDATE_ELEMENT_TEXT, TDE_FOOTER, TextPtr(footerWchar)));
    }

    /** `set_expanded_information`: replaces the displayed expanded information. */
    method SetExpandedInformation(expandedInformation: string, host: Host)
      requires dialogHwnd != NULL ==> !HasNul(expandedInformation)
      modifies host`trace
      ensures host.trace == old(host.trace) + LiveUpdateSends(dialogHwnd, ElementText(ExpandedInformation, expandedInformation))
    {
      if dialogHwnd == NULL {
        return;
      }
      var expandedInformationWchar := FromStr(expandedInformation).value;
      host.SendMessage(dialogHwnd,
        Message(TDM_UPDATE_ELEMENT_TEXT, TDE_EXPANDED_INFORMATION, TextPtr(expandedInformationWchar)));
    }

    /** `set_button_elevation_required_state`: shows or hides a button's shield badge. */
    method SetButtonElevationRequiredState(buttonId: nat, enable: bool, host: Host)
      modifies host`trace
      ensures host.trace == old(host.trace) + LiveUpdateSends(dialogHwnd, ButtonElevation(buttonId, enable))
      // The literal message, for callers; the clause above already implies it.
      ensures dialogHwnd != NULL ==>
        host.trace == old(host.trace) + [Sent(dialogHwnd, Message(TDM_SET_BUTTON_ELEVATION_REQUIRED_STATE, buttonId, Word(if enable then 1 else 0)))]
    {
      if dialogHwnd == NULL {
        return;
      }
      host.SendMessage(dialogHwnd,
        Message(TDM_SET_BUTTON_ELEVATION_REQUIRED_STATE, buttonId, Word(if enable then 1 else 0)));
    }

    /**
     * `navigate_page`: guarded on this configuration's handle, it runs the
     * engine's navigate branch on `conf`, which sends to `conf`'s handle.
     */
    method NavigatePage(conf: TaskDialogConfig, host: Host)
      modifies conf`dialogHwnd, conf`isDestroyed, host`trace
      ensures conf.State() == old(conf.State())
      ensures host.trace == old(host.trace) +
        NavigateSends(old(dialogHwnd), old(conf.dialogHwnd), old(BuildRequest(conf, host.moduleHandle)))
    {
      if dialogHwnd == NULL {
        return;
      }
      var ignored := ExecuteTaskDialog(conf, TaskDialogNavigate, host);
    }

    /** `navigate_page` as evidently intended: the new page is sent to the window whose handle was checked. */
    method NavigatePageToOwnWindow(conf: TaskDialogConfig, host: Host)
      modifies host`trace
      ensures host.trace == old(host.trace) + NavigateSends(dialogHwnd, dialogHwnd, BuildRequest(conf, host.moduleHandle))
    {
      if dialogHwnd == NULL {
        return;
      }
      var request := BuildRequest(conf, host.moduleHandle);
      host.SendMessage(dialogHwnd, Message(TDM_NAVIGATE_PAGE, 0, RequestPtr(request)));
    }
  }

  // ---------------------------------------------------------------------
  // Marshaling

  /** The TASKDIALOG_BUTTON array for a button list, in the caller's order. */
  function NativeButtons(buttons: seq<TaskDialogButton>): (r: seq<NativeButton>)
    ensures |r| == |buttons|
    ensures forall i :: 0 <= i < |buttons| ==>
      r[i].id == buttons[i].id && r[i].text == FromStrUnchecked(buttons[i].text)
    decreases |buttons|
  {
    if buttons == [] then []
    else
      var last := buttons[|buttons| - 1];
      NativeButtons(buttons[..|buttons| - 1]) + [NativeButton(last.id, FromStrUnchecked(last.text))]
  }

  /** The native request `execute_task_dialog` builds from a configuration. */
  function BuildRequest(conf: TaskDialogConfig, moduleHandle: Handle): (r: NativeRequest)
    reads conf`parent, conf`instance, conf`flags, conf`commonButtons, conf`windowTitle, conf`mainInstruction
    reads conf`content, conf`verificationText, conf`expandedInformation, conf`expandedControlText
    reads conf`collapsedControlText, conf`footer, conf`buttons, conf`defaultButton, conf`radioButtons
    reads conf`defaultRadioButtons, conf`mainIcon, conf`footerIcon, conf`cxWidth
    ensures r.parent == conf.parent && r.width == conf.cxWidth
    ensures r.flags == conf.flags && r.commonButtons == conf.commonButtons
    ensures r.defaultButton == conf.defaultButton && r.defaultRadioButton == conf.defaultRadioButtons
    ensures r.instance == if conf.instance == NULL then moduleHandle else conf.instance
    ensures r.mainIcon == conf.mainIcon && r.footerIcon == conf.footerIcon
    ensures |r.buttons| == |conf.buttons| &&
      forall i :: 0 <= i < |conf.buttons| ==> r.buttons[i].id == conf.buttons[i].id
    ensures |r.radioButtons| == |conf.radioButtons| &&
      forall i :: 0 <= i < |conf.radioButtons| ==> r.radioButtons[i].id == conf.radioButtons[i].id
    ensures |conf.buttons| < 0x1_0000_0000 ==> r.buttonCount == |conf.buttons|
    ensures |conf.radioButtons| < 0x1_0000_0000 ==> r.radioButtonCount == |conf.radioButtons|
  {
    var instance := if conf.instance == NULL then moduleHandle else conf.instance;
    var buttons := NativeButtons(conf.buttons);
    var radioButtons := NativeButtons(conf.radioButtons);
    // The icon unions start zeroed (null) and take the icon only when it is set.
    var mainIcon := if conf.mainIcon != NULL then conf.mainIcon else NULL;
    var footerIcon := if conf.footerIcon != NULL then conf.footerIcon else NULL;
    NativeRequest(
      parent := conf.parent,
      instance := instance,
      flags := conf.flags,
      commonButtons := conf.commonButtons,
      windowTitle := FromStrUnchecked(conf.windowTitle),
      mainInstruction := FromStrUnchecked(conf.mainInstruction),
      content := FromStrUnchecked(conf.content),
      verificationText := FromStrUnchecked(conf.verificationText),
      expandedInformation := FromStrUnchecked(conf.expandedInformation),
      expandedControlText := FromStrUnchecked(conf.expandedControlText),
      collapsedControlText := FromStrUnchecked(conf.collapsedControlText),
      footer := FromStrUnchecked(conf.footer),
      buttonCount := AsUInt32(|buttons|),
      buttons := buttons,
      defaultButton := conf.defaultButton,
      radioButtonCount := AsUInt32(|radioButtons|),
      radioButtons := radioButtons,
      defaultRadioButton := conf.defaultRadioButtons,
      mainIcon := mainIcon,
      footerIcon := footerIcon,
      width := conf.cxWidth)
  }

  /** No text of the configuration holds a NUL. */
  predicate NoNulText(conf: TaskDialogConfig)
    reads conf`windowTitle, conf`mainInstruction, conf`content, conf`verificationText
    reads conf`expandedInformation, conf`expandedControlText, conf`collapsedControlText, conf`footer
    reads conf`buttons, conf`radioButtons
  {
    && !HasNul(conf.windowTitle) && !HasNul(conf.mainInstruction) && !HasNul(conf.content)
    && !HasNul(conf.verificationText) && !HasNul(conf.expandedInformation)
    && !HasNul(conf.expandedControlText) && !HasNul(conf.collapsedControlText) && !HasNul(conf.footer)
    && (forall i :: 0 <= i < |conf.buttons| ==> !HasNul(conf.buttons[i].text))
    && (forall i :: 0 <= i < |conf.radioButtons| ==> !HasNul(conf.radioButtons[i].text))
  }

  /** The host reads back every text of the request exactly as the caller wrote it. */
  lemma RequestTextRoundTrip(conf: TaskDialogConfig, moduleHandle: Handle)
    requires NoNulText(conf)
    ensures var r := BuildRequest(conf, moduleHandle);
      && ReadToNul(r.windowTitle) == conf.windowTitle
      && ReadToNul(r.mainInstruction) == conf.mainInstruction
      && ReadToNul(r.content) == conf.content
      && ReadToNul(r.verificationText) == conf.verificationText
      && ReadToNul(r.expandedInformation) == conf.expandedInformation
      && ReadToNul(r.expandedControlText) == conf.expandedControlText
      && ReadToNul(r.collapsedControlText) == conf.collapsedControlText
      && ReadToNul(r.footer) == conf.footer
      && (forall i :: 0 <= i < |r.buttons| ==> ReadToNul(r.buttons[i].text) == conf.buttons[i].text)
      && (forall i :: 0 <= i < |r.radioButtons| ==> ReadToNul(r.radioButtons[i].text) == conf.radioButtons[i].text)
  {
    ReadBack(conf.windowTitle);
    ReadBack(conf.mainInstruction);
    ReadBack(conf.content);
    ReadBack(conf.verificationText);
    ReadBack(conf.expandedInformation);
    ReadBack(conf.expandedControlText);
    ReadBack(conf.collapsedControlText);
    ReadBack(conf.footer);
    forall i | 0 <= i < |conf.buttons| ensures ReadToNul(FromStrUnchecked(conf.buttons[i].text)) == conf.buttons[i].text {
      ReadBack(conf.buttons[i].text);
    }
    forall i | 0 <= i < |conf.radioButtons|
      ensures ReadToNul(FromStrUnchecked(conf.radioButtons[i].text)) == conf.radioButtons[i].text
    {
      ReadBack(conf.radioButtons[i].text);
    }
  }

  // ---------------------------------------------------------------------
  // Notification bridge

  /** The events one bridge call causes: the hyperlink callback first, the raw callback last. */
  function BridgeTrace(hyperlinkCallback: Option<CallbackId>, rawInstalled: bool, n: Notification, view: DialogState): seq<Event>
    requires WellFormed(n)
  {
    (if n.msg == TDN_HYPERLINK_CLICKED && hyperlinkCallback.Some?
     then [HyperlinkCalled(hyperlinkCallback.value, ReadToNul(n.lParam.text))] else [])
    + (if rawInstalled then [RawCalled(n, view)] else [])
  }

  /** The events a run of notifications causes through the bridge. */
  function SessionTrace(hyperlinkCallback: Option<CallbackId>, rawInstalled: bool, s: DialogState, notes: seq<Notification>): seq<Event>
    requires AllWellFormed(notes)
    decreases |notes|
  {
    if notes == [] then []
    else
      SessionTrace(hyperlinkCallback, rawInstalled, s, notes[..|notes| - 1])
      + BridgeTrace(hyperlinkCallback, rawInstalled, notes[|notes| - 1], Deliver(s, notes))
  }

  /** The hyperlink-callback invocations of a trace, in order. */
  function HyperlinkCalls(t: seq<Event>): seq<Event>
    decreases |t|
  {
    if t == [] then []
    else HyperlinkCalls(t[..|t| - 1]) + (if t[|t| - 1].HyperlinkCalled? then [t[|t| - 1]] else [])
  }

  /** The raw-callback invocations of a trace, in order. */
  function RawCalls(t: seq<Event>): seq<Event>
    decreases |t|
  {
    if t == [] then []
    else RawCalls(t[..|t| - 1]) + (if t[|t| - 1].RawCalled? then [t[|t| - 1]] else [])
  }

  lemma {:induction false} CallsAppend(a: seq<Event>, b: seq<Event>)
    ensures HyperlinkCalls(a + b) == HyperlinkCalls(a) + HyperlinkCalls(b)
    ensures RawCalls(a + b) == RawCalls(a) + RawCalls(b)
    decreases |b|
  {
    if b == [] {
      assert a + b == a;
    } else {
      assert (a + b)[..|a + b| - 1] == a + b[..|b| - 1];
      CallsAppend(a, b[..|b| - 1]);
    }
  }

  /** The texts of the links clicked in a run of notifications, in order. */
  function ClickedLinks(notes: seq<Notification>): seq<string>
    requires AllWellFormed(notes)
    decreases |notes|
  {
    if notes == [] then []
    else
      var n := notes[|notes| - 1];
      ClickedLinks(notes[..|notes| - 1]) + (if n.msg == TDN_HYPERLINK_CLICKED then [ReadToNul(n.lParam.text)] else [])
  }

  /** One invocation of hyperlink callback `cb` per link, in order. */
  function CallsWith(cb: CallbackId, links: seq<string>): seq<Event> {
    seq(|links|, i requires 0 <= i < |links| => HyperlinkCalled(cb, links[i]))
  }

  /** One raw-callback invocation per notification, each seeing the state after that notification's built-in stage. */
  function RawSchedule(s: DialogState, notes: seq<Notification>): seq<Event> {
    seq(|notes|, i requires 0 <= i < |notes| => RawCalled(notes[i], Deliver(s, notes[..i + 1])))
  }

  lemma SingleCalls(e: Event)
    ensures HyperlinkCalls([e]) == if e.HyperlinkCalled? then [e] else []
    ensures RawCalls([e]) == if e.RawCalled? then [e] else []
  {
    assert [e][..0] == [];
  }

  /** What one bridge call contributes to each callback's invocations. */
  lemma BridgeTraceCalls(hyperlinkCallback: Option<CallbackId>, rawInstalled: bool, n: Notification, view: DialogState)
    requires WellFormed(n)
    ensures HyperlinkCalls(BridgeTrace(hyperlinkCallback, rawInstalled, n, view)) ==
      if n.msg == TDN_HYPERLINK_CLICKED && hyperlinkCallback.Some?
      then [HyperlinkCalled(hyperlinkCallback.value, ReadToNul(n.lParam.text))] else []
    ensures RawCalls(BridgeTrace(hyperlinkCallback, rawInstalled, n, view)) ==
      if rawInstalled then [RawCalled(n, view)] else []
  {
    var h := if n.msg == TDN_HYPERLINK_CLICKED && hyperlinkCallback.Some?
      then [HyperlinkCalled(hyperlinkCallback.value, ReadToNul(n.lParam.text))] else [];
    var raw := if rawInstalled then [RawCalled(n, view)] else [];
    CallsAppend(h, raw);
    if h != [] {
      SingleCalls(h[0]);
    }
    if raw != [] {
      SingleCalls(raw[0]);
    }
  }

  lemma CallsWithAppend(cb: CallbackId, links: seq<string>, more: seq<string>)
    requires |more| <= 1
    ensures CallsWith(cb, links + more) == CallsWith(cb, links) + CallsWith(cb, more)
  {
  }

  lemma RawScheduleAppend(s: DialogState, notes: seq<Notification>)
    requires notes != []
    ensures RawSchedule(s, notes) ==
      RawSchedule(s, notes[..|notes| - 1]) + [RawCalled(notes[|notes| - 1], Deliver(s, notes))]
  {
    var init := notes[..|notes| - 1];
    assert notes[..|notes|] == notes;
    forall i | 0 <= i < |init| ensures RawSchedule(s, notes)[i] == RawSchedule(s, init)[i] {
      assert init[..i + 1] == notes[..i + 1];
    }
  }

  /**
   * Over a whole session, an installed hyperlink callback is called once per
   * TDN_HYPERLINK_CLICKED, in order, with that link's text, whether or not a
   * raw callback is installed; without one nothing is called.
   */
  lemma {:induction false} HyperlinkCallbackSeesEveryClick(
    hyperlinkCallback: Option<CallbackId>, rawInstalled: bool, s: DialogState, notes: seq<Notification>)
    requires AllWellFormed(notes)
    ensures HyperlinkCalls(SessionTrace(hyperlinkCallback, rawInstalled, s, notes)) ==
      if hyperlinkCallback.None? then [] else CallsWith(hyperlinkCallback.value, ClickedLinks(notes))
    decreases |notes|
  {
    if notes != [] {
      var init, n := notes[..|notes| - 1], notes[|notes| - 1];
      HyperlinkCallbackSeesEveryClick(hyperlinkCallback, rawInstalled, s, init);
      var t := SessionTrace(hyperlinkCallback, rawInstalled, s, init);
      var b := BridgeTrace(hyperlinkCallback, rawInstalled, n, Deliver(s, notes));
      assert SessionTrace(hyperlinkCallback, rawInstalled, s, notes) == t + b;
      CallsAppend(t, b);
      BridgeTraceCalls(hyperlinkCallback, rawInstalled, n, Deliver(s, notes));
      if hyperlinkCallback.Some? {
        ClickStep(hyperlinkCallback.value, rawInstalled, Deliver(s, notes), notes);
      }
    }
  }

  /** The last notification of a run adds its own link, if any, to the hyperlink callback's invocations. */
  lemma ClickStep(cb: CallbackId, rawInstalled: bool, view: DialogState, notes: seq<Notification>)
    requires AllWellFormed(notes) && notes != []
    ensures CallsWith(cb, ClickedLinks(notes)) ==
      CallsWith(cb, ClickedLinks(notes[..|notes| - 1])) +
      HyperlinkCalls(BridgeTrace(Some(cb), rawInstalled, notes[|notes| - 1], view))
  {
    var init, n := notes[..|notes| - 1], notes[|notes| - 1];
    var more := if n.msg == TDN_HYPERLINK_CLICKED then [ReadToNul(n.lParam.text)] else [];
    assert ClickedLinks(notes) == ClickedLinks(init) + more;
    CallsWithAppend(cb, ClickedLinks(init), more);
    BridgeTraceCalls(Some(cb), rawInstalled, n, view);
    if n.msg == TDN_HYPERLINK_CLICKED {
      assert CallsWith(cb, more) == [HyperlinkCalled(cb, ReadToNul(n.lParam.text))];
    } else {
      assert CallsWith(cb, more) == [];
    }
  }

  /**
   * Over a whole session, an installed raw callback is called once per
   * notification, in order, and always after the built-in stage has handled
   * that notification; without one it is never called.
   */
  lemma {:induction false} RawCallbackSeesEveryNotification(
    hyperlinkCallback: Option<CallbackId>, rawInstalled: bool, s: DialogState, notes: seq<Notification>)
    requires AllWellFormed(notes)
    ensures RawCalls(SessionTrace(hyperlinkCallback, rawInstalled, s, notes)) ==
      if rawInstalled then RawSchedule(s, notes) else []
    decreases |notes|
  {
    if notes != [] {
      var init, n := notes[..|notes| - 1], notes[|notes| - 1];
      RawCallbackSeesEveryNotification(hyperlinkCallback, rawInstalled, s, init);
      var t := SessionTrace(hyperlinkCallback, rawInstalled, s, init);
      var b := BridgeTrace(hyperlinkCallback, rawInstalled, n, Deliver(s, notes));
      assert SessionTrace(hyperlinkCallback, rawInstalled, s, notes) == t + b;
      CallsAppend(t, b);
      BridgeTraceCalls(hyperlinkCallback, rawInstalled, n, Deliver(s, notes));
      if rawInstalled {
        RawScheduleAppend(s, notes);
      }
    }
  }

  /**
   * The callback registered with the host. `refData` is the configuration
   * whose address the request carries as its callback data.
   */
  method Callback(hwnd: Handle, msg: nat, wParam: WParam, lParam: LParam, refData: TaskDialogConfig, host: Host)
    returns (hr: Int32)
    requires WellFormed(Notification(hwnd, msg, wParam, lParam))
    modifies refData`dialogHwnd, refData`isDestroyed, host`trace
    ensures refData.State() == Step(old(refData.State()), Notification(hwnd, msg, wParam, lParam))
    ensures host.trace == old(host.trace) +
      BridgeTrace(refData.hyperlinkCallback, refData.callback.Some?, Notification(hwnd, msg, wParam, lParam), refData.State())
    ensures hr == if refData.callback.Some?
      then refData.callback.value(Notification(hwnd, msg, wParam, lParam), refData.State())
      else S_OK
  {
    if msg == TDN_CREATED {
      refData.dialogHwnd := hwnd;
    } else if msg == TDN_DESTROYED {
      refData.isDestroyed := true;
    } else if msg == TDN_HYPERLINK_CLICKED {
      var link := ReadToNul(lParam.text);
      if refData.hyperlinkCallback.Some? {
        host.Record(HyperlinkCalled(refData.hyperlinkCallback.value, link));
      }
    }
    if refData.callback.Some? {
      var n := Notification(hwnd, msg, wParam, lParam);
      host.Record(RawCalled(n, refData.State()));
      return refData.callback.value(n, refData.State());
    }
    return S_OK;
  }

  // ---------------------------------------------------------------------
  // Execution engine

  /**
   * The host's `TaskDialogIndirect`: it shows the request, delivers the
   * session's notifications to the callback with `refData`, and returns the
   * session's status, button id, radio id and verification BOOL.
   */
  method ShowDialog(request: NativeRequest, refData: TaskDialogConfig, host: Host)
    returns (status: Int32, buttonId: Int32, radioButtonId: Int32, verify: Int32)
    requires SessionWellFormed(host.session)
    modifies refData`dialogHwnd, refData`isDestroyed, host`trace
    ensures refData.State() == Deliver(old(refData.State()), host.session.notifications)
    ensures host.trace == old(host.trace) + [Shown(request)] +
      SessionTrace(refData.hyperlinkCallback, refData.callback.Some?, old(refData.State()), host.session.notifications)
    ensures status == host.session.status && buttonId == host.session.buttonId
    ensures radioButtonId == host.session.radioButtonId && verify == host.session.verify
  {
    host.Record(Shown(request));
    var notes := host.session.notifications;
    ghost var s0 := old(refData.State());
    ghost var t0 := old(host.trace) + [Shown(request)];
    var i := 0;
    while i < |notes|
      invariant 0 <= i <= |notes|
      invariant refData.State() == Deliver(s0, notes[..i])
      invariant host.trace == t0 + SessionTrace(refData.hyperlinkCallback, refData.callback.Some?, s0, notes[..i])
    {
      var n := notes[i];
      ghost var done := notes[..i + 1];
      assert done[..i] == notes[..i] && done[i] == n;
      var hr := Callback(n.hwnd, n.msg, n.wParam, n.lParam, refData, host);
      assert refData.State() == Deliver(s0, done);
      i := i + 1;
    }
    assert notes[..i] == notes;
    return host.session.status, host.session.buttonId, host.session.radioButtonId, host.session.verify;
  }

  /**
   * `execute_task_dialog`: marshals `conf`, then either shows the dialog and
   * decodes its outcome, or sends the request to `conf`'s window as a new page.
   */
  method ExecuteTaskDialog(conf: TaskDialogConfig, opt: ExecuteOption, host: Host)
    returns (r: Result<TaskDialogResult, OsError>)
    requires opt.TaskDialogIndirect? ==> SessionWellFormed(host.session)
    modifies conf`dialogHwnd, conf`isDestroyed, host`trace
    ensures opt.TaskDialogIndirect? ==>
      && conf.State() == Deliver(old(conf.State()), host.session.notifications)
      && host.trace == old(host.trace) + [Shown(old(BuildRequest(conf, host.moduleHandle)))] +
         SessionTrace(conf.hyperlinkCallback, conf.callback.Some?, old(conf.State()), host.session.notifications)
      && (r.Failure? <==> host.session.status != 0)
      && (r.Failure? ==> r.error == OsError(host.session.lastError))
      && (r.Success? ==>
            r.value == TaskDialogResult(host.session.buttonId, host.session.radioButtonId, host.session.verify != 0))
    ensures opt.TaskDialogNavigate? ==>
      && conf.State() == old(conf.State())
      && host.trace == old(host.trace) +
         [Sent(conf.dialogHwnd, Message(TDM_NAVIGATE_PAGE, 0, RequestPtr(old(BuildRequest(conf, host.moduleHandle)))))]
      && r == Success(DefaultResult())
  {
    var result := DefaultResult();
    var request := BuildRequest(conf, host.moduleHandle);
    var ret: Int32;
    match opt {
      case TaskDialogIndirect =>
        var buttonId, radioButtonId, verify;
        ret, buttonId, radioButtonId, verify := ShowDialog(request, conf, host);
        result := result.(buttonId := buttonId, radioButtonId := radioButtonId, checked := verify != 0);
      case TaskDialogNavigate =>
        host.SendMessage(conf.dialogHwnd, Message(TDM_NAVIGATE_PAGE, 0, RequestPtr(request)));
        ret := 0;
    }
    if ret != 0 {
      r := Failure(OsError(host.session.lastError));
    } else {
      r := Success(result);
    }
  }

  /** `show_task_dialog`: the engine's show branch. */
  method ShowTaskDialog(conf: TaskDialogConfig, host: Host) returns (r: Result<TaskDialogResult, OsError>)
    requires SessionWellFormed(host.session)
    modifies conf`dialogHwnd, conf`isDestroyed, host`trace
    ensures conf.State() == Deliver(old(conf.State()), host.session.notifications)
    ensures host.trace == old(host.trace) + [Shown(old(BuildRequest(conf, host.moduleHandle)))] +
      SessionTrace(conf.hyperlinkCallback, conf.callback.Some?, old(conf.State()), host.session.notifications)
    ensures r.Failure? <==> host.session.status != 0
    ensures r.Failure? ==> r.error == OsError(host.session.lastError)
    ensures r.Success? ==>
      r.value == TaskDialogResult(host.session.buttonId, host.session.radioButtonId, host.session.verify != 0)
  {
    r := ExecuteTaskDialog(conf, TaskDialogIndirect, host);
  }
}
