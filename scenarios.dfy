/**
 * Client programs that drive the model through the binding's documented
 * interactions, in the style of a test harness: each one states, with
 * assertions, what a caller can conclude from the contracts alone.
 */
module Scenarios {
  import opened Wrappers
  import opened WideString
  import opened Win32
  import opened NotificationBridge
  import opened NativeHost
  import opened TaskDialog

  /** Two command buttons, default 11; the user picks button 11 and no radio option. */
  method ChosenButtonIsReported() {
    var conf := new TaskDialogConfig.Default();
    conf.buttons := [TaskDialogButton(10, "One"), TaskDialogButton(11, "Two")];
    conf.defaultButton := 11;
    var request := BuildRequest(conf, 7);
    assert |request.buttons| == 2 && request.buttons[0].id == 10 && request.buttons[1].id == 11;
    assert request.defaultButton == 11 && request.instance == 7;
    var host := new Host(7, Session([], S_OK, 11, 0, 0, 0));
    var r := ShowTaskDialog(conf, host);
    assert r == Success(TaskDialogResult(11, 0, false));
    assert host.trace == [Shown(request)];
  }

  /** A failed show is an error carrying the OS error code, whatever the host reported besides. */
  method FailedShowIsAnError() {
    var conf := new TaskDialogConfig.Default();
    var host := new Host(7, Session([], -1, 2, 0, 1, 1400));
    var r := ShowTaskDialog(conf, host);
    assert r == Failure(OsError(1400));
  }

  /** A determinate progress bar updated to 0, 50 and 100 once the dialog exists. */
  method ProgressUpdatesAfterCreated() {
    var conf := new TaskDialogConfig.Default();
    conf.EnableProcessBar(false);
    assert conf.flags == TDF_SHOW_PROGRESS_BAR;
    var host := new Host(7, Session([], S_OK, 0, 0, 0, 0));

    conf.SetProcessBar(50, host);
    assert host.trace == [];

    var hr := Callback(42, TDN_CREATED, 0, Word(0), conf, host);
    assert conf.dialogHwnd == 42 && hr == S_OK && host.trace == [];

    conf.SetProcessBar(0, host);
    conf.SetProcessBar(50, host);
    conf.SetProcessBar(100, host);
    assert host.trace == [
      Sent(42, Message(TDM_SET_PROGRESS_BAR_POS, 0, Word(0))),
      Sent(42, Message(TDM_SET_PROGRESS_BAR_POS, 50, Word(0))),
      Sent(42, Message(TDM_SET_PROGRESS_BAR_POS, 100, Word(0)))];
  }

  /** After TDN_DESTROYED the handle is stale, and the setters still send to it. */
  method UpdateAfterDestroyedStillSends() {
    var conf := new TaskDialogConfig.Default();
    var host := new Host(7, Session([], S_OK, 0, 0, 0, 0));
    var hr := Callback(42, TDN_CREATED, 0, Word(0), conf, host);
    hr := Callback(42, TDN_DESTROYED, 0, Word(0), conf, host);
    assert conf.isDestroyed && conf.dialogHwnd == 42 && host.trace == [];
    conf.SetProcessBar(100, host);
    assert host.trace == [Sent(42, Message(TDM_SET_PROGRESS_BAR_POS, 100, Word(0)))];
  }

  /**
   * On a button click the caller rewrites its own configuration and navigates
   * the running dialog to it. The receiver and the argument are the same
   * object here; safe Rust refuses that call (two `&mut` borrows of one
   * value), so it is reachable only through the raw configuration pointer the
   * callback receives.
   */
  method NavigateFromButtonClick() {
    var conf := new TaskDialogConfig.Default();
    var host := new Host(7, Session([], S_OK, 0, 0, 0, 0));
    var hr := Callback(42, TDN_CREATED, 0, Word(0), conf, host);
    assert host.trace == [] && conf.State() == DialogState(42, false);
    hr := Callback(42, TDN_BUTTON_CLICKED, 1776, Word(0), conf, host);
    assert host.trace == [] && conf.dialogHwnd == 42;

    conf.windowTitle := "Page 2";
    var request := BuildRequest(conf, 7);
    conf.NavigatePage(conf, host);
    assert host.trace == [Sent(42, Message(TDM_NAVIGATE_PAGE, 0, RequestPtr(request)))];
  }

  /** A separate configuration for the next page: as written the page goes to that configuration's own, null, handle. */
  method NavigateToSeparatePage() {
    var conf := new TaskDialogConfig.Default();
    var host := new Host(7, Session([], S_OK, 0, 0, 0, 0));
    var hr := Callback(42, TDN_CREATED, 0, Word(0), conf, host);
    assert host.trace == [] && conf.dialogHwnd == 42;
    var page := new TaskDialogConfig.Default();
    var request := BuildRequest(page, 7);
    conf.NavigatePage(page, host);
    assert host.trace == NavigateSends(42, NULL, request);
  }

  /** The corrected navigation sends a separate configuration's page to the running dialog. */
  method NavigateToSeparatePageCorrected() {
    var conf := new TaskDialogConfig.Default();
    var host := new Host(7, Session([], S_OK, 0, 0, 0, 0));
    var hr := Callback(42, TDN_CREATED, 0, Word(0), conf, host);
    assert host.trace == [] && conf.dialogHwnd == 42;
    var page := new TaskDialogConfig.Default();
    var request := BuildRequest(page, 7);
    conf.NavigatePageToOwnWindow(page, host);
    assert host.trace == NavigateSends(42, 42, request);
  }

  /** A clicked hyperlink reaches the hyperlink callback with its text and leaves the runtime state alone. */
  method HyperlinkReachesCallback() {
    var conf := new TaskDialogConfig.Default();
    conf.hyperlinkCallback := Some(1);
    var host := new Host(7, Session([], S_OK, 0, 0, 0, 0));
    var hr := Callback(42, TDN_CREATED, 0, Word(0), conf, host);
    assert host.trace == [] && conf.State() == DialogState(42, false);
    var link := "a.b";
    ReadBack(link);
    hr := Callback(42, TDN_HYPERLINK_CLICKED, 0, TextPtr(FromStrUnchecked(link)), conf, host);
    assert host.trace == [HyperlinkCalled(1, link)];
    assert conf.State() == DialogState(42, false);
  }
}
