# win-task-dialog, modelled in Dafny

This project models the Windows-only core of the `win-task-dialog` Rust
crate (`src/lib.rs`). The crate wraps the Win32 task dialog behind a
caller-owned configuration, `TaskDialogConfig`. The model covers:

- the configuration and its default values;
- the progress-bar flag switch (`enable_process_bar`);
- the live-update setters, which send one `TDM_*` message to the running
  dialog while its window handle is known and do nothing otherwise;
- `navigate_page`;
- the marshaling of a configuration into the native `TASKDIALOGCONFIG`
  request: texts, buttons, radio buttons, icons, instance fallback, counts;
- the notification bridge, the callback the native host calls with the
  configuration as its reference data. It records the window handle on
  `TDN_CREATED` and sets the destroyed flag on `TDN_DESTROYED`. On
  `TDN_HYPERLINK_CLICKED` it decodes the link and gives it to the hyperlink
  callback. It then forwards every notification to the raw callback;
- `execute_task_dialog`, both the show branch and the navigate branch, and
  `show_task_dialog`.

The native side is an abstract host (`NativeHost.Host`). It records every
event the binding causes in a trace: messages sent, dialogs shown, and
callback invocations. A `Session` value supplies what the modal call would
produce: the notifications delivered, the status, the button and radio ids,
the verification BOOL and the OS error code. Shown dialogs and sent messages
therefore become trace events. The contracts tie the trace and the
configuration's runtime state to pure functions: `LiveUpdateSends`,
`NavigateSends`, `BuildRequest`, `Deliver` and `SessionTrace`. Lemmas prove
what those functions guarantee.

Files:

- `wrappers.dfy`: `Option` and `Result`.
- `bits.dfy`: facts about OR-ing a bit into a 32-bit flag set.
- `widestring.dfy`: the wide-string boundary. `from_str` refuses an
  interior NUL, `from_str_unchecked` keeps it, and a reader stops at the
  first NUL.
- `win32.dfy`: handles, integer widths, the commctrl constants, the native
  request, messages and notifications.
- `bridge.dfy`: the built-in stage of the callback, which updates the
  state (`dialogHwnd`, `isDestroyed`).
- `host.dfy`: the host, its event trace and the session.
- `taskdialog.dfy`: the configuration class, live updates, marshaling, the
  callback and the execution engine.
- `scenarios.dfy`: client programs whose assertions follow from the
  contracts alone. They cover picking a button, a failed show, progress
  updates after `TDN_CREATED`, sends through a stale handle after
  `TDN_DESTROYED`, navigation from a button click, and a hyperlink reaching
  its callback.

Where a reader might expect otherwise, the model follows the code:

- The live-update setters test only the window handle, never
  `is_destroyed`. After `TDN_DESTROYED` they still send to the stale handle
  (`Scenarios.UpdateAfterDestroyedStillSends`).
- The text setters (`set_content` and the others) send the new text to the
  window but do not store it in the configuration's fields.
- Navigating sends the new page to the handle of the argument configuration
  (the new page), not to the running dialog's handle. See Findings.

## Model

| member | source | states |
|---|---|---|
| TaskDialog.DefaultResult | src/lib.rs:297-305 | button id 0, radio id 0, not checked |
| TaskDialog.TaskDialogConfig.Default | src/lib.rs:105-133 | every field starts at the crate's default: null handles, flags 0, only the Cancel common button, empty texts and lists, no callbacks, width 0, state `Initial` |
| TaskDialog.ProgressBarFlags | src/lib.rs:144-154 | the flags after `enable_process_bar` are the old flags OR the marquee or determinate bit, whichever branch tests for it |
| TaskDialog.ProgressBarFlagsSetsBit | src/lib.rs:144-154 | afterwards the chosen progress-bar bit is set |
| TaskDialog.ProgressBarFlagsKeepsFlags | src/lib.rs:144-154 | no bit that was set before is cleared |
| TaskDialog.ProgressBarFlagsLeavesOthers | src/lib.rs:144-154 | every bit outside the chosen progress-bar bit is unchanged |
| TaskDialog.ProgressBarFlagsIdempotent | src/lib.rs:144-154 | enabling the same progress bar twice equals enabling it once |
| TaskDialog.TaskDialogConfig.EnableProcessBar | src/lib.rs:144-154 | the new flags are `ProgressBarFlags` of the old flags; nothing else changes |
| TaskDialog.UpdateMessage | src/lib.rs:157-262 | the message each setter sends: each of the four `TDM_*` ids belongs to exactly one kind of update, and a text update names its slot by its `TDE_*` selector and points at a buffer that reads back as the text |
| TaskDialog.UpdateMessageDecodes | src/lib.rs:157-262 | every live-update message (message id, WPARAM, LPARAM) decodes back to the operation and arguments that produced it, text included |
| TaskDialog.UpdateMessageInjective | src/lib.rs:157-262 | distinct live updates send distinct messages; the four text setters differ in their `TDE_*` selector |
| TaskDialog.LiveUpdateSends | src/lib.rs:157-262 | a live update sends nothing exactly when the handle is null; otherwise it sends one message, to that handle, which decodes to the update |
| TaskDialog.TaskDialogConfig.SetProcessBarMarquee | src/lib.rs:157-173 | appends `TDM_SET_PROGRESS_BAR_MARQUEE` with the enable BOOL and the animation time to the trace when the handle is set; sends nothing otherwise |
| TaskDialog.TaskDialogConfig.SetProcessBar | src/lib.rs:176-183 | appends `TDM_SET_PROGRESS_BAR_POS` with the percentage when the handle is set; sends nothing otherwise |
| TaskDialog.TaskDialogConfig.SetContent | src/lib.rs:186-199 | sends `TDM_UPDATE_ELEMENT_TEXT` for `TDE_CONTENT` with the text, when the handle is set |
| TaskDialog.TaskDialogConfig.SetMainInstruction | src/lib.rs:202-215 | the same for `TDE_MAIN_INSTRUCTION` |
| TaskDialog.TaskDialogConfig.SetFooter | src/lib.rs:218-231 | the same for `TDE_FOOTER` |
| TaskDialog.TaskDialogConfig.SetExpandedInformation | src/lib.rs:234-247 | the same for `TDE_EXPANDED_INFORMATION` |
| TaskDialog.TaskDialogConfig.SetButtonElevationRequiredState | src/lib.rs:250-262 | sends `TDM_SET_BUTTON_ELEVATION_REQUIRED_STATE` with the button id and 1 or 0, when the handle is set |
| TaskDialog.TaskDialogConfig.NavigatePage | src/lib.rs:265-270 | as written: with its own handle null nothing happens; otherwise the target's request is sent as `TDM_NAVIGATE_PAGE` to the target configuration's handle; both runtime states are unchanged |
| TaskDialog.NavigateSends | src/lib.rs:265-270 | `navigate_page` together with the navigate branch (lines 457-462): nothing exactly when the guard handle is null, otherwise one `TDM_NAVIGATE_PAGE` carrying the request, to the target handle |
| TaskDialog.NavigateCanTargetNullWindow | src/lib.rs:265-270 | as written, whatever non-null handle passes the guard, the page is sent to the null window when the target configuration has no handle |
| TaskDialog.TaskDialogConfig.NavigatePageToOwnWindow | src/lib.rs:265-270 | corrected: the page is sent to the handle that was checked |
| TaskDialog.OwnWindowNavigateTargetsGuardedHandle | src/lib.rs:265-270 | guarding and sending on one handle sends at most one message, only to that non-null handle |
| TaskDialog.NativeButtons | src/lib.rs:349-378 | one native button per button, in order, with its id and its text stored unchecked |
| TaskDialog.BuildRequest | src/lib.rs:329-441 | the request copies parent, flags, common buttons, both defaults and width; uses the module handle when the instance is null; passes the icons through; keeps button and radio ids in order; counts equal the list lengths when they fit `UINT` |
| TaskDialog.RequestTextRoundTrip | src/lib.rs:336-378 | when no text holds a NUL, the host reads back every text of the request, button and radio texts included, exactly as the caller wrote it |
| WideString.TakeUntilNul | src/lib.rs:403-405 | the text read from a wide pointer is the longest NUL-free prefix of the buffer |
| WideString.ReadBack | src/lib.rs:336-346 | NUL-free text stored unchecked reads back unchanged |
| WideString.TruncatedAtFirstNul | src/lib.rs:336-346 | text with a NUL stored unchecked is read back only up to its first NUL |
| WideString.FromStrReadsBack | src/lib.rs:190 | `from_str` succeeds exactly when the text has no NUL, and then reads back unchanged |
| NotificationBridge.Step | src/lib.rs:398-402 | one notification: `TDN_CREATED` records its handle, `TDN_DESTROYED` sets the flag, nothing else changes either field, and the flag is never cleared |
| NotificationBridge.DestroyedIsSticky | src/lib.rs:400-401 | once the destroyed flag is set, no run of notifications clears it |
| NotificationBridge.DestroyedIffNotified | src/lib.rs:398-402 | after a run the flag is set exactly when it was set before or the run contained `TDN_DESTROYED` |
| NotificationBridge.HandleIsLastCreated | src/lib.rs:398-402 | after a run the handle is the one carried by the last `TDN_CREATED`, or the old handle when there was none; `TDN_DESTROYED` does not clear it |
| TaskDialog.Callback | src/lib.rs:390-414 | the state advances by `Step`; the hyperlink callback gets the decoded link after the built-in stage; the raw callback then sees the notification and the updated state, and its result is returned, else `S_OK` |
| TaskDialog.HyperlinkCallbackSeesEveryClick | src/lib.rs:402-409 | over a session an installed hyperlink callback is called once per `TDN_HYPERLINK_CLICKED`, in order, with that link's text; without one it is never called |
| TaskDialog.RawCallbackSeesEveryNotification | src/lib.rs:410-412 | over a session an installed raw callback is called once per notification, in order, each time after the built-in stage has handled that notification; without one it is never called |
| TaskDialog.ShowDialog | src/lib.rs:444-454 | the host shows the request and delivers the session's notifications through the callback; the final state is `Deliver` of the session and the host's outputs are returned |
| TaskDialog.ExecuteTaskDialog | src/lib.rs:315-472 | show branch: the request is shown, the state and trace follow the session, the result is an error with the OS code exactly when the status is nonzero, else the button id, radio id and `verify != 0`; navigate branch: one `TDM_NAVIGATE_PAGE` with the request to the configuration's handle, state unchanged, the default result |
| TaskDialog.ShowTaskDialog | src/lib.rs:309-311 | `execute_task_dialog` in show mode: the request is shown, the state and trace follow the session, the result is an error carrying the OS error code exactly when the status is nonzero, else the button id, radio id and `verify != 0` |

## Left out

- The Win32 calls are not modelled as code. `TaskDialogIndirect`, `SendMessageA` and `GetModuleHandleA` are foreign calls. The abstract host stands in for them: it records sends and shows, and it supplies the module handle and the session's outcome.
- The modal message loop, window rendering and threading are out of scope. `ShowDialog` delivers a shown dialog's whole session in one step, so no live update can fall between its notifications; a caller updating the dialog from another thread while `show_task_dialog` blocks cannot be expressed. The scenarios interleave live updates with notifications by calling `Callback` directly.
- What the host does with the callback's return value is not modelled. For example, it may refuse a navigation or keep the dialog open on `S_FALSE`. The model passes the value back and stops there.
- Notifications a navigation causes in the running dialog, such as `TDN_NAVIGATED`, are not modelled. `NavigatePage` records only the message it sends.
- UTF-16 encoding is not modelled. A wide string is abstracted to the characters it stores. The `to_string().unwrap()` on a hyperlink's text panics on invalid UTF-16, and the model has no such failure.
- TaskDialog.Callback: requires that a `TDN_HYPERLINK_CLICKED` notification carry a text pointer. The source dereferences `lParam` as one without checking, so the requirement is the host's promise.
- The raw callback is modelled as a pure function of the notification and the runtime state. Anything it does to the configuration through the pointer it receives is not modelled for the time it runs, including calling a setter or `navigate_page` from inside it. The scenarios make those calls between notifications instead.
- The pointer round trip of the callback data is not modelled. The source casts the configuration's address to an integer and transmutes it back in the callback. In the model the callback receives the configuration object directly.
- The request leaves out `cbSize`, `pfCallback` and `lpCallbackData`. These are the structure size, the callback pointer and the configuration's address. The model passes the callback and the configuration as arguments instead.
- Integer widths are modelled as unbounded integers. This covers `usize` percentages and button ids, the `isize` marquee time, and the pointer-width `WPARAM` and `LPARAM`. Only the two `len() as UINT` truncations, of the button and radio-button counts, are written out, modulo 2^32.
- The text setters require `!HasNul(text)` whenever the handle is set. In the source, `from_str(..).unwrap()` panics on text with a NUL. The model does not include the panic.
- `show_msg_dialog`, the constant re-exports and the non-Windows stubs are not part of this model. The stubs do nothing, or return the default result and no error.
- The hyperlink callback is modelled by an identifier. Its invocations are trace events, not calls into user code.

## Findings

| source | as written | input that shows it | evidently intended | confidence | as-written member | corrected member |
|---|---|---|---|---|---|---|
| src/lib.rs:265-270 | `navigate_page` checks that its own `dialog_hwnd` is set. It then calls `execute_task_dialog(conf, TaskDialogNavigate)`, which sends `TDM_NAVIGATE_PAGE` to `conf.dialog_hwnd` (line 458), the handle of the page being navigated to. | The running dialog's configuration has `dialog_hwnd` = 42. It navigates to a fresh `TaskDialogConfig::default()`, whose `dialog_hwnd` is null. The new page is sent to the null window, and the running dialog is not navigated. | Send the new page to the running dialog, the handle that was checked. | medium, not executed | TaskDialog.TaskDialogConfig.NavigatePage, TaskDialog.NavigateCanTargetNullWindow | TaskDialog.TaskDialogConfig.NavigatePageToOwnWindow, TaskDialog.OwnWindowNavigateTargetsGuardedHandle |
