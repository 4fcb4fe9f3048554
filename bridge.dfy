/**
 * The built-in stage of the notification bridge: the part of the task-dialog
 * callback that turns lifecycle notifications into the configuration's
 * runtime state (its window handle and its destroyed flag).
 */
module NotificationBridge {
  import opened Win32

  /** The two configuration fields only the bridge writes: `dialog_hwnd` and `is_destroyed`. */
  datatype DialogState = DialogState(dialogHwnd: Handle, isDestroyed: bool)

  /** The runtime state of a default configuration. */
  const Initial: DialogState := DialogState(NULL, false)

  /** One notification through the built-in stage (the if/else-if chain of the callback). */
  function Step(s: DialogState, n: Notification): (t: DialogState)
    ensures s.isDestroyed ==> t.isDestroyed
    ensures t.isDestroyed <==> s.isDestroyed || n.msg == TDN_DESTROYED
    ensures n.msg == TDN_CREATED ==> t.dialogHwnd == n.hwnd
    ensures n.msg != TDN_CREATED ==> t.dialogHwnd == s.dialogHwnd
  {
    if n.msg == TDN_CREATED then s.(dialogHwnd := n.hwnd)
    else if n.msg == TDN_DESTROYED then s.(isDestroyed := true)
    else s
  }

  /** The state after the host has delivered `notes`, in order. */
  function Deliver(s: DialogState, notes: seq<Notification>): DialogState
    decreases |notes|
  {
    if notes == [] then s
    else Step(Deliver(s, notes[..|notes| - 1]), notes[|notes| - 1])
  }

  /** Once the destroyed flag is set, no notification clears it. */
  lemma {:induction false} DestroyedIsSticky(s: DialogState, notes: seq<Notification>)
    requires s.isDestroyed
    ensures Deliver(s, notes).isDestroyed
    decreases |notes|
  {
    if notes != [] {
      DestroyedIsSticky(s, notes[..|notes| - 1]);
    }
  }

  /** The flag is set after a run exactly when it was set before or a TDN_DESTROYED was delivered. */
  lemma {:induction false} DestroyedIffNotified(s: DialogState, notes: seq<Notification>)
    ensures Deliver(s, notes).isDestroyed <==>
      s.isDestroyed || exists i :: 0 <= i < |notes| && notes[i].msg == TDN_DESTROYED
    decreases |notes|
  {
    if notes != [] {
      var init := notes[..|notes| - 1];
      DestroyedIffNotified(s, init);
      if exists i :: 0 <= i < |init| && init[i].msg == TDN_DESTROYED {
        var i :| 0 <= i < |init| && init[i].msg == TDN_DESTROYED;
        assert notes[i].msg == TDN_DESTROYED;
      }
      if exists i :: 0 <= i < |notes| && notes[i].msg == TDN_DESTROYED {
        var i :| 0 <= i < |notes| && notes[i].msg == TDN_DESTROYED;
        if i < |init| {
          assert init[i].msg == TDN_DESTROYED;
        }
      }
    }
  }

  /** `notes[j]` is the last TDN_CREATED of `notes`. */
  predicate LastCreatedAt(notes: seq<Notification>, j: int) {
    0 <= j < |notes| && notes[j].msg == TDN_CREATED &&
    forall k :: j < k < |notes| ==> notes[k].msg != TDN_CREATED
  }

  /**
   * The handle after a run is the one carried by the last TDN_CREATED, and the
   * handle from before the run when there was none. TDN_DESTROYED leaves it stale.
   */
  lemma {:induction false} HandleIsLastCreated(s: DialogState, notes: seq<Notification>)
    ensures (forall i :: 0 <= i < |notes| ==> notes[i].msg != TDN_CREATED) ==>
      Deliver(s, notes).dialogHwnd == s.dialogHwnd
    ensures forall j :: LastCreatedAt(notes, j) ==> Deliver(s, notes).dialogHwnd == notes[j].hwnd
    decreases |notes|
  {
    if notes != [] {
      var init := notes[..|notes| - 1];
      HandleIsLastCreated(s, init);
      forall j | LastCreatedAt(notes, j)
        ensures Deliver(s, notes).dialogHwnd == notes[j].hwnd
      {
        if j < |init| {
          assert init[j] == notes[j];
          assert LastCreatedAt(init, j) by {
            forall k | j < k < |init| ensures init[k].msg != TDN_CREATED {
              assert init[k] == notes[k];
            }
          }
        }
      }
      if forall i :: 0 <= i < |notes| ==> notes[i].msg != TDN_CREATED {
        assert forall i :: 0 <= i < |init| ==> init[i].msg != TDN_CREATED by {
          forall i | 0 <= i < |init| ensures init[i].msg != TDN_CREATED {
            assert init[i] == notes[i];
          }
        }
      }
    }
  }
}
