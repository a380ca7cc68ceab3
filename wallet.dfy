/**
 * The simulated wallet-connect buttons. A click shows "Connecting..." and
 * disables the button; when the simulated delay resolves the button shows
 * "Connected", turns green, the first wallet button of the navigation bar is
 * made to show the address, and one success toast is emitted. The failure
 * path (red "Failed" label, error toast, reset three seconds later) is
 * unreachable while `showNotification` does not throw, because the awaited
 * delay always resolves; here it is a separate event, `Reject`, that
 * something must trigger explicitly.
 */
module Wallet {
  import opened Common

  /** Where a button's handler stands. */
  datatype Phase = Idle | Connecting | Connected | Failed

  /** A click, the simulated delay resolving or rejecting, and the reset timer of the failure path. */
  datatype WalletEvent = Click | Resolve | Reject | ResetTimer

  /**
   * The handler as a transition system. An event that does not apply leaves
   * the phase as it is: a click reaches only an enabled (idle) button, and the
   * timers fire only when the phase that scheduled them is current.
   */
  function Next(p: Phase, e: WalletEvent): Phase
  {
    match (p, e)
    case (Idle, Click) => Connecting
    case (Connecting, Resolve) => Connected
    case (Connecting, Reject) => Failed
    case (Failed, ResetTimer) => Idle
    case _ => p
  }

  function Run(p: Phase, es: seq<WalletEvent>): Phase
    decreases |es|
  {
    if es == [] then p else Run(Next(p, es[0]), es[1..])
  }

  /** A connected button stays connected: no event leads out of `Connected`. */
  lemma {:induction false} ConnectedIsFinal(es: seq<WalletEvent>)
    ensures Run(Connected, es) == Connected
    decreases |es|
  {
    if es != [] {
      ConnectedIsFinal(es[1..]);
    }
  }

  /**
   * Without a rejection the failure path is never entered: a run of clicks,
   * resolutions and reset timers from any phase but `Failed` never reaches it.
   */
  lemma {:induction false} NoRejectNoFailure(p: Phase, es: seq<WalletEvent>)
    requires p != Failed
    requires forall k :: 0 <= k < |es| ==> es[k] != Reject
    ensures Run(p, es) != Failed
    decreases |es|
  {
    if es != [] {
      NoRejectNoFailure(Next(p, es[0]), es[1..]);
    }
  }

  const ConnectLabel := Label("wallet", "Connect Wallet")
  const ConnectingLabel := Label("loader-2", "Connecting...")
  const ConnectedLabel := Label("check", "Connected")
  const AddressLabel := Label("wallet", "0x1234...5678")
  const FailedLabel := Label("x", "Failed")

  const ConnectedMessage := "Wallet connected successfully!"
  const FailedMessage := "Failed to connect wallet. Please try again."

  /**
   * One wallet button: its handler's phase, its label, whether it is
   * disabled, and whether it carries the green or the red background classes.
   */
  class WalletButton {
    var phase: Phase
    var caption: Label
    var disabled: bool
    var green: bool
    var red: bool

    /**
     * The button is disabled exactly while a connection is in progress or
     * over; a connected button is green and a failed one red.
     */
    ghost predicate Valid()
      reads this
    {
      (disabled <==> phase != Idle) &&
      (phase == Connected ==> green) &&
      (phase == Failed ==> red)
    }

    constructor (caption: Label)
      ensures Valid() && phase == Idle && this.caption == caption && !green && !red
    {
      phase := Idle;
      this.caption := caption;
      disabled := false;
      green, red := false, false;
    }

    /** The click: an enabled button shows "Connecting..." and is disabled; a disabled one receives no click. */
    method OnClick()
      requires Valid()
      modifies this
      ensures Valid() && phase == Next(old(phase), Click)
      ensures old(phase) == Idle ==> caption == ConnectingLabel && disabled && green == old(green) && red == old(red)
      ensures old(phase) != Idle ==> caption == old(caption) && disabled == old(disabled) && green == old(green) && red == old(red)
    {
      if !disabled {
        phase := Connecting;
        caption := ConnectingLabel;
        disabled := true;
      }
    }

    /**
     * The simulated delay resolves: the button shows "Connected" and turns
     * green, the navigation button `nav` (when the page has one) shows the
     * address and turns green, and one success toast is emitted. When `nav`
     * is this very button, the address is what it ends up showing.
     */
    method OnResolve(nav: WalletButton?, center: Notifier)
      requires Valid() && (nav != null ==> nav.Valid())
      modifies this, nav, center
      ensures Valid() && (nav != null ==> nav.Valid())
      ensures phase == Next(old(phase), Resolve)
      ensures old(phase) == Connecting ==>
        green && disabled && red == old(red) &&
        caption == (if nav == this then AddressLabel else ConnectedLabel) &&
        center.shown == old(center.shown) + [Notice(ConnectedMessage, Success)]
      ensures old(phase) == Connecting && nav != null ==>
        nav.caption == AddressLabel && nav.green
      ensures old(phase) == Connecting && nav != null && nav != this ==>
        nav.phase == old(nav.phase) && nav.disabled == old(nav.disabled) && nav.red == old(nav.red)
      ensures old(phase) != Connecting ==>
        caption == old(caption) && disabled == old(disabled) && green == old(green) && red == old(red) &&
        center.shown == old(center.shown)
      ensures old(phase) != Connecting && nav != null ==>
        nav.caption == old(nav.caption) && nav.phase == old(nav.phase) && nav.green == old(nav.green) &&
        nav.disabled == old(nav.disabled) && nav.red == old(nav.red)
    {
      if phase == Connecting {
        phase := Connected;
        caption := ConnectedLabel;
        green := true;
        if nav != null {
          nav.caption := AddressLabel;
          nav.green := true;
        }
        center.Show(ConnectedMessage, Success);
      }
    }

    /** The failure path (the delay itself never rejects): "Failed", red, one error toast; the button stays disabled. */
    method OnReject(center: Notifier)
      requires Valid()
      modifies this, center
      ensures Valid() && phase == Next(old(phase), Reject)
      ensures old(phase) == Connecting ==>
        caption == FailedLabel && red && disabled && green == old(green) &&
        center.shown == old(center.shown) + [Notice(FailedMessage, Error)]
      ensures old(phase) != Connecting ==>
        caption == old(caption) && disabled == old(disabled) && green == old(green) && red == old(red) &&
        center.shown == old(center.shown)
    {
      if phase == Connecting {
        phase := Failed;
        caption := FailedLabel;
        red := true;
        center.Show(FailedMessage, Error);
      }
    }

    /** The reset timer of the failure path: "Connect Wallet" again, enabled, neither green nor red. */
    method OnResetTimer()
      requires Valid()
      modifies this
      ensures Valid() && phase == Next(old(phase), ResetTimer)
      ensures old(phase) == Failed ==> caption == ConnectLabel && !disabled && !green && !red
      ensures old(phase) != Failed ==> caption == old(caption) && disabled == old(disabled) && green == old(green) && red == old(red)
    {
      if phase == Failed {
        phase := Idle;
        caption := ConnectLabel;
        disabled := false;
        green, red := false, false;
      }
    }
  }
}
