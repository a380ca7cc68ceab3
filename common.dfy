/**
 * Values shared by every handler of the page script: an optional value, the
 * visible content of a button, and the toast notifications that the wallet,
 * form and NFT handlers emit through `showNotification`.
 */
module Common {

  datatype Option<T> = None | Some(value: T)

  /** What a button shows: the name of the icon drawn before the text, and the text. */
  datatype Label = Label(icon: string, text: string)

  /** The four notification severities the script styles. */
  datatype Severity = Success | Error | Info | Warning

  /**
   * The icon of a notification: the nested conditional checks success, then
   * error, then warning, and every other severity falls through to "info".
   */
  function IconName(s: Severity): string
  {
    if s == Success then "check-circle"
    else if s == Error then "x-circle"
    else if s == Warning then "alert-triangle"
    else "info"
  }

  /** The colour family a severity is drawn in. */
  function Hue(s: Severity): string
  {
    match s
    case Success => "green"
    case Error => "red"
    case Info => "blue"
    case Warning => "yellow"
  }

  /**
   * The colour classes appended to a notification. The script spells out one
   * entry per severity; every entry is the same background, border and text
   * pattern over the severity's hue, which is how it is written here.
   */
  function Colors(s: Severity): string
  {
    "bg-" + Hue(s) + "-500/20 border-" + Hue(s) + "-500/30 text-" + Hue(s) + "-400"
  }

  /** Two different severities never look alike: their icons and their colours differ. */
  lemma StylesDistinguishSeverities(a: Severity, b: Severity)
    requires a != b
    ensures IconName(a) != IconName(b)
    ensures Colors(a) != Colors(b)
  {
  }

  datatype Notice = Notice(message: string, severity: Severity)

  /**
   * The notification container: `showNotification` appends one toast to it.
   * Its slide-in and auto-dismiss timers are not part of this model, so the
   * container is the log of toasts emitted, newest last.
   */
  class Notifier {
    var shown: seq<Notice>

    constructor ()
      ensures shown == []
    {
      shown := [];
    }

    method Show(message: string, severity: Severity)
      modifies this
      ensures shown == old(shown) + [Notice(message, severity)]
    {
      shown := shown + [Notice(message, severity)];
    }
  }
}
