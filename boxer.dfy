/**
 * The portable entry point, boxer::show, and its three convenience
 * overloads. Which backend is compiled in is the `Host`; each variant
 * carries the environment its backend consults.
 */
module Boxer {
  import opened BoxerTypes
  import GtkBackend
  import Win32Backend

  /** The platform the library was built for, with what its system does during one call. */
  datatype Host = Linux(gtk: GtkBackend.Environment) | Windows(win: Win32Backend.Environment)

  /** Whether show gives up before any dialog: GTK cannot be initialised, or a string cannot be converted. */
  predicate CannotPresent(host: Host, message: string, title: string) {
    match host
    case Linux(env) => !env.initSucceeds
    case Windows(env) => Win32Backend.TranscodingFails(env.charset, message, title)
  }

  /** What the host's dialog reports, reverse-mapped by its backend. */
  function Reported(host: Host, buttons: Buttons): Selection {
    match host
    case Linux(env) => GtkBackend.SelectionOf(env.response)
    case Windows(env) => Win32Backend.SelectionOf(env.response, buttons)
  }

  /**
   * The result of show: always one of the seven declared selections;
   * Error exactly when the dialog cannot be presented, and otherwise the
   * reverse-mapped response of the dialog.
   */
  function Outcome(host: Host, message: string, title: string, style: Style, buttons: Buttons): (s: Selection)
    ensures s.Declared()
    ensures s == Selection.Error <==> CannotPresent(host, message, title)
    ensures !CannotPresent(host, message, title) ==> s == Reported(host, buttons)
  {
    if CannotPresent(host, message, title) then Selection.Error else Reported(host, buttons)
  }

  /** The host after the user pressed the button that gives `answer`. */
  function Press(host: Host, answer: Selection): Host
    requires answer.IsAnswer()
  {
    match host
    case Linux(env) => Linux(env.(response := GtkBackend.ResponseFor(answer)))
    case Windows(env) => Windows(env.(response := Win32Backend.IdFor(answer)))
  }

  /**
   * On either backend, pressing a button the requested set offers is a
   * button of the layout shown, and show reports exactly that answer
   * (Quit included, although Windows draws it as OK).
   */
  lemma PressingAnOfferedButton(host: Host, message: string, title: string, style: Style, buttons: Buttons, answer: Selection)
    requires !CannotPresent(host, message, title)
    requires answer in buttons.Offers()
    ensures answer.IsAnswer()
    ensures host.Linux? ==> GtkBackend.ResponseFor(answer) in GtkBackend.ButtonResponses(GtkBackend.ButtonsTypeOf(buttons))
    ensures host.Windows? ==> Win32Backend.IdFor(answer) in Win32Backend.ButtonIds(Win32Backend.LayoutOf(buttons))
    ensures Outcome(Press(host, answer), message, title, style, buttons) == answer
  {
  }

  /**
   * show(message, title, style, buttons): dispatches to the backend the
   * host names; a dialog was shown exactly when the result is not Error.
   */
  method Show(message: string, title: string, style: Style, buttons: Buttons, host: Host)
    returns (selection: Selection, shown: bool)
    ensures selection == Outcome(host, message, title, style, buttons)
    ensures shown <==> selection != Selection.Error
  {
    match host {
      case Linux(env) =>
        var presented;
        selection, presented := GtkBackend.Show(message, title, style, buttons, env);
        shown := presented.Shown?;
      case Windows(env) =>
        var presented, converted;
        selection, presented, converted := Win32Backend.Show(message, title, style, buttons, env);
        shown := presented.Shown?;
    }
  }

  /** show(message, title, style): the default buttons, OK. */
  method ShowWithStyle(message: string, title: string, style: Style, host: Host) returns (selection: Selection)
    ensures selection == Outcome(host, message, title, style, Buttons.OK)
  {
    var shown;
    selection, shown := Show(message, title, style, DefaultButtons, host);
  }

  /** show(message, title, buttons): the default style, Info. */
  method ShowWithButtons(message: string, title: string, buttons: Buttons, host: Host) returns (selection: Selection)
    ensures selection == Outcome(host, message, title, Style.Info, buttons)
  {
    var shown;
    selection, shown := Show(message, title, DefaultStyle, buttons, host);
  }

  /** show(message, title): the default style and buttons, Info and OK. */
  method ShowWithDefaults(message: string, title: string, host: Host) returns (selection: Selection)
    ensures selection == Outcome(host, message, title, Style.Info, Buttons.OK)
  {
    var shown;
    selection, shown := Show(message, title, DefaultStyle, DefaultButtons, host);
  }
}
