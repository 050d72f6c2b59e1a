/**
 * The Linux backend: a GTK message dialog. The toolkit constants the
 * library uses are symbolic here (their numeric values live in GTK's own
 * headers); the toolkit itself is an environment that says whether
 * gtk_init_check succeeds and what gtk_dialog_run returns.
 */
module GtkBackend {
  import opened BoxerTypes

  /** The GtkMessageType values the library uses: GTK_MESSAGE_INFO, _WARNING, _ERROR, _QUESTION. */
  datatype MessageType = MessageInfo | MessageWarning | MessageError | MessageQuestion

  /** The GtkButtonsType values the library uses: GTK_BUTTONS_OK, _OK_CANCEL, _YES_NO, _CLOSE. */
  datatype ButtonsType = ButtonsOk | ButtonsOkCancel | ButtonsYesNo | ButtonsClose

  /**
   * The gint that gtk_dialog_run returns: GTK_RESPONSE_OK, _CANCEL, _YES,
   * _NO, _CLOSE, or any other code (GTK_RESPONSE_DELETE_EVENT when the
   * window is closed by the window manager, GTK_RESPONSE_NONE, ...), which
   * `OtherResponse` carries and which equals none of the five.
   */
  datatype Response =
    | ResponseOk | ResponseCancel | ResponseYes | ResponseNo | ResponseClose
    | OtherResponse(code: int)

  /** The style a message type depicts: the inverse of the style table. */
  function StyleOf(t: MessageType): Style {
    match t
    case MessageInfo => Info
    case MessageWarning => Warning
    case MessageError => Style.Error
    case MessageQuestion => Question
  }

  /** The button set a GTK layout presents: the inverse of the buttons table. */
  function ButtonsOf(t: ButtonsType): Buttons {
    match t
    case ButtonsOk => Buttons.OK
    case ButtonsOkCancel => OKCancel
    case ButtonsYesNo => YesNo
    case ButtonsClose => Buttons.Quit
  }

  /** The response of the button a user presses to give an answer. */
  function ResponseFor(s: Selection): Response
    requires s.IsAnswer()
  {
    match s
    case OK => ResponseOk
    case Cancel => ResponseCancel
    case Yes => ResponseYes
    case No => ResponseNo
    case Quit => ResponseClose
  }

  /** The responses produced by pressing one of the buttons of a GTK layout. */
  function ButtonResponses(t: ButtonsType): set<Response> {
    match t
    case ButtonsOk => {ResponseOk}
    case ButtonsOkCancel => {ResponseOk, ResponseCancel}
    case ButtonsYesNo => {ResponseYes, ResponseNo}
    case ButtonsClose => {ResponseClose}
  }

  /**
   * getMessageType: each declared style has its own message type, and an
   * undeclared one falls back to the Info mapping.
   */
  function MessageTypeOf(style: Style): (t: MessageType)
    ensures StyleOf(t) == style.Rendered()
  {
    match style
    case Info => MessageInfo
    case Warning => MessageWarning
    case Error => MessageError
    case Question => MessageQuestion
    case _ => MessageInfo
  }

  /**
   * getButtonsType: each declared button set has its own layout (Quit is
   * the single Close button), and an undeclared one falls back to OK.
   */
  function ButtonsTypeOf(buttons: Buttons): (t: ButtonsType)
    ensures ButtonsOf(t) == buttons.Rendered()
  {
    match buttons
    case OK => ButtonsOk
    case OKCancel => ButtonsOkCancel
    case YesNo => ButtonsYesNo
    case Quit => ButtonsClose
    case _ => ButtonsOk
  }

  /**
   * getSelection(gint): the five recognised responses map one-to-one to the
   * five answers, every other code to None, and nothing maps to Error.
   */
  function SelectionOf(response: Response): (s: Selection)
    ensures s.Declared() && s != Selection.Error
    ensures s.IsAnswer() <==> !response.OtherResponse?
    ensures s == Selection.None <==> response.OtherResponse?
    ensures s.IsAnswer() ==> ResponseFor(s) == response
  {
    match response
    case ResponseOk => Selection.OK
    case ResponseCancel => Cancel
    case ResponseYes => Yes
    case ResponseNo => No
    case ResponseClose => Selection.Quit
    case _ => Selection.None
  }

  /**
   * Round trip through the toolkit: the buttons of the layout chosen for a
   * button set are reported back as exactly the answers that set offers.
   */
  lemma ButtonsRoundTrip(buttons: Buttons)
    ensures (set r | r in ButtonResponses(ButtonsTypeOf(buttons)) :: SelectionOf(r)) == buttons.Offers()
  {
    var layout := ButtonsTypeOf(buttons);
    var reported := set r | r in ButtonResponses(layout) :: SelectionOf(r);
    forall s | s in buttons.Offers() ensures s in reported {
      var r := ResponseFor(s);
      assert r in ButtonResponses(layout) && SelectionOf(r) == s;
    }
  }

  /** What the toolkit reports: whether gtk_init_check succeeds and what gtk_dialog_run returns. */
  datatype Environment = Environment(initSucceeds: bool, response: Response)

  /** The message dialog the library creates (its parent window and placement are not modelled). */
  datatype Dialog = Dialog(modal: bool, messageType: MessageType, buttonsType: ButtonsType, text: string, title: string)

  datatype Presentation = NotShown | Shown(dialog: Dialog)

  /**
   * show, Linux branch: Error and no dialog when the toolkit cannot be
   * initialised; otherwise one modal dialog with the mapped type and
   * layout, the message shown verbatim (it is passed through "%s"), and the
   * reverse-mapped response as the result.
   */
  method Show(message: string, title: string, style: Style, buttons: Buttons, env: Environment)
    returns (selection: Selection, presented: Presentation)
    ensures selection == Selection.Error <==> !env.initSucceeds
    ensures presented == NotShown <==> !env.initSucceeds
    ensures env.initSucceeds ==>
      && presented == Shown(Dialog(true, MessageTypeOf(style), ButtonsTypeOf(buttons), message, title))
      && selection == SelectionOf(env.response)
  {
    if !env.initSucceeds {
      return Selection.Error, NotShown;
    }
    var dialog := Dialog(true, MessageTypeOf(style), ButtonsTypeOf(buttons), message, title);
    presented := Shown(dialog);
    selection := SelectionOf(env.response);
  }
}
