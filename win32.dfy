/**
 * The Windows backend: a task-modal MessageBox. The MB_* and ID* constants
 * are symbolic here (their values live in the Windows headers), the flags
 * word is a record instead of a bitwise OR, and the system is an
 * environment: which character set the build uses, what
 * MultiByteToWideChar returns and writes, and what MessageBox returns.
 */
module Win32Backend {
  import opened BoxerTypes

  /** The icon flags the library uses: MB_ICONINFORMATION, _WARNING, _ERROR, _QUESTION. */
  datatype Icon = IconInformation | IconWarning | IconError | IconQuestion

  /** The button flags the library uses: MB_OK, MB_OKCANCEL, MB_YESNO. Windows has no Quit button. */
  datatype Layout = MbOk | MbOkCancel | MbYesNo

  /** MB_TASKMODAL, the only modality the library uses. */
  datatype Modality = TaskModal

  /** The flags word MB_TASKMODAL | icon | buttons, one field per group of bits. */
  datatype Flags = Flags(modality: Modality, icon: Icon, layout: Layout)

  /**
   * The int that MessageBox returns: IDOK, IDCANCEL, IDYES, IDNO, or any
   * other code (0 when the call fails, IDABORT, ...), which `OtherId`
   * carries and which equals none of the four.
   */
  datatype Id = IdOk | IdCancel | IdYes | IdNo | OtherId(code: int)

  /** The style an icon depicts: the inverse of the icon table. */
  function StyleOf(icon: Icon): Style {
    match icon
    case IconInformation => Info
    case IconWarning => Warning
    case IconError => Style.Error
    case IconQuestion => Question
  }

  /** The button set a Windows layout presents: the inverse of the buttons table on the sets Windows can draw. */
  function ButtonsOf(layout: Layout): Buttons {
    match layout
    case MbOk => Buttons.OK
    case MbOkCancel => OKCancel
    case MbYesNo => YesNo
  }

  /** The id of the button a user presses to give an answer; Quit is drawn as the OK button. */
  function IdFor(s: Selection): Id
    requires s.IsAnswer()
  {
    match s
    case OK => IdOk
    case Cancel => IdCancel
    case Yes => IdYes
    case No => IdNo
    case Quit => IdOk
  }

  /** The ids produced by pressing one of the buttons of a Windows layout. */
  function ButtonIds(layout: Layout): set<Id> {
    match layout
    case MbOk => {IdOk}
    case MbOkCancel => {IdOk, IdCancel}
    case MbYesNo => {IdYes, IdNo}
  }

  /**
   * getIcon: each declared style has its own icon, and an undeclared one
   * falls back to the Info mapping.
   */
  function IconOf(style: Style): (icon: Icon)
    ensures StyleOf(icon) == style.Rendered()
  {
    match style
    case Info => IconInformation
    case Warning => IconWarning
    case Error => IconError
    case Question => IconQuestion
    case _ => IconInformation
  }

  /**
   * getButtons: OKCancel and YesNo have their own layouts; OK, Quit and an
   * undeclared value are all drawn as the single OK button.
   */
  function LayoutOf(buttons: Buttons): (layout: Layout)
    ensures ButtonsOf(layout) == if buttons == Buttons.Quit then Buttons.OK else buttons.Rendered()
  {
    match buttons
    case OK | Quit => MbOk
    case OKCancel => MbOkCancel
    case YesNo => MbYesNo
    case _ => MbOk
  }

  /**
   * getSelection(int, Buttons): IDOK is Quit exactly when the requested
   * buttons are Quit and OK otherwise; every other id is mapped without
   * looking at the buttons, the recognised ones to their own answer and
   * the rest to None; nothing maps to Error.
   */
  function SelectionOf(id: Id, buttons: Buttons): (s: Selection)
    ensures s.Declared() && s != Selection.Error
    ensures s == Selection.Quit <==> id == IdOk && buttons == Buttons.Quit
    ensures s == Selection.OK <==> id == IdOk && buttons != Buttons.Quit
    ensures s.IsAnswer() <==> !id.OtherId?
    ensures s == Selection.None <==> id.OtherId?
    ensures s.IsAnswer() ==> IdFor(s) == id
  {
    match id
    case IdOk => if buttons == Buttons.Quit then Selection.Quit else Selection.OK
    case IdCancel => Cancel
    case IdYes => Yes
    case IdNo => No
    case _ => Selection.None
  }

  /** Only IDOK depends on the requested buttons. */
  lemma SelectionIgnoresButtons(id: Id, b1: Buttons, b2: Buttons)
    requires id != IdOk
    ensures SelectionOf(id, b1) == SelectionOf(id, b2)
  {
  }

  /**
   * Round trip through MessageBox: the buttons of the layout chosen for a
   * button set are reported back as exactly the answers that set offers,
   * Quit included although Windows draws it as OK.
   */
  lemma ButtonsRoundTrip(buttons: Buttons)
    ensures (set id | id in ButtonIds(LayoutOf(buttons)) :: SelectionOf(id, buttons)) == buttons.Offers()
  {
    var layout := LayoutOf(buttons);
    var reported := set id | id in ButtonIds(layout) :: SelectionOf(id, buttons);
    forall s | s in buttons.Offers() ensures s in reported {
      var id := IdFor(s);
      assert id in ButtonIds(layout) && SelectionOf(id, buttons) == s;
    }
  }

  // ---------------------------------------------------------------------
  // UTF-8 to UTF-16

  /** A UTF-16 code unit (wchar_t on Windows). */
  newtype WideChar = c: int | 0 <= c < 0x1_0000

  /** What one MultiByteToWideChar call that fills a buffer returns, and the units it writes from the start of the buffer. */
  datatype Conversion = Conversion(result: int, written: seq<WideChar>)

  /**
   * MultiByteToWideChar(CP_UTF8, 0, s, -1, ...), as two calls: `measure`
   * is the call with no buffer (the number of units needed, terminator
   * included, or 0 on failure), `convert` the call with a buffer of the
   * given size.
   */
  datatype WideCharApi = WideCharApi(measure: string -> int, convert: (string, nat) -> Conversion)

  /** The result of converting one string, as show sees it. */
  datatype Transcoding = Failed | Transcoded(units: seq<WideChar>)

  /** A buffer of `count` units after the API wrote `written` at its start. */
  function Filled(count: nat, written: seq<WideChar>): (buffer: seq<WideChar>)
    ensures |buffer| == count
    ensures forall i :: 0 <= i < count ==> buffer[i] == if i < |written| then written[i] else 0
  {
    if |written| >= count then written[..count]
    else written + seq(count - |written|, _ => 0)
  }

  /**
   * The outcome of utf8ToUtf16: it fails when the length query gives no
   * positive count or when the conversion into a buffer of that many units
   * returns no positive value; on success the text is that buffer.
   */
  function Transcode(api: WideCharApi, utf8: string): (r: Transcoding)
    ensures r.Transcoded? <==> api.measure(utf8) > 0 && api.convert(utf8, api.measure(utf8)).result > 0
    ensures r.Transcoded? ==> |r.units| == api.measure(utf8)
  {
    var count := api.measure(utf8);
    if count <= 0 then Failed
    else
      var conversion := api.convert(utf8, count);
      if conversion.result <= 0 then Failed else Transcoded(Filled(count, conversion.written))
  }

  /** A std::wstring that a conversion fills in place. */
  class WideString {
    var units: seq<WideChar>

    constructor ()
      ensures units == []
    {
      units := [];
    }
  }

  /**
   * utf8ToUtf16: leaves the output untouched when the length query fails;
   * otherwise resizes it to that many units and lets the API fill it, and
   * reports success exactly when Transcode does.
   */
  method Utf8ToUtf16(utf8: string, api: WideCharApi, utf16: WideString) returns (ok: bool)
    modifies utf16
    ensures ok <==> Transcode(api, utf8).Transcoded?
    ensures ok ==> utf16.units == Transcode(api, utf8).units
    ensures api.measure(utf8) <= 0 ==> utf16.units == old(utf16.units)
    ensures api.measure(utf8) > 0 ==> |utf16.units| == api.measure(utf8)
  {
    var count := api.measure(utf8);
    if count <= 0 {
      return false;
    }
    utf16.units := seq(count, _ => 0);
    var conversion := api.convert(utf8, count);
    utf16.units := Filled(count, conversion.written);
    ok := conversion.result > 0;
  }

  // ---------------------------------------------------------------------
  // show

  /** Whether the build defines UNICODE (and converts its strings) or passes them through as they are. */
  datatype CharacterSet = Ansi | Unicode(api: WideCharApi)

  /** What the system does: the character set of the build, and what MessageBox returns. */
  datatype Environment = Environment(charset: CharacterSet, response: Id)

  /** A string argument as MessageBox receives it. */
  datatype Text = Narrow(chars: string) | Wide(units: seq<WideChar>)

  /** The MessageBox call the library makes (it has no owner window). */
  datatype MessageBoxCall = MessageBoxCall(text: Text, caption: Text, flags: Flags)

  datatype Presentation = NotShown | Shown(call: MessageBoxCall)

  /** Whether either string fails to convert (only a UNICODE build converts). */
  predicate TranscodingFails(charset: CharacterSet, message: string, title: string) {
    charset.Unicode? && (Transcode(charset.api, message).Failed? || Transcode(charset.api, title).Failed?)
  }

  /** The argument MessageBox receives for a string that converted. */
  function NativeText(charset: CharacterSet, s: string): Text
    requires charset.Unicode? ==> Transcode(charset.api, s).Transcoded?
  {
    if charset.Ansi? then Narrow(s) else Wide(Transcode(charset.api, s).units)
  }

  /**
   * show, Windows branch: in a UNICODE build, the message is converted
   * first and the title only if that succeeded; either failure gives Error
   * and no message box. Otherwise one task-modal MessageBox with the mapped
   * icon and layout, and the id it returns, reverse-mapped with the
   * requested buttons, is the result. `converted` lists the strings handed
   * to utf8ToUtf16, in order.
   */
  method Show(message: string, title: string, style: Style, buttons: Buttons, env: Environment)
    returns (selection: Selection, presented: Presentation, converted: seq<string>)
    ensures selection == Selection.Error <==> TranscodingFails(env.charset, message, title)
    ensures presented == NotShown <==> selection == Selection.Error
    ensures selection != Selection.Error ==>
      && presented == Shown(MessageBoxCall(NativeText(env.charset, message), NativeText(env.charset, title),
                                           Flags(TaskModal, IconOf(style), LayoutOf(buttons))))
      && selection == SelectionOf(env.response, buttons)
    ensures converted ==
      if env.charset.Ansi? then []
      else if Transcode(env.charset.api, message).Failed? then [message]
      else [message, title]
  {
    var flags := Flags(TaskModal, IconOf(style), LayoutOf(buttons));
    var messageArg, titleArg;
    match env.charset {
      case Ansi =>
        converted := [];
        messageArg, titleArg := Narrow(message), Narrow(title);
      case Unicode(api) =>
        var wideMessage := new WideString();
        var wideTitle := new WideString();
        converted := [message];
        var ok := Utf8ToUtf16(message, api, wideMessage);
        if ok {
          converted := converted + [title];
          ok := Utf8ToUtf16(title, api, wideTitle);
        }
        if !ok {
          return Selection.Error, NotShown, converted;
        }
        messageArg, titleArg := Wide(wideMessage.units), Wide(wideTitle.units);
    }
    presented := Shown(MessageBoxCall(messageArg, titleArg, flags));
    selection := SelectionOf(env.response, buttons);
  }
}
