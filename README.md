# Boxer message box: a Dafny model of its translation layer

Boxer is a single C++ header, `boxer.hpp`, with one function, `boxer::show`.
It shows a native modal message box and returns the button the user pressed.
On Linux it uses a GTK message dialog. On Windows it uses `MessageBox`.

This project models the part of `show` that is logic rather than UI:

- the portable enumerations `Style`, `Buttons` and `Selection`, and the
  defaults `kDefaultStyle` (Info) and `kDefaultButtons` (OK);
- the GTK tables: style to `GtkMessageType`, buttons to `GtkButtonsType`,
  and `gtk_dialog_run`'s response to `Selection`;
- the Windows tables: style to icon flag, buttons to button flag, and
  `MessageBox`'s id (plus the requested buttons) to `Selection`;
- `utf8ToUtf16`, which the Windows build uses when `UNICODE` is defined;
- the decision sequence of `show` on each backend, the dispatch between
  them, and the three convenience overloads;
- the `to_string` name tables.

Modules:

- `BoxerTypes` (types.dfy) holds the enumerations and defaults.
  A C++ `enum class` can hold a value that names no enumerator, so each
  enumeration has an extra `Undeclared` constructor.
  `Rendered()` is the fallback both backends apply to such a value.
  `Buttons.Offers()` is the set of answers a button set lets the user give.
- `GtkBackend` (gtk.dfy) and `Win32Backend` (win32.dfy) hold the two
  backends side by side.
  Native constants are datatypes with symbolic constructors.
  The Windows flags word is a record (modality, icon, layout).
  Each table has an inverse reference table (`StyleOf`, `ButtonsOf`,
  `ResponseFor`, `IdFor`), and each table's contract is a round trip through it.
- `Boxer` (boxer.dfy) holds the portable `show`.
  A `Host` names the backend that was compiled in and carries its environment.
  The GTK environment says whether `gtk_init_check` succeeds and what
  `gtk_dialog_run` returns.
  The Windows environment gives the build's character set and what
  `MultiByteToWideChar` and `MessageBox` return.
  `Outcome` is the function that specifies `show`.
- `BoxerNames` (names.dfy) holds the three `to_string` tables as maps.

Two facts about the toolkits are stated rather than taken from the code.
`GtkBackend.ButtonResponses` lists the responses a GTK layout's buttons produce.
`Win32Backend.ButtonIds` lists the ids a `MessageBox` layout's buttons produce.
The round-trip lemmas rest on these two tables.

Two behaviours follow the code where one might expect otherwise of the design:

- An undeclared value passed to `to_string` makes `std::map::at` throw.
  It does not return an "Unknown" name.
  The model rules this case out with a precondition.
- A `MessageBox` call that fails returns 0, an unrecognised id.
  `show` reports that as `None`, not `Error`.
  `Error` comes only from GTK initialisation or from a string conversion.

## Model

| member | source | states |
|---|---|---|
| GtkBackend.MessageTypeOf | boxer.hpp:94-109 | Each declared style gets its own GTK message type (the inverse table gives the style back). An undeclared style gets the Info type. |
| GtkBackend.ButtonsTypeOf | boxer.hpp:111-126 | Each declared button set gets its own GTK layout, with Quit as the Close layout. An undeclared set gets the OK layout. |
| GtkBackend.SelectionOf | boxer.hpp:128-145 | The five recognised responses map one-to-one to OK, Cancel, Yes, No and Quit. Every other code maps to None. The result is never Error. |
| GtkBackend.ButtonsRoundTrip | boxer.hpp:111-145 | The buttons of the layout chosen for a button set are reported back as exactly the answers that set offers. |
| GtkBackend.Show | boxer.hpp:228-256 | If init fails, the result is Error and no dialog is created. Otherwise one modal dialog is created with the mapped type and layout, the message verbatim and the title. The result is the reverse-mapped response. |
| Win32Backend.IconOf | boxer.hpp:161-176 | Each declared style gets its own icon flag. An undeclared style gets the Info icon. |
| Win32Backend.LayoutOf | boxer.hpp:178-192 | OKCancel and YesNo get their own button flags. OK, Quit and undeclared values all get MB_OK. |
| Win32Backend.SelectionOf | boxer.hpp:194-209 | IDOK gives Quit exactly when the requested buttons are Quit, and OK otherwise. IDCANCEL, IDYES and IDNO give their own answers. Any other id gives None. The result is never Error. |
| Win32Backend.SelectionIgnoresButtons | boxer.hpp:196-208 | For every id other than IDOK, the result does not depend on the requested buttons. |
| Win32Backend.ButtonsRoundTrip | boxer.hpp:178-209 | The buttons of the layout chosen for a button set are reported back as exactly the answers that set offers. This includes Quit, which is drawn as OK. |
| Win32Backend.Transcode | boxer.hpp:148-158 | Conversion succeeds exactly when the length query returns a positive count and the filling call then returns a positive value. On success the text has exactly that count of units. |
| Win32Backend.Utf8ToUtf16 | boxer.hpp:148-158 | Success matches Transcode, and on success the output holds the converted text. A failed length query leaves the output untouched. Otherwise the output is resized to the count. |
| Win32Backend.Show | boxer.hpp:257-278 | In a UNICODE build, the message is converted first and the title only if that succeeded. If either fails, the result is Error and MessageBox is not called. Otherwise MessageBox is called once, task-modal, with the mapped icon and layout. The result is the id mapped back with the requested buttons. |
| Boxer.Outcome | boxer.hpp:226-280 | The result of show is always a declared selection. It is Error exactly when the dialog cannot be presented (GTK init fails, or a conversion fails). Otherwise it is the reverse-mapped response. |
| Boxer.PressingAnOfferedButton | boxer.hpp:226-280 | On either backend, pressing a button that the requested set offers presses a button of the layout shown, and show reports exactly that answer. |
| Boxer.Show | boxer.hpp:226-280 | Dispatches to the backend that was built, returns Outcome, and shows a dialog exactly when the result is not Error. |
| Boxer.ShowWithStyle | boxer.hpp:285-288 | Equals show with the default buttons, OK (kDefaultButtons, boxer.hpp:221). |
| Boxer.ShowWithButtons | boxer.hpp:293-296 | Equals show with the default style, Info (kDefaultStyle, boxer.hpp:216). |
| Boxer.ShowWithDefaults | boxer.hpp:301-304 | Equals show with style Info and buttons OK. |
| BoxerNames.StyleName | boxer.hpp:335-337 | A declared style's name is its entry in the table (boxer.hpp:310-315). No other style has that name. |
| BoxerNames.ButtonsName | boxer.hpp:339-341 | A declared button set's name is its entry in the table (boxer.hpp:317-322). No other button set has that name. |
| BoxerNames.SelectionName | boxer.hpp:343-345 | A declared selection's name is its entry in the table (boxer.hpp:324-332). No other selection has that name. |
| BoxerNames.TablesCoverDeclaredValues | boxer.hpp:310-332 | Each table holds exactly the declared values, so `at` succeeds on those and on nothing else. |

## Left out

- GTK widget work is not modelled: the parent window, the title, gravity and position calls, widget destruction, and the `g_main_context_iteration` drain loop (boxer.hpp:235-254). This is UI and event-loop work inside the toolkit. The model keeps only the dialog's configuration and its response.
- The internals of `MessageBox` and `MultiByteToWideChar` are not modelled. They are foreign calls. Their return values, and the units the conversion writes, come from the environment.
- Numeric values of the GTK and Windows constants are not modelled. They live in system headers. So the bitwise OR that builds `MB_TASKMODAL | icon | buttons` is a record.
- Preprocessor platform selection and the DLL export macros are not modelled. They are build configuration. The `Host` datatype stands for the platform choice, and the `CharacterSet` datatype stands for `UNICODE`.
- Thread safety and modality are not modelled. The library adds no synchronisation.
- The C strings are modelled as Dafny strings. A null `message` or `title` pointer and invalid UTF-8 are not modelled, except through the conversion results the environment supplies.
- Win32Backend.Show: the whole converted buffer is passed to MessageBox, including the terminating NUL unit that the length query counts. The model does not capture that `c_str()` is read only up to the first NUL.
