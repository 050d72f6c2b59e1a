/**
 * The portable vocabulary of the message-box library: the style of a box,
 * the buttons it offers, the selection it reports, and the documented
 * defaults. Each enumeration is a C++ `enum class`, which can hold a value
 * that names none of its enumerators (a cast from an integer); every such
 * value behaves the same way in the library, so each enumeration has one
 * extra constructor, `Undeclared`, standing for all of them.
 */
module BoxerTypes {

  /** The icon / severity category of a message box. */
  datatype Style = Info | Warning | Error | Question | Undeclared {

    predicate Declared() {
      !Undeclared?
    }

    /** The style both backends actually render: an undeclared value falls back to Info. */
    function Rendered(): (s: Style)
      ensures s.Declared()
      ensures Declared() ==> s == this
    {
      if Undeclared? then Style.Info else this
    }
  }

  /** The set of buttons a message box offers. */
  datatype Buttons = OK | OKCancel | YesNo | Quit | Undeclared {

    predicate Declared() {
      !Undeclared?
    }

    /** The button set both backends actually render: an undeclared value falls back to OK. */
    function Rendered(): (b: Buttons)
      ensures b.Declared()
      ensures Declared() ==> b == this
    {
      if Undeclared? then Buttons.OK else this
    }

    /** The answers a user can give by pressing one of the offered buttons. */
    function Offers(): set<Selection> {
      match this
      case OK | Undeclared => {Selection.OK}
      case OKCancel => {Selection.OK, Selection.Cancel}
      case YesNo => {Selection.Yes, Selection.No}
      case Quit => {Selection.Quit}
    }
  }

  /**
   * The outcome of showing a message box. `None`: the box closed without a
   * recognised choice; `Error`: the box could not be created.
   */
  datatype Selection = OK | Cancel | Yes | No | Quit | None | Error | Undeclared {

    predicate Declared() {
      !Undeclared?
    }

    /** A choice made by pressing a button. */
    predicate IsAnswer() {
      OK? || Cancel? || Yes? || No? || Quit?
    }
  }

  /** kDefaultStyle */
  const DefaultStyle: Style := Style.Info

  /** kDefaultButtons */
  const DefaultButtons: Buttons := Buttons.OK
}
