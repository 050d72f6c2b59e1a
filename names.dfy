/**
 * The debug names of the portable enumerations (std::to_string for Style,
 * Buttons and Selection). Each table is a map from every declared value to
 * its own name; a lookup of an undeclared value throws std::out_of_range
 * in the library, so here it is ruled out by a precondition.
 */
module BoxerNames {
  import opened BoxerTypes

  const StyleNames: map<Style, string> := map[
    Style.Info := "Info",
    Style.Warning := "Warning",
    Style.Error := "Error",
    Style.Question := "Question"
  ]

  const ButtonsNames: map<Buttons, string> := map[
    Buttons.OK := "OK",
    Buttons.OKCancel := "OKCancel",
    Buttons.YesNo := "YesNo",
    Buttons.Quit := "Quit"
  ]

  const SelectionNames: map<Selection, string> := map[
    Selection.OK := "OK",
    Selection.Cancel := "Cancel",
    Selection.Yes := "Yes",
    Selection.No := "No",
    Selection.Quit := "Quit",
    Selection.None := "None",
    Selection.Error := "Error"
  ]

  /** to_string(Style): the table's entry, and no other style has that name. */
  function StyleName(style: Style): (name: string)
    requires style.Declared()
    ensures style in StyleNames && StyleNames[style] == name
    ensures forall other :: other in StyleNames && other != style ==> StyleNames[other] != name
  {
    StyleNames[style]
  }

  /** to_string(Buttons): the table's entry, and no other button set has that name. */
  function ButtonsName(buttons: Buttons): (name: string)
    requires buttons.Declared()
    ensures buttons in ButtonsNames && ButtonsNames[buttons] == name
    ensures forall other :: other in ButtonsNames && other != buttons ==> ButtonsNames[other] != name
  {
    ButtonsNames[buttons]
  }

  /** to_string(Selection): the table's entry, and no other selection has that name. */
  function SelectionName(selection: Selection): (name: string)
    requires selection.Declared()
    ensures selection in SelectionNames && SelectionNames[selection] == name
    ensures forall other :: other in SelectionNames && other != selection ==> SelectionNames[other] != name
  {
    SelectionNames[selection]
  }

  /** Each table holds exactly the declared values: `at` succeeds on those and on nothing else. */
  lemma TablesCoverDeclaredValues()
    ensures forall s: Style :: s in StyleNames <==> s.Declared()
    ensures forall b: Buttons :: b in ButtonsNames <==> b.Declared()
    ensures forall s: Selection :: s in SelectionNames <==> s.Declared()
  {
  }
}
