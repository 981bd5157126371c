# Pogo editing front end: class-model rules

Pogo is the Tango code generator: a device class (attributes, commands,
properties, state machine, inheritance chain) is edited in a Swing window and
then turned into C++, Java, Python or PythonHL sources. This project models
the rules about the class model that the editing front end itself enforces.
It covers the class editing dialog (`ClassDialog`) and the main window
(`PogoGUI`):

- the class-name check, which rejects a name and normalises its case;
- the four language radio buttons and the guard that keeps a derived class in
  its ancestor's language;
- the rename decision for an already saved class;
- the language compatibility check run before generation, and the tree's
  modified flag around generation;
- the tab order built for a class and its ancestors, and the language popup
  menu;
- the decision taken when a class written by an old Pogo version is loaded;
- the unsaved-changes check, the exit decision and the window title.

Every dialog answer is an input of the model (an `int` with the JOptionPane
codes of module `Swing`, or a `bool`). Every call into code that is not part
of this model is an input holding its outcome: loading a class, generating,
decoding a language name, `toString` of a class.

Files:

- `strings.dfy`: `Option`, `Outcome` and the `java.lang.String` operations
  used here, with ASCII case mapping.
- `swing.dfy`: the JOptionPane answer codes and the right-button mask.
- `languages.dfy`: the four target languages, with their codes and names.
- `class_dialog.dfy`: module `ClassDialog`, the dialog's rules and its state
  (class `Dialog`).
- `pogo_gui.dfy`: module `PogoGui`, the window's rules and its state
  (class `Gui`).

Pogo means a derived class to keep its ancestors' language: the language
button handler says so in its comment (ClassDialog.java:597) and in the
message it shows. The code enforces this only partly; see the first finding
below.

PogoConst is not part of this model. In the dialog a language code only
selects one of four buttons, so module `Languages` fixes the codes as Java = 0,
Cpp = 1, Python = 2 and PythonHL = 3; any other assignment of the four codes
gives the same behaviour. The popup menu is different: `menuActionPerformed`
hands the index of the chosen item on as a language code, while the menu lists
Java, Cpp, Python, PythonHL (PogoGUI.java:1511-1516, 1561-1562). There the
table is an input (`PogoGui.LanguageTable`), and the model proves that every
item gives the class the language its label shows exactly when the codes
follow the menu's order. The language names are taken as "Java", "Cpp",
"Python" and "PythonHL", and the Scalar attribute type name as "Scalar".

## Model

| member | source | states |
|---|---|---|
| `ClassDialog.ClassNameResult` | org.tango.pogo.pogo_gui/src/org/tango/pogo/pogo_gui/ClassDialog.java:744-779 | no name (null) exactly when the text is empty, its lower-cased first character is not a..z, or a lower-cased character is not a..z, 0..9 or '_'; otherwise the result has the input's length, its first character upper-cased and every later character unchanged |
| `ClassDialog.CheckNameChars` | org.tango.pogo.pogo_gui/src/org/tango/pogo/pogo_gui/ClassDialog.java:745-761 | the character loop over the lower-cased text passes exactly when the text is a valid class name |
| `ClassDialog.JoinTokens` | org.tango.pogo.pogo_gui/src/org/tango/pogo/pogo_gui/ClassDialog.java:763-774 | the token loop builds the concatenation of the tokens, each with its first character upper-cased |
| `ClassDialog.CheckClassName` | org.tango.pogo.pogo_gui/src/org/tango/pogo/pogo_gui/ClassDialog.java:744-779 | the character checks followed by the token loop compute exactly that answer |
| `ClassDialog.ValidNameIsOneToken` | org.tango.pogo.pogo_gui/src/org/tango/pogo/pogo_gui/ClassDialog.java:765-774 | a name that passed the character checks holds no tokenizer delimiter, so the token loop sees exactly one token, the whole text |
| `ClassDialog.CheckClassNameIdempotent` | org.tango.pogo.pogo_gui/src/org/tango/pogo/pogo_gui/ClassDialog.java:744-779 | feeding an accepted, normalised name back in accepts it and returns it unchanged |
| `ClassDialog.SelectionHasOne` | org.tango.pogo.pogo_gui/src/org/tango/pogo/pogo_gui/ClassDialog.java:187-189 | the state setLanguage writes for a code 0..3 has exactly that one button selected |
| `ClassDialog.EffectiveCode` | org.tango.pogo.pogo_gui/src/org/tango/pogo/pogo_gui/ClassDialog.java:184-186 | a negative decoded code selects Cpp; any other code is kept |
| `ClassDialog.InputLanguage` | org.tango.pogo.pogo_gui/src/org/tango/pogo/pogo_gui/ClassDialog.java:726-733 | the recorded language is PythonHL if its button is on, else Python, else Java, else Cpp |
| `ClassDialog.InputLanguageOfSelection` | org.tango.pogo.pogo_gui/src/org/tango/pogo/pogo_gui/ClassDialog.java:726-733 | after setLanguage with any code below 4, getInputs records the language of that code (Cpp for a negative one) |
| `ClassDialog.LanguageClick` | org.tango.pogo.pogo_gui/src/org/tango/pogo/pogo_gui/ClassDialog.java:589-610 | with ancestors the clicked button ends deselected and the others are untouched; without ancestors exactly the clicked language is selected |
| `ClassDialog.ReclickOnDerivedClassDropsLanguage` | org.tango.pogo.pogo_gui/src/org/tango/pogo/pogo_gui/ClassDialog.java:593-599 | from the inherited language's selection, with Swing having toggled the clicked button off, the handler leaves no button selected, so getInputs records Cpp instead of the inherited language |
| `ClassDialog.OtherButtonClickAgrees` | org.tango.pogo.pogo_gui/src/org/tango/pogo/pogo_gui/ClassDialog.java:593-599 | on a derived class a click on a button other than the inherited one ends the same under the handler as written and the corrected one |
| `ClassDialog.LanguageClickKeepingAncestor` | org.tango.pogo.pogo_gui/src/org/tango/pogo/pogo_gui/ClassDialog.java:597-609 | corrected click: exactly one button is always selected, and for a derived class getInputs then records the ancestor's language |
| `ClassDialog.CheckClassNameChanged` | org.tango.pogo.pogo_gui/src/org/tango/pogo/pogo_gui/ClassDialog.java:487-517 | true without asking when there is no class tree, no original name, no source path or an unchanged name; otherwise choice 1 gives true, choice 0 the rename's result, any other choice false |
| `ClassDialog.Dialog.constructor` | org.tango.pogo.pogo_gui/src/org/tango/pogo/pogo_gui/ClassDialog.java:91-150 | a new class starts with an empty name field and the class name "New Tango Class", only Cpp selected, no ancestors, no original name, no source path and the add-inheritance button shown; an edited class keeps its name (also as original name and in the name field; an empty name becomes "New Tango Class"), its language name, ancestors and source path, selects the buttons of its decoded language, and hides that button; the tree flags are the given ones and no generation is forced |
| `ClassDialog.Dialog.SetLanguage` | org.tango.pogo.pogo_gui/src/org/tango/pogo/pogo_gui/ClassDialog.java:183-190 | the buttons become exactly the decoded language, or Cpp for a negative code, and exactly one is selected for every code below 4 |
| `ClassDialog.Dialog.LanguageActionPerformed` | org.tango.pogo.pogo_gui/src/org/tango/pogo/pogo_gui/ClassDialog.java:589-610 | the buttons end as `LanguageClick` of the state the handler sees |
| `ClassDialog.Dialog.AddInheritance` | org.tango.pogo.pogo_gui/src/org/tango/pogo/pogo_gui/ClassDialog.java:634-657 | a loaded ancestor is appended, a typed name is stored, the button is hidden and the buttons select the ancestor's language; with no ancestor loaded nothing changes; the name field, original name, stored language, tree flags and source path never change |
| `ClassDialog.Dialog.GetInputs` | org.tango.pogo.pogo_gui/src/org/tango/pogo/pogo_gui/ClassDialog.java:715-735 | the class takes the name field's text and the name of `InputLanguage` of the buttons; every other field keeps its value |
| `ClassDialog.Dialog.ManageClassNameChanged` | org.tango.pogo.pogo_gui/src/org/tango/pogo/pogo_gui/ClassDialog.java:521-548 | true exactly when confirmed and regeneration completes; only then is the tree's modified flag cleared and the forced-generation flag set; the name, language, buttons, ancestors and every other field keep their values |
| `PogoGui.CheckPogoClassCompatibilityLanguage` | org.tango.pogo.pogo_gui/src/org/tango/pogo/pogo_gui/PogoGUI.java:806-819 | a class whose language equals "Cpp" ignoring case always passes; any other class fails, with the source's message, exactly when some attribute is non-scalar with a data type containing "Enum" |
| `PogoGui.CompatibilityIgnoresAttributeOrder` | org.tango.pogo.pogo_gui/src/org/tango/pogo/pogo_gui/PogoGUI.java:811-818 | the verdict is the same for any reordering of the attributes |
| `PogoGui.ScalarAttributesAccepted` | org.tango.pogo.pogo_gui/src/org/tango/pogo/pogo_gui/PogoGUI.java:813-817 | attributes whose kind is "Scalar" ignoring case, Enum or not, never make a class fail |
| `PogoGui.AfterGenerate` | org.tango.pogo.pogo_gui/src/org/tango/pogo/pogo_gui/PogoGUI.java:828-862 | the modified flag is cleared only when the class passes the check, the dialog is confirmed and generate completes; every other path leaves the tree as it was |
| `PogoGui.Gui.GenerateSourceFiles` | org.tango.pogo.pogo_gui/src/org/tango/pogo/pogo_gui/PogoGUI.java:823-869 | returns true exactly on a completed generation; the tab's tree becomes `AfterGenerate` of the old one and nothing else changes |
| `PogoGui.FirstCancel` | org.tango.pogo.pogo_gui/src/org/tango/pogo/pogo_gui/PogoGUI.java:735-759 | the first tab with a modified tree answered with option 2 or closed (-1); no earlier tab is such a tab |
| `PogoGui.UnmodifiedPanelsIgnored` | org.tango.pogo.pogo_gui/src/org/tango/pogo/pogo_gui/PogoGUI.java:736-738 | answers given for tabs without a modified tree do not change where the check stops |
| `PogoGui.CompletedCheckLeavesOnlyDeclined` | org.tango.pogo.pogo_gui/src/org/tango/pogo/pogo_gui/PogoGUI.java:735-759 | after a check that was not cancelled, a tab still modified was modified before, and was either not answered "Generate" or its generation did not succeed |
| `PogoGui.Gui.CheckModifications` | org.tango.pogo.pogo_gui/src/org/tango/pogo/pogo_gui/PogoGUI.java:735-759 | CANCEL exactly when some prompting tab is answered with cancel; every prompting tab before it answered 0 is generated, and all other tabs are unchanged |
| `PogoGui.Gui.ExitAppli` | org.tango.pogo.pogo_gui/src/org/tango/pogo/pogo_gui/PogoGUI.java:763-779 | exits only when the check is OK, no other frame is visible and the multi-classes panel is not visible; otherwise returns OK (frame hidden) or CANCEL (frame untouched) |
| `PogoGui.Gui.constructor` | org.tango.pogo.pogo_gui/src/org/tango/pogo/pogo_gui/PogoGUI.java:142-162 | a new window has one placeholder tab without a tree, no inheritance, and is visible |
| `PogoGui.Gui.AddPanel` | org.tango.pogo.pogo_gui/src/org/tango/pogo/pogo_gui/PogoGUI.java:1421-1427 | appends one tab for the class, marked inherited unless it is the first |
| `PogoGui.Gui.AddPanels` | org.tango.pogo.pogo_gui/src/org/tango/pogo/pogo_gui/PogoGUI.java:1429-1449 | the tabs are the class, then its ancestors from last to first, all but the first marked inherited; hasInheritance exactly when there is an ancestor |
| `PogoGui.Gui.ShowMenu` | org.tango.pogo.pogo_gui/src/org/tango/pogo/pogo_gui/PogoGUI.java:1543-1550 | never shown while hasInheritance holds; otherwise shown exactly for a right-button event |
| `PogoGui.Gui.MenuActionPerformed` | org.tango.pogo.pogo_gui/src/org/tango/pogo/pogo_gui/PogoGUI.java:1552-1565 | the item index is the last item matching the event source, or 0; a selected tab with a tree takes that language and becomes modified, otherwise nothing changes |
| `PogoGui.WithLanguage` | org.tango.pogo.pogo_gui/src/org/tango/pogo/pogo_gui/PogoGUI.java:1559-1564 | the tree's class takes the language name of the code equal to the item index, and the tree is modified; the class's name, ancestors, attributes and source path and the tree's source path are kept |
| `PogoGui.MenuItemGivesItsLabel` | org.tango.pogo.pogo_gui/src/org/tango/pogo/pogo_gui/PogoGUI.java:1511-1564 | for a table of four distinct names, every item gives the class the language its label shows exactly when the codes are Java 0, Cpp 1, Python 2, PythonHL 3 |
| `PogoGui.ConversionOptions` | org.tango.pogo.pogo_gui/src/org/tango/pogo/pogo_gui/PogoGUI.java:1089-1096 | three options for a class in "Cpp" and two for any other language, the last one always "Cancel" |
| `PogoGui.ConversionDecision` | org.tango.pogo.pogo_gui/src/org/tango/pogo/pogo_gui/PogoGUI.java:1081-1123 | an abstract class converts without code recovery exactly when confirmed; any other class converts exactly on choice 0 (recover code) or 1 (no recovery) when the inheritance check is not cancelled |
| `PogoGui.NonCppCancelConverts` | org.tango.pogo.pogo_gui/src/org/tango/pogo/pogo_gui/PogoGUI.java:1094-1118 | for a non-Cpp class option 1 is "Cancel", yet choosing it converts the class |
| `PogoGui.ConversionDecisionByLabel` | org.tango.pogo.pogo_gui/src/org/tango/pogo/pogo_gui/PogoGUI.java:1089-1123 | corrected decision: the option shown as "Cancel" never converts, and any conversion comes from an option other than "Cancel"; Cpp and abstract classes are decided as before, and every other option is decided as before |
| `PogoGui.Release` | org.tango.pogo.pogo_gui/src/org/tango/pogo/pogo_gui/PogoGUI.java:167-168 | the release is the part of the revision number before its first '-' and holds no '-' |
| `PogoGui.ApplicationTitle` | org.tango.pogo.pogo_gui/src/org/tango/pogo/pogo_gui/PogoGUI.java:166-173 | fails (the source throws) exactly when the revision number holds no '-'; otherwise the prefix and the release, followed by " - " and the class text when there is a class |

## Left out

- `ClassDialog.CheckClassName`: it requires ASCII text and assumes a default locale that is not Turkish or Azeri. `toLowerCase` and `toUpperCase` without a locale use the default one. Under a Turkic locale 'I' lower-cases to U+0131, so the source rejects "Item", and 'i' upper-cases to U+0130. Java's Unicode case mapping is not modelled either; the Kelvin sign U+212A, for one, lower-cases to 'k'.
- `ClassDialog.ClassNameResult`: same ASCII and non-Turkic default-locale assumptions as `CheckClassName`.
- `Strings.EqualsIgnoreCase`: it folds ASCII letters only; Java also folds other scripts.
- `ClassDialog.Dialog.LanguageActionPerformed`: the button's label is taken to decode to the button's own code. `Utils.getLanguage` is not part of this model.
- `ClassDialog.Dialog.SetLanguage`: it takes the decoded code as input, because `Utils.getLanguage` is not part of this model. A code of 4 or more would leave no button selected, and the model states that case as the code does.
- `ClassDialog.Dialog.AddInheritance`: `DeviceClass.addAncestor` is not part of this model and is taken as appending the loaded class. A cancelled chooser, a directory and a load error are one input (no ancestor). The chooser's start directory (the `SOURCE_PATH` lookup) is left out.
- `ClassDialog.Dialog.GetInputs`: title, description, copyright, identification and license are copied through `Utils.strReplaceSpecialCharToCode` and `DeviceIdDialog`, which are not part of this model. Only the name and the language are modelled.
- `manageOK` and `doClose` are left out: they chain the name check, `DeviceIdDialog.checkInputs` (not part of this model) and the rename decision, and only close the dialog.
- `PogoGui.Gui.GenerateSourceFiles`: the class is taken as non-null. The source dereferences it in the compatibility check before its own null test. The generate dialog's replacement class and `manageRecentMenu` (project history on disk) are left out.
- `PogoGui.Gui.AddPanel`: `ClassTree` is not part of this model. A new tree is taken as unmodified, with the class's source path. `InheritanceUtils.manageInheritanceItems` warnings and the inheritance side panel are left out.
- `PogoGui.WithLanguage`: `ClassTree.setClassLanguage` is not part of this model and is taken as storing the name of the code it is given as the class language.
- `PogoGui.Gui.MenuActionPerformed`: the PogoConst table is an input; whether the real table follows the menu's order is not known here, so the model states the result through the table and proves the label agreement only under that order.
- `ClassDialog.Dialog.constructor`: a new `DeviceClass("", null)` is not part of this model; its stored language is taken as "Cpp", the button shown selected. An edited class without a description makes the source throw at ClassDialog.java:132, where it reads that description, so no dialog exists; the model takes the description as present.
- `PogoGui.ConversionDecisionByLabel`: the non-Cpp "Convert Class" option keeps the as-written code-recovery flag (true), although its label leaves code insertion to the user; `generateFromOldModel`, which reads the flag, is not part of this model.
- `PogoGui.Gui.CheckModifications`: tabs hold their trees as values, so two tabs sharing one tree object (aliasing) is not modelled.
- `PogoGui.Gui.ExitAppli`: `System.exit` is the `Exited` outcome. The running frames are given as the visibility of the frames other than this one. The thread that shows the window again after a cancel is left out.
- The PythonHL menu item's visibility depends on an environment variable and is left out. Icons, cursors, splash screen, layout and window positioning are left out.
- `generateFromOldAndReload`: only the decision is modelled. The conversion, the reload from the converted file (with its `TEST_MODE` directory) and the messages are left out.
- `tools/TangoServer.java` holds fields and defaults only, and its copy constructor reads a multi-class model that is not part of this model.

## Findings

| source | as written | input that shows it | evidently intended | confidence | as-written member | corrected member |
|---|---|---|---|---|---|---|
| org.tango.pogo.pogo_gui/src/org/tango/pogo/pogo_gui/ClassDialog.java:593-605 | for a derived class the handler forces the clicked button on, then off | a class with a Python ancestor, only the Python button selected; the user clicks Python. The buttons are not in a ButtonGroup, so Swing toggles it off before the handler runs. The handler leaves no button selected, and getInputs stores Cpp | a refused click leaves the inherited language selected | medium, not executed | `ClassDialog.ReclickOnDerivedClassDropsLanguage` | `ClassDialog.LanguageClickKeepingAncestor` |
| org.tango.pogo.pogo_gui/src/org/tango/pogo/pogo_gui/PogoGUI.java:1094-1118 | the switch reads option 1 as "Convert Class Only" whatever list was shown | a non-abstract old class in Java; the user picks "Cancel" (index 1) and the inheritance check answers OK. The class is converted | choosing "Cancel" returns without converting | high, not executed | `PogoGui.NonCppCancelConverts` | `PogoGui.ConversionDecisionByLabel` |
