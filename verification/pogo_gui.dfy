/**
 * The rules of the main editor window: the language compatibility check run
 * before generation, the modified flag of a class tree around generation,
 * the tab order built for a class and its ancestors, the language popup
 * menu, the decision taken when a class from an old tool version is loaded,
 * the unsaved-changes check at exit, and the window title.
 *
 * The class trees are values held in the window's panel list; each dialog
 * answer and the outcome of each foreign call is an input.
 */
module PogoGui {
  import opened Strings
  import opened Swing
  import opened Languages

  /**
   * An attribute as the compatibility check reads it: its kind (Scalar,
   * Spectrum, Image) and `dataType`, the text the data type object's
   * toString gives.
   */
  datatype Attribute = Attribute(name: string, attType: string, dataType: string)

  /** A device class: its name, language name, attributes, ancestors and source path. */
  datatype DeviceClass = DeviceClass(name: string, language: string, attributes: seq<Attribute>,
                                     ancestors: seq<DeviceClass>, sourcePath: Option<string>)

  // ---------------------------------------------------------------------
  // Language compatibility before generation
  // ---------------------------------------------------------------------

  const ScalarType: string := "Scalar"
  const EnumMarker: string := "Enum"
  const EnumNotSupported: string := "Enum are supported as SPECTRUM only for C++"

  /** The language name is Cpp, ignoring case. */
  predicate IsCppIgnoreCase(language: string)
  {
    EqualsIgnoreCase(language, Name(Cpp))
  }

  /** A spectrum or image attribute whose data type is an enumeration. */
  predicate IsNonScalarEnum(a: Attribute)
  {
    !EqualsIgnoreCase(a.attType, ScalarType) && Contains(a.dataType, EnumMarker)
  }

  predicate HasNonScalarEnum(attributes: seq<Attribute>)
  {
    exists i :: 0 <= i < |attributes| && IsNonScalarEnum(attributes[i])
  }

  /** The class can be generated in its language. */
  predicate Compatible(dc: DeviceClass)
  {
    IsCppIgnoreCase(dc.language) || !HasNonScalarEnum(dc.attributes)
  }

  /**
   * PogoGUI.checkPogoClassCompatibilityLanguage: a class in Cpp always
   * passes; any other class fails, with the message the source throws, when
   * one of its attributes is a non-scalar enumeration.
   */
  method CheckPogoClassCompatibilityLanguage(dc: DeviceClass) returns (r: Outcome)
    ensures IsCppIgnoreCase(dc.language) ==> r.Pass?
    ensures !IsCppIgnoreCase(dc.language) ==>
      (r.Fail? <==> exists i :: 0 <= i < |dc.attributes| && IsNonScalarEnum(dc.attributes[i]))
    ensures r.Fail? ==> r.message == EnumNotSupported
  {
    var attributes := dc.attributes;
    if IsCppIgnoreCase(dc.language) {
      return Pass;
    }
    for i := 0 to |attributes|
      invariant forall j :: 0 <= j < i ==> !IsNonScalarEnum(attributes[j])
    {
      if !EqualsIgnoreCase(attributes[i].attType, ScalarType) {
        if Contains(attributes[i].dataType, EnumMarker) {
          return Fail(EnumNotSupported);
        }
      }
    }
    return Pass;
  }

  /** The verdict does not depend on the order of the attributes. */
  lemma CompatibilityIgnoresAttributeOrder(dc: DeviceClass, reordered: seq<Attribute>)
    requires multiset(reordered) == multiset(dc.attributes)
    ensures Compatible(dc.(attributes := reordered)) == Compatible(dc)
  {
    if HasNonScalarEnum(dc.attributes) {
      var i :| 0 <= i < |dc.attributes| && IsNonScalarEnum(dc.attributes[i]);
      assert dc.attributes[i] in multiset(reordered);
      var j :| 0 <= j < |reordered| && reordered[j] == dc.attributes[i];
      assert IsNonScalarEnum(reordered[j]);
    }
    if HasNonScalarEnum(reordered) {
      var j :| 0 <= j < |reordered| && IsNonScalarEnum(reordered[j]);
      assert reordered[j] in multiset(dc.attributes);
      var i :| 0 <= i < |dc.attributes| && dc.attributes[i] == reordered[j];
      assert IsNonScalarEnum(dc.attributes[i]);
    }
  }

  /** Scalar attributes never make a class incompatible, whatever their data type. */
  lemma ScalarAttributesAccepted(dc: DeviceClass)
    requires forall i :: 0 <= i < |dc.attributes| ==> EqualsIgnoreCase(dc.attributes[i].attType, ScalarType)
    ensures Compatible(dc)
  {
  }

  // ---------------------------------------------------------------------
  // Class trees and generation
  // ---------------------------------------------------------------------

  /** The state of a class tree the front end reads and writes. */
  datatype Tree = Tree(deviceClass: DeviceClass, modified: bool, srcPath: Option<string>)

  /** A tab of the window; the placeholder tab shown before any class is loaded has no tree. */
  datatype Panel = Panel(tree: Option<Tree>, inherited: bool)

  /** What DeviceClass.generate does: complete, giving the class's new source path, or throw. */
  datatype GenerateOutcome = Generated(sourcePath: Option<string>) | GenerateFailed

  /** A freshly built tree for a class. */
  function NewTree(dc: DeviceClass): (t: Tree)
    ensures t.deviceClass == dc && !t.modified
  {
    Tree(dc, false, dc.sourcePath)
  }

  /**
   * generateSourceFiles returns true exactly when the class passes the
   * compatibility check, the generate dialog is confirmed and generation
   * completes.
   */
  predicate GenerationSucceeds(t: Tree, answer: int, outcome: GenerateOutcome)
  {
    Compatible(t.deviceClass) && answer == OK_OPTION && outcome.Generated?
  }

  /**
   * The tree after generateSourceFiles: only a completed generation clears
   * the modified flag and records the new source path; a rejected class, a
   * cancelled dialog or a failed generation leave the tree as it was.
   */
  function AfterGenerate(t: Tree, answer: int, outcome: GenerateOutcome): (r: Tree)
    ensures r.deviceClass == t.deviceClass
    ensures r.modified == (t.modified && !GenerationSucceeds(t, answer, outcome))
    ensures !GenerationSucceeds(t, answer, outcome) ==> r == t
    ensures GenerationSucceeds(t, answer, outcome) ==> r.srcPath == outcome.sourcePath
  {
    if GenerationSucceeds(t, answer, outcome) then t.(modified := false, srcPath := outcome.sourcePath)
    else t
  }

  // ---------------------------------------------------------------------
  // Unsaved changes
  // ---------------------------------------------------------------------

  /** A tab asks about unsaved changes only when it has a modified tree. */
  predicate Prompts(p: Panel)
  {
    p.tree.Some? && p.tree.value.modified
  }

  /** Option 2 ("Cancel") or a closed dialog (-1) stop the check. */
  predicate IsCancelChoice(choice: int)
  {
    choice == 2 || choice == CLOSED_OPTION
  }

  /** The first tab, from `from` on, that prompts and is answered with cancel; |ps| if none. */
  function FirstCancel(ps: seq<Panel>, choices: seq<int>, from: nat): (k: nat)
    requires |choices| == |ps| && from <= |ps|
    ensures from <= k <= |ps|
    ensures forall j :: from <= j < k ==> !(Prompts(ps[j]) && IsCancelChoice(choices[j]))
    ensures k < |ps| ==> Prompts(ps[k]) && IsCancelChoice(choices[k])
    decreases |ps| - from
  {
    if from == |ps| then from
    else if Prompts(ps[from]) && IsCancelChoice(choices[from]) then from
    else FirstCancel(ps, choices, from + 1)
  }

  /** The answers given for tabs that do not prompt have no effect on where the check stops. */
  lemma UnmodifiedPanelsIgnored(ps: seq<Panel>, c1: seq<int>, c2: seq<int>, from: nat)
    requires |c1| == |ps| && |c2| == |ps| && from <= |ps|
    requires forall j :: 0 <= j < |ps| && Prompts(ps[j]) ==> c1[j] == c2[j]
    ensures FirstCancel(ps, c1, from) == FirstCancel(ps, c2, from)
  {
  }

  /** The tab after the check, given where it stopped. */
  function CheckedPanel(p: Panel, choice: int, answer: int, outcome: GenerateOutcome, visited: bool): (r: Panel)
    ensures !Prompts(p) ==> r == p
    ensures r.inherited == p.inherited && (r.tree.Some? <==> p.tree.Some?)
  {
    if visited && Prompts(p) && choice == 0 then p.(tree := Some(AfterGenerate(p.tree.value, answer, outcome)))
    else p
  }

  /**
   * The tabs after checkModifications: every prompting tab before the one
   * answered with cancel, and answered with "Generate", went through
   * generation; every other tab is unchanged.
   */
  function AfterCheck(ps: seq<Panel>, choices: seq<int>, answers: seq<int>,
                      outcomes: seq<GenerateOutcome>): (r: seq<Panel>)
    requires |choices| == |ps| && |answers| == |ps| && |outcomes| == |ps|
    ensures |r| == |ps|
  {
    var stop := FirstCancel(ps, choices, 0);
    seq(|ps|, j requires 0 <= j < |ps| =>
      CheckedPanel(ps[j], choices[j], answers[j], outcomes[j], j < stop))
  }

  /** A check that was not cancelled leaves no tab with a modified tree unless the user discarded it or generation failed. */
  lemma CompletedCheckLeavesOnlyDeclined(ps: seq<Panel>, choices: seq<int>, answers: seq<int>,
                                        outcomes: seq<GenerateOutcome>, j: int)
    requires |choices| == |ps| && |answers| == |ps| && |outcomes| == |ps|
    requires FirstCancel(ps, choices, 0) == |ps|
    requires 0 <= j < |ps| && Prompts(AfterCheck(ps, choices, answers, outcomes)[j])
    ensures Prompts(ps[j]) && !IsCancelChoice(choices[j])
    ensures choices[j] == 0 ==> !GenerationSucceeds(ps[j].tree.value, answers[j], outcomes[j])
  {
  }

  // ---------------------------------------------------------------------
  // Converting a class from an old tool version
  // ---------------------------------------------------------------------

  /** What generateFromOldAndReload goes on to do. */
  datatype Conversion = NotConverted | Convert(recoverCode: bool)

  /** The options offered for a non-abstract old class, by language. */
  function ConversionOptions(language: string): (opts: seq<string>)
    ensures |opts| == (if language == "Cpp" then 3 else 2)
    ensures opts[|opts| - 1] == "Cancel"
  {
    if language == "Cpp" then
      ["Convert and Insert User Code", "Convert Class Only", "Cancel"]
    else
      ["Convert Class (code insertion must be done manually)", "Cancel"]
  }

  /**
   * The decision of generateFromOldAndReload, as written. `confirm` answers
   * the yes/no dialog shown for an abstract class, `choice` the option
   * dialog shown otherwise, and `inheritance` the inheritance check asked
   * after choices 0 and 1. The options shown do not enter the decision.
   */
  function ConversionDecision(isAbstract: bool, confirm: int, choice: int, inheritance: int): (r: Conversion)
    ensures isAbstract ==> (r.Convert? <==> confirm == OK_OPTION) && (r.Convert? ==> !r.recoverCode)
    ensures !isAbstract ==>
      (r.Convert? <==> (choice == 0 || choice == 1) && inheritance != CANCEL_OPTION)
    ensures !isAbstract && r.Convert? ==> (r.recoverCode <==> choice == 0)
  {
    if isAbstract then
      if confirm != OK_OPTION then NotConverted else Convert(false)
    else if choice == 0 then
      if inheritance == CANCEL_OPTION then NotConverted else Convert(true)
    else if choice == 1 then
      if inheritance == CANCEL_OPTION then NotConverted else Convert(false)
    else NotConverted
  }

  /**
   * Finding, as written: for a class whose language is not Cpp the dialog
   * shows "Cancel" as option 1, and choosing it converts the class.
   */
  lemma NonCppCancelConverts(language: string, confirm: int)
    requires language != "Cpp"
    ensures ConversionOptions(language)[1] == "Cancel"
    ensures ConversionDecision(false, confirm, 1, OK_OPTION) == Convert(false)
  {
  }

  /**
   * Finding, corrected: the option chosen is read in the list actually
   * shown, so "Cancel" never converts; a Cpp class is decided as before.
   * The other options keep the as-written `recoverCode`, so the single
   * non-Cpp option still asks for it: its label leaves code insertion to
   * the user, and what generateFromOldModel does with the flag for a
   * non-Cpp class is not part of this model.
   */
  function ConversionDecisionByLabel(isAbstract: bool, language: string, confirm: int,
                                     choice: int, inheritance: int): (r: Conversion)
    ensures isAbstract || language == "Cpp" ==>
      r == ConversionDecision(isAbstract, confirm, choice, inheritance)
    ensures !isAbstract && r.Convert? ==>
      0 <= choice < |ConversionOptions(language)| && ConversionOptions(language)[choice] != "Cancel"
    ensures (!isAbstract && 0 <= choice < |ConversionOptions(language)| &&
             ConversionOptions(language)[choice] == "Cancel") ==> r == NotConverted
    ensures (!isAbstract && 0 <= choice < |ConversionOptions(language)| &&
             ConversionOptions(language)[choice] != "Cancel") ==>
      r == ConversionDecision(isAbstract, confirm, choice, inheritance)
  {
    var opts := ConversionOptions(language);
    if isAbstract then ConversionDecision(isAbstract, confirm, choice, inheritance)
    else if 0 <= choice < |opts| && opts[choice] != "Cancel" then
      ConversionDecision(isAbstract, confirm, choice, inheritance)
    else NotConverted
  }

  // ---------------------------------------------------------------------
  // Window title
  // ---------------------------------------------------------------------

  const TitlePrefix: string := "TANGO Code Generator - "

  /** The release part of a revision number: everything before its first '-'. */
  function Release(revNumber: string): (r: string)
    requires '-' in revNumber
    ensures '-' !in r && r + "-" <= revNumber
  {
    var k := IndexOf(revNumber, '-');
    assert revNumber[..k + 1] == revNumber[..k] + "-";
    revNumber[..k]
  }

  /**
   * PogoGUI.applicationTitle: `classText` is the edited class's text, None
   * when there is no class. A revision number without '-' makes the source
   * throw, which is None here.
   */
  function ApplicationTitle(revNumber: string, classText: Option<string>): (r: Option<string>)
    ensures r.None? <==> '-' !in revNumber
    ensures r.Some? ==> TitlePrefix <= r.value
    ensures r.Some? && classText.None? ==> r.value == TitlePrefix + Release(revNumber)
    ensures r.Some? && classText.Some? ==>
      r.value == TitlePrefix + Release(revNumber) + " - " + classText.value
  {
    if '-' !in revNumber then None
    else
      var release := Release(revNumber);
      match classText
      case None => Some(TitlePrefix + release)
      case Some(text) => Some(TitlePrefix + release + " - " + text)
  }

  // ---------------------------------------------------------------------
  // Language popup menu
  // ---------------------------------------------------------------------

  /** The popup's title label and separator come before its items. */
  const MenuOffset: int := 2

  /**
   * PogoConst's language table: `strLang` holds the language names indexed
   * by code, and `java`, `cpp`, `python` and `pythonHL` are the codes.
   */
  datatype LanguageTable = LanguageTable(strLang: seq<string>, java: int, cpp: int,
                                         python: int, pythonHL: int)

  /** Four names, and four different codes, each indexing one of them. */
  predicate ValidTable(tab: LanguageTable)
  {
    |tab.strLang| == LanguageCount &&
    0 <= tab.java < LanguageCount && 0 <= tab.cpp < LanguageCount &&
    0 <= tab.python < LanguageCount && 0 <= tab.pythonHL < LanguageCount &&
    tab.java != tab.cpp && tab.java != tab.python && tab.java != tab.pythonHL &&
    tab.cpp != tab.python && tab.cpp != tab.pythonHL && tab.python != tab.pythonHL
  }

  /** No two codes share a name. */
  predicate DistinctNames(tab: LanguageTable)
  {
    forall i, j :: 0 <= i < j < |tab.strLang| ==> tab.strLang[i] != tab.strLang[j]
  }

  /** The codes follow the menu's order: Java, Cpp, Python, PythonHL. */
  predicate MenuOrdered(tab: LanguageTable)
  {
    tab.java == 0 && tab.cpp == 1 && tab.python == 2 && tab.pythonHL == 3
  }

  /** The popup's item labels, in menu order. */
  function MenuLabels(tab: LanguageTable): (labels: seq<string>)
    requires ValidTable(tab)
    ensures |labels| == LanguageCount
  {
    [tab.strLang[tab.java], tab.strLang[tab.cpp], tab.strLang[tab.python], tab.strLang[tab.pythonHL]]
  }

  /**
   * The item index menuActionPerformed settles on, given the item
   * components in menu order: the last item that is the event source, 0 if
   * none is.
   */
  predicate IsMenuIndex(items: seq<int>, source: int, cmdidx: int)
  {
    0 <= cmdidx < |items| &&
    ((source in items) ==>
       items[cmdidx] == source && forall j :: cmdidx < j < |items| ==> items[j] != source) &&
    (source !in items ==> cmdidx == 0)
  }

  /**
   * What happens to the selected tab's tree when the item at index `cmdidx`
   * is chosen: the index is handed on as a language code, so the class takes
   * the name of that code.
   */
  function WithLanguage(t: Tree, tab: LanguageTable, cmdidx: int): (r: Tree)
    requires ValidTable(tab) && 0 <= cmdidx < LanguageCount
    ensures r.modified && r.deviceClass.language == tab.strLang[cmdidx]
    ensures r.deviceClass.name == t.deviceClass.name
    ensures r.deviceClass.ancestors == t.deviceClass.ancestors &&
            r.deviceClass.sourcePath == t.deviceClass.sourcePath
    ensures r.deviceClass.attributes == t.deviceClass.attributes && r.srcPath == t.srcPath
  {
    t.(deviceClass := t.deviceClass.(language := tab.strLang[cmdidx]), modified := true)
  }

  /**
   * Choosing an item gives the class the language its label shows, for every
   * item, exactly when the codes follow the menu's order.
   */
  lemma MenuItemGivesItsLabel(t: Tree, tab: LanguageTable)
    requires ValidTable(tab) && DistinctNames(tab)
    ensures (forall i :: 0 <= i < LanguageCount ==>
               WithLanguage(t, tab, i).deviceClass.language == MenuLabels(tab)[i])
            <==> MenuOrdered(tab)
  {
    var labels := MenuLabels(tab);
    if forall i :: 0 <= i < LanguageCount ==> WithLanguage(t, tab, i).deviceClass.language == labels[i] {
      forall i | 0 <= i < LanguageCount
        ensures tab.strLang[i] == labels[i]
      {
        assert WithLanguage(t, tab, i).deviceClass.language == labels[i];
      }
      assert tab.strLang[0] == tab.strLang[tab.java];
      assert tab.strLang[1] == tab.strLang[tab.cpp];
      assert tab.strLang[2] == tab.strLang[tab.python];
    }
  }

  // ---------------------------------------------------------------------
  // The window
  // ---------------------------------------------------------------------

  /** What exitAppli does: end the process, or return a JOptionPane code. */
  datatype ExitOutcome = Exited | Returned(option: int)

  class Gui {
    var panels: seq<Panel>
    /** The index of the selected tab. */
    var selectedIndex: int
    var hasInheritance: bool
    var visible: bool

    ghost predicate Valid()
      reads this
    {
      0 <= selectedIndex < |panels|
    }

    /** A new window shows one placeholder tab without a class. */
    constructor ()
      ensures Valid() && panels == [Panel(None, false)] && selectedIndex == 0
      ensures !hasInheritance && visible
    {
      panels := [Panel(None, false)];
      selectedIndex := 0;
      hasInheritance := false;
      visible := true;
    }

    /** ClassPanels.addPanel: a tab for `dc`, marked inherited unless it is the first. */
    method AddPanel(dc: DeviceClass)
      modifies this
      ensures panels == old(panels) + [Panel(Some(NewTree(dc)), |old(panels)| > 0)]
      ensures selectedIndex == old(selectedIndex) && hasInheritance == old(hasInheritance)
      ensures visible == old(visible)
    {
      panels := panels + [Panel(Some(NewTree(dc)), |panels| > 0)];
    }

    /**
     * ClassPanels.addPanels: the tabs become the class followed by its
     * ancestors from the last to the first, and hasInheritance records
     * whether there is any ancestor.
     */
    method AddPanels(dc: DeviceClass)
      modifies this
      ensures Valid() && selectedIndex == 0
      ensures |panels| == 1 + |dc.ancestors|
      ensures panels[0] == Panel(Some(NewTree(dc)), false)
      ensures forall k :: 1 <= k < |panels| ==>
        panels[k] == Panel(Some(NewTree(dc.ancestors[|dc.ancestors| - k])), true)
      ensures hasInheritance <==> |dc.ancestors| > 0
      ensures visible == old(visible)
    {
      panels := [];
      AddPanel(dc);
      var ancestors := dc.ancestors;
      var i := |ancestors| - 1;
      while i >= 0
        invariant -1 <= i < |ancestors|
        invariant |panels| == |ancestors| - i
        invariant panels[0] == Panel(Some(NewTree(dc)), false)
        invariant forall k :: 1 <= k < |panels| ==>
          panels[k] == Panel(Some(NewTree(ancestors[|ancestors| - k])), true)
        invariant visible == old(visible)
      {
        AddPanel(ancestors[i]);
        i := i - 1;
      }
      hasInheritance := |ancestors| > 0;
      selectedIndex := 0;
    }

    /**
     * PogoGUI.generateSourceFiles for the tree of tab `i`: `answer` is the
     * generate dialog's answer and `outcome` what DeviceClass.generate does.
     */
    method GenerateSourceFiles(i: int, answer: int, outcome: GenerateOutcome) returns (ok: bool)
      requires 0 <= i < |panels| && panels[i].tree.Some?
      modifies this
      ensures ok == GenerationSucceeds(old(panels[i].tree.value), answer, outcome)
      ensures panels == old(panels)[i := old(panels[i]).(tree := Some(AfterGenerate(old(panels[i].tree.value), answer, outcome)))]
      ensures selectedIndex == old(selectedIndex) && hasInheritance == old(hasInheritance)
      ensures visible == old(visible)
    {
      var tree := panels[i].tree.value;
      var check := CheckPogoClassCompatibilityLanguage(tree.deviceClass);
      if check.Fail? {
        return false;
      }
      if answer != OK_OPTION {
        return false;
      }
      match outcome
      case GenerateFailed =>
        return false;
      case Generated(path) =>
        panels := panels[i := panels[i].(tree := Some(tree.(modified := false, srcPath := path)))];
        return true;
    }

    /**
     * PogoGUI.checkModifications: `choices[j]` answers the
     * Generate/Discard/Cancel dialog of tab j, and `answers[j]`,
     * `outcomes[j]` the generation it may start. Returns CANCEL_OPTION at the
     * first prompting tab answered with cancel, OK_OPTION otherwise.
     */
    method CheckModifications(choices: seq<int>, answers: seq<int>, outcomes: seq<GenerateOutcome>)
      returns (result: int)
      requires |choices| == |panels| && |answers| == |panels| && |outcomes| == |panels|
      modifies this
      ensures result == (if FirstCancel(old(panels), choices, 0) < |old(panels)| then CANCEL_OPTION else OK_OPTION)
      ensures panels == AfterCheck(old(panels), choices, answers, outcomes)
      ensures selectedIndex == old(selectedIndex) && hasInheritance == old(hasInheritance)
      ensures visible == old(visible)
    {
      ghost var ps := panels;
      var i := 0;
      while i < |panels|
        invariant 0 <= i <= |ps| && |panels| == |ps|
        invariant forall j :: 0 <= j < i ==> !(Prompts(ps[j]) && IsCancelChoice(choices[j]))
        invariant forall j :: 0 <= j < |ps| ==>
          panels[j] == CheckedPanel(ps[j], choices[j], answers[j], outcomes[j], j < i)
        invariant selectedIndex == old(selectedIndex) && hasInheritance == old(hasInheritance)
        invariant visible == old(visible)
      {
        if panels[i].tree.Some? && panels[i].tree.value.modified {
          var choice := choices[i];
          if choice == 0 {
            var generated := GenerateSourceFiles(i, answers[i], outcomes[i]);
          } else if choice == 1 {
            // Discard
          } else if choice == 2 || choice == CLOSED_OPTION {
            assert FirstCancel(ps, choices, 0) == i;
            assert panels == AfterCheck(ps, choices, answers, outcomes);
            return CANCEL_OPTION;
          }
        }
        i := i + 1;
      }
      assert FirstCancel(ps, choices, 0) == |ps|;
      assert panels == AfterCheck(ps, choices, answers, outcomes);
      return OK_OPTION;
    }

    /**
     * PogoGUI.exitAppli: `others[f]` is whether running frame f other than
     * this one is visible, `multiClassesPanel` the visibility of the
     * multi-classes panel (None when there is none). The process ends only
     * when the check was not cancelled and nothing else is on screen.
     */
    method ExitAppli(choices: seq<int>, answers: seq<int>, outcomes: seq<GenerateOutcome>,
                     others: seq<bool>, multiClassesPanel: Option<bool>) returns (r: ExitOutcome)
      requires |choices| == |panels| && |answers| == |panels| && |outcomes| == |panels|
      modifies this
      ensures panels == AfterCheck(old(panels), choices, answers, outcomes)
      ensures FirstCancel(old(panels), choices, 0) < |old(panels)| ==>
        r == Returned(CANCEL_OPTION) && visible == old(visible)
      ensures FirstCancel(old(panels), choices, 0) == |old(panels)| ==>
        (!visible &&
         (r == Exited <==> (forall f :: 0 <= f < |others| ==> !others[f]) && multiClassesPanel != Some(true)) &&
         (r != Exited ==> r == Returned(OK_OPTION)))
      ensures selectedIndex == old(selectedIndex) && hasInheritance == old(hasInheritance)
    {
      var checked := CheckModifications(choices, answers, outcomes);
      if checked == OK_OPTION {
        visible := false;
        for f := 0 to |others|
          invariant forall g :: 0 <= g < f ==> !others[g]
        {
          if others[f] {
            return Returned(OK_OPTION);
          }
        }
        if multiClassesPanel.Some? && multiClassesPanel.value {
          return Returned(OK_OPTION);
        }
        return Exited;
      }
      return Returned(CANCEL_OPTION);
    }

    /** LanguagePopupMenu.showMenu: whether the popup is shown for a mouse event with modifiers `mask`. */
    method ShowMenu(mask: bv32) returns (shown: bool)
      ensures hasInheritance ==> !shown
      ensures !hasInheritance ==> (shown <==> mask & BUTTON3_MASK != 0)
    {
      if hasInheritance {
        return false;
      }
      shown := mask & BUTTON3_MASK != 0;
    }

    /**
     * LanguagePopupMenu.menuActionPerformed: `tab` is PogoConst's language
     * table, `components` are the popup's components (title, separator, then
     * one item per label) and `source` the one the event came from.
     */
    method MenuActionPerformed(tab: LanguageTable, components: seq<int>, source: int)
      returns (cmdidx: int)
      requires Valid() && ValidTable(tab) && |components| == MenuOffset + LanguageCount
      modifies this
      ensures IsMenuIndex(components[MenuOffset..], source, cmdidx)
      ensures selectedIndex == old(selectedIndex) && hasInheritance == old(hasInheritance)
      ensures old(panels[selectedIndex].tree).None? ==> panels == old(panels)
      ensures old(panels[selectedIndex].tree).Some? ==>
        panels == old(panels)[selectedIndex := old(panels[selectedIndex]).(tree := Some(WithLanguage(old(panels[selectedIndex].tree.value), tab, cmdidx)))]
      ensures visible == old(visible)
    {
      ghost var items := components[MenuOffset..];
      cmdidx := 0;
      var labels := MenuLabels(tab);
      for i := 0 to |labels|
        invariant 0 <= cmdidx < |labels|
        invariant source in items[..i] ==>
          items[cmdidx] == source && forall j :: cmdidx < j < i ==> items[j] != source
        invariant source !in items[..i] ==> cmdidx == 0
      {
        assert items[..i + 1] == items[..i] + [components[MenuOffset + i]];
        if components[MenuOffset + i] == source {
          cmdidx := i;
        }
      }
      assert items[..|labels|] == items;
      var tree := panels[selectedIndex].tree;
      if tree.Some? {
        panels := panels[selectedIndex := panels[selectedIndex].(tree := Some(WithLanguage(tree.value, tab, cmdidx)))];
      }
    }
  }
}
